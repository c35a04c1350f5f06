/** Claims, budgets and captures under interleaving: any number of settlement runs against one ledger. */
module SettlementProtocol {
  // Every Redis or provider call is one atomic step (twoPhaseCommitSaga.py, settlementLedger.py).

  import opened Paise

  datatype Phase =
    | Claiming          // before SET NX on the cart
    | Booking           // cart claimed, before INCRBY
    | Undoing           // INCRBY went over the cap, before the compensating INCRBY
    | Capturing         // spend accepted, before capturePayment
    | ReleasingClaim    // capture failed, before DEL of the cart claim
    | ReleasingSpend    // before the compensating INCRBY
    | Captured          // money captured, before buildSplitManifest
    | Splitting         // before the outcome of the split phase
    | ReturningBudget   // split rolled back, before the compensating INCRBY
    | ClaimRefused
    | CapRefused
    | CaptureFailed
    | Overdrawn
    | RolledBack
    | Settled

  datatype Settlement = Settlement(cart: string, mandate: string, amount: nat, phase: Phase) {
    predicate HoldsClaim() {
      phase !in {Claiming, ClaimRefused, ReleasingSpend, CaptureFailed}
    }

    /** The ledger accepted this run's spend and has not given it back. */
    predicate Books() {
      phase in {Capturing, ReleasingClaim, ReleasingSpend, Captured, Splitting, ReturningBudget, Overdrawn, Settled}
    }

    predicate HasCaptured() {
      phase in {Captured, Splitting, ReturningBudget, Overdrawn, RolledBack, Settled}
    }
  }

  datatype State = State(
    runs: seq<Settlement>,
    claims: set<string>,
    spend: map<string, int>,
    caps: map<string, nat>,
    captures: multiset<string>)

  datatype Action =
    | Begin(cart: string, mandate: string, amount: nat)
    | Step(run: nat, ok: bool)

  function Start(caps: map<string, nat>): State {
    State([], {}, map[], caps, multiset{})
  }

  function SpendOf(s: State, mandate: string): int {
    if mandate in s.spend then s.spend[mandate] else 0
  }

  function SetPhase(s: State, i: nat, p: Phase): State
    requires i < |s.runs|
  {
    s.(runs := s.runs[i := s.runs[i].(phase := p)])
  }

  function IncrBy(s: State, mandate: string, delta: int): State {
    s.(spend := s.spend[mandate := SpendOf(s, mandate) + delta])
  }

  /** `ok` is the provider's or the manifest's answer where the step asks for one. */
  function StepRun(s: State, i: nat, ok: bool): State
    requires i < |s.runs| && s.runs[i].mandate in s.caps
  {
    var r := s.runs[i];
    match r.phase
    case Claiming =>
      if r.cart in s.claims then SetPhase(s, i, ClaimRefused)
      else SetPhase(s, i, Booking).(claims := s.claims + {r.cart})
    case Booking =>
      var s' := IncrBy(s, r.mandate, r.amount);
      SetPhase(s', i, if SpendOf(s', r.mandate) > s.caps[r.mandate] then Undoing else Capturing)
    case Undoing => SetPhase(IncrBy(s, r.mandate, 0 - r.amount), i, CapRefused)
    case Capturing =>
      if ok then SetPhase(s, i, Captured).(captures := s.captures + multiset{r.cart})
      else SetPhase(s, i, ReleasingClaim)
    case ReleasingClaim => SetPhase(s, i, ReleasingSpend).(claims := s.claims - {r.cart})
    case ReleasingSpend => SetPhase(IncrBy(s, r.mandate, 0 - r.amount), i, CaptureFailed)
    case Captured => SetPhase(s, i, if ok then Splitting else Overdrawn)
    case Splitting => SetPhase(s, i, if ok then Settled else ReturningBudget)
    case ReturningBudget => SetPhase(IncrBy(s, r.mandate, 0 - r.amount), i, RolledBack)
    case _ => s
  }

  function Next(s: State, a: Action): State {
    match a
    case Begin(cart, mandate, amount) =>
      if mandate in s.caps then s.(runs := s.runs + [Settlement(cart, mandate, amount, Claiming)]) else s
    case Step(i, ok) => if i < |s.runs| && s.runs[i].mandate in s.caps then StepRun(s, i, ok) else s
  }

  function Run(s: State, actions: seq<Action>): State {
    if |actions| == 0 then s else Next(Run(s, actions[..|actions| - 1]), actions[|actions| - 1])
  }

  // ---------------------------------------------------------------- what the counters should hold

  function BookedAmount(r: Settlement, mandate: string): int {
    if r.mandate == mandate && r.Books() then r.amount else 0
  }

  function BreachAmount(r: Settlement, mandate: string): int {
    if r.mandate == mandate && r.phase == Undoing then r.amount else 0
  }

  function BookedFigures(runs: seq<Settlement>, mandate: string): seq<int> {
    seq(|runs|, i requires 0 <= i < |runs| => BookedAmount(runs[i], mandate))
  }

  function BreachFigures(runs: seq<Settlement>, mandate: string): seq<int> {
    seq(|runs|, i requires 0 <= i < |runs| => BreachAmount(runs[i], mandate))
  }

  /** Spend the ledger has accepted for the mandate and not given back. */
  function Booked(runs: seq<Settlement>, mandate: string): int {
    Sum(BookedFigures(runs, mandate))
  }

  /** Spend over the cap that is about to be undone. */
  function Breaches(runs: seq<Settlement>, mandate: string): int {
    Sum(BreachFigures(runs, mandate))
  }

  function ClaimedCarts(runs: seq<Settlement>): set<string> {
    set i | 0 <= i < |runs| && runs[i].HoldsClaim() :: runs[i].cart
  }

  function CapturedCarts(runs: seq<Settlement>): set<string> {
    set i | 0 <= i < |runs| && runs[i].HasCaptured() :: runs[i].cart
  }

  // ---------------------------------------------------------------- inductive invariant

  ghost predicate OneHolderPerCart(runs: seq<Settlement>) {
    forall i, j :: 0 <= i < j < |runs| && runs[i].HoldsClaim() && runs[j].HoldsClaim() ==> runs[i].cart != runs[j].cart
  }

  ghost predicate ClaimsFit(s: State) {
    OneHolderPerCart(s.runs) && s.claims == ClaimedCarts(s.runs)
  }

  ghost predicate SpendFits(s: State) {
    forall m :: m in s.caps ==>
      SpendOf(s, m) == Booked(s.runs, m) + Breaches(s.runs, m) && Booked(s.runs, m) <= s.caps[m]
  }

  ghost predicate CapturesFit(s: State) {
    forall c :: s.captures[c] == (if c in CapturedCarts(s.runs) then 1 else 0)
  }

  ghost predicate Invariant(s: State) {
    ClaimsFit(s) && SpendFits(s) && CapturesFit(s) && forall i :: 0 <= i < |s.runs| ==> s.runs[i].mandate in s.caps
  }

  // ---------------------------------------------------------------- sums

  lemma SumsUpdate(runs: seq<Settlement>, i: nat, r: Settlement, m: string)
    requires i < |runs|
    ensures Booked(runs[i := r], m) == Booked(runs, m) + BookedAmount(r, m) - BookedAmount(runs[i], m)
    ensures Breaches(runs[i := r], m) == Breaches(runs, m) + BreachAmount(r, m) - BreachAmount(runs[i], m)
  {
    var f, g := BookedFigures(runs, m), BreachFigures(runs, m);
    assert BookedFigures(runs[i := r], m) == f[i := BookedAmount(r, m)];
    assert BreachFigures(runs[i := r], m) == g[i := BreachAmount(r, m)];
    SumToUpdate(f, i, BookedAmount(r, m), |f|);
    SumToUpdate(g, i, BreachAmount(r, m), |g|);
  }

  lemma SumsAppend(runs: seq<Settlement>, r: Settlement, m: string)
    ensures Booked(runs + [r], m) == Booked(runs, m) + BookedAmount(r, m)
    ensures Breaches(runs + [r], m) == Breaches(runs, m) + BreachAmount(r, m)
  {
    assert BookedFigures(runs + [r], m) == BookedFigures(runs, m) + [BookedAmount(r, m)];
    assert BreachFigures(runs + [r], m) == BreachFigures(runs, m) + [BreachAmount(r, m)];
    SumAppend(BookedFigures(runs, m), BookedAmount(r, m));
    SumAppend(BreachFigures(runs, m), BreachAmount(r, m));
  }

  lemma BreachesNonNegative(runs: seq<Settlement>, m: string)
    ensures Breaches(runs, m) >= 0
  {
    SumToMonotone(BreachFigures(runs, m), |runs|);
  }

  // ---------------------------------------------------------------- every step keeps it

  lemma ClaimsUpdate(runs: seq<Settlement>, i: nat, r: Settlement)
    requires i < |runs| && r.cart == runs[i].cart && r.HoldsClaim() == runs[i].HoldsClaim()
    ensures ClaimedCarts(runs[i := r]) == ClaimedCarts(runs)
    ensures OneHolderPerCart(runs) ==> OneHolderPerCart(runs[i := r])
  {
    var after := runs[i := r];
    forall c | c in ClaimedCarts(runs) ensures c in ClaimedCarts(after) {
      var j :| 0 <= j < |runs| && runs[j].HoldsClaim() && runs[j].cart == c;
      assert after[j].HoldsClaim() && after[j].cart == c;
    }
    forall c | c in ClaimedCarts(after) ensures c in ClaimedCarts(runs) {
      var j :| 0 <= j < |after| && after[j].HoldsClaim() && after[j].cart == c;
      assert runs[j].HoldsClaim() && runs[j].cart == c;
    }
  }

  lemma ClaimTaken(runs: seq<Settlement>, i: nat, r: Settlement)
    requires i < |runs| && r.cart == runs[i].cart && !runs[i].HoldsClaim() && r.HoldsClaim()
    requires OneHolderPerCart(runs) && r.cart !in ClaimedCarts(runs)
    ensures ClaimedCarts(runs[i := r]) == ClaimedCarts(runs) + {r.cart}
    ensures OneHolderPerCart(runs[i := r])
  {
    var after := runs[i := r];
    forall c | c in ClaimedCarts(runs) ensures c in ClaimedCarts(after) {
      var j :| 0 <= j < |runs| && runs[j].HoldsClaim() && runs[j].cart == c;
      assert after[j].HoldsClaim() && after[j].cart == c;
    }
    assert after[i].HoldsClaim();
  }

  lemma ClaimDropped(runs: seq<Settlement>, i: nat, r: Settlement)
    requires i < |runs| && r.cart == runs[i].cart && runs[i].HoldsClaim() && !r.HoldsClaim()
    requires OneHolderPerCart(runs)
    ensures ClaimedCarts(runs[i := r]) == ClaimedCarts(runs) - {r.cart}
    ensures OneHolderPerCart(runs[i := r])
  {
    var after := runs[i := r];
    forall c | c in ClaimedCarts(runs) && c != r.cart ensures c in ClaimedCarts(after) {
      var j :| 0 <= j < |runs| && runs[j].HoldsClaim() && runs[j].cart == c;
      assert after[j].HoldsClaim() && after[j].cart == c;
    }
  }

  lemma CapturedUpdate(runs: seq<Settlement>, i: nat, r: Settlement)
    requires i < |runs| && r.cart == runs[i].cart && r.HasCaptured() == runs[i].HasCaptured()
    ensures CapturedCarts(runs[i := r]) == CapturedCarts(runs)
  {
    var after := runs[i := r];
    forall c | c in CapturedCarts(runs) ensures c in CapturedCarts(after) {
      var j :| 0 <= j < |runs| && runs[j].HasCaptured() && runs[j].cart == c;
      assert after[j].HasCaptured() && after[j].cart == c;
    }
    forall c | c in CapturedCarts(after) ensures c in CapturedCarts(runs) {
      var j :| 0 <= j < |after| && after[j].HasCaptured() && after[j].cart == c;
      assert runs[j].HasCaptured() && runs[j].cart == c;
    }
  }

  lemma CaptureAdded(runs: seq<Settlement>, i: nat, r: Settlement)
    requires i < |runs| && r.cart == runs[i].cart && runs[i].HoldsClaim() && !runs[i].HasCaptured() && r.HasCaptured()
    requires OneHolderPerCart(runs)
    ensures CapturedCarts(runs[i := r]) == CapturedCarts(runs) + {r.cart} && r.cart !in CapturedCarts(runs)
  {
    var after := runs[i := r];
    assert after[i].HasCaptured();
    forall c | c in CapturedCarts(runs) ensures c in CapturedCarts(after) {
      var j :| 0 <= j < |runs| && runs[j].HasCaptured() && runs[j].cart == c;
      assert after[j].HasCaptured() && after[j].cart == c;
    }
  }

  /** Where a step takes its run, and what it does to the counter of the run's mandate. */
  function PhaseAfter(s: State, i: nat, ok: bool): Phase
    requires i < |s.runs| && s.runs[i].mandate in s.caps
  {
    StepRun(s, i, ok).runs[i].phase
  }

  function Delta(r: Settlement): int {
    match r.phase
    case Booking => r.amount
    case Undoing => 0 - r.amount
    case ReleasingSpend => 0 - r.amount
    case ReturningBudget => 0 - r.amount
    case _ => 0
  }

  lemma StepShape(s: State, i: nat, ok: bool)
    requires i < |s.runs| && s.runs[i].mandate in s.caps
    ensures var r, s' := s.runs[i], StepRun(s, i, ok);
            && s'.runs == s.runs[i := r.(phase := PhaseAfter(s, i, ok))]
            && s'.caps == s.caps
  {
  }

  lemma SpendShape(s: State, i: nat, ok: bool, m: string)
    requires i < |s.runs| && s.runs[i].mandate in s.caps
    ensures var r := s.runs[i];
            SpendOf(StepRun(s, i, ok), m) == SpendOf(s, m) + (if m == r.mandate then Delta(r) else 0)
  {
  }

  /** What the run itself contributes moves with the counter, and stays under the cap. */
  lemma ContributionStep(s: State, i: nat, ok: bool)
    requires i < |s.runs| && s.runs[i].mandate in s.caps
    ensures var r := s.runs[i];
            var r' := r.(phase := PhaseAfter(s, i, ok));
            && BookedAmount(r', r.mandate) + BreachAmount(r', r.mandate)
               == BookedAmount(r, r.mandate) + BreachAmount(r, r.mandate) + Delta(r)
            && (BookedAmount(r', r.mandate) > BookedAmount(r, r.mandate) ==>
                  r.phase == Booking && BookedAmount(r', r.mandate) == r.amount &&
                  SpendOf(s, r.mandate) + r.amount <= s.caps[r.mandate])
  {
  }

  lemma SpendStepAt(s: State, i: nat, ok: bool, m: string)
    requires Invariant(s) && i < |s.runs| && m in s.caps
    ensures var s' := StepRun(s, i, ok);
            SpendOf(s', m) == Booked(s'.runs, m) + Breaches(s'.runs, m) && Booked(s'.runs, m) <= s.caps[m]
  {
    var r := s.runs[i];
    StepShape(s, i, ok);
    SpendShape(s, i, ok, m);
    ContributionStep(s, i, ok);
    SumsUpdate(s.runs, i, r.(phase := PhaseAfter(s, i, ok)), m);
    BreachesNonNegative(s.runs, m);
  }

  lemma SpendStep(s: State, i: nat, ok: bool)
    requires Invariant(s) && i < |s.runs|
    ensures SpendFits(StepRun(s, i, ok))
  {
    StepShape(s, i, ok);
    forall m | m in s.caps
      ensures var s' := StepRun(s, i, ok);
              SpendOf(s', m) == Booked(s'.runs, m) + Breaches(s'.runs, m) && Booked(s'.runs, m) <= s.caps[m]
    {
      SpendStepAt(s, i, ok, m);
    }
  }

  /** Only the claim step takes a cart and only the release step gives it back. */
  lemma ClaimShape(s: State, i: nat, ok: bool)
    requires i < |s.runs| && s.runs[i].mandate in s.caps
    ensures var r, s' := s.runs[i], StepRun(s, i, ok);
            var r' := r.(phase := PhaseAfter(s, i, ok));
            if r.HoldsClaim() == r'.HoldsClaim() then s'.claims == s.claims
            else if r'.HoldsClaim() then r.cart !in s.claims && s'.claims == s.claims + {r.cart}
            else r.phase == ReleasingClaim && s'.claims == s.claims - {r.cart}
  {
  }

  lemma ClaimsStep(s: State, i: nat, ok: bool)
    requires ClaimsFit(s) && i < |s.runs| && s.runs[i].mandate in s.caps
    ensures ClaimsFit(StepRun(s, i, ok))
  {
    var r := s.runs[i];
    var r' := r.(phase := PhaseAfter(s, i, ok));
    StepShape(s, i, ok);
    ClaimShape(s, i, ok);
    if r.HoldsClaim() == r'.HoldsClaim() {
      ClaimsUpdate(s.runs, i, r');
    } else if r'.HoldsClaim() {
      ClaimTaken(s.runs, i, r');
    } else {
      ClaimDropped(s.runs, i, r');
    }
  }

  lemma CaptureShape(s: State, i: nat, ok: bool)
    requires i < |s.runs| && s.runs[i].mandate in s.caps
    ensures var r, s' := s.runs[i], StepRun(s, i, ok);
            var r' := r.(phase := PhaseAfter(s, i, ok));
            if r.HasCaptured() == r'.HasCaptured() then s'.captures == s.captures
            else r.HoldsClaim() && r'.HasCaptured() && s'.captures == s.captures + multiset{r.cart}
  {
  }

  lemma CapturesStep(s: State, i: nat, ok: bool)
    requires ClaimsFit(s) && CapturesFit(s) && i < |s.runs| && s.runs[i].mandate in s.caps
    ensures CapturesFit(StepRun(s, i, ok))
  {
    var r := s.runs[i];
    var r' := r.(phase := PhaseAfter(s, i, ok));
    StepShape(s, i, ok);
    CaptureShape(s, i, ok);
    if r.HasCaptured() == r'.HasCaptured() {
      CapturedUpdate(s.runs, i, r');
    } else {
      CaptureAdded(s.runs, i, r');
    }
  }

  /** A run that has done nothing yet contributes to no counter and no set. */
  lemma FreshRun(runs: seq<Settlement>, r: Settlement)
    requires r.phase == Claiming
    ensures ClaimedCarts(runs + [r]) == ClaimedCarts(runs)
    ensures CapturedCarts(runs + [r]) == CapturedCarts(runs)
    ensures OneHolderPerCart(runs) ==> OneHolderPerCart(runs + [r])
  {
    var after := runs + [r];
    forall c | c in ClaimedCarts(runs) ensures c in ClaimedCarts(after) {
      var j :| 0 <= j < |runs| && runs[j].HoldsClaim() && runs[j].cart == c;
      assert after[j].HoldsClaim() && after[j].cart == c;
    }
    forall c | c in CapturedCarts(runs) ensures c in CapturedCarts(after) {
      var j :| 0 <= j < |runs| && runs[j].HasCaptured() && runs[j].cart == c;
      assert after[j].HasCaptured() && after[j].cart == c;
    }
  }

  lemma BeginSpend(s: State, r: Settlement)
    requires SpendFits(s) && r.phase == Claiming
    ensures SpendFits(s.(runs := s.runs + [r]))
  {
    forall m | m in s.caps
      ensures Booked(s.runs + [r], m) == Booked(s.runs, m) && Breaches(s.runs + [r], m) == Breaches(s.runs, m)
    {
      SumsAppend(s.runs, r, m);
    }
  }

  lemma BeginKeeps(s: State, r: Settlement)
    requires Invariant(s) && r.phase == Claiming && r.mandate in s.caps
    ensures Invariant(s.(runs := s.runs + [r]))
  {
    FreshRun(s.runs, r);
    BeginSpend(s, r);
  }

  lemma MandatesStay(s: State, i: nat, ok: bool)
    requires Invariant(s) && i < |s.runs|
    ensures var s' := StepRun(s, i, ok); forall j :: 0 <= j < |s'.runs| ==> s'.runs[j].mandate in s'.caps
  {
    StepShape(s, i, ok);
  }

  lemma StepRunKeeps(s: State, i: nat, ok: bool)
    requires Invariant(s) && i < |s.runs|
    ensures Invariant(StepRun(s, i, ok)) && StepRun(s, i, ok).caps == s.caps
  {
    MandatesStay(s, i, ok);
    SpendStep(s, i, ok);
    ClaimsStep(s, i, ok);
    CapturesStep(s, i, ok);
    CapsStay(s, i, ok);
  }

  lemma CapsStay(s: State, i: nat, ok: bool)
    requires i < |s.runs| && s.runs[i].mandate in s.caps
    ensures StepRun(s, i, ok).caps == s.caps
  {
    StepShape(s, i, ok);
  }

  lemma StepKeeps(s: State, a: Action)
    requires Invariant(s)
    ensures Invariant(Next(s, a)) && Next(s, a).caps == s.caps
  {
    match a
    case Begin(cart, mandate, amount) =>
      if mandate in s.caps {
        BeginKeeps(s, Settlement(cart, mandate, amount, Claiming));
      }
    case Step(i, ok) =>
      if i < |s.runs| {
        StepRunKeeps(s, i, ok);
      }
  }

  lemma {:induction false} RunKeeps(caps: map<string, nat>, actions: seq<Action>)
    ensures Invariant(Run(Start(caps), actions)) && Run(Start(caps), actions).caps == caps
  {
    if |actions| > 0 {
      RunKeeps(caps, actions[..|actions| - 1]);
      StepKeeps(Run(Start(caps), actions[..|actions| - 1]), actions[|actions| - 1]);
    }
  }
}
