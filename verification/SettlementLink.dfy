/** A settlement left uninterrupted leaves the ledger as the saga's contract says it does. */
module SettlementLink {
  import opened SettlementLedgers
  import opened SettlementSaga
  import P = SettlementProtocol

  /** The ledger of the class and of the protocol agree. */
  ghost predicate ShowsBooks(s: P.State, b: Books) {
    s.claims == b.claims && forall m :: P.SpendOf(s, m) == Spent(b.spend, m)
  }

  /** What the provider and the manifest answer on the way to an outcome. */
  function AnswerAt(phase: P.Phase, p: Progress): bool {
    match phase
    case Capturing => p != NotCaptured
    case Captured => p != NotSplit
    case Splitting => p == Completed
    case _ => true
  }

  function PhaseOf(p: Progress): P.Phase {
    match p
    case ClaimTaken => P.ClaimRefused
    case OverCap => P.CapRefused
    case NotCaptured => P.CaptureFailed
    case NotSplit => P.Overdrawn
    case Reversed => P.RolledBack
    case Completed => P.Settled
  }

  /** n uninterrupted steps of run i. */
  function Alone(s: P.State, i: nat, p: Progress, n: nat): P.State {
    if n == 0 then s
    else
      var before := Alone(s, i, p, n - 1);
      if i < |before.runs| then P.Next(before, P.Step(i, AnswerAt(before.runs[i].phase, p))) else before
  }

  /** The outcomes the ledger allows. */
  predicate Possible(b: Books, s: Submission, p: Progress) {
    && (p == ClaimTaken <==> !ClaimFree(b, s))
    && (p == OverCap <==> ClaimFree(b, s) && !WithinCap(b, s))
  }

  /** The run of this submission, as the protocol sees it. */
  predicate IsRunOf(r: P.Settlement, s: Submission) {
    r.cart == s.execution.cartMandateHash && r.mandate == s.intent.mandateId
    && r.amount == s.execution.settlementAmountPaise
  }

  predicate At(st: P.State, i: nat, s: Submission, phase: P.Phase) {
    i < |st.runs| && IsRunOf(st.runs[i], s) && st.runs[i].phase == phase
    && s.intent.mandateId in st.caps && st.caps[s.intent.mandateId] == s.intent.maxBudgetPaise
  }

  /** One step from a known phase. */
  lemma OneStep(st: P.State, i: nat, s: Submission, phase: P.Phase, ok: bool)
    requires At(st, i, s, phase)
    ensures var st' := P.Next(st, P.Step(i, ok));
            var cart, mandate := s.execution.cartMandateHash, s.intent.mandateId;
            var amount := s.execution.settlementAmountPaise;
            && At(st', i, s, st'.runs[i].phase)
            && (phase == P.Claiming ==>
                  if cart in st.claims then st'.runs[i].phase == P.ClaimRefused && st'.claims == st.claims
                  else st'.runs[i].phase == P.Booking && st'.claims == st.claims + {cart})
            && (phase == P.Booking ==>
                  st'.runs[i].phase ==
                    if P.SpendOf(st, mandate) + amount > s.intent.maxBudgetPaise then P.Undoing else P.Capturing)
            && (phase == P.Undoing ==> st'.runs[i].phase == P.CapRefused)
            && (phase == P.Capturing ==> st'.runs[i].phase == if ok then P.Captured else P.ReleasingClaim)
            && (phase == P.ReleasingClaim ==> st'.runs[i].phase == P.ReleasingSpend && st'.claims == st.claims - {cart})
            && (phase == P.ReleasingSpend ==> st'.runs[i].phase == P.CaptureFailed)
            && (phase == P.Captured ==> st'.runs[i].phase == if ok then P.Splitting else P.Overdrawn)
            && (phase == P.Splitting ==> st'.runs[i].phase == if ok then P.Settled else P.ReturningBudget)
            && (phase == P.ReturningBudget ==> st'.runs[i].phase == P.RolledBack)
            && (phase != P.Claiming && phase != P.ReleasingClaim ==> st'.claims == st.claims)
            && (forall m :: P.SpendOf(st', m) == P.SpendOf(st, m) + (if m == mandate then P.Delta(st.runs[i]) else 0))
  {
  }

  /** Six steps are enough for every outcome. */
  lemma AloneLeavesBooks(st: P.State, i: nat, b: Books, s: Submission, p: Progress) returns (n: nat)
    requires At(st, i, s, P.Claiming) && ShowsBooks(st, b) && Possible(b, s, p)
    ensures n <= 6
    ensures var st' := Alone(st, i, p, n);
            && ShowsBooks(st', BooksAfter(b, s, p))
            && i < |st'.runs| && st'.runs[i].phase == PhaseOf(p)
  {
    assert Alone(st, i, p, 0) == st;
    OneStep(st, i, s, P.Claiming, true);
    var s1 := Alone(st, i, p, 1);
    assert s1 == P.Next(st, P.Step(i, true));
    if p == ClaimTaken {
      return 1;
    }
    n := AloneFromBooking(st, i, b, s, p, s1);
  }

  lemma AloneFromBooking(st: P.State, i: nat, b: Books, s: Submission, p: Progress, s1: P.State) returns (n: nat)
    requires s1 == Alone(st, i, p, 1) && At(s1, i, s, P.Booking) && Possible(b, s, p) && p != ClaimTaken
    requires ShowsBooks(s1, Books(b.claims + {s.execution.cartMandateHash}, b.spend))
    ensures n <= 6
    ensures var st' := Alone(st, i, p, n);
            && ShowsBooks(st', BooksAfter(b, s, p))
            && i < |st'.runs| && st'.runs[i].phase == PhaseOf(p)
  {
    OneStep(s1, i, s, P.Booking, true);
    var s2 := Alone(st, i, p, 2);
    assert s2 == P.Next(s1, P.Step(i, true));
    if p == OverCap {
      AloneUndoes(st, i, b, s, s2);
      return 3;
    }
    n := AloneFromCapture(st, i, b, s, p, s2);
  }

  lemma AloneUndoes(st: P.State, i: nat, b: Books, s: Submission, s2: P.State)
    requires s2 == Alone(st, i, OverCap, 2) && At(s2, i, s, P.Undoing)
    requires ShowsBooks(s2, BooksAfter(b, s, NotSplit))
    ensures var st' := Alone(st, i, OverCap, 3);
            && ShowsBooks(st', BooksAfter(b, s, OverCap))
            && i < |st'.runs| && st'.runs[i].phase == P.CapRefused
  {
    OneStep(s2, i, s, P.Undoing, true);
    assert Alone(st, i, OverCap, 3) == P.Next(s2, P.Step(i, true));
  }

  lemma AloneFromCapture(st: P.State, i: nat, b: Books, s: Submission, p: Progress, s2: P.State) returns (n: nat)
    requires s2 == Alone(st, i, p, 2) && At(s2, i, s, P.Capturing) && ClaimFree(b, s)
    requires p != ClaimTaken && p != OverCap
    requires ShowsBooks(s2, BooksAfter(b, s, NotSplit))
    ensures n <= 6
    ensures var st' := Alone(st, i, p, n);
            && ShowsBooks(st', BooksAfter(b, s, p))
            && i < |st'.runs| && st'.runs[i].phase == PhaseOf(p)
  {
    OneStep(s2, i, s, P.Capturing, p != NotCaptured);
    var s3 := Alone(st, i, p, 3);
    assert s3 == P.Next(s2, P.Step(i, p != NotCaptured));
    if p == NotCaptured {
      AloneReleases(st, i, b, s, s3);
      return 5;
    }
    OneStep(s3, i, s, P.Captured, p != NotSplit);
    var s4 := Alone(st, i, p, 4);
    assert s4 == P.Next(s3, P.Step(i, p != NotSplit));
    if p == NotSplit {
      return 4;
    }
    n := AloneFromSplit(st, i, b, s, p, s4);
  }

  lemma AloneReleases(st: P.State, i: nat, b: Books, s: Submission, s3: P.State)
    requires s3 == Alone(st, i, NotCaptured, 3) && At(s3, i, s, P.ReleasingClaim) && ClaimFree(b, s)
    requires ShowsBooks(s3, BooksAfter(b, s, NotSplit))
    ensures var st' := Alone(st, i, NotCaptured, 5);
            && ShowsBooks(st', BooksAfter(b, s, NotCaptured))
            && i < |st'.runs| && st'.runs[i].phase == P.CaptureFailed
  {
    OneStep(s3, i, s, P.ReleasingClaim, true);
    var s4 := Alone(st, i, NotCaptured, 4);
    assert s4 == P.Next(s3, P.Step(i, true));
    OneStep(s4, i, s, P.ReleasingSpend, true);
    assert Alone(st, i, NotCaptured, 5) == P.Next(s4, P.Step(i, true));
  }

  lemma AloneFromSplit(st: P.State, i: nat, b: Books, s: Submission, p: Progress, s4: P.State) returns (n: nat)
    requires s4 == Alone(st, i, p, 4) && At(s4, i, s, P.Splitting) && ClaimFree(b, s)
    requires p == Completed || p == Reversed
    requires ShowsBooks(s4, BooksAfter(b, s, NotSplit))
    ensures n <= 6
    ensures var st' := Alone(st, i, p, n);
            && ShowsBooks(st', BooksAfter(b, s, p))
            && i < |st'.runs| && st'.runs[i].phase == PhaseOf(p)
  {
    OneStep(s4, i, s, P.Splitting, p == Completed);
    var s5 := Alone(st, i, p, 5);
    assert s5 == P.Next(s4, P.Step(i, p == Completed));
    if p == Completed {
      return 5;
    }
    AloneReturns(st, i, b, s, s5);
    return 6;
  }

  lemma AloneReturns(st: P.State, i: nat, b: Books, s: Submission, s5: P.State)
    requires s5 == Alone(st, i, Reversed, 5) && At(s5, i, s, P.ReturningBudget)
    requires ShowsBooks(s5, BooksAfter(b, s, NotSplit))
    ensures var st' := Alone(st, i, Reversed, 6);
            && ShowsBooks(st', BooksAfter(b, s, Reversed))
            && i < |st'.runs| && st'.runs[i].phase == P.RolledBack
  {
    OneStep(s5, i, s, P.ReturningBudget, true);
    assert Alone(st, i, Reversed, 6) == P.Next(s5, P.Step(i, true));
  }
}
