/** What every run of the settlement protocol guarantees about budgets, captures and claims. */
module SettlementSafety {
  import opened Paise
  import opened SettlementProtocol

  /** The state after some interleaving of any number of runs. */
  ghost predicate Reachable(caps: map<string, nat>, s: State) {
    exists actions :: s == Run(Start(caps), actions)
  }

  lemma ReachableFits(caps: map<string, nat>, s: State)
    requires Reachable(caps, s)
    ensures Invariant(s) && s.caps == caps
  {
    var actions :| s == Run(Start(caps), actions);
    RunKeeps(caps, actions);
  }

  /**
   * The counter always shows accepted and unreleased spend plus the breaches awaiting their undo, and
   * accepted spend never exceeds the cap.
   */
  lemma CounterMatchesBookings(caps: map<string, nat>, s: State, m: string)
    requires Reachable(caps, s) && m in caps
    ensures SpendOf(s, m) == Booked(s.runs, m) + Breaches(s.runs, m) && 0 <= Booked(s.runs, m) <= caps[m]
  {
    ReachableFits(caps, s);
    BookedNonNegative(s.runs, m);
  }

  lemma BookedNonNegative(runs: seq<Settlement>, m: string)
    ensures Booked(runs, m) >= 0
  {
    SumToMonotone(BookedFigures(runs, m), |runs|);
  }

  /** The counter itself can exceed the cap, but only while a breach is waiting to be undone. */
  lemma OverCapOnlyDuringUndo(caps: map<string, nat>, s: State, m: string)
    requires Reachable(caps, s) && m in caps
    requires SpendOf(s, m) > caps[m]
    ensures exists i :: 0 <= i < |s.runs| && s.runs[i].phase == Undoing && s.runs[i].mandate == m
  {
    CounterMatchesBookings(caps, s, m);
    if forall i :: 0 <= i < |s.runs| ==> !(s.runs[i].phase == Undoing && s.runs[i].mandate == m) {
      NoBreaches(s.runs, m, |s.runs|);
    }
  }

  lemma {:induction false} NoBreaches(runs: seq<Settlement>, m: string, k: nat)
    requires k <= |runs| && forall i :: 0 <= i < |runs| ==> !(runs[i].phase == Undoing && runs[i].mandate == m)
    ensures SumTo(BreachFigures(runs, m), k) == 0
  {
    if k > 0 {
      NoBreaches(runs, m, k - 1);
    }
  }

  /**
   * A run that books is refused exactly when its amount does not fit beside accepted spend and the breaches
   * that await their undo.
   */
  lemma RefusedExactly(caps: map<string, nat>, s: State, i: nat, ok: bool)
    requires Reachable(caps, s) && i < |s.runs| && s.runs[i].phase == Booking
    ensures var r := s.runs[i];
            r.mandate in caps &&
            (Next(s, Step(i, ok)).runs[i].phase == Undoing <==>
               Booked(s.runs, r.mandate) + Breaches(s.runs, r.mandate) + r.amount > caps[r.mandate])
  {
    ReachableFits(caps, s);
    CounterMatchesBookings(caps, s, s.runs[i].mandate);
  }

  /** Two runs on one mandate: the first claims and breaches the cap, then the second claims and books. */
  function Crowding(m: string, c: string, c': string, a: nat, b: nat): seq<Action> {
    [Begin(c, m, a), Begin(c', m, b), Step(0, true), Step(0, true), Step(1, true)]
  }

  lemma {:induction false} RunAppend(s: State, a: seq<Action>, b: seq<Action>)
    ensures Run(s, a + b) == Run(Run(s, a), b)
  {
    if |b| == 0 {
      assert a + b == a;
    } else {
      var n := |b| - 1;
      RunAppend(s, a, b[..n]);
      assert (a + b)[..|a + b| - 1] == a + b[..n];
    }
  }

  lemma RunTwo(s: State, a: Action, b: Action)
    ensures Run(s, [a, b]) == Next(Next(s, a), b)
  {
    assert [a, b][..1] == [a] && [a][..0] == [];
    assert Run(s, [a]) == Next(s, a);
  }

  lemma TwoBegun(m: string, cap: nat, c: string, c': string, a: nat, b: nat)
    ensures Run(Start(map[m := cap]), [Begin(c, m, a), Begin(c', m, b)]) ==
            Start(map[m := cap]).(runs := [Settlement(c, m, a, Claiming), Settlement(c', m, b, Claiming)])
  {
    RunTwo(Start(map[m := cap]), Begin(c, m, a), Begin(c', m, b));
    assert [Settlement(c, m, a, Claiming)] + [Settlement(c', m, b, Claiming)]
        == [Settlement(c, m, a, Claiming), Settlement(c', m, b, Claiming)];
  }

  lemma FirstBreaches(s: State, m: string, cap: nat, c: string, c': string, a: nat, b: nat)
    requires s == Start(map[m := cap]).(runs := [Settlement(c, m, a, Claiming), Settlement(c', m, b, Claiming)])
    requires a > cap
    ensures Run(s, [Step(0, true), Step(0, true)]) ==
            State([Settlement(c, m, a, Undoing), Settlement(c', m, b, Claiming)], {c}, map[m := a],
                  map[m := cap], multiset{})
  {
    RunTwo(s, Step(0, true), Step(0, true));
    assert {} + {c} == {c};
  }

  lemma CrowdedState(m: string, cap: nat, c: string, c': string, a: nat, b: nat)
    requires a > cap && c != c'
    ensures Run(Start(map[m := cap]), Crowding(m, c, c', a, b)) ==
            State([Settlement(c, m, a, Undoing), Settlement(c', m, b, Booking)], {c, c'}, map[m := a],
                  map[m := cap], multiset{})
  {
    var s, x := Start(map[m := cap]), Crowding(m, c, c', a, b);
    TwoBegun(m, cap, c, c', a, b);
    var s2 := Run(s, [x[0], x[1]]);
    FirstBreaches(s2, m, cap, c, c', a, b);
    RunAppend(s, [x[0], x[1]], [x[2], x[3]]);
    assert x[..4] == [x[0], x[1]] + [x[2], x[3]];
    assert Run(s, x) == Next(Run(s, x[..4]), x[4]);
    assert {c} + {c'} == {c, c'};
  }

  /**
   * So a settlement within the whole budget can be refused because of another that never fitted, and its
   * cart stays claimed although nothing is booked on the mandate in the end.
   */
  lemma CrowdedOut(m: string, cap: nat, c: string, c': string, a: nat, b: nat, s: State, end: State)
    requires b <= cap < a && c != c'
    requires s == Run(Start(map[m := cap]), Crowding(m, c, c', a, b))
    requires end == Next(Next(Next(s, Step(1, true)), Step(0, true)), Step(1, true))
    ensures |s.runs| == 2 && s.runs[1] == Settlement(c', m, b, Booking) && Booked(s.runs, m) + b <= cap
    ensures |end.runs| == 2 && end.runs[1].phase == CapRefused && c' in end.claims && SpendOf(end, m) == 0
  {
    CrowdedState(m, cap, c, c', a, b);
    assert BookedFigures(s.runs, m) == [] + [0] + [0];
    SumAppend([] + [0], 0);
    SumAppend([], 0);
    var s1 := Next(s, Step(1, true));
    assert s1.runs == [Settlement(c, m, a, Undoing), Settlement(c', m, b, Undoing)];
    assert Next(s1, Step(0, true)).runs == [Settlement(c, m, a, CapRefused), Settlement(c', m, b, Undoing)];
  }

  lemma CapturedHolds(s: State, cart: string)
    requires ClaimsFit(s) && cart in CapturedCarts(s.runs)
    ensures cart in s.claims
  {
    var i :| 0 <= i < |s.runs| && s.runs[i].HasCaptured() && s.runs[i].cart == cart;
    assert s.runs[i].HoldsClaim();
  }

  /** No cart is captured twice, and a captured cart stays claimed. */
  lemma OneCapturePerCart(caps: map<string, nat>, s: State, cart: string)
    requires Reachable(caps, s)
    ensures s.captures[cart] <= 1 && (s.captures[cart] == 1 ==> cart in s.claims)
  {
    ReachableFits(caps, s);
    if cart in CapturedCarts(s.runs) {
      CapturedHolds(s, cart);
    }
  }

  lemma HolderUnique(s: State, i: nat, cart: string)
    requires ClaimsFit(s) && i < |s.runs| && s.runs[i].HoldsClaim() && s.runs[i].cart == cart
    ensures forall j :: 0 <= j < |s.runs| && s.runs[j].HoldsClaim() && s.runs[j].cart == cart ==> j == i
    ensures !s.runs[i].HasCaptured() ==> cart !in CapturedCarts(s.runs)
  {
    if cart in CapturedCarts(s.runs) {
      var j :| 0 <= j < |s.runs| && s.runs[j].HasCaptured() && s.runs[j].cart == cart;
      assert s.runs[j].HoldsClaim();
    }
  }

  lemma RemovalShape(s: State, a: Action, cart: string)
    requires cart in s.claims && cart !in Next(s, a).claims
    ensures a.Step? && a.run < |s.runs| && s.runs[a.run].cart == cart && s.runs[a.run].phase == ReleasingClaim
  {
    if a.Step? && a.run < |s.runs| && s.runs[a.run].mandate in s.caps {
      ClaimShape(s, a.run, a.ok);
    }
  }

  /** Only the run that holds a claim removes it, and only after its own capture failed. */
  lemma ClaimRemovedByItsHolder(caps: map<string, nat>, s: State, a: Action, cart: string)
    requires Reachable(caps, s)
    requires cart in s.claims && cart !in Next(s, a).claims
    ensures a.Step? && a.run < |s.runs|
    ensures s.runs[a.run].cart == cart && s.runs[a.run].phase == ReleasingClaim && s.captures[cart] == 0
    ensures forall j :: 0 <= j < |s.runs| && s.runs[j].HoldsClaim() && s.runs[j].cart == cart ==> j == a.run
  {
    ReachableFits(caps, s);
    RemovalShape(s, a, cart);
    ReleasingHolder(s, a.run);
  }

  lemma ReleasingHolder(s: State, i: nat)
    requires ClaimsFit(s) && CapturesFit(s) && i < |s.runs| && s.runs[i].phase == ReleasingClaim
    ensures s.captures[s.runs[i].cart] == 0
    ensures forall j :: 0 <= j < |s.runs| && s.runs[j].HoldsClaim() && s.runs[j].cart == s.runs[i].cart ==> j == i
  {
    HolderUnique(s, i, s.runs[i].cart);
  }

  /** A run reaches ReleasingClaim only when its own capture was refused. */
  lemma ReleaseFollowsFailedCapture(s: State, a: Action, i: nat)
    requires i < |s.runs| && i < |Next(s, a).runs|
    requires s.runs[i].phase != ReleasingClaim && Next(s, a).runs[i].phase == ReleasingClaim
    ensures a == Step(i, false) && s.runs[i].phase == Capturing
  {
  }

  function Without<T>(s: seq<T>, i: nat): seq<T>
    requires i < |s|
  {
    s[..i] + s[i + 1..]
  }

  lemma {:induction false} SumWithout(a: seq<int>, i: nat, k: nat)
    requires i < |a| && i <= k < |a|
    ensures SumTo(Without(a, i), k) + a[i] == SumTo(a, k + 1)
  {
    if k == i {
      SumToPrefix(Without(a, i), a, i);
    } else {
      SumWithout(a, i, k - 1);
      assert Without(a, i)[k - 1] == a[k];
    }
  }

  lemma SumsWithout(runs: seq<Settlement>, i: nat, m: string)
    requires i < |runs|
    ensures Booked(runs, m) == Booked(Without(runs, i), m) + BookedAmount(runs[i], m)
    ensures Breaches(runs, m) == Breaches(Without(runs, i), m) + BreachAmount(runs[i], m)
  {
    var f, g := BookedFigures(runs, m), BreachFigures(runs, m);
    assert BookedFigures(Without(runs, i), m) == Without(f, i);
    assert BreachFigures(Without(runs, i), m) == Without(g, i);
    SumWithout(f, i, |f| - 1);
    SumWithout(g, i, |g| - 1);
  }

  lemma ClaimsWithout(runs: seq<Settlement>, i: nat)
    requires i < |runs|
    ensures !runs[i].HoldsClaim() ==> ClaimedCarts(Without(runs, i)) == ClaimedCarts(runs)
    ensures runs[i].HoldsClaim() && OneHolderPerCart(runs) ==>
      ClaimedCarts(Without(runs, i)) == ClaimedCarts(runs) - {runs[i].cart}
  {
    var w := Without(runs, i);
    forall c | c in ClaimedCarts(runs) && !(runs[i].HoldsClaim() && runs[i].cart == c) ensures c in ClaimedCarts(w) {
      var j :| 0 <= j < |runs| && runs[j].HoldsClaim() && runs[j].cart == c;
      var p := if j < i then j else j - 1;
      assert w[p] == runs[j] && w[p].HoldsClaim();
    }
    forall c | c in ClaimedCarts(w) ensures c in ClaimedCarts(runs) {
      var p :| 0 <= p < |w| && w[p].HoldsClaim() && w[p].cart == c;
      var j := if p < i then p else p + 1;
      assert w[p] == runs[j] && runs[j].HoldsClaim();
    }
  }

  predicate Finished(r: Settlement) {
    r.phase in {ClaimRefused, CapRefused, CaptureFailed, Overdrawn, RolledBack, Settled}
  }

  /** Claims and counters are what the other runs alone account for. */
  ghost predicate LeavesNoTrace(s: State, i: nat)
    requires i < |s.runs|
  {
    && s.claims == ClaimedCarts(Without(s.runs, i))
    && forall m :: m in s.caps ==>
         SpendOf(s, m) == Booked(Without(s.runs, i), m) + Breaches(Without(s.runs, i), m)
  }

  lemma SpendWithout(s: State, i: nat, m: string)
    requires SpendFits(s) && i < |s.runs| && m in s.caps
    ensures SpendOf(s, m) == Booked(Without(s.runs, i), m) + Breaches(Without(s.runs, i), m)
                             + BookedAmount(s.runs[i], m) + BreachAmount(s.runs[i], m)
  {
    SumsWithout(s.runs, i, m);
  }

  lemma TraceOfHolder(s: State, i: nat)
    requires ClaimsFit(s) && i < |s.runs| && s.runs[i].HoldsClaim()
    ensures s.runs[i].cart in s.claims && s.claims != ClaimedCarts(Without(s.runs, i))
  {
    ClaimsWithout(s.runs, i);
  }

  lemma NoTraceOfFailed(s: State, i: nat)
    requires ClaimsFit(s) && SpendFits(s) && i < |s.runs|
    requires s.runs[i].phase == ClaimRefused || s.runs[i].phase == CaptureFailed
    ensures LeavesNoTrace(s, i)
  {
    ClaimsWithout(s.runs, i);
    forall m | m in s.caps
      ensures SpendOf(s, m) == Booked(Without(s.runs, i), m) + Breaches(Without(s.runs, i), m)
    {
      SpendWithout(s, i, m);
    }
  }

  /**
   * A finished run leaves claims and counters as the other runs alone account for them exactly when it
   * was refused its claim or its capture failed. A cap refusal keeps the cart claimed although nothing
   * was charged.
   */
  lemma FailedCaptureLeavesNoTrace(caps: map<string, nat>, s: State, i: nat)
    requires Reachable(caps, s) && i < |s.runs| && Finished(s.runs[i])
    ensures LeavesNoTrace(s, i) <==> s.runs[i].phase == ClaimRefused || s.runs[i].phase == CaptureFailed
  {
    ReachableFits(caps, s);
    if s.runs[i].HoldsClaim() {
      TraceOfHolder(s, i);
    } else {
      NoTraceOfFailed(s, i);
    }
  }

  lemma FinishedContribution(r: Settlement)
    requires Finished(r)
    ensures BookedAmount(r, r.mandate) + BreachAmount(r, r.mandate)
            == if r.phase == Overdrawn || r.phase == Settled then r.amount else 0
    ensures r.HoldsClaim() <==> r.phase != ClaimRefused && r.phase != CaptureFailed
  {
  }

  /**
   * What each way of finishing leaves behind: a cap refusal and everything after a capture keeps the cart
   * claimed; the amount stays booked only when settled, or when the manifest overdrew after capture.
   */
  lemma FinishedRunLeaves(caps: map<string, nat>, s: State, i: nat)
    requires Reachable(caps, s) && i < |s.runs| && Finished(s.runs[i])
    ensures s.runs[i].phase != ClaimRefused && s.runs[i].phase != CaptureFailed ==> s.runs[i].cart in s.claims
    ensures var r, others := s.runs[i], Without(s.runs, i);
            SpendOf(s, r.mandate) == Booked(others, r.mandate) + Breaches(others, r.mandate)
                                     + (if r.phase == Overdrawn || r.phase == Settled then r.amount else 0)
  {
    ReachableFits(caps, s);
    SpendWithout(s, i, s.runs[i].mandate);
    FinishedContribution(s.runs[i]);
    if s.runs[i].HoldsClaim() {
      TraceOfHolder(s, i);
    }
  }
}
