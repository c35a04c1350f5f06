/** A settlement's contract read out: which outcome occurs and what is left, in the fields of its arguments. */
module SettlementFigures {
  import opened BudgetGate
  import opened MandateChain
  import opened SplitManifest
  import opened RouteProvider
  import opened Rollback
  import opened SettlementSaga

  /** Authorized exactly when signatures, hash chain, gate and lock all pass. */
  lemma AuthorizedExactly(
    s: Submission, e: Environment, built: ManifestOutcome, maxRetries: nat, before: World, now: World,
    r: SettlementOutcome, categories: seq<string>)
    requires ValidSubmission(s) && Settles(s, e, built, maxRetries, before, now, r)
    requires |categories| == |s.cart.items| &&
             forall i :: 0 <= i < |categories| ==> categories[i] == s.cart.items[i].category
    ensures var chain := VerifyMandateChain(
              e.hash, s.intentDump, s.cartDump, s.execution.intentMandateHash, s.execution.cartMandateHash);
            var gate := GateAccepts(s.intent, s.cart, s.execution, e.serverTime, categories, e.fold);
            var locked := e.serverTime <= s.cart.inventoryLockExpiresAt;
            r.Unauthorized? <==> !(s.signaturesValid && chain == ChainAccepted && gate && locked)
    ensures r.Unauthorized? ==> now.keys == before.keys && now.captured == before.captured && now.kept == before.kept
  {
    assert Categories(s.cart) == categories;
  }

  /** Of several failing checks the one named comes first: signatures, hash chain, gate, lock. */
  lemma FailureNamed(
    s: Submission, e: Environment, built: ManifestOutcome, maxRetries: nat, before: World, now: World,
    r: SettlementOutcome)
    requires ValidSubmission(s) && Settles(s, e, built, maxRetries, before, now, r) && r.Unauthorized?
    ensures var chain := VerifyMandateChain(
              e.hash, s.intentDump, s.cartDump, s.execution.intentMandateHash, s.execution.cartMandateHash);
            var gate := GateVerdict(s.intent, s.cart, s.execution, e.serverTime, Categories(s.cart), e.fold);
            r.why == (
              if !s.signaturesValid then SignatureInvalid
              else if chain != ChainAccepted then ChainBroken(chain)
              else if gate != Accepted then GateRefused(gate)
              else LockExpired)
  {
  }

  lemma NonceAdmitted(
    s: Submission, e: Environment, keys: map<string, int>, now: map<string, int>, seen: NonceSeen)
    requires ValidSubmission(s)
    requires Admitted(s, e.serverTime, e.clockMs, e.hash, e.fold, keys, now, false, seen)
    ensures var nonce, timestamp := s.execution.nonce, s.execution.timestamp;
            && (seen.Bad? <==>
                  timestamp < e.serverTime - 5 || timestamp > e.serverTime + 60 ||
                  (nonce in keys && e.clockMs < keys[nonce]))
            && now == (if seen.Bad? then keys else keys[nonce := e.clockMs + 120000])
  {
  }

  /** The nonce's window, its replay, and how long it is remembered. */
  lemma NonceExactly(
    s: Submission, e: Environment, built: ManifestOutcome, maxRetries: nat, before: World, now: World,
    r: SettlementOutcome)
    requires ValidSubmission(s) && Settles(s, e, built, maxRetries, before, now, r) && !r.Unauthorized?
    ensures var nonce, timestamp := s.execution.nonce, s.execution.timestamp;
            && (r.NonceRefused? <==>
                  timestamp < e.serverTime - 5 || timestamp > e.serverTime + 60 ||
                  (nonce in before.keys && e.clockMs < before.keys[nonce]))
            && now.keys == (if r.NonceRefused? then before.keys else before.keys[nonce := e.clockMs + 120000])
  {
    NonceAdmitted(s, e, before.keys, now.keys, SeenIn(r));
  }

  function SpentIn(spend: map<string, int>, mandateId: string): int {
    if mandateId in spend then spend[mandateId] else 0
  }

  /** With a ledger: the cart must be unclaimed, then the spend within the budget, then the capture accepted. */
  lemma LedgerDecides(
    s: Submission, e: Environment, built: ManifestOutcome, maxRetries: nat, before: World, now: World,
    r: SettlementOutcome)
    requires ValidSubmission(s) && Settles(s, e, built, maxRetries, before, now, r)
    requires !r.Unauthorized? && !r.NonceRefused? && before.kept.Kept?
    ensures var b, cart := before.kept.books, s.execution.cartMandateHash;
            var fits := SpentIn(b.spend, s.intent.mandateId) + s.execution.settlementAmountPaise
                        <= s.intent.maxBudgetPaise;
            && (r.CartAlreadySettled? <==> cart in b.claims)
            && (r.CapExceeded? <==> cart !in b.claims && !fits)
            && (r.CaptureRefused? <==> cart !in b.claims && fits && !e.provider.captureAccepted)
            && (MoneyCaptured(r) <==> cart !in b.claims && fits && e.provider.captureAccepted)
  {
  }

  /** Without a ledger neither claim nor budget is checked, and only the capture can be refused. */
  lemma UncheckedWithoutLedger(
    s: Submission, e: Environment, built: ManifestOutcome, maxRetries: nat, before: World, now: World,
    r: SettlementOutcome)
    requires ValidSubmission(s) && Settles(s, e, built, maxRetries, before, now, r)
    requires !r.Unauthorized? && !r.NonceRefused? && before.kept.NoLedger?
    ensures now.kept.NoLedger? && !r.CartAlreadySettled? && !r.CapExceeded?
    ensures r.CaptureRefused? <==> !e.provider.captureAccepted
  {
  }

  lemma BooksLeft(b: Kept, s: Submission, r: SettlementOutcome)
    requires b.Kept? && (r.CaptureRefused? ==> s.execution.cartMandateHash !in b.books.claims)
    ensures var n := KeptAfter(b, s, ProgressOf(r));
            && n.Kept?
            && (forall m :: SpentIn(n.books.spend, m) == SpentIn(b.books.spend, m) +
                  (if m == s.intent.mandateId && (r.Settled? || r.InvoiceRefused? || r.ManifestRefused?)
                   then s.execution.settlementAmountPaise else 0))
            && n.books.claims ==
               (if r.Unauthorized? || r.NonceRefused? || r.CartAlreadySettled? || r.CaptureRefused?
                then b.books.claims else b.books.claims + {s.execution.cartMandateHash})
  {
  }

  /** The spend is booked for good only when the money stays captured and the split was not rolled back. */
  lemma SpendLeft(
    s: Submission, e: Environment, built: ManifestOutcome, maxRetries: nat, before: World, now: World,
    r: SettlementOutcome)
    requires ValidSubmission(s) && Settles(s, e, built, maxRetries, before, now, r) && before.kept.Kept?
    ensures now.kept.Kept?
    ensures forall m :: SpentIn(now.kept.books.spend, m) == SpentIn(before.kept.books.spend, m) +
              (if m == s.intent.mandateId && (r.Settled? || r.InvoiceRefused? || r.ManifestRefused?)
               then s.execution.settlementAmountPaise else 0)
  {
    BooksLeft(before.kept, s, r);
  }

  /** What each outcome leaves of claims and captures. */
  lemma LedgerLeft(
    s: Submission, e: Environment, built: ManifestOutcome, maxRetries: nat, before: World, now: World,
    r: SettlementOutcome)
    requires ValidSubmission(s) && Settles(s, e, built, maxRetries, before, now, r) && before.kept.Kept?
    ensures now.kept.Kept?
    ensures var b, n, cart := before.kept.books, now.kept.books, s.execution.cartMandateHash;
            n.claims == (if r.Unauthorized? || r.NonceRefused? || r.CartAlreadySettled? || r.CaptureRefused?
                         then b.claims else b.claims + {cart})
    ensures now.captured == (
      if r.Settled? || r.InvoiceRefused? || r.ManifestRefused? || r.SplitRolledBack?
      then before.captured[s.paymentId := s.execution.settlementAmountPaise] else before.captured)
  {
    BooksLeft(before.kept, s, r);
  }

  /** After a capture the manifest and the split decide, and an invoice is only refused when nothing is left to bill. */
  lemma CapturedEnds(
    s: Submission, e: Environment, built: ManifestOutcome, maxRetries: nat, before: World, now: World,
    r: SettlementOutcome)
    requires ValidSubmission(s) && Settles(s, e, built, maxRetries, before, now, r)
    requires r.Settled? || r.InvoiceRefused? || r.ManifestRefused? || r.SplitRolledBack?
    ensures r.ManifestRefused? <==> !built.Built?
    ensures built.Built? ==>
      var requests := TransferRequests(built.manifest, s.paymentId);
      var split := SplitTo(before.transfers, requests, s.paymentId, e.provider.freshIds, e.provider.transferAccepted,
                           |requests|);
      && (r.SplitRolledBack? <==> split.failed)
      && now.transfers == split.ledger
      && (r.Settled? ==>
            && r.result.paymentId == s.paymentId && r.result.amountPaise == s.execution.settlementAmountPaise
            && r.result.transfers == split.legs)
  {
  }

  function LastFirst(legs: seq<RouteTransfer>): seq<string> {
    seq(|legs|, j requires 0 <= j < |legs| => legs[|legs| - 1 - j].id)
  }

  lemma TrailOfUndoing(before: Trail, split: SplitState, ok: nat -> bool, maxRetries: nat, now: Trail)
    requires split.failed && SplitLeaves(before, split, ok, maxRetries, now)
    requires before.storage.Queue? ==> FreshLegs(before.storage.view, split.legs)
    ensures now.attempted == before.attempted + LastFirst(split.legs)
    ensures before.storage.Queue? ==>
      && now.storage.Queue?
      && var q, view, n := before.storage.view.(known := split.ledger.transfers.Keys), now.storage.view, |split.legs|;
         ReversedTotal(view.reversals) + QueuedTotal(view.pending) + LostTotal(q, split.legs, ok, maxRetries, n)
         == ReversedTotal(q.reversals) + QueuedTotal(q.pending) + LegTotal(split.legs, n)
  {
    var legs, n := split.legs, |split.legs|;
    assert IdsFromEnd(legs, n) == LastFirst(legs);
    if before.storage.Queue? {
      var q := before.storage.view.(known := split.ledger.transfers.Keys);
      AttemptedInReverseOrder(q, legs, ok, maxRetries, n);
      RollbackConserves(q, legs, ok, maxRetries, n);
    }
  }

  /** Only a failed split is undone: its legs in reverse order, each once, and all of their money is accounted for. */
  lemma UndoneInReverse(
    s: Submission, e: Environment, built: ManifestOutcome, maxRetries: nat, before: World, now: World,
    r: SettlementOutcome, split: SplitState)
    requires ValidSubmission(s) && Settles(s, e, built, maxRetries, before, now, r) && r.SplitRolledBack?
    requires built.Built? && split == SplitOf(before.transfers, s, built.manifest, e.provider)
    requires before.trail.storage.Queue? ==> FreshLegs(before.trail.storage.view, split.legs)
    ensures now.trail.attempted == before.trail.attempted + LastFirst(split.legs)
    ensures before.trail.storage.Queue? ==>
      && now.trail.storage.Queue?
      && var q, view := before.trail.storage.view.(known := split.ledger.transfers.Keys), now.trail.storage.view;
         ReversedTotal(view.reversals) + QueuedTotal(view.pending)
         + LostTotal(q, split.legs, e.provider.reversalAccepted, maxRetries, |split.legs|)
         == ReversedTotal(q.reversals) + QueuedTotal(q.pending) + LegTotal(split.legs, |split.legs|)
  {
    TrailOfUndoing(before.trail, split, e.provider.reversalAccepted, maxRetries, now.trail);
  }

  lemma TrailOfSuccess(before: Trail, split: SplitState, ok: nat -> bool, maxRetries: nat, now: Trail)
    requires !split.failed && SplitLeaves(before, split, ok, maxRetries, now)
    ensures now.attempted == before.attempted
    ensures before.storage.NoQueue? ==> now == before
    ensures before.storage.Queue? ==>
      now.storage.Queue? && now.storage.view.(known := before.storage.view.known) == before.storage.view
  {
  }

  /** Every other outcome reverses nothing and queues nothing. */
  lemma NothingElseUndone(
    s: Submission, e: Environment, built: ManifestOutcome, maxRetries: nat, before: World, now: World,
    r: SettlementOutcome)
    requires ValidSubmission(s) && Settles(s, e, built, maxRetries, before, now, r) && !r.SplitRolledBack?
    ensures now.trail.attempted == before.trail.attempted
    ensures before.trail.storage.NoQueue? ==> now.trail == before.trail
    ensures before.trail.storage.Queue? ==>
      && now.trail.storage.Queue?
      && now.trail.storage.view.(known := before.trail.storage.view.known) == before.trail.storage.view
  {
    if SplitReached(r) {
      var split := SplitOf(before.transfers, s, built.manifest, e.provider);
      TrailOfSuccess(before.trail, split, e.provider.reversalAccepted, maxRetries, now.trail);
    }
  }
}
