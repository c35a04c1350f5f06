/** One settlement from authentication to invoice (twoPhaseCommitSaga.py, settlementOrchestrator.py). */
module SettlementSaga {
  import opened Paise
  import opened Tax
  import opened BudgetGate
  import opened Invoice
  import opened MandateChain
  import opened Nonces
  import opened RouteProvider
  import opened CompensationQueue
  import opened SettlementLedgers
  import opened SplitManifest
  import opened Rollback
  import opened SplitLegs
  import opened MandateTerms
  import CanonicalJson

  /** What a caller submits. `signaturesValid` is the outcome of the three Ed25519 checks. */
  datatype Submission = Submission(
    intent: IntentMandate, cart: CartMandate, execution: ExecutionMandate,
    intentDump: seq<CanonicalJson.Field>, cartDump: seq<CanonicalJson.Field>,
    signaturesValid: bool, paymentId: string)

  /** The provider's answers and fresh ids. */
  datatype Provider = Provider(
    captureAccepted: bool, freshIds: nat -> string, transferAccepted: nat -> bool, reversalAccepted: nat -> bool)

  datatype SettlementResult = SettlementResult(
    paymentId: string, amountPaise: int, transfers: seq<RouteTransfer>, invoice: InvoicePayload)

  /** Which of the checks before any state is consumed refused. */
  datatype AuthFailure =
    | SignatureInvalid
    | ChainBroken(chain: ChainOutcome)
    | GateRefused(gate: GateOutcome)
    | LockExpired

  datatype SettlementOutcome =
    | Settled(result: SettlementResult)
    | Unauthorized(why: AuthFailure)
    | NonceRefused(reason: NonceOutcome)
    | CartAlreadySettled
    | CapExceeded
    | CaptureRefused
    | ManifestRefused
    | SplitRolledBack
    | InvoiceRefused

  predicate ValidSubmission(s: Submission) {
    CartSchema(s.cart) && s.execution.settlementAmountPaise > 0
  }

  function Categories(cart: CartMandate): seq<string> {
    seq(|cart.items|, i requires 0 <= i < |cart.items| => cart.items[i].category)
  }

  /** Signatures, hash chain, budget gate and inventory lock: everything checked before state is consumed. */
  predicate Authorized(s: Submission, serverTime: int, hash: string -> string, fold: string -> string)
    requires ValidSubmission(s)
  {
    && s.signaturesValid
    && ChainOf(s, hash) == ChainAccepted
    && GateAccepts(s.intent, s.cart, s.execution, serverTime, Categories(s.cart), fold)
    && serverTime <= s.cart.inventoryLockExpiresAt
  }

  function ChainOf(s: Submission, hash: string -> string): ChainOutcome {
    VerifyMandateChain(hash, s.intentDump, s.cartDump, s.execution.intentMandateHash, s.execution.cartMandateHash)
  }

  /** The failure named is the first in the order signatures, chain, gate, lock. */
  predicate FirstFailure(s: Submission, serverTime: int, hash: string -> string, fold: string -> string, why: AuthFailure)
    requires ValidSubmission(s)
  {
    match why
    case SignatureInvalid => !s.signaturesValid
    case ChainBroken(c) => s.signaturesValid && c == ChainOf(s, hash) != ChainAccepted
    case GateRefused(g) =>
      s.signaturesValid && ChainOf(s, hash) == ChainAccepted &&
      g == GateVerdict(s.intent, s.cart, s.execution, serverTime, Categories(s.cart), fold) != Accepted
    case LockExpired =>
      s.signaturesValid && ChainOf(s, hash) == ChainAccepted &&
      GateAccepts(s.intent, s.cart, s.execution, serverTime, Categories(s.cart), fold) &&
      serverTime > s.cart.inventoryLockExpiresAt
  }

  /** The dumps that are hashed are those of the mandates that are settled. */
  ghost predicate OwnDumps(s: Submission) {
    DumpsIntent(s.intentDump, s.intent) && DumpsCart(s.cartDump, s.cart)
  }

  /**
   * Two authorized submissions whose execution mandates name the same hashes settle the same intent and cart,
   * so a signed execution mandate can be spent on nothing else.
   */
  lemma HashesFixWhatIsSettled(
    s: Submission, s': Submission, now: int, now': int, hash: string -> string, fold: string -> string)
    requires ValidSubmission(s) && ValidSubmission(s') && OwnDumps(s) && OwnDumps(s')
    requires Authorized(s, now, hash, fold) && Authorized(s', now', hash, fold)
    requires s.execution.intentMandateHash == s'.execution.intentMandateHash
    requires s.execution.cartMandateHash == s'.execution.cartMandateHash
    requires NoCollision(hash, s.intentDump, s'.intentDump) && NoCollision(hash, s.cartDump, s'.cartDump)
    ensures s.intent == s'.intent && s.cart == s'.cart
  {
    AcceptedHashesFixMandates(
      hash, s.execution.intentMandateHash, s.execution.cartMandateHash,
      s.intentDump, s.cartDump, s.intent, s.cart, s'.intentDump, s'.cartDump, s'.intent, s'.cart);
  }

  // ---------------------------------------------------------------- what happens to the ledger

  /** How far a settlement got once it was authorized and its nonce accepted. */
  datatype Progress = ClaimTaken | OverCap | NotCaptured | NotSplit | Reversed | Completed

  datatype Books = Books(claims: set<string>, spend: map<string, int>)

  ghost function BooksOf(ledger: SettlementLedger): Books
    reads ledger
  {
    Books(ledger.claims, ledger.spend)
  }

  /** Claims and spend that a settlement leaves behind. */
  function BooksAfter(b: Books, s: Submission, p: Progress): Books {
    var cart, mandate, amount := s.execution.cartMandateHash, s.intent.mandateId, s.execution.settlementAmountPaise;
    match p
    case ClaimTaken => b
    case OverCap => Books(b.claims + {cart}, Added(b.spend, mandate, 0))
    case NotCaptured => Books(b.claims - {cart}, Added(b.spend, mandate, 0))
    case NotSplit => Books(b.claims + {cart}, Added(b.spend, mandate, amount))
    case Reversed => Books(b.claims + {cart}, Added(b.spend, mandate, 0))
    case Completed => Books(b.claims + {cart}, Added(b.spend, mandate, amount))
  }

  function ProgressOf(r: SettlementOutcome): Progress {
    match r
    case CapExceeded => OverCap
    case CaptureRefused => NotCaptured
    case ManifestRefused => NotSplit
    case SplitRolledBack => Reversed
    case Settled(_) => Completed
    case InvoiceRefused => Completed
    case _ => ClaimTaken
  }

  /** The first check of the ledger that refuses, if any. */
  predicate ClaimFree(b: Books, s: Submission) {
    s.execution.cartMandateHash !in b.claims
  }

  predicate WithinCap(b: Books, s: Submission) {
    Spent(b.spend, s.intent.mandateId) + s.execution.settlementAmountPaise <= s.intent.maxBudgetPaise
  }

  /** The settlement ledger, if there is one; without it every claim and every spend is granted. */
  datatype Kept = NoLedger | Kept(books: Books)

  ghost function KeptBy(ledger: SettlementLedger?): Kept
    reads ledger
  {
    if ledger == null then NoLedger else Kept.Kept(BooksOf(ledger))
  }

  function KeptAfter(b: Kept, s: Submission, p: Progress): Kept {
    if b.NoLedger? then NoLedger else Kept.Kept(BooksAfter(b.books, s, p))
  }

  predicate ClaimGranted(b: Kept, s: Submission) {
    b.Kept? ==> ClaimFree(b.books, s)
  }

  predicate SpendGranted(b: Kept, s: Submission) {
    b.Kept? ==> WithinCap(b.books, s)
  }

  /** Only an accepted nonce is burnt, and it stays burnt whatever happens next. */
  function KeysBurnt(keys: map<string, int>, s: Submission, clockMs: int, answer: NonceOutcome): map<string, int> {
    if answer == NonceAccepted then keys[s.execution.nonce := clockMs + NONCE_TTL_SECONDS * MILLIS] else keys
  }

  /** Why phase 1 stopped. */
  datatype Refusal =
    | None
    | Unproven(why: AuthFailure)
    | BadNonce(reason: NonceOutcome)
    | NotClaimed
    | NotBooked
    | CaptureFailed

  function ReachedBy(r: Refusal): Progress {
    match r
    case None => NotSplit
    case NotBooked => OverCap
    case CaptureFailed => NotCaptured
    case _ => ClaimTaken
  }

  const DEFAULT_TCS_ACCOUNT := "acc_tcs_withholding"

  function Refused(r: Refusal): SettlementOutcome
    requires r != None
  {
    match r
    case Unproven(why) => Unauthorized(why)
    case BadNonce(reason) => NonceRefused(reason)
    case NotClaimed => CartAlreadySettled
    case NotBooked => CapExceeded
    case CaptureFailed => CaptureRefused
  }

  /** Once authorized and with its nonce accepted, a submission gets exactly the outcome that this says. */
  predicate Explains(s: Submission, b: Kept, captureAccepted: bool, r: SettlementOutcome) {
    && (r.CartAlreadySettled? <==> !ClaimGranted(b, s))
    && (r.CapExceeded? <==> ClaimGranted(b, s) && !SpendGranted(b, s))
    && (r.CaptureRefused? <==> ClaimGranted(b, s) && SpendGranted(b, s) && !captureAccepted)
    && (MoneyCaptured(r) <==> ClaimGranted(b, s) && SpendGranted(b, s) && captureAccepted)
  }

  /** The same for the first phase, whose success is still without an outcome. */
  predicate ExplainsRefusal(s: Submission, b: Kept, captureAccepted: bool, r: Refusal) {
    && (r.NotClaimed? <==> !ClaimGranted(b, s))
    && (r.NotBooked? <==> ClaimGranted(b, s) && !SpendGranted(b, s))
    && (r.CaptureFailed? <==> ClaimGranted(b, s) && SpendGranted(b, s) && !captureAccepted)
    && (r.None? <==> ClaimGranted(b, s) && SpendGranted(b, s) && captureAccepted)
  }

  /** Authorization and nonce, the same for the first phase and for the whole settlement. */
  ghost predicate Admitted(
    s: Submission, serverTime: int, clockMs: int, hash: string -> string, fold: string -> string,
    keys: map<string, int>, now: map<string, int>, unproven: bool, seen: NonceSeen)
    requires ValidSubmission(s)
  {
    var answer := NonceAnswer(keys, s.execution.nonce, s.execution.timestamp, serverTime, clockMs);
    && (unproven <==> !Authorized(s, serverTime, hash, fold))
    && (unproven ==> now == keys)
    && (!unproven ==>
          && seen == (if answer == NonceAccepted then Fine else Bad(answer))
          && now == KeysBurnt(keys, s, clockMs, answer))
  }

  /** What an outcome says about the nonce. */
  datatype NonceSeen = Fine | Bad(reason: NonceOutcome)

  function SeenIn(r: SettlementOutcome): NonceSeen {
    if r.NonceRefused? then Bad(r.reason) else Fine
  }

  function SeenInRefusal(r: Refusal): NonceSeen {
    if r.BadNonce? then Bad(r.reason) else Fine
  }

  predicate MoneyCaptured(r: SettlementOutcome) {
    r.Settled? || r.ManifestRefused? || r.SplitRolledBack? || r.InvoiceRefused?
  }

  predicate SplitReached(r: SettlementOutcome) {
    r.Settled? || r.SplitRolledBack? || r.InvoiceRefused?
  }

  function SplitOf(l: Ledger, s: Submission, m: Manifest, p: Provider): SplitState {
    var requests := TransferRequests(m, s.paymentId);
    SplitTo(l, requests, s.paymentId, p.freshIds, p.transferAccepted, |requests|)
  }

  /** No transfer was ever created under the key of one of the manifest's legs. */
  predicate NewToProvider(l: Ledger, s: Submission, m: Manifest) {
    UnusedKeys(l, TransferRequests(m, s.paymentId), s.paymentId)
  }

  /** The invoice of this cart cannot drift, and comes to the settled amount unless the place of supply does not. */
  predicate InvoiceReady(s: Submission)
    requires ValidSubmission(s)
  {
    var t := CartTax(s.cart.items, IsPlaceOfSupplyIntraState(s.cart));
    && LinesInBounds(s.cart.items) && IsPaise(t.taxable) && s.cart.totalPaise == s.execution.settlementAmountPaise
    && (GrandTotal(s.cart, t) == s.execution.settlementAmountPaise <==>
          PlaceAgrees(s.cart) || ShortLines(s.cart.items) == 0)
  }

  function InvoiceTotal(cart: CartMandate): int
    requires CartSchema(cart)
  {
    GrandTotal(cart, CartTax(cart.items, IsPlaceOfSupplyIntraState(cart)))
  }

  /** How a captured payment ends: which legs were created, and what the caller is told. */
  ghost predicate PaidOut(
    s: Submission, m: Manifest, p: Provider, before: Ledger, now: Ledger, r: SettlementOutcome)
    requires ValidSubmission(s)
  {
    var split := SplitOf(before, s, m, p);
    && now == split.ledger
    && (r.SplitRolledBack? <==> split.failed)
    && (r.Settled? ==>
          && r.result.paymentId == s.paymentId && r.result.amountPaise == s.execution.settlementAmountPaise
          && r.result.transfers == split.legs && InvoiceFits(s.cart, r.result.invoice))
    && (r.InvoiceRefused? <==> !split.failed && InvoiceTotal(s.cart) <= 0)
    && (r.InvoiceRefused? ==> !PlaceAgrees(s.cart))
  }

  /** The provider's transfer tables change only in a split, which needs a manifest. */
  ghost predicate SettledOrNot(
    s: Submission, built: ManifestOutcome, p: Provider, before: Ledger, now: Ledger, r: SettlementOutcome)
    requires ValidSubmission(s)
  {
    if SplitReached(r) then built.Built? && PaidOut(s, built.manifest, p, before, now, r)
    else now == before && (r.ManifestRefused? ==> !built.Built?)
  }

  /** A settlement leaves no trail of reversals but that of its split phase. */
  ghost predicate TrailLeft(
    s: Submission, built: ManifestOutcome, before: Trail, l: Ledger, p: Provider, maxRetries: nat, now: Trail,
    r: SettlementOutcome)
  {
    if SplitReached(r) then
      built.Built? && SplitLeaves(before, SplitOf(l, s, built.manifest, p), p.reversalAccepted, maxRetries, now)
    else now == before
  }

  /** An authorized cart can be invoiced, unless its state codes differ only by spaces. */
  lemma AuthorizedInvoice(s: Submission, serverTime: int, hash: string -> string, fold: string -> string)
    requires ValidSubmission(s) && Authorized(s, serverTime, hash, fold)
    ensures InvoiceReady(s)
  {
    GateAgreesWithInvoice(s.intent, s.cart, s.execution, serverTime, Categories(s.cart), fold);
  }

  /** The settled amount is exactly what the legs pay out, and each leg pays its purpose's positive share. */
  predicate PaidInFull(s: Submission, m: Manifest, result: SettlementResult) {
    var requests := TransferRequests(m, s.paymentId);
    && Sum(LegAmounts(result.transfers)) == s.execution.settlementAmountPaise == result.amountPaise
    && |result.transfers| == |requests|
    && (forall i :: 0 <= i < |requests| ==>
          && result.transfers[i].amount == Share(m, requests[i].purpose) > 0
          && result.transfers[i].account == Payee(m, requests[i].purpose))
  }

  /**
   * A settlement that returns a result under unused keys has paid out in its legs exactly what it captured,
   * and its invoice comes to the same amount exactly when the place of supply does not hang on spaces or no
   * line loses a paisa.
   */
  lemma SettledMeansPaidInFull(
    s: Submission, accounts: Accounts, fee: int, p: Provider, before: Ledger, now: Ledger, r: SettlementOutcome)
    requires ValidSubmission(s) && InvoiceReady(s) && r.Settled?
    requires SettledOrNot(s, BuildSplitManifest(s.cart, accounts, fee), p, before, now, r)
    requires NewToProvider(before, s, BuildSplitManifest(s.cart, accounts, fee).manifest)
    ensures BuildSplitManifest(s.cart, accounts, fee).Built?
    ensures PaidInFull(s, BuildSplitManifest(s.cart, accounts, fee).manifest, r.result)
    ensures r.result.invoice.grandTotalPaise == s.execution.settlementAmountPaise <==>
            PlaceAgrees(s.cart) || ShortLines(s.cart.items) == 0
  {
    var m := BuildSplitManifest(s.cart, accounts, fee).manifest;
    RequestsCoverManifest(m, s.paymentId);
    FreshSplitPaysManifest(
      before, m, TransferRequests(m, s.paymentId), s.paymentId, p.freshIds, p.transferAccepted);
  }

  /** A result under unused keys has legs of exactly the settled amount, and its invoice agrees if the places do. */
  predicate FullyPaid(s: Submission, built: ManifestOutcome, before: Ledger, r: SettlementOutcome)
    requires ValidSubmission(s)
  {
    r.Settled? ==>
      && built.Built?
      && (NewToProvider(before, s, built.manifest) ==>
            Sum(LegAmounts(r.result.transfers)) == s.execution.settlementAmountPaise)
      && (PlaceAgrees(s.cart) || ShortLines(s.cart.items) == 0 <==>
            r.result.invoice.grandTotalPaise == s.execution.settlementAmountPaise)
  }

  /** How a settlement ends: the legs and the result, the trail of reversals, and the provider's records. */
  ghost predicate Ends(
    s: Submission, built: ManifestOutcome, p: Provider, maxRetries: nat, before: Ledger, trail: Trail,
    now: Ledger, trailNow: Trail, r: SettlementOutcome)
    requires ValidSubmission(s)
  {
    && SettledOrNot(s, built, p, before, now, r)
    && TrailLeft(s, built, trail, before, p, maxRetries, trailNow, r)
    && FullyPaid(s, built, before, r) && PositiveRecords(now)
  }

  // ---------------------------------------------------------------- a whole settlement

  /** All that a settlement can change: nonce keys, captures, claims and spend, transfers and reversals. */
  datatype World = World(
    keys: map<string, int>, captured: map<string, int>, kept: Kept, transfers: Ledger, trail: Trail)

  /** Time and the outcomes of hashing, folding and asking the provider. */
  datatype Environment = Environment(
    serverTime: int, clockMs: int, hash: string -> string, fold: string -> string, provider: Provider)

  function CapturesAfter(captured: map<string, int>, s: Submission, done: bool): map<string, int> {
    if done then captured[s.paymentId := s.execution.settlementAmountPaise] else captured
  }

  /** What the first phase has done when it ends with `refusal`, or with none. */
  ghost predicate FirstPhase(s: Submission, e: Environment, before: World, now: World, refusal: Refusal)
    requires ValidSubmission(s)
  {
    && Admitted(s, e.serverTime, e.clockMs, e.hash, e.fold, before.keys, now.keys,
                refusal.Unproven?, SeenInRefusal(refusal))
    && (refusal.Unproven? ==> FirstFailure(s, e.serverTime, e.hash, e.fold, refusal.why))
    && (!refusal.Unproven? && !refusal.BadNonce? ==>
          ExplainsRefusal(s, before.kept, e.provider.captureAccepted, refusal))
    && (!refusal.Unproven? ==> InvoiceReady(s))
    && now.captured == CapturesAfter(before.captured, s, refusal == None)
    && now.kept == KeptAfter(before.kept, s, ReachedBy(refusal))
    && now.transfers == before.transfers && now.trail == before.trail
  }

  /** What happens after a capture, `b` being the ledger before the first phase. */
  ghost predicate SecondPhase(
    s: Submission, e: Environment, built: ManifestOutcome, maxRetries: nat, b: Kept, before: World, now: World,
    r: SettlementOutcome)
    requires ValidSubmission(s)
  {
    && MoneyCaptured(r)
    && Ends(s, built, e.provider, maxRetries, before.transfers, before.trail, now.transfers, now.trail, r)
    && now.kept == KeptAfter(b, s, ProgressOf(r))
    && now.keys == before.keys && now.captured == before.captured
  }

  /** A whole settlement: which outcome occurs, and what it leaves everywhere. */
  ghost predicate Settles(
    s: Submission, e: Environment, built: ManifestOutcome, maxRetries: nat, before: World, now: World,
    r: SettlementOutcome)
    requires ValidSubmission(s)
  {
    && Admitted(s, e.serverTime, e.clockMs, e.hash, e.fold, before.keys, now.keys, r.Unauthorized?, SeenIn(r))
    && (r.Unauthorized? ==> FirstFailure(s, e.serverTime, e.hash, e.fold, r.why))
    && (!r.Unauthorized? && !r.NonceRefused? ==> Explains(s, before.kept, e.provider.captureAccepted, r))
    && now.captured == CapturesAfter(before.captured, s, MoneyCaptured(r))
    && now.kept == KeptAfter(before.kept, s, ProgressOf(r))
    && Ends(s, built, e.provider, maxRetries, before.transfers, before.trail, now.transfers, now.trail, r)
  }

  /** What authorization leaves to the rest of the first phase: nonce, claim, booking and capture. */
  ghost predicate Consumes(
    s: Submission, e: Environment, before: World, now: World, answer: NonceOutcome, refusal: Refusal)
  {
    && answer == NonceAnswer(before.keys, s.execution.nonce, s.execution.timestamp, e.serverTime, e.clockMs)
    && now.keys == KeysBurnt(before.keys, s, e.clockMs, answer)
    && (if answer == NonceAccepted then
          !refusal.Unproven? && !refusal.BadNonce? &&
          ExplainsRefusal(s, before.kept, e.provider.captureAccepted, refusal)
        else refusal == BadNonce(answer))
    && now.captured == CapturesAfter(before.captured, s, refusal == None)
    && now.kept == KeptAfter(before.kept, s, ReachedBy(refusal))
    && now.transfers == before.transfers && now.trail == before.trail
  }

  lemma UnprovenPhase(s: Submission, e: Environment, before: World, refusal: Refusal)
    requires ValidSubmission(s) && refusal.Unproven? && !Authorized(s, e.serverTime, e.hash, e.fold)
    requires FirstFailure(s, e.serverTime, e.hash, e.fold, refusal.why)
    ensures FirstPhase(s, e, before, before, refusal)
  {
  }

  lemma ProvenPhase(
    s: Submission, e: Environment, before: World, now: World, answer: NonceOutcome, refusal: Refusal)
    requires ValidSubmission(s) && Authorized(s, e.serverTime, e.hash, e.fold)
    requires Consumes(s, e, before, now, answer, refusal)
    ensures FirstPhase(s, e, before, now, refusal)
  {
    AuthorizedInvoice(s, e.serverTime, e.hash, e.fold);
  }

  lemma RefusedShape(r: Refusal)
    requires r != None
    ensures var o := Refused(r);
            && !MoneyCaptured(o) && ProgressOf(o) == ReachedBy(r) && SeenIn(o) == SeenInRefusal(r)
            && (o.Unauthorized? <==> r.Unproven?) && (o.Unauthorized? ==> o.why == r.why)
            && (o.NonceRefused? <==> r.BadNonce?)
  {
  }

  lemma RefusedExplained(s: Submission, b: Kept, captureAccepted: bool, r: Refusal)
    requires r != None && !r.Unproven? && !r.BadNonce? && ExplainsRefusal(s, b, captureAccepted, r)
    ensures Explains(s, b, captureAccepted, Refused(r))
  {
  }

  /** Without captured money nothing happens at the provider. */
  lemma RefusedEnds(
    s: Submission, built: ManifestOutcome, p: Provider, maxRetries: nat, l: Ledger, trail: Trail, r: SettlementOutcome)
    requires ValidSubmission(s) && !MoneyCaptured(r) && PositiveRecords(l)
    ensures Ends(s, built, p, maxRetries, l, trail, l, trail, r)
  {
  }

  /** A refusal in the first phase is the whole settlement. */
  lemma RefusalSettles(
    s: Submission, e: Environment, built: ManifestOutcome, maxRetries: nat, before: World, now: World,
    refusal: Refusal)
    requires ValidSubmission(s) && PositiveRecords(before.transfers)
    requires refusal != None && FirstPhase(s, e, before, now, refusal)
    ensures Settles(s, e, built, maxRetries, before, now, Refused(refusal))
  {
    RefusedShape(refusal);
    if !refusal.Unproven? && !refusal.BadNonce? {
      RefusedExplained(s, before.kept, e.provider.captureAccepted, refusal);
    }
    RefusedEnds(s, built, e.provider, maxRetries, before.transfers, before.trail, Refused(refusal));
  }

  /** Otherwise the two phases add up to it. */
  lemma PhasesSettle(
    s: Submission, e: Environment, built: ManifestOutcome, maxRetries: nat, before: World, mid: World, now: World,
    r: SettlementOutcome)
    requires ValidSubmission(s)
    requires FirstPhase(s, e, before, mid, None)
    requires SecondPhase(s, e, built, maxRetries, before.kept, mid, now, r)
    ensures Settles(s, e, built, maxRetries, before, now, r)
  {
  }

  /** Where the places agree the invoice of an authorized cart is never refused. */
  lemma AgreeingPlacesAreInvoiced(s: Submission)
    requires ValidSubmission(s) && InvoiceReady(s) && PlaceAgrees(s.cart)
    ensures InvoiceTotal(s.cart) == s.execution.settlementAmountPaise > 0
  {
  }

  // ---------------------------------------------------------------- whose money it is

  /** No transfer of this payment has been created before, for any of the four purposes. */
  predicate UnusedPayment(before: Ledger, paymentId: string, accounts: set<string>) {
    forall a :: a in accounts ==>
      && "trf_" + paymentId + "_" + a + "_" + "merchant_net_settlement" !in before.idempotent
      && "trf_" + paymentId + "_" + a + "_" + "protocol_fee" !in before.idempotent
      && "trf_" + paymentId + "_" + a + "_" + "logistics_sla_settlement" !in before.idempotent
      && "trf_" + paymentId + "_" + a + "_" + "tcs_section_52_withholding" !in before.idempotent
  }

  /** Whom the legs pay, and how much. */
  function Paid(legs: seq<RouteTransfer>): (r: seq<(string, int)>)
    ensures |r| == |legs|
  {
    seq(|legs|, i requires 0 <= i < |legs| => (legs[i].account, legs[i].amount))
  }

  /**
   * The merchant gets the settled amount less the protocol fee, shipping and TCS; each of these, if there is any,
   * goes to its own account.
   */
  predicate PaysAccounts(
    s: Submission, merchantAccount: string, feeAccount: string, fee: int, logisticsAccount: string,
    before: Ledger, legs: seq<RouteTransfer>)
  {
    var d, shipping := s.cart.taxableSubtotalPaise, s.cart.shippingPaise;
    var tcs := if s.cart.merchantStateCode == s.cart.buyerDeliveryStateCode then 2 * (d / 400) else d / 200;
    UnusedPayment(before, s.paymentId, {merchantAccount, feeAccount, logisticsAccount, "acc_tcs_withholding"}) ==>
      Paid(legs) ==
              [(merchantAccount, s.execution.settlementAmountPaise - fee - shipping - tcs)]
              + (if fee > 0 then [(feeAccount, fee)] else [])
              + (if shipping > 0 then [(logisticsAccount, shipping)] else [])
              + (if tcs > 0 then [("acc_tcs_withholding", tcs)] else [])
  }

  lemma UnusedMeansNew(before: Ledger, s: Submission, m: Manifest)
    requires Conserves(m)
    requires UnusedPayment(before, s.paymentId,
               {m.accounts.merchant, m.accounts.protocolFee, m.accounts.logistics, m.accounts.tcsHolding})
    ensures NewToProvider(before, s, m)
  {
    RequestsInOrder(m, s.paymentId);
    var requests := TransferRequests(m, s.paymentId);
    forall i | 0 <= i < |requests| ensures TransferKey(requests[i], s.paymentId) !in before.idempotent {
      var r := requests[i];
      assert TransferKey(r, s.paymentId) == "trf_" + s.paymentId + "_" + r.account + "_" + r.purpose;
    }
  }

  /** The legs of a result are the requests of its manifest, account by account and amount by amount. */
  lemma LegsMatchRequests(s: Submission, m: Manifest, p: Provider, before: Ledger)
    requires Conserves(m) && NewToProvider(before, s, m) && !SplitOf(before, s, m, p).failed
    ensures var legs, requests := SplitOf(before, s, m, p).legs, TransferRequests(m, s.paymentId);
            |legs| == |requests| && forall i :: 0 <= i < |legs| ==>
              legs[i].account == requests[i].account && legs[i].amount == requests[i].amount
  {
    RequestsCoverManifest(m, s.paymentId);
    FreshSplitPaysManifest(
      before, m, TransferRequests(m, s.paymentId), s.paymentId, p.freshIds, p.transferAccepted);
  }

  lemma PaidByManifest(m: Manifest, paymentId: string, legs: seq<RouteTransfer>)
    requires Conserves(m) && |legs| == |TransferRequests(m, paymentId)|
    requires var requests := TransferRequests(m, paymentId); forall i :: 0 <= i < |legs| ==>
      legs[i].account == requests[i].account && legs[i].amount == requests[i].amount
    ensures Paid(legs) ==
            [(m.accounts.merchant, m.merchant)]
            + (if m.protocolFee > 0 then [(m.accounts.protocolFee, m.protocolFee)] else [])
            + (if m.logistics > 0 then [(m.accounts.logistics, m.logistics)] else [])
            + (if m.tcs > 0 then [(m.accounts.tcsHolding, m.tcs)] else [])
  {
    RequestsInOrder(m, paymentId);
  }

  lemma SettledPaysAccounts(
    s: Submission, accounts: Accounts, fee: int, p: Provider, before: Ledger, now: Ledger, r: SettlementOutcome)
    requires ValidSubmission(s) && InvoiceReady(s) && r.Settled? && accounts.tcsHolding == "acc_tcs_withholding"
    requires SettledOrNot(s, BuildSplitManifest(s.cart, accounts, fee), p, before, now, r)
    ensures PaysAccounts(
      s, accounts.merchant, accounts.protocolFee, fee, accounts.logistics, before, r.result.transfers)
  {
    var m := BuildSplitManifest(s.cart, accounts, fee).manifest;
    ManifestInNumbers(s.cart, accounts, fee);
    if UnusedPayment(before, s.paymentId,
         {accounts.merchant, accounts.protocolFee, accounts.logistics, "acc_tcs_withholding"}) {
      UnusedMeansNew(before, s, m);
      LegsMatchRequests(s, m, p, before);
      PaidByManifest(m, s.paymentId, r.result.transfers);
    }
  }

  class TwoPhaseCommitSaga {
    const route: RouteClient
    const nonces: NonceLedger
    const dlq: CompensationDlq?
    const ledger: SettlementLedger?
    const protocolFeeAccount: string
    const protocolFeePaise: int
    const logisticsAccount: string

    constructor (
      route: RouteClient, nonces: NonceLedger, dlq: CompensationDlq?, ledger: SettlementLedger?,
      protocolFeeAccount: string, protocolFeePaise: int, logisticsAccount: string)
      ensures this.route == route && this.nonces == nonces && this.dlq == dlq && this.ledger == ledger
      ensures this.protocolFeeAccount == protocolFeeAccount && this.protocolFeePaise == protocolFeePaise
      ensures this.logisticsAccount == logisticsAccount
    {
      this.route, this.nonces, this.dlq, this.ledger := route, nonces, dlq, ledger;
      this.protocolFeeAccount, this.protocolFeePaise := protocolFeeAccount, protocolFeePaise;
      this.logisticsAccount := logisticsAccount;
    }

    ghost function Now(): World
      reads nonces, route, dlq, ledger
    {
      World(nonces.keys, route.captured, KeptBy(ledger), LedgerOf(route), TrailOf(route, dlq))
    }

    /** Changes nothing: refusals here cost the caller neither nonce nor claim. */
    method Authorize(s: Submission, serverTime: int, hash: string -> string, fold: string -> string)
      returns (r: Refusal)
      requires ValidSubmission(s)
      ensures r == None || r.Unproven?
      ensures r == None <==> Authorized(s, serverTime, hash, fold)
      ensures r.Unproven? ==> FirstFailure(s, serverTime, hash, fold, r.why)
    {
      if !s.signaturesValid {
        return Unproven(SignatureInvalid);
      }
      var chain := ChainOf(s, hash);
      if chain != ChainAccepted {
        return Unproven(ChainBroken(chain));
      }
      var gate := ValidateBudgetGate(s.intent, s.cart, s.execution, serverTime, Categories(s.cart), fold);
      if gate != Accepted {
        return Unproven(GateRefused(gate));
      }
      if serverTime > s.cart.inventoryLockExpiresAt {
        return Unproven(LockExpired);
      }
      return None;
    }

    /** `_claimSettlementSlot`: a cap refusal leaves the claim behind. */
    method ClaimSettlementSlot(s: Submission) returns (claimed: bool, booked: bool)
      modifies ledger
      ensures var b := old(KeptBy(ledger));
        && (claimed <==> ClaimGranted(b, s)) && (booked <==> ClaimGranted(b, s) && SpendGranted(b, s))
        && KeptBy(ledger) == KeptAfter(b, s, if !claimed then ClaimTaken else if !booked then OverCap else NotSplit)
    {
      if ledger == null {
        return true, true;
      }
      claimed := ledger.ClaimCartSettlement(s.execution.cartMandateHash);
      if !claimed {
        assert ledger.claims == old(ledger.claims);
        return claimed, false;
      }
      booked := ledger.RecordCumulativeSpend(
        s.intent.mandateId, s.execution.settlementAmountPaise, s.intent.maxBudgetPaise);
    }

    /** `releaseSettlementSlot`, after a capture that moved no money. */
    method ReleaseSettlementSlot(s: Submission, ghost b: Kept)
      requires ClaimGranted(b, s) && KeptBy(ledger) == KeptAfter(b, s, NotSplit)
      modifies ledger
      ensures KeptBy(ledger) == KeptAfter(b, s, NotCaptured)
    {
      if ledger != null {
        ledger.ReleaseCartClaim(s.execution.cartMandateHash);
        ledger.ReleaseCumulativeSpend(s.intent.mandateId, s.execution.settlementAmountPaise);
      }
    }

    /** Capture, or give claim and spend back because no money moved. */
    method CaptureOrRelease(s: Submission, accepted: bool, ghost b: Kept) returns (captured: bool)
      requires ValidSubmission(s)
      requires ClaimGranted(b, s) && KeptBy(ledger) == KeptAfter(b, s, NotSplit)
      modifies route`captured
      modifies ledger
      ensures captured == accepted
      ensures route.captured ==
        if captured then old(route.captured)[s.paymentId := s.execution.settlementAmountPaise] else old(route.captured)
      ensures KeptBy(ledger) == KeptAfter(b, s, if captured then NotSplit else NotCaptured)
    {
      var capture := route.CapturePayment(s.paymentId, s.execution.settlementAmountPaise, accepted);
      captured := capture.Done?;
      if !captured {
        ReleaseSettlementSlot(s, b);
      }
    }

    /** Claim, book and capture. */
    method ClaimAndCapture(s: Submission, captureAccepted: bool) returns (refusal: Refusal)
      requires ValidSubmission(s)
      modifies route`captured
      modifies ledger
      ensures !refusal.Unproven? && !refusal.BadNonce?
      ensures ExplainsRefusal(s, old(KeptBy(ledger)), captureAccepted, refusal)
      ensures route.captured ==
        if refusal == None then old(route.captured)[s.paymentId := s.execution.settlementAmountPaise]
        else old(route.captured)
      ensures KeptBy(ledger) == KeptAfter(old(KeptBy(ledger)), s, ReachedBy(refusal))
    {
      var claimed, booked := ClaimSettlementSlot(s);
      if !claimed {
        return NotClaimed;
      }
      if !booked {
        return NotBooked;
      }
      var captured := CaptureOrRelease(s, captureAccepted, old(KeptBy(ledger)));
      return if captured then None else CaptureFailed;
    }

    /** The part of phase 1 that consumes state, once the submission is authorized. */
    method ConsumeAndCapture(s: Submission, e: Environment) returns (refusal: Refusal, ghost answer: NonceOutcome)
      requires ValidSubmission(s)
      modifies nonces, route`captured
      modifies ledger
      ensures Consumes(s, e, old(Now()), Now(), answer, refusal)
    {
      var nonce := nonces.ValidateAndRecordNonce(
        s.execution.nonce, s.execution.timestamp, e.serverTime, e.clockMs);
      answer := nonce;
      if nonce != NonceAccepted {
        return BadNonce(nonce), answer;
      }
      refusal := ClaimAndCapture(s, e.provider.captureAccepted);
    }

    /** Phase 1. The outcome `None` means the payment is captured. */
    method VerifyAndCapturePhase(s: Submission, e: Environment) returns (refusal: Refusal)
      requires ValidSubmission(s)
      modifies nonces, route`captured
      modifies ledger
      ensures FirstPhase(s, e, old(Now()), Now(), refusal)
    {
      ghost var before, answer := Now(), NonceAccepted;
      refusal := Authorize(s, e.serverTime, e.hash, e.fold);
      if refusal != None {
        UnprovenPhase(s, e, before, refusal);
        return;
      }
      refusal, answer := ConsumeAndCapture(s, e);
      ProvenPhase(s, e, before, Now(), answer, refusal);
    }

    function PayoutAccounts(merchantAccount: string): Accounts {
      Accounts(merchantAccount, protocolFeeAccount, logisticsAccount, DEFAULT_TCS_ACCOUNT)
    }

    /** The orchestrator's `buildSplitManifest`. */
    function ManifestFor(s: Submission, merchantAccount: string): ManifestOutcome
      requires ValidSubmission(s)
    {
      BuildSplitManifest(s.cart, PayoutAccounts(merchantAccount), protocolFeePaise)
    }

    /** Builds the legs of the manifest and executes them. */
    method SplitPhase(s: Submission, m: Manifest, p: Provider)
      returns (r: SplitOutcome)
      requires Conserves(m) && PositiveRecords(LedgerOf(route))
      modifies route`transfers, route`idempotentTransfers, route`reversals, route`attempted
      modifies dlq
      ensures var split := SplitOf(old(LedgerOf(route)), s, m, p);
              && LedgerOf(route) == split.ledger && PositiveRecords(split.ledger)
              && r == (if split.failed then CompensationTriggered else Legs(split.legs))
              && SplitLeaves(old(TrailOf(route, dlq)), split, p.reversalAccepted, RetriesOf(dlq), TrailOf(route, dlq))
    {
      var requests := BuildTransferRequests(m, s.paymentId);
      r := ExecuteSplitPhase(route, dlq, requests, s.paymentId, p.freshIds, p.transferAccepted, p.reversalAccepted);
    }

    /** `_releaseProvisionalSpend`: the spend goes back, the claim stays. */
    method ReleaseProvisionalSpend(s: Submission, ghost b: Kept)
      requires KeptBy(ledger) == KeptAfter(b, s, NotSplit)
      modifies ledger
      ensures KeptBy(ledger) == KeptAfter(b, s, Reversed)
    {
      if ledger != null {
        ledger.ReleaseCumulativeSpend(s.intent.mandateId, s.execution.settlementAmountPaise);
      }
    }

    /** Everything after the manifest: split, give the spend back if it fails, invoice. */
    method PayOut(s: Submission, m: Manifest, p: Provider, ghost b: Kept)
      returns (r: SettlementOutcome)
      requires ValidSubmission(s) && Conserves(m) && PositiveRecords(LedgerOf(route)) && InvoiceReady(s)
      requires KeptBy(ledger) == KeptAfter(b, s, NotSplit)
      modifies route`transfers, route`idempotentTransfers, route`reversals, route`attempted
      modifies dlq
      modifies ledger
      ensures SplitReached(r)
      ensures PaidOut(s, m, p, old(LedgerOf(route)), LedgerOf(route), r) && PositiveRecords(LedgerOf(route))
      ensures SplitLeaves(old(TrailOf(route, dlq)), SplitOf(old(LedgerOf(route)), s, m, p),
                          p.reversalAccepted, RetriesOf(dlq), TrailOf(route, dlq))
      ensures KeptBy(ledger) == KeptAfter(b, s, ProgressOf(r))
    {
      var split := SplitPhase(s, m, p);
      if split.CompensationTriggered? {
        ReleaseProvisionalSpend(s, b);
        return SplitRolledBack;
      }
      r := IssueResult(s, split.legs);
    }

    /** The result handed back, with the invoice of the cart. */
    method IssueResult(s: Submission, legs: seq<RouteTransfer>) returns (r: SettlementOutcome)
      requires ValidSubmission(s) && InvoiceReady(s)
      ensures r.Settled? || r.InvoiceRefused?
      ensures r.Settled? ==>
        && r.result.paymentId == s.paymentId && r.result.amountPaise == s.execution.settlementAmountPaise
        && r.result.transfers == legs && InvoiceFits(s.cart, r.result.invoice)
      ensures r.InvoiceRefused? <==> InvoiceTotal(s.cart) <= 0
      ensures r.InvoiceRefused? ==> !PlaceAgrees(s.cart)
    {
      if PlaceAgrees(s.cart) {
        AgreeingPlacesAreInvoiced(s);
      }
      var invoice := GenerateGstrInvoice(s.cart);
      r := if invoice.Issued?
           then Settled(SettlementResult(s.paymentId, s.execution.settlementAmountPaise, legs, invoice.invoice))
           else InvoiceRefused;
    }

    /** Manifest, split and invoice of a captured payment; a refused manifest leaves the spend booked. */
    method SettleCaptured(s: Submission, merchantAccount: string, p: Provider, ghost b: Kept)
      returns (r: SettlementOutcome)
      requires ValidSubmission(s) && PositiveRecords(LedgerOf(route)) && InvoiceReady(s)
      requires KeptBy(ledger) == KeptAfter(b, s, NotSplit)
      modifies route`transfers, route`idempotentTransfers, route`reversals, route`attempted
      modifies dlq
      modifies ledger
      ensures MoneyCaptured(r)
      ensures Ends(s, ManifestFor(s, merchantAccount), p, RetriesOf(dlq),
                   old(LedgerOf(route)), old(TrailOf(route, dlq)), LedgerOf(route), TrailOf(route, dlq), r)
      ensures r.Settled? ==>
        PaysAccounts(s, merchantAccount, protocolFeeAccount, protocolFeePaise, logisticsAccount,
                     old(LedgerOf(route)), r.result.transfers)
      ensures KeptBy(ledger) == KeptAfter(b, s, ProgressOf(r))
    {
      var built := ManifestFor(s, merchantAccount);
      if !built.Built? {
        return ManifestRefused;
      }
      r := PayOut(s, built.manifest, p, b);
      if r.Settled? {
        SettledPaysAccounts(
          s, PayoutAccounts(merchantAccount), protocolFeePaise, p, old(LedgerOf(route)), LedgerOf(route), r);
        if NewToProvider(old(LedgerOf(route)), s, built.manifest) {
          SettledMeansPaidInFull(
            s, PayoutAccounts(merchantAccount), protocolFeePaise, p, old(LedgerOf(route)), LedgerOf(route), r);
        }
      }
    }

    /** The second phase completes a settlement whose first phase captured the payment. */
    method CompleteSettlement(s: Submission, merchantAccount: string, e: Environment, ghost before: World)
      returns (r: SettlementOutcome)
      requires ValidSubmission(s) && PositiveRecords(LedgerOf(route)) && FirstPhase(s, e, before, Now(), None)
      modifies route`transfers, route`idempotentTransfers, route`reversals, route`attempted
      modifies dlq
      modifies ledger
      ensures Settles(s, e, ManifestFor(s, merchantAccount), RetriesOf(dlq), before, Now(), r)
      ensures r.Settled? ==>
        PaysAccounts(s, merchantAccount, protocolFeeAccount, protocolFeePaise, logisticsAccount,
                     old(LedgerOf(route)), r.result.transfers)
    {
      ghost var mid := Now();
      r := SettleCaptured(s, merchantAccount, e.provider, before.kept);
      PhasesSettle(s, e, ManifestFor(s, merchantAccount), RetriesOf(dlq), before, mid, Now(), r);
    }

    /** `executeSettlementSaga`. */
    method ExecuteSettlementSaga(s: Submission, merchantAccount: string, e: Environment) returns (r: SettlementOutcome)
      requires ValidSubmission(s) && PositiveRecords(LedgerOf(route))
      modifies nonces, route`captured
      modifies route`transfers, route`idempotentTransfers, route`reversals, route`attempted
      modifies dlq
      modifies ledger
      ensures Settles(s, e, ManifestFor(s, merchantAccount), RetriesOf(dlq), old(Now()), Now(), r)
      ensures r.Settled? ==>
        PaysAccounts(s, merchantAccount, protocolFeeAccount, protocolFeePaise, logisticsAccount,
                     old(LedgerOf(route)), r.result.transfers)
    {
      ghost var before := Now();
      var refusal := VerifyAndCapturePhase(s, e);
      if refusal != None {
        RefusalSettles(s, e, ManifestFor(s, merchantAccount), RetriesOf(dlq), before, Now(), refusal);
        return Refused(refusal);
      }
      r := CompleteSettlement(s, merchantAccount, e, before);
    }
  }
}
