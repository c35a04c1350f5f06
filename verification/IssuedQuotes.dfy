/** Quotes issued by the mesh, pruned on write (issuedQuoteRegistry.ts). */
module IssuedQuotes {

  const GRACE_SECONDS := 2

  datatype IssuedQuote = IssuedQuote(
    quoteHash: string, skuId: string, quantity: int, buyerAgentId: string, expiresAt: int)

  datatype Lookup = Lookup(quoteHash: string, skuId: string, quantity: int, buyerAgentId: string)

  datatype Verdict =
    | Issued(issued: IssuedQuote)
    | Unknown
    | Expired(issued: IssuedQuote, lapsedSeconds: int)
    | ParametersDiffer(issued: IssuedQuote)

  predicate Lapsed(q: IssuedQuote, now: int) {
    q.expiresAt < now - GRACE_SECONDS
  }

  predicate Covers(q: IssuedQuote, l: Lookup) {
    q.skuId == l.skuId && q.quantity == l.quantity && q.buyerAgentId == l.buyerAgentId
  }

  function VerdictOn(quotes: map<string, IssuedQuote>, l: Lookup, now: int): Verdict {
    if l.quoteHash !in quotes then Unknown
    else
      var q := quotes[l.quoteHash];
      if Lapsed(q, now) then Expired(q, now - q.expiresAt)
      else if !Covers(q, l) then ParametersDiffer(q)
      else Issued(q)
  }

  function Unlapsed(quotes: map<string, IssuedQuote>, now: int): map<string, IssuedQuote> {
    map h | h in quotes && !Lapsed(quotes[h], now) :: quotes[h]
  }

  class IssuedQuoteRegistry {
    var issuedByHash: map<string, IssuedQuote>

    constructor ()
      ensures issuedByHash == map[]
    {
      issuedByHash := map[];
    }

    method ForgetLapsed(nowUnix: int)
      modifies this
      ensures issuedByHash == Unlapsed(old(issuedByHash), nowUnix)
      ensures forall h :: h in issuedByHash <==> h in old(issuedByHash) && old(issuedByHash)[h].expiresAt >= nowUnix - 2
    {
      var oldestUsable := nowUnix - GRACE_SECONDS;
      var pending := issuedByHash.Keys;
      while pending != {}
        invariant pending <= issuedByHash.Keys <= old(issuedByHash).Keys
        invariant forall h :: h in issuedByHash ==> issuedByHash[h] == old(issuedByHash)[h]
        invariant forall h :: h in old(issuedByHash) && h !in pending ==>
          (h in issuedByHash <==> !Lapsed(old(issuedByHash)[h], nowUnix))
        decreases pending
      {
        var hash :| hash in pending;
        if issuedByHash[hash].expiresAt < oldestUsable {
          issuedByHash := issuedByHash - {hash};
        }
        pending := pending - {hash};
      }
    }

    method Record(quote: IssuedQuote, nowUnix: int)
      modifies this
      ensures issuedByHash == Unlapsed(old(issuedByHash), nowUnix)[quote.quoteHash := quote]
    {
      ForgetLapsed(nowUnix);
      issuedByHash := issuedByHash[quote.quoteHash := quote];
    }

    method Verify(requested: Lookup, nowUnix: int) returns (r: Verdict)
      ensures r == VerdictOn(issuedByHash, requested, nowUnix)
      ensures r == Unknown <==> requested.quoteHash !in issuedByHash
      ensures requested.quoteHash in issuedByHash ==>
        var q := issuedByHash[requested.quoteHash];
        var same := q.skuId == requested.skuId && q.quantity == requested.quantity
                    && q.buyerAgentId == requested.buyerAgentId;
        r == (if q.expiresAt < nowUnix - 2 then Expired(q, nowUnix - q.expiresAt)
              else if same then Issued(q) else ParametersDiffer(q))
    {
      if requested.quoteHash !in issuedByHash {
        return Unknown;
      }
      var issued := issuedByHash[requested.quoteHash];
      if issued.expiresAt < nowUnix - GRACE_SECONDS {
        return Expired(issued, nowUnix - issued.expiresAt);
      }
      if issued.skuId != requested.skuId || issued.quantity != requested.quantity
         || issued.buyerAgentId != requested.buyerAgentId {
        return ParametersDiffer(issued);
      }
      return Issued(issued);
    }
  }

  // ---------------------------------------------------------------- against a map that never forgets

  datatype Write = Write(quote: IssuedQuote, now: int)

  function Pruned(writes: seq<Write>): map<string, IssuedQuote> {
    if |writes| == 0 then map[]
    else
      var w := writes[|writes| - 1];
      Unlapsed(Pruned(writes[..|writes| - 1]), w.now)[w.quote.quoteHash := w.quote]
  }

  function Remembered(writes: seq<Write>): map<string, IssuedQuote> {
    if |writes| == 0 then map[]
    else
      var w := writes[|writes| - 1];
      Remembered(writes[..|writes| - 1])[w.quote.quoteHash := w.quote]
  }

  predicate ClockAdvances(writes: seq<Write>) {
    forall i, j :: 0 <= i < j < |writes| ==> writes[i].now <= writes[j].now
  }

  /** The last write swept the quote away: it had lapsed by then and is not the one just written. */
  predicate Forgotten(writes: seq<Write>, q: IssuedQuote) {
    |writes| > 0 &&
    var w := writes[|writes| - 1];
    Lapsed(q, w.now) && q.quoteHash != w.quote.quoteHash
  }

  lemma {:induction false} FiledUnderHash(writes: seq<Write>)
    ensures forall h :: h in Remembered(writes) ==> Remembered(writes)[h].quoteHash == h
  {
    if |writes| > 0 {
      FiledUnderHash(writes[..|writes| - 1]);
    }
  }

  /** The registry holds exactly the remembered quotes that the last write did not sweep away. */
  lemma {:induction false} HoldsWhatIsNotForgotten(writes: seq<Write>)
    requires ClockAdvances(writes)
    ensures forall h :: h in Pruned(writes) <==> h in Remembered(writes) && !Forgotten(writes, Remembered(writes)[h])
    ensures forall h :: h in Pruned(writes) ==> Pruned(writes)[h] == Remembered(writes)[h]
  {
    FiledUnderHash(writes);
    if |writes| > 0 {
      var rest, w := writes[..|writes| - 1], writes[|writes| - 1];
      HoldsWhatIsNotForgotten(rest);
      FiledUnderHash(rest);
      forall h | h in Remembered(rest) && Forgotten(rest, Remembered(rest)[h])
        ensures Lapsed(Remembered(rest)[h], w.now)
      {
        assert rest[|rest| - 1].now <= w.now;
      }
    }
  }

  lemma VerdictFrom(
    pruned: map<string, IssuedQuote>, whole: map<string, IssuedQuote>, l: Lookup, now: int, forgotten: bool)
    requires l.quoteHash in pruned <==> l.quoteHash in whole && !forgotten
    requires l.quoteHash in pruned ==> pruned[l.quoteHash] == whole[l.quoteHash]
    requires forgotten && l.quoteHash in whole ==> Lapsed(whole[l.quoteHash], now)
    ensures VerdictOn(pruned, l, now) ==
            if VerdictOn(whole, l, now).Expired? && forgotten then Unknown else VerdictOn(whole, l, now)
  {
  }

  /**
   * After any writes on a clock that never goes back, the pruned registry gives the verdict of one that
   * never forgets, except that an expired quote the last write swept away has become unknown.
   */
  lemma VerdictAsIfNeverPruned(writes: seq<Write>, l: Lookup, now: int)
    requires ClockAdvances(writes) && (|writes| > 0 ==> writes[|writes| - 1].now <= now)
    ensures var whole := VerdictOn(Remembered(writes), l, now);
            var pruned := VerdictOn(Pruned(writes), l, now);
            if whole.Expired? && Forgotten(writes, whole.issued) then pruned == Unknown else pruned == whole
  {
    HoldsWhatIsNotForgotten(writes);
    var whole, h := Remembered(writes), l.quoteHash;
    VerdictFrom(Pruned(writes), whole, l, now, h in whole && Forgotten(writes, whole[h]));
  }
}
