/** The hash chain binding an execution mandate to its intent and cart (signatureChainVerifier.py). */
module MandateChain {
  import opened CanonicalJson
  import opened CanonicalMeaning

  const SIGNATURE_KEYS: set<string> := {"userSignature", "merchantSignature", "agentSignature"}

  datatype HashOutcome = Digest(hex: string) | HashDrift

  datatype ChainOutcome = ChainAccepted | IntentHashMismatch | CartHashMismatch | ChainDrift

  /** The mandate's dump without its top-level signature fields. */
  function Unsigned(mandate: seq<Field>): seq<Field> {
    if |mandate| == 0 then []
    else if mandate[0].key in SIGNATURE_KEYS then Unsigned(mandate[1..])
    else [mandate[0]] + Unsigned(mandate[1..])
  }

  /** SHA-256 is the parameter `hash`, applied to the canonical text. */
  function ComputeMandateHash(hash: string -> string, mandate: seq<Field>): HashOutcome {
    match CanonicalizeJson(Obj(Unsigned(mandate)))
    case Text(t) => Digest(hash(t))
    case ArithmeticDrift => HashDrift
  }

  function VerifyMandateChain(
    hash: string -> string, intent: seq<Field>, cart: seq<Field>,
    intentMandateHash: string, cartMandateHash: string): ChainOutcome
  {
    match ComputeMandateHash(hash, intent)
    case HashDrift => ChainDrift
    case Digest(h) =>
      if h != intentMandateHash then IntentHashMismatch
      else
        match ComputeMandateHash(hash, cart)
        case HashDrift => ChainDrift
        case Digest(c) => if c != cartMandateHash then CartHashMismatch else ChainAccepted
  }

  /** A dump of a mandate model: distinct field names, integers only. */
  predicate IsDump(mandate: seq<Field>) {
    DistinctKeys(mandate) && WellFormedFields(mandate) && FloatFreeFields(mandate)
  }

  /** `hash` tells these two mandates' canonical texts apart. */
  ghost predicate NoCollision(hash: string -> string, a: seq<Field>, b: seq<Field>) {
    var x, y := CanonicalizeJson(Obj(Unsigned(a))), CanonicalizeJson(Obj(Unsigned(b)));
    x.Text? && y.Text? && hash(x.text) == hash(y.text) ==> x == y
  }

  /** The two mandates agree on every non-signature field, whatever their key order. */
  ghost predicate SameTerms(a: seq<Field>, b: seq<Field>) {
    MeaningFields(Unsigned(a)) == MeaningFields(Unsigned(b))
  }

  lemma {:induction false} UnsignedSubset(mandate: seq<Field>, key: string)
    requires HasKey(Unsigned(mandate), key)
    ensures HasKey(mandate, key) && key !in SIGNATURE_KEYS
  {
    if mandate[0].key in SIGNATURE_KEYS {
      UnsignedSubset(mandate[1..], key);
    } else {
      var i :| 0 <= i < |Unsigned(mandate)| && Unsigned(mandate)[i].key == key;
      if i > 0 {
        assert Unsigned(mandate[1..])[i - 1].key == key;
        UnsignedSubset(mandate[1..], key);
      }
    }
    if HasKey(mandate[1..], key) {
      var j :| 0 <= j < |mandate[1..]| && mandate[1..][j].key == key;
      assert mandate[j + 1].key == key;
    }
  }

  lemma {:induction false} UnsignedDump(mandate: seq<Field>)
    requires IsDump(mandate)
    ensures IsDump(Unsigned(mandate))
  {
    if |mandate| > 0 {
      var tail := mandate[1..];
      assert forall i :: 0 <= i < |tail| ==> tail[i] == mandate[i + 1];
      UnsignedDump(tail);
      var u := Unsigned(mandate);
      if mandate[0].key !in SIGNATURE_KEYS {
        assert u[0] == mandate[0] && u[1..] == Unsigned(tail);
        forall i, j | 0 <= i < j < |u| ensures u[i].key != u[j].key {
          if i == 0 {
            assert u[j] == Unsigned(tail)[j - 1];
            UnsignedSubset(tail, u[j].key);
            var k :| 0 <= k < |tail| && tail[k].key == u[j].key;
          } else {
            assert u[i] == Unsigned(tail)[i - 1] && u[j] == Unsigned(tail)[j - 1];
          }
        }
      }
    }
  }

  lemma InsertThenDrop(m: map<string, Value>, k: string, v: Value, gone: set<string>)
    ensures k in gone ==> m[k := v] - gone == m - gone
    ensures k !in gone ==> m[k := v] - gone == (m - gone)[k := v]
  {
  }

  /** Stripping the signatures removes exactly the signature keys from the object. */
  lemma {:induction false} UnsignedTerms(mandate: seq<Field>)
    ensures MeaningFields(Unsigned(mandate)) ==
            MeaningFields(mandate) - {"userSignature", "merchantSignature", "agentSignature"}
  {
    if |mandate| > 0 {
      UnsignedTerms(mandate[1..]);
      InsertThenDrop(MeaningFields(mandate[1..]), mandate[0].key, Meaning(mandate[0].value), SIGNATURE_KEYS);
      var u := Unsigned(mandate);
      if mandate[0].key !in SIGNATURE_KEYS {
        assert u[0] == mandate[0] && u[1..] == Unsigned(mandate[1..]);
      }
    }
  }

  /** Each mandate is hashed against its own hash, and a refusal names the mandate whose hash differs. */
  lemma ChainChecksBoth(
    hash: string -> string, intent: seq<Field>, cart: seq<Field>, intentHash: string, cartHash: string)
    ensures var i, c := CanonicalizeJson(Obj(Unsigned(intent))), CanonicalizeJson(Obj(Unsigned(cart)));
            var r := VerifyMandateChain(hash, intent, cart, intentHash, cartHash);
            && (r == ChainAccepted <==> i.Text? && c.Text? && hash(i.text) == intentHash && hash(c.text) == cartHash)
            && (r == IntentHashMismatch <==> i.Text? && hash(i.text) != intentHash)
            && (r == CartHashMismatch <==>
                  i.Text? && c.Text? && hash(i.text) == intentHash && hash(c.text) != cartHash)
            && (r == ChainDrift <==> !i.Text? || (hash(i.text) == intentHash && !c.Text?))
    ensures IsDump(intent) && IsDump(cart) ==>
      VerifyMandateChain(hash, intent, cart, intentHash, cartHash) != ChainDrift
  {
    if IsDump(intent) && IsDump(cart) {
      UnsignedDump(intent);
      UnsignedDump(cart);
    }
  }

  /** Two dumps have equal hashes exactly when they agree on every non-signature field. */
  lemma HashFixesTerms(hash: string -> string, a: seq<Field>, b: seq<Field>)
    requires IsDump(a) && IsDump(b) && NoCollision(hash, a, b)
    ensures ComputeMandateHash(hash, a) == ComputeMandateHash(hash, b) <==> SameTerms(a, b)
    ensures ComputeMandateHash(hash, a).Digest?
  {
    UnsignedDump(a);
    UnsignedDump(b);
    CanonicalTextFixesValue(Obj(Unsigned(a)), Obj(Unsigned(b)));
  }

  /**
   * Once an execution mandate's hashes have been accepted with one intent and cart, they are
   * accepted with another exactly when it carries the same terms: nothing but signatures and key
   * order can differ.
   */
  lemma AcceptedChainFixesTerms(
    hash: string -> string, intent: seq<Field>, cart: seq<Field>, intent': seq<Field>, cart': seq<Field>,
    intentHash: string, cartHash: string)
    requires IsDump(intent) && IsDump(cart) && IsDump(intent') && IsDump(cart')
    requires NoCollision(hash, intent, intent') && NoCollision(hash, cart, cart')
    requires VerifyMandateChain(hash, intent, cart, intentHash, cartHash) == ChainAccepted
    ensures VerifyMandateChain(hash, intent', cart', intentHash, cartHash) == ChainAccepted <==>
            SameTerms(intent, intent') && SameTerms(cart, cart')
  {
    HashFixesTerms(hash, intent, intent');
    HashFixesTerms(hash, cart, cart');
  }
}
