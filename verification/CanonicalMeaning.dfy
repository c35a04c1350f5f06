/** Two payloads have one canonical text exactly when they are one JSON value up to key order. */
module CanonicalMeaning {
  import opened CanonicalJson
  import opened CanonicalRoundTrip

  /** Every object, at every depth, lists its keys in strictly increasing UTF-16 order. */
  ghost predicate Sorted(j: Json)
    decreases j, 1
  {
    match j
    case Arr(items) => SortedAll(items)
    case Obj(fields) => SortedFields(fields)
    case _ => true
  }

  ghost predicate SortedAll(items: seq<Json>)
    decreases items, 0
  {
    |items| == 0 || (Sorted(items[0]) && SortedAll(items[1..]))
  }

  ghost predicate BeforeAll(key: string, fields: seq<Field>) {
    forall i :: 0 <= i < |fields| ==> KeyBefore(key, fields[i].key)
  }

  ghost predicate SortedFields(fields: seq<Field>)
    decreases fields, 0
  {
    |fields| == 0 ||
    (BeforeAll(fields[0].key, fields[1..]) && Sorted(fields[0].value) && SortedFields(fields[1..]))
  }

  lemma KeyBeforeTransitive(a: string, b: string, c: string)
    requires KeyBefore(a, b) && KeyBefore(b, c)
    ensures KeyBefore(a, c)
  {
    LexTransitive(Utf16SortKey(a), Utf16SortKey(b), Utf16SortKey(c));
  }

  lemma BeforeAllTransitive(a: string, b: string, fields: seq<Field>)
    requires KeyBefore(a, b) && BeforeAll(b, fields)
    ensures BeforeAll(a, fields)
  {
    forall i | 0 <= i < |fields| ensures KeyBefore(a, fields[i].key) {
      KeyBeforeTransitive(a, b, fields[i].key);
    }
  }

  lemma BeforeAllExcludes(key: string, fields: seq<Field>)
    requires BeforeAll(key, fields)
    ensures !HasKey(fields, key)
  {
    LexIrreflexive(Utf16SortKey(key));
  }

  // ---------------------------------------------------------------- sorting keeps the object

  lemma {:induction false} InsertBeforeAll(key: string, f: Field, sorted: seq<Field>)
    requires KeyBefore(key, f.key) && BeforeAll(key, sorted)
    ensures BeforeAll(key, InsertField(f, sorted))
  {
    if |sorted| > 0 && !KeyBefore(f.key, sorted[0].key) {
      InsertBeforeAll(key, f, sorted[1..]);
    }
  }

  /** Inserting a new key keeps the list sorted. */
  lemma {:induction false} InsertSorted(f: Field, sorted: seq<Field>)
    requires SortedFields(sorted) && Sorted(f.value) && !HasKey(sorted, f.key)
    ensures SortedFields(InsertField(f, sorted))
  {
    var r := InsertField(f, sorted);
    if |sorted| == 0 {
      assert r[0] == f && r[1..] == [];
    } else if KeyBefore(f.key, sorted[0].key) {
      BeforeAllTransitive(f.key, sorted[0].key, sorted[1..]);
      assert r[0] == f && r[1..] == sorted;
    } else {
      var tail := sorted[1..];
      KeyOrderTotal(f.key, sorted[0].key);
      InsertBeforeAll(sorted[0].key, f, tail);
      assert forall i :: 0 <= i < |tail| ==> tail[i] == sorted[i + 1];
      InsertSorted(f, tail);
      assert r[0] == sorted[0] && r[1..] == InsertField(f, tail);
    }
  }

  lemma SwapInserts(m: map<string, Value>, k: string, v: Value, l: string, w: Value)
    requires k != l
    ensures m[k := v][l := w] == m[l := w][k := v]
  {
  }

  /** Inserting a new key adds that one entry to the object. */
  lemma {:induction false} InsertMeaning(f: Field, sorted: seq<Field>)
    requires !HasKey(sorted, f.key)
    ensures MeaningFields(InsertField(f, sorted)) == MeaningFields(sorted)[f.key := Meaning(f.value)]
    ensures FloatFreeFields(InsertField(f, sorted)) <==> FloatFree(f.value) && FloatFreeFields(sorted)
  {
    var r := InsertField(f, sorted);
    if |sorted| == 0 || KeyBefore(f.key, sorted[0].key) {
      assert r[0] == f && r[1..] == sorted;
    } else {
      var head, tail := sorted[0], sorted[1..];
      assert forall i :: 0 <= i < |tail| ==> tail[i] == sorted[i + 1];
      InsertMeaning(f, tail);
      SwapInserts(MeaningFields(tail), head.key, Meaning(head.value), f.key, Meaning(f.value));
      assert r[0] == head && r[1..] == InsertField(f, tail);
    }
  }

  lemma {:induction false} SortKeeps(fields: seq<Field>)
    requires DistinctKeys(fields)
    requires forall i :: 0 <= i < |fields| ==> Sorted(fields[i].value)
    ensures SortedFields(SortFields(fields))
    ensures MeaningFields(SortFields(fields)) == MeaningFields(fields)
    ensures FloatFreeFields(SortFields(fields)) <==> FloatFreeFields(fields)
  {
    if |fields| > 0 {
      var tail := fields[1..];
      SortKeeps(tail);
      var sorted := SortFields(tail);
      assert HasKey(sorted, fields[0].key) <==> fields[0].key in MeaningFields(sorted);
      assert HasKey(tail, fields[0].key) <==> fields[0].key in MeaningFields(tail);
      InsertSorted(fields[0], sorted);
      InsertMeaning(fields[0], sorted);
    }
  }

  // ---------------------------------------------------------------- normalising keeps the value

  lemma {:induction false} NormalizeKeeps(j: Json)
    requires WellFormed(j)
    ensures Sorted(Normalize(j)) && Meaning(Normalize(j)) == Meaning(j)
    ensures FloatFree(Normalize(j)) <==> FloatFree(j)
    decreases j, 1
  {
    match j
    case Arr(items) => NormalizeKeepsAll(items);
    case Obj(fields) =>
      NormalizeKeepsFields(fields);
      SortKeeps(NormalizeFields(fields));
    case _ =>
  }

  lemma {:induction false} NormalizeKeepsAll(items: seq<Json>)
    requires WellFormedAll(items)
    ensures SortedAll(NormalizeAll(items)) && MeaningAll(NormalizeAll(items)) == MeaningAll(items)
    ensures FloatFreeAll(NormalizeAll(items)) <==> FloatFreeAll(items)
    decreases items, 0
  {
    if |items| > 0 {
      NormalizeKeeps(items[0]);
      NormalizeKeepsAll(items[1..]);
      var r := NormalizeAll(items);
      assert r[0] == Normalize(items[0]) && r[1..] == NormalizeAll(items[1..]);
    }
  }

  lemma {:induction false} NormalizeKeepsFields(fields: seq<Field>)
    requires WellFormedFields(fields)
    ensures forall i :: 0 <= i < |fields| ==> Sorted(NormalizeFields(fields)[i].value)
    ensures MeaningFields(NormalizeFields(fields)) == MeaningFields(fields)
    ensures FloatFreeFields(NormalizeFields(fields)) <==> FloatFreeFields(fields)
    decreases fields, 0
  {
    if |fields| > 0 {
      NormalizeKeeps(fields[0].value);
      NormalizeKeepsFields(fields[1..]);
      var r := NormalizeFields(fields);
      assert r[0].key == fields[0].key && r[1..] == NormalizeFields(fields[1..]);
    }
  }

  // ---------------------------------------------------------------- one sorted form per value

  lemma {:induction false} SortedFormUnique(a: Json, b: Json)
    requires Sorted(a) && Sorted(b) && Meaning(a) == Meaning(b)
    ensures a == b
    decreases a, 1
  {
    match a
    case Arr(items) => SortedFormUniqueAll(items, b.items);
    case Obj(fields) => SortedFormUniqueFields(fields, b.fields);
    case _ =>
  }

  lemma {:induction false} SortedFormUniqueAll(xs: seq<Json>, ys: seq<Json>)
    requires SortedAll(xs) && SortedAll(ys) && MeaningAll(xs) == MeaningAll(ys)
    ensures xs == ys
    decreases xs, 0
  {
    if |xs| > 0 {
      assert MeaningAll(xs)[0] == Meaning(xs[0]) && MeaningAll(xs)[1..] == MeaningAll(xs[1..]);
      assert MeaningAll(ys)[0] == Meaning(ys[0]) && MeaningAll(ys)[1..] == MeaningAll(ys[1..]);
      SortedFormUnique(xs[0], ys[0]);
      SortedFormUniqueAll(xs[1..], ys[1..]);
      assert xs == [xs[0]] + xs[1..] && ys == [ys[0]] + ys[1..];
    }
  }

  lemma SameFirstKey(xs: seq<Field>, ys: seq<Field>)
    requires |xs| > 0 && |ys| > 0
    requires BeforeAll(xs[0].key, xs[1..]) && BeforeAll(ys[0].key, ys[1..])
    requires HasKey(xs, ys[0].key) && HasKey(ys, xs[0].key)
    ensures xs[0].key == ys[0].key
  {
    var i :| 0 <= i < |xs| && xs[i].key == ys[0].key;
    var j :| 0 <= j < |ys| && ys[j].key == xs[0].key;
    if i > 0 && j > 0 {
      assert xs[1..][i - 1].key == ys[0].key && ys[1..][j - 1].key == xs[0].key;
      KeyBeforeTransitive(xs[0].key, ys[0].key, xs[0].key);
      LexIrreflexive(Utf16SortKey(xs[0].key));
    }
  }

  lemma DropInserted(m: map<string, Value>, k: string, v: Value)
    requires k !in m
    ensures m[k := v] - {k} == m
  {
  }

  lemma MeaningTail(fields: seq<Field>)
    requires |fields| > 0 && BeforeAll(fields[0].key, fields[1..])
    ensures MeaningFields(fields[1..]) == MeaningFields(fields) - {fields[0].key}
  {
    BeforeAllExcludes(fields[0].key, fields[1..]);
    DropInserted(MeaningFields(fields[1..]), fields[0].key, Meaning(fields[0].value));
  }

  lemma {:induction false} SortedFormUniqueFields(xs: seq<Field>, ys: seq<Field>)
    requires SortedFields(xs) && SortedFields(ys) && MeaningFields(xs) == MeaningFields(ys)
    ensures xs == ys
    decreases xs, 0
  {
    if |xs| > 0 || |ys| > 0 {
      assert |xs| > 0 ==> xs[0].key in MeaningFields(xs);
      assert |ys| > 0 ==> ys[0].key in MeaningFields(ys);
      SameFirstKey(xs, ys);
      MeaningTail(xs);
      MeaningTail(ys);
      SortedFormUnique(xs[0].value, ys[0].value);
      SortedFormUniqueFields(xs[1..], ys[1..]);
      assert xs == [xs[0]] + xs[1..] && ys == [ys[0]] + ys[1..];
    }
  }

  // ---------------------------------------------------------------- main results

  /** Canonical text is the same exactly when the JSON value is the same up to key order. */
  lemma CanonicalTextFixesValue(a: Json, b: Json)
    requires WellFormed(a) && WellFormed(b) && FloatFree(a) && FloatFree(b)
    ensures CanonicalizeJson(a) == CanonicalizeJson(b) <==> Meaning(a) == Meaning(b)
  {
    NormalizeKeeps(a);
    NormalizeKeeps(b);
    if CanonicalizeJson(a) == CanonicalizeJson(b) {
      PrintInjective(Normalize(a), Normalize(b));
    }
    if Meaning(a) == Meaning(b) {
      SortedFormUnique(Normalize(a), Normalize(b));
    }
  }

  /** Reading canonical text yields the sorted form of the payload that was printed, and all of it. */
  lemma DecodeUndoesCanonicalize(j: Json)
    requires WellFormed(j) && FloatFree(j)
    ensures var text := CanonicalizeJson(j).text;
            ReadValue(text) == Got(Normalize(j), "") && Meaning(ReadValue(text).value) == Meaning(j)
  {
    NormalizeKeeps(j);
    ReadPrinted(Normalize(j), "");
    assert Print(Normalize(j)) + "" == Print(Normalize(j));
  }

  /** Printing canonical text a second time changes nothing. */
  lemma CanonicalIdempotent(j: Json)
    requires WellFormed(j) && FloatFree(j)
    ensures CanonicalizeJson(Normalize(j)) == CanonicalizeJson(j)
  {
    NormalizeKeeps(j);
    NormalizeWellFormed(j);
    NormalizeKeeps(Normalize(j));
    SortedFormUnique(Normalize(Normalize(j)), Normalize(j));
  }

  lemma {:induction false} SortedDistinct(fields: seq<Field>)
    requires SortedFields(fields)
    ensures DistinctKeys(fields)
  {
    if |fields| > 0 {
      SortedDistinct(fields[1..]);
      BeforeAllExcludes(fields[0].key, fields[1..]);
      forall i, j | 0 <= i < j < |fields| ensures fields[i].key != fields[j].key {
        if i > 0 {
          assert fields[1..][i - 1] == fields[i] && fields[1..][j - 1] == fields[j];
        } else {
          assert fields[1..][j - 1] == fields[j];
        }
      }
    }
  }

  lemma {:induction false} SortedWellFormed(j: Json)
    requires Sorted(j)
    ensures WellFormed(j)
    decreases j, 1
  {
    match j
    case Arr(items) => SortedWellFormedAll(items);
    case Obj(fields) =>
      SortedDistinct(fields);
      SortedWellFormedFields(fields);
    case _ =>
  }

  lemma {:induction false} SortedWellFormedAll(items: seq<Json>)
    requires SortedAll(items)
    ensures WellFormedAll(items)
    decreases items, 0
  {
    if |items| > 0 {
      SortedWellFormed(items[0]);
      SortedWellFormedAll(items[1..]);
    }
  }

  lemma {:induction false} SortedWellFormedFields(fields: seq<Field>)
    requires SortedFields(fields)
    ensures WellFormedFields(fields)
    decreases fields, 0
  {
    if |fields| > 0 {
      SortedWellFormed(fields[0].value);
      SortedWellFormedFields(fields[1..]);
    }
  }

  lemma NormalizeWellFormed(j: Json)
    requires WellFormed(j)
    ensures WellFormed(Normalize(j))
  {
    NormalizeKeeps(j);
    SortedWellFormed(Normalize(j));
  }
}
