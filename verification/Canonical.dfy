/** Request fingerprints (crates/ledger/src/idempotency.rs:17-76): JSON values with ordered
    object fields, their canonical form, and the framing of scope and text. */
module Canonical {
  import opened Order

  datatype Field = Field(key: string, value: Json)

  /** A JSON value as it is stored: the fields of an object have an order. */
  datatype Json =
    | Null
    | Bool(flag: bool)
    | Num(digits: string)
    | Str(text: string)
    | Arr(items: seq<Json>)
    | Obj(fields: seq<Field>)

  /** A JSON value as it is meant: an object is a map. */
  datatype Value =
    | Atom(json: Json)
    | List(items: seq<Value>)
    | Object(entries: map<string, Value>)

  predicate DistinctKeys(fields: seq<Field>) {
    forall i, j :: 0 <= i < j < |fields| ==> fields[i].key != fields[j].key
  }

  function Keys(fields: seq<Field>): set<string> {
    set i | 0 <= i < |fields| :: fields[i].key
  }

  /** Objects hold every key once, at every depth: what `serde_json::Map` guarantees. */
  predicate WellFormed(v: Json) {
    match v
    case Arr(items) => forall i :: 0 <= i < |items| ==> WellFormed(items[i])
    case Obj(fields) => DistinctKeys(fields) && forall i :: 0 <= i < |fields| ==> WellFormed(fields[i].value)
    case _ => true
  }

  /** Where a key is first found. */
  function At(fields: seq<Field>, key: string): (i: nat)
    requires key in Keys(fields)
    ensures i < |fields| && fields[i].key == key
  {
    if fields[0].key == key then 0 else
      assert exists i :: 1 <= i < |fields| && fields[i].key == key && fields[1..][i - 1] == fields[i];
      1 + At(fields[1..], key)
  }

  function Meaning(v: Json): Value {
    match v
    case Arr(items) => List(seq(|items|, i requires 0 <= i < |items| => Meaning(items[i])))
    case Obj(fields) => Object(map key | key in Keys(fields) :: Meaning(fields[At(fields, key)].value))
    case _ => Atom(v)
  }

  /** Keys ascending at every depth. */
  ghost predicate Sorted(v: Json) {
    match v
    case Arr(items) => forall i :: 0 <= i < |items| ==> Sorted(items[i])
    case Obj(fields) =>
      && (forall i, j :: 0 <= i < j < |fields| ==> TextLt(fields[i].key, fields[j].key))
      && (forall i :: 0 <= i < |fields| ==> Sorted(fields[i].value))
    case _ => true
  }

  /** `c` is the canonical form of `v`. */
  ghost predicate CanonicalOf(c: Json, v: Json) {
    WellFormed(c) && Sorted(c) && Meaning(c) == Meaning(v)
  }

  lemma AtExact(fields: seq<Field>, i: nat)
    requires i < |fields| && DistinctKeys(fields)
    ensures fields[i].key in Keys(fields) && At(fields, fields[i].key) == i
  {
  }

  /** An object means its fields. */
  lemma FieldMeaning(fields: seq<Field>, i: nat)
    requires i < |fields| && DistinctKeys(fields)
    ensures var m := Meaning(Obj(fields)).entries;
            fields[i].key in m && m[fields[i].key] == Meaning(fields[i].value)
  {
    AtExact(fields, i);
  }

  /** `Map::insert`: replace the value in place, or append. */
  function Insert(fields: seq<Field>, key: string, value: Json): seq<Field> {
    if key in Keys(fields) then fields[At(fields, key) := Field(key, value)] else fields + [Field(key, value)]
  }

  /** `canonicalize`: the result is sorted at every depth and means the same. */
  method Canonicalize(v: Json) returns (c: Json)
    requires WellFormed(v)
    ensures CanonicalOf(c, v)
    decreases v
  {
    match v
    case Arr(items) =>
      var out := [];
      for n := 0 to |items|
        invariant |out| == n
        invariant forall i :: 0 <= i < n ==> CanonicalOf(out[i], items[i])
      {
        var item := Canonicalize(items[n]);
        out := out + [item];
      }
      c := Arr(out);
      assert Meaning(c).items == Meaning(v).items;
    case Obj(fields) =>
      var sorted := ListedText(Keys(fields));
      var out: seq<Field> := [];
      for n := 0 to |sorted|
        invariant |out| == n
        invariant forall i :: 0 <= i < n ==>
          out[i].key == sorted[i] && CanonicalOf(out[i].value, fields[At(fields, sorted[i])].value)
      {
        assert sorted[n] in Elements(sorted);
        var item := Canonicalize(fields[At(fields, sorted[n])].value);
        assert sorted[n] !in Keys(out) by { TextOrder(); }
        out := Insert(out, sorted[n], item);
      }
      c := Obj(out);
      SortedFields(fields, sorted, out);
    case _ =>
      c := v;
  }

  lemma SortedFields(fields: seq<Field>, sorted: seq<string>, out: seq<Field>)
    requires Ascending(sorted, TextLt) && Elements(sorted) == Keys(fields) && |out| == |sorted|
    requires forall i :: 0 <= i < |sorted| ==> sorted[i] in Keys(fields)
    requires forall i :: 0 <= i < |out| ==>
               out[i].key == sorted[i] && CanonicalOf(out[i].value, fields[At(fields, sorted[i])].value)
    ensures CanonicalOf(Obj(out), Obj(fields))
  {
    SameEntries(fields, sorted, out);
    AscendingDistinct(out, sorted);
  }

  lemma SameEntries(fields: seq<Field>, sorted: seq<string>, out: seq<Field>)
    requires Elements(sorted) == Keys(fields) && |out| == |sorted|
    requires forall i :: 0 <= i < |sorted| ==> sorted[i] in Keys(fields)
    requires forall i :: 0 <= i < |out| ==>
               out[i].key == sorted[i] && Meaning(out[i].value) == Meaning(fields[At(fields, sorted[i])].value)
    ensures Meaning(Obj(out)) == Meaning(Obj(fields))
  {
    KeysAreElements(out, sorted);
    EntryKeys(fields);
    EntryKeys(out);
    var m, m' := Meaning(Obj(fields)).entries, Meaning(Obj(out)).entries;
    forall key | key in Keys(out) ensures m'[key] == m[key] {
      var i := At(out, key);
      assert out[i].key == sorted[i];
    }
    SameMap(m, m');
  }

  lemma AscendingDistinct(fields: seq<Field>, keys: seq<string>)
    requires Ascending(keys, TextLt) && |keys| == |fields|
    requires forall i :: 0 <= i < |keys| ==> fields[i].key == keys[i]
    ensures DistinctKeys(fields)
  {
    forall i, j | 0 <= i < j < |fields| ensures fields[i].key != fields[j].key {
      TextLtIrreflexive(keys[i]);
    }
  }

  /** One meaning has only one sorted form. */
  lemma {:induction false} SortedUnique(a: Json, b: Json)
    requires WellFormed(a) && WellFormed(b) && Sorted(a) && Sorted(b)
    requires Meaning(a) == Meaning(b)
    ensures a == b
    decreases a
  {
    match a
    case Arr(items) =>
      assert b.Arr? && |b.items| == |items|;
      forall i | 0 <= i < |items| ensures items[i] == b.items[i] {
        assert Meaning(a).items[i] == Meaning(b).items[i];
        SortedUnique(items[i], b.items[i]);
      }
    case Obj(fields) =>
      SameKeys(fields, b.fields);
      forall i | 0 <= i < |fields| ensures fields[i] == b.fields[i] {
        FieldMeaning(fields, i);
        FieldMeaning(b.fields, i);
        SortedUnique(fields[i].value, b.fields[i].value);
      }
    case _ =>
  }

  lemma SameKeys(a: seq<Field>, b: seq<Field>)
    requires Sorted(Obj(a)) && Sorted(Obj(b)) && Meaning(Obj(a)) == Meaning(Obj(b))
    ensures |a| == |b| && forall i :: 0 <= i < |a| ==> a[i].key == b[i].key
  {
    TextOrder();
    var ka, kb := seq(|a|, i requires 0 <= i < |a| => a[i].key), seq(|b|, i requires 0 <= i < |b| => b[i].key);
    assert Meaning(Obj(a)).entries.Keys == Keys(a) && Meaning(Obj(b)).entries.Keys == Keys(b);
    KeysAreElements(a, ka);
    KeysAreElements(b, kb);
    ListingUnique(ka, kb, TextLt);
    assert forall i :: 0 <= i < |a| ==> ka[i] == a[i].key && kb[i] == b[i].key;
  }

  lemma KeysAreElements(fields: seq<Field>, keys: seq<string>)
    requires |keys| == |fields| && forall i :: 0 <= i < |keys| ==> keys[i] == fields[i].key
    ensures Elements(keys) == Keys(fields)
  {
    forall key ensures key in Elements(keys) <==> key in Keys(fields) {
      if key in Keys(fields) { var i :| 0 <= i < |fields| && fields[i].key == key; assert keys[i] == key; }
    }
  }

  /** Two payloads have the same canonical form exactly when they mean the same. */
  lemma CanonicalDecidesMeaning(a: Json, b: Json, ca: Json, cb: Json)
    requires CanonicalOf(ca, a) && CanonicalOf(cb, b)
    ensures ca == cb <==> Meaning(a) == Meaning(b)
  {
    if Meaning(a) == Meaning(b) { SortedUnique(ca, cb); }
  }

  /** A canonical form is its own canonical form, and nothing else is. */
  lemma CanonicalIdempotent(v: Json, c: Json, c': Json)
    requires CanonicalOf(c, v)
    ensures CanonicalOf(c', c) <==> c' == c
  {
    if CanonicalOf(c', c) { SortedUnique(c', c); }
  }

  // ---- reordering -----------------------------------------------------------

  /** A field of `fields` has this key and a reordering of this value. */
  predicate Partner(f: Field, fields: seq<Field>)
    decreases f, 0
  {
    exists j :: 0 <= j < |fields| && fields[j].key == f.key && Reordered(f.value, fields[j].value)
  }

  /** Object fields written in another order, at any depth: every field of one object has a
      partner in the other, which holds no further key; arrays correspond item by item; and
      atoms are equal. */
  predicate Reordered(a: Json, b: Json)
    decreases a, 1
  {
    match a
    case Arr(items) =>
      && b.Arr? && |items| == |b.items|
      && forall i :: 0 <= i < |items| ==> Reordered(items[i], b.items[i])
    case Obj(fields) =>
      && b.Obj?
      && (forall i :: 0 <= i < |fields| ==> Partner(fields[i], b.fields))
      && (forall j :: 0 <= j < |b.fields| ==> b.fields[j].key in Keys(fields))
    case _ => a == b
  }

  /** Reordering keys at any depth never changes what a value means, and nothing else keeps it. */
  lemma {:induction false} ReorderedMeansSame(a: Json, b: Json)
    requires WellFormed(a) && WellFormed(b)
    ensures Reordered(a, b) <==> Meaning(a) == Meaning(b)
    decreases a
  {
    match a
    case Arr(items) => if b.Arr? { ItemsReordered(a, b); }
    case Obj(fields) => if b.Obj? { FieldsReordered(a, b); }
    case _ =>
  }

  lemma {:induction false} ItemsReordered(a: Json, b: Json)
    requires WellFormed(a) && WellFormed(b) && a.Arr? && b.Arr?
    ensures Reordered(a, b) <==> Meaning(a) == Meaning(b)
    decreases a, 0
  {
    if |a.items| == |b.items| {
      forall i | 0 <= i < |a.items|
        ensures Reordered(a.items[i], b.items[i]) <==> Meaning(a).items[i] == Meaning(b).items[i]
      {
        ReorderedMeansSame(a.items[i], b.items[i]);
      }
    }
  }

  /** Partners stand under the same key and mean the same. */
  lemma {:induction false} PartnerMeaning(f: Field, fields: seq<Field>)
    requires WellFormed(f.value) && WellFormed(Obj(fields))
    ensures var m := Meaning(Obj(fields)).entries;
            Partner(f, fields) <==> f.key in m && m[f.key] == Meaning(f.value)
    decreases f, 0
  {
    if f.key in Keys(fields) {
      var at := At(fields, f.key);
      ReorderedMeansSame(f.value, fields[at].value);
      forall j | 0 <= j < |fields| && fields[j].key == f.key ensures j == at {}
    }
  }

  lemma {:induction false} FieldsReordered(a: Json, b: Json)
    requires WellFormed(a) && WellFormed(b) && a.Obj? && b.Obj?
    ensures Reordered(a, b) <==> Meaning(a) == Meaning(b)
    decreases a, 0
  {
    forall i | 0 <= i < |a.fields| ensures Partner(a.fields[i], b.fields) <==> Matches(a, b, a.fields[i].key) {
      PartnerMeaning(a.fields[i], b.fields);
      FieldMeaning(a.fields, i);
    }
    if Reordered(a, b) { MatchedFields(a, b); }
    if Meaning(a) == Meaning(b) { SameMeaningMatches(a, b); }
  }

  /** Both objects hold the key, with values that mean the same. */
  predicate Matches(a: Json, b: Json, key: string)
    requires a.Obj? && b.Obj?
  {
    var m, m' := Meaning(a).entries, Meaning(b).entries;
    key in m && key in m' && m'[key] == m[key]
  }

  lemma MatchedFields(a: Json, b: Json)
    requires a.Obj? && b.Obj?
    requires forall i :: 0 <= i < |a.fields| ==> Matches(a, b, a.fields[i].key)
    requires forall j :: 0 <= j < |b.fields| ==> b.fields[j].key in Keys(a.fields)
    ensures Meaning(a) == Meaning(b)
  {
    EntryKeys(a.fields);
    EntryKeys(b.fields);
    forall key | key in Keys(a.fields) ensures Matches(a, b, key) {
      assert Matches(a, b, a.fields[At(a.fields, key)].key);
    }
    forall key | key in Keys(b.fields) ensures key in Keys(a.fields) {
      assert b.fields[At(b.fields, key)].key == key;
    }
    SameMap(Meaning(a).entries, Meaning(b).entries);
  }

  lemma EntryKeys(fields: seq<Field>)
    ensures Meaning(Obj(fields)).entries.Keys == Keys(fields)
  {
  }

  lemma SameMap(m: map<string, Value>, m': map<string, Value>)
    requires m.Keys == m'.Keys && forall key :: key in m ==> m'[key] == m[key]
    ensures m == m'
  {
  }

  lemma SameMeaningMatches(a: Json, b: Json)
    requires a.Obj? && b.Obj? && Meaning(a) == Meaning(b)
    ensures forall i :: 0 <= i < |a.fields| ==> Matches(a, b, a.fields[i].key)
    ensures forall j :: 0 <= j < |b.fields| ==> b.fields[j].key in Keys(a.fields)
  {
    assert Meaning(a).entries.Keys == Keys(a.fields) && Meaning(b).entries.Keys == Keys(b.fields);
  }

  /** Reordering keys at any depth never changes the canonical form, and every other change
      does. */
  lemma ReorderKeepsCanonical(a: Json, b: Json, ca: Json, cb: Json)
    requires WellFormed(a) && WellFormed(b) && CanonicalOf(ca, a) && CanonicalOf(cb, b)
    ensures Reordered(a, b) <==> ca == cb
  {
    ReorderedMeansSame(a, b);
    CanonicalDecidesMeaning(a, b, ca, cb);
  }

  /** In particular the fields of one object may be permuted. */
  lemma PermutedIsReordered(a: seq<Field>, b: seq<Field>)
    requires WellFormed(Obj(a)) && WellFormed(Obj(b)) && multiset(a) == multiset(b)
    ensures Reordered(Obj(a), Obj(b))
  {
    FieldsWithin(a, b);
    FieldsWithin(b, a);
    assert Meaning(Obj(a)).entries == Meaning(Obj(b)).entries;
    ReorderedMeansSame(Obj(a), Obj(b));
  }

  lemma FieldsWithin(a: seq<Field>, b: seq<Field>)
    requires DistinctKeys(a) && DistinctKeys(b) && multiset(a) == multiset(b)
    ensures var m, m' := Meaning(Obj(a)).entries, Meaning(Obj(b)).entries;
            forall key :: key in m ==> key in m' && m'[key] == m[key]
  {
    forall key | key in Keys(a) ensures key in Keys(b) && b[At(b, key)] == a[At(a, key)] {
      var f := a[At(a, key)];
      assert f in multiset(a) && f in multiset(b) && f in b;
      var j :| 0 <= j < |b| && b[j] == f;
      AtExact(b, j);
    }
  }

  // ---- framing --------------------------------------------------------------

  const NUL: char := '\0'

  predicate NulFree(s: string) { NUL !in s }

  /** The bytes fed to the hasher: scope, a zero byte, canonical text. */
  function Frame(scope: string, text: string): string { scope + [NUL] + text }

  /** Without NUL in the scopes the first NUL ends the scope; without NUL in the texts
      the last one does. */
  lemma FrameInjective(s: string, t: string, s': string, t': string)
    requires (NulFree(s) && NulFree(s')) || (NulFree(t) && NulFree(t'))
    requires Frame(s, t) == Frame(s', t')
    ensures s == s' && t == t'
  {
    if |s| < |s'| { FrameLonger(s, t, s', t'); }
    if |s'| < |s| { FrameLonger(s', t', s, t); }
    assert Frame(s, t)[..|s|] == s && Frame(s', t')[..|s'|] == s';
    assert Frame(s, t)[|s| + 1..] == t && Frame(s', t')[|s'| + 1..] == t';
  }

  /** Of two equal frames cut at different places, the longer scope and the longer text
      both hold a NUL. */
  lemma FrameLonger(s: string, t: string, s': string, t': string)
    requires |s| < |s'| && Frame(s, t) == Frame(s', t')
    ensures NUL in s' && NUL in t
  {
    assert Frame(s, t)[|s|] == NUL && Frame(s', t')[|s|] == s'[|s|];
    assert Frame(s', t')[|s'|] == NUL && Frame(s, t)[|s'|] == t[|s'| - |s| - 1];
  }

  /** With NUL on both sides the framing is ambiguous; printed JSON never gets there, because
      it escapes NUL. */
  lemma FrameAmbiguous()
    ensures Frame("a" + [NUL] + "b", "c") == Frame("a", "b" + [NUL] + "c")
  {
  }

  ghost predicate Injective<A(!new), B>(f: A -> B) {
    forall x, y :: f(x) == f(y) ==> x == y
  }

  /** `RequestHash::compute`, with printing and hashing as given functions. */
  method Compute(render: Json -> string, hash: string -> string, scope: string, payload: Json)
    returns (digest: string)
    requires WellFormed(payload)
    ensures exists c :: CanonicalOf(c, payload) && digest == hash(Frame(scope, render(c)))
  {
    var c := Canonicalize(payload);
    digest := hash(Frame(scope, render(c)));
  }

  /** Fingerprints agree exactly for the same scope and the same meaning: neither key order
      nor a key reused by another command can confuse them. Printed JSON escapes NUL, so any
      scope will do; and scopes without NUL would do for any text. */
  lemma FingerprintExact(render: Json -> string, hash: string -> string,
                         scope: string, a: Json, ca: Json, scope': string, b: Json, cb: Json)
    requires Injective(render) && Injective(hash) && CanonicalOf(ca, a) && CanonicalOf(cb, b)
    requires (NulFree(scope) && NulFree(scope')) || (NulFree(render(ca)) && NulFree(render(cb)))
    ensures hash(Frame(scope, render(ca))) == hash(Frame(scope', render(cb)))
       <==> scope == scope' && Meaning(a) == Meaning(b)
  {
    CanonicalDecidesMeaning(a, b, ca, cb);
    if hash(Frame(scope, render(ca))) == hash(Frame(scope', render(cb))) {
      FrameInjective(scope, render(ca), scope', render(cb));
    }
  }
}
