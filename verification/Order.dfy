/** Strict total orders and ordered traversal of finite sets: what iterating a Rust
    `BTreeMap` or `BTreeSet` does. */
module Order {
  ghost predicate StrictTotal<T(!new)>(lt: (T, T) -> bool) {
    && (forall x :: !lt(x, x))
    && (forall x, y, z :: lt(x, y) && lt(y, z) ==> lt(x, z))
    && (forall x, y :: x != y ==> lt(x, y) || lt(y, x))
  }

  ghost predicate Ascending<T>(s: seq<T>, lt: (T, T) -> bool) {
    forall i, j :: 0 <= i < j < |s| ==> lt(s[i], s[j])
  }

  function Elements<T>(s: seq<T>): set<T> {
    set x | x in s
  }

  /** The smallest element of a non-empty set. */
  method Least<T(==, !new)>(s: set<T>, lt: (T, T) -> bool) returns (m: T)
    requires s != {} && StrictTotal(lt)
    ensures m in s && forall x :: x in s && x != m ==> lt(m, x)
  {
    m :| m in s;
    var rest := s - {m};
    while rest != {}
      invariant rest <= s && m in s
      invariant forall x :: x in s - rest && x != m ==> lt(m, x)
      decreases |rest|
    {
      var x :| x in rest;
      ghost var before := rest;
      rest := rest - {x};
      assert forall y :: y in s - rest ==> y in s - before || y == x;
      if lt(x, m) { m := x; }
    }
  }

  /** All elements of a set, each once, in ascending order. */
  method Listed<T(==, !new)>(s: set<T>, lt: (T, T) -> bool) returns (r: seq<T>)
    requires StrictTotal(lt)
    ensures Ascending(r, lt) && Elements(r) == s
  {
    r := [];
    var rest := s;
    while rest != {}
      invariant rest <= s && Elements(r) == s - rest && Ascending(r, lt)
      invariant forall x, y :: x in r && y in rest ==> lt(x, y)
      decreases |rest|
    {
      var m := Least(rest, lt);
      assert Elements(r + [m]) == Elements(r) + {m};
      r, rest := r + [m], rest - {m};
    }
  }

  /** A set has only one ascending listing, so ordered traversal is deterministic. */
  lemma {:induction false} ListingUnique<T(!new)>(a: seq<T>, b: seq<T>, lt: (T, T) -> bool)
    requires StrictTotal(lt) && Ascending(a, lt) && Ascending(b, lt)
    requires Elements(a) == Elements(b)
    ensures a == b
  {
    assert a != [] ==> a[0] in Elements(b);
    assert b != [] ==> b[0] in Elements(a);
    if a == [] {
    } else {
      assert a[0] == b[0];
      forall x ensures x in Elements(a[1..]) <==> x in Elements(b[1..]) {
        assert x in Elements(a[1..]) <==> x in Elements(a) && x != a[0];
        assert x in Elements(b[1..]) <==> x in Elements(b) && x != b[0];
      }
      ListingUnique(a[1..], b[1..], lt);
      assert a == [a[0]] + a[1..] && b == [b[0]] + b[1..];
    }
  }

  /** Rust's order on `String`: lexicographic by scalar value. */
  predicate TextLt(a: string, b: string) {
    b != [] && (a == [] || a[0] < b[0] || (a[0] == b[0] && TextLt(a[1..], b[1..])))
  }

  lemma {:induction false} TextLtTransitive(a: string, b: string, c: string)
    requires TextLt(a, b) && TextLt(b, c)
    ensures TextLt(a, c)
  {
    if a != [] && a[0] == b[0] == c[0] { TextLtTransitive(a[1..], b[1..], c[1..]); }
  }

  lemma {:induction false} TextLtIrreflexive(a: string)
    ensures !TextLt(a, a)
  {
    if a != [] { TextLtIrreflexive(a[1..]); }
  }

  lemma {:induction false} TextLtConnected(a: string, b: string)
    requires a != b
    ensures TextLt(a, b) || TextLt(b, a)
  {
    if a != [] && b != [] && a[0] == b[0] {
      assert a == [a[0]] + a[1..] && b == [b[0]] + b[1..];
      TextLtConnected(a[1..], b[1..]);
    }
  }

  /** The first `n` characters agree, and there `a` ends or has the smaller one. */
  predicate SmallerAt(a: string, b: string, n: int) {
    && 0 <= n <= |a| && n < |b| && a[..n] == b[..n]
    && (n == |a| || a[n] < b[n])
  }

  /** Lexicographic order, said by position. */
  lemma {:induction false} TextLtExact(a: string, b: string)
    ensures TextLt(a, b) <==> exists n :: SmallerAt(a, b, n)
  {
    if TextLt(a, b) {
      if a == [] || a[0] < b[0] {
        assert SmallerAt(a, b, 0);
      } else {
        TextLtExact(a[1..], b[1..]);
        var n :| SmallerAt(a[1..], b[1..], n);
        assert a[..n + 1] == [a[0]] + a[1..][..n] && b[..n + 1] == [b[0]] + b[1..][..n];
        assert SmallerAt(a, b, n + 1);
      }
    }
    forall n | SmallerAt(a, b, n) ensures TextLt(a, b) { SmallerIsLt(a, b, n); }
  }

  lemma {:induction false} SmallerIsLt(a: string, b: string, n: nat)
    requires SmallerAt(a, b, n)
    ensures TextLt(a, b)
  {
    if n > 0 {
      assert a[0] == a[..n][0] == b[..n][0] == b[0];
      assert a[1..][..n - 1] == a[..n][1..] && b[1..][..n - 1] == b[..n][1..];
      SmallerIsLt(a[1..], b[1..], n - 1);
    }
  }

  lemma TextOrder()
    ensures StrictTotal(TextLt)
  {
    forall x: string ensures !TextLt(x, x) { TextLtIrreflexive(x); }
    forall x: string, y: string, z: string | TextLt(x, y) && TextLt(y, z) ensures TextLt(x, z) {
      TextLtTransitive(x, y, z);
    }
    forall x: string, y: string | x != y ensures TextLt(x, y) || TextLt(y, x) { TextLtConnected(x, y); }
  }

  method ListedText(s: set<string>) returns (r: seq<string>)
    ensures Ascending(r, TextLt) && Elements(r) == s
  {
    TextOrder();
    r := Listed(s, TextLt);
  }
}
