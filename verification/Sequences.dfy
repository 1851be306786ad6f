/** Taking sequences apart and putting them together. */
module Sequences {
  /** The last element of a concatenation belongs to its second part. */
  lemma ConcatInit<T>(a: seq<T>, b: seq<T>)
    requires b != []
    ensures (a + b)[..|a + b| - 1] == a + b[..|b| - 1] && (a + b)[|a + b| - 1] == b[|b| - 1]
  {
  }

  lemma SnocInit<T>(s: seq<T>, e: T)
    ensures (s + [e])[..|s|] == s && (s + [e])[|s|] == e
  {
  }

  lemma InitLast<T>(s: seq<T>)
    requires s != []
    ensures s == s[..|s| - 1] + [s[|s| - 1]]
  {
  }

  lemma Assoc<T>(x: seq<T>, y: seq<T>, z: seq<T>)
    ensures (x + y) + z == x + (y + z)
  {
  }

  lemma ConsTail<T>(e: T, s: seq<T>)
    ensures ([e] + s)[1..] == s && ([e] + s)[0] == e
  {
  }

  lemma SplitAt<T>(s: seq<T>, p: nat)
    requires p <= |s|
    ensures s == s[..p] + s[p..]
  {
  }

  lemma CutOut<T>(s: seq<T>, j: nat)
    requires j < |s|
    ensures s == (s[..j] + [s[j]]) + s[j + 1..]
  {
  }
}
