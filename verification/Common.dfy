/** Shared datatypes, int32 arithmetic and a few facts about finite sets. */
module Common {

  datatype Option<+T> = None | Some(value: T)

  /** A value, or the error the source returns instead. */
  datatype Result<+T> = Ok(value: T) | Err(error: string)

  /** The answer to a request to the API server. A request may take effect although
      it is reported as failed. */
  datatype Reply = Done | Rejected | Lost

  function Min(a: int, b: int): int { if a <= b then a else b }

  function Max(a: int, b: int): int { if a >= b then a else b }

  /** What a Go int32 holds after an operation whose exact result is x. */
  function Wrap32(x: int): (r: int)
    ensures -0x8000_0000 <= r < 0x8000_0000
  {
    (x + 0x8000_0000) % 0x1_0000_0000 - 0x8000_0000
  }

  /** Go's integer division truncates toward zero; Dafny's is Euclidean. */
  function TruncDiv(a: int, b: int): int
    requires b > 0
  {
    if a >= 0 then a / b else -((-a) / b)
  }

  function Elems<T(==)>(s: seq<T>): set<T> { set x | x in s }

  /** l lists the members of s, each once, in some order. */
  ghost predicate Lists<T>(l: seq<T>, s: set<T>) { multiset(l) == multiset(s) }

  lemma CardSub<T>(a: set<T>, b: set<T>)
    requires a <= b
    ensures |b - a| == |b| - |a|
    ensures |a| == |b| ==> a == b
  {
    assert b == a + (b - a);
  }

  lemma CardUnion<T>(a: set<T>, b: set<T>)
    requires a !! b
    ensures |a + b| == |a| + |b|
  {
  }

  lemma {:induction false} DistinctElems<T>(l: seq<T>, s: set<T>)
    requires Lists(l, s)
    ensures |l| == |s| && Elems(l) == s
    ensures forall i, j :: 0 <= i < j < |l| ==> l[i] != l[j]
  {
    assert |multiset(l)| == |multiset(s)|;
    forall x ensures x in l <==> x in s {
      assert x in multiset(l) <==> x in multiset(s);
    }
    forall i, j | 0 <= i < j < |l| ensures l[i] != l[j] {
      assert multiset(s)[l[i]] <= 1;
      assert l == l[..i] + [l[i]] + l[i + 1..j] + [l[j]] + l[j + 1..];
    }
  }

  lemma {:induction false} CardElems<T>(l: seq<T>)
    requires forall i, j :: 0 <= i < j < |l| ==> l[i] != l[j]
    ensures |Elems(l)| == |l|
  {
    if l != [] {
      var last := |l| - 1;
      CardElems(l[..last]);
      assert Elems(l) == Elems(l[..last]) + {l[last]};
    }
  }
}
