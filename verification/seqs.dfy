/** Sequence operations behind `Array.prototype.filter`, `slice` and `reverse`. */
module Seqs {

  /** No element occurs twice. */
  ghost predicate Distinct<T>(s: seq<T>) {
    forall i, j :: 0 <= i < j < |s| ==> s[i] != s[j]
  }

  /** `a` is `b` with some elements dropped, the rest in their original order. */
  predicate IsSubseq<T(==)>(a: seq<T>, b: seq<T>)
    decreases |b|
  {
    a == [] || (b != [] && ((a[0] == b[0] && IsSubseq(a[1..], b[1..])) || IsSubseq(a, b[1..])))
  }

  /** A prefix one element longer is the shorter prefix with that element appended. */
  lemma PrefixSnoc<T>(s: seq<T>, i: int)
    requires 0 <= i < |s|
    ensures s[..i + 1] == s[..i] + [s[i]]
  {
  }

  /** Every sequence is a subsequence of itself. */
  lemma {:induction false} SubseqRefl<T>(s: seq<T>)
    ensures IsSubseq(s, s)
  {
    if s != [] {
      SubseqRefl(s[1..]);
    }
  }

  /** A subsequence of a subsequence is a subsequence. */
  lemma {:induction false} SubseqTrans<T>(a: seq<T>, b: seq<T>, c: seq<T>)
    requires IsSubseq(a, b) && IsSubseq(b, c)
    ensures IsSubseq(a, c)
    decreases |c|
  {
    if a != [] {
      if b[0] == c[0] && IsSubseq(b[1..], c[1..]) {
        if a[0] == b[0] && IsSubseq(a[1..], b[1..]) {
          SubseqTrans(a[1..], b[1..], c[1..]);
        } else {
          SubseqTrans(a, b[1..], c[1..]);
        }
      } else {
        SubseqTrans(a, b, c[1..]);
      }
    }
  }

  /** `s.filter(f)`: the elements satisfying `f`, in order. */
  function Filter<T(==)>(s: seq<T>, f: T -> bool): (r: seq<T>)
    ensures |r| <= |s|
    ensures forall i :: 0 <= i < |r| ==> r[i] in s && f(r[i])
    ensures forall i :: 0 <= i < |s| && f(s[i]) ==> s[i] in r
    ensures IsSubseq(r, s)
  {
    if s == [] then []
    else if f(s[0]) then [s[0]] + Filter(s[1..], f)
    else Filter(s[1..], f)
  }

  /** Each element passing `f` is kept as often as it occurs; every other element is dropped. */
  lemma {:induction false} FilterMultiplicity<T>(s: seq<T>, f: T -> bool)
    ensures forall x :: multiset(Filter(s, f))[x] == if f(x) then multiset(s)[x] else 0
  {
    if s != [] {
      FilterMultiplicity(s[1..], f);
      assert s == [s[0]] + s[1..];
    }
  }

  /** Filtering a sequence with one more element at the end filters that element last. */
  lemma {:induction false} FilterSnoc<T>(s: seq<T>, x: T, f: T -> bool)
    ensures Filter(s + [x], f) == Filter(s, f) + if f(x) then [x] else []
  {
    if s == [] {
      assert [x][1..] == [];
    } else {
      assert (s + [x])[1..] == s[1..] + [x];
      FilterSnoc(s[1..], x, f);
    }
  }

  /** A filter that every element passes returns the sequence itself. */
  lemma {:induction false} FilterKeepsAll<T>(s: seq<T>, f: T -> bool)
    requires forall i :: 0 <= i < |s| ==> f(s[i])
    ensures Filter(s, f) == s
  {
    if s != [] {
      FilterKeepsAll(s[1..], f);
    }
  }

  /** Filtering by a weaker predicate keeps at least as many elements. */
  lemma {:induction false} FilterMonotone<T>(s: seq<T>, f: T -> bool, g: T -> bool)
    requires forall i :: 0 <= i < |s| ==> f(s[i]) ==> g(s[i])
    ensures |Filter(s, f)| <= |Filter(s, g)|
  {
    if s != [] {
      FilterMonotone(s[1..], f, g);
    }
  }

  /** When `f` holds exactly where one of the disjoint `g`, `h` holds, the counts add up. */
  lemma {:induction false} FilterSplit<T>(s: seq<T>, f: T -> bool, g: T -> bool, h: T -> bool)
    requires forall i :: 0 <= i < |s| ==> (f(s[i]) <==> g(s[i]) || h(s[i]))
    requires forall i :: 0 <= i < |s| ==> !(g(s[i]) && h(s[i]))
    ensures |Filter(s, f)| == |Filter(s, g)| + |Filter(s, h)|
  {
    if s != [] {
      FilterSplit(s[1..], f, g, h);
    }
  }

  /** Three predicates of which every element satisfies exactly one split the sequence. */
  lemma {:induction false} FilterPartition<T>(s: seq<T>, f: T -> bool, g: T -> bool, h: T -> bool)
    requires forall i :: 0 <= i < |s| ==> f(s[i]) || g(s[i]) || h(s[i])
    requires forall i :: 0 <= i < |s| ==> !(f(s[i]) && g(s[i])) && !(f(s[i]) && h(s[i])) && !(g(s[i]) && h(s[i]))
    ensures |Filter(s, f)| + |Filter(s, g)| + |Filter(s, h)| == |s|
  {
    if s != [] {
      FilterPartition(s[1..], f, g, h);
    }
  }

  /** The `id` of every record, in order: `s.map(x => x.id)`. */
  function Ids<T>(s: seq<T>, id: T -> int): (r: seq<int>)
    ensures |r| == |s| && forall i :: 0 <= i < |s| ==> r[i] == id(s[i])
  {
    seq(|s|, i requires 0 <= i < |s| => id(s[i]))
  }

  /** `s.slice().reverse()`: element `i` of the result is element `|s| - 1 - i` of `s`. */
  function Reverse<T>(s: seq<T>): (r: seq<T>)
    ensures |r| == |s|
    ensures forall i :: 0 <= i < |s| ==> r[i] == s[|s| - 1 - i]
  {
    if s == [] then [] else [s[|s| - 1]] + Reverse(s[..|s| - 1])
  }

  /** `s.slice(-k)` for positive `k`: the last `k` elements, or all of them when fewer. */
  function TakeLast<T>(s: seq<T>, k: nat): (r: seq<T>)
    requires k > 0
    ensures |r| == if |s| < k then |s| else k
    ensures forall i :: 0 <= i < |r| ==> r[i] == s[|s| - |r| + i]
  {
    if |s| <= k then s else s[|s| - k..]
  }
}
