/**
  Concatenation of a list of lists and the prefix offsets it induces. The
  SF2 writer lays out nested lists flat and records, for each inner list,
  the running total of the lengths before it; the reader cuts the flat list
  back at those totals. Both directions rest on the two facts proved here.
*/
module Lists {

  /** The inner lists one after another, in order. */
  function Concat<T>(xss: seq<seq<T>>): (r: seq<T>)
  {
    if xss == [] then [] else Concat(xss[..|xss| - 1]) + xss[|xss| - 1]
  }

  /** Where inner list j starts in the concatenation: the total length of the lists before it. */
  function Offset<T>(xss: seq<seq<T>>, j: nat): (o: nat)
    requires j <= |xss|
  {
    |Concat(xss[..j])|
  }

  lemma {:induction false} ConcatAppend<T>(a: seq<seq<T>>, b: seq<seq<T>>)
    ensures Concat(a + b) == Concat(a) + Concat(b)
  {
    if b == [] {
      assert a + b == a;
    } else {
      var ab := a + b;
      assert ab[..|ab| - 1] == a + b[..|b| - 1];
      assert ab[|ab| - 1] == b[|b| - 1];
      ConcatAppend(a, b[..|b| - 1]);
    }
  }

  lemma ConcatSingle<T>(x: seq<T>)
    ensures Concat([x]) == x
  {
    assert [x][..0] == [];
  }

  /** Inner list j sits exactly between offsets j and j + 1. */
  lemma {:induction false} ConcatSlice<T>(xss: seq<seq<T>>, j: nat)
    requires j < |xss|
    ensures Offset(xss, j + 1) == Offset(xss, j) + |xss[j]|
    ensures Offset(xss, j + 1) <= |Concat(xss)|
    ensures Concat(xss)[Offset(xss, j)..Offset(xss, j + 1)] == xss[j]
  {
    var pre := xss[..j + 1];
    assert pre[..j] == xss[..j];
    assert pre[|pre| - 1] == xss[j];
    assert Concat(pre) == Concat(xss[..j]) + xss[j];
    assert xss == pre + xss[j + 1..];
    ConcatAppend(pre, xss[j + 1..]);
  }

  /** Offsets never decrease and never pass the total length. */
  lemma {:induction false} OffsetMonotone<T>(xss: seq<seq<T>>, i: nat, j: nat)
    requires i <= j <= |xss|
    ensures Offset(xss, i) <= Offset(xss, j) <= |Concat(xss)|
  {
    assert xss[..j] == xss[..i] + xss[i..j];
    ConcatAppend(xss[..i], xss[i..j]);
    assert xss == xss[..j] + xss[j..];
    ConcatAppend(xss[..j], xss[j..]);
  }

  /** The last offset is the whole length. */
  lemma OffsetEnd<T>(xss: seq<seq<T>>)
    ensures Offset(xss, |xss|) == |Concat(xss)|
  {
    assert xss[..|xss|] == xss;
  }

  /** Extending the prefix by one list extends the concatenation by that list. */
  lemma ConcatSnoc<T>(xss: seq<seq<T>>, j: nat)
    requires j < |xss|
    ensures Concat(xss[..j + 1]) == Concat(xss[..j]) + xss[j]
  {
    var pre := xss[..j + 1];
    assert pre[..j] == xss[..j];
  }

  /** Extending a prefix by one element. */
  lemma PrefixSnoc<T>(s: seq<T>, i: nat)
    requires i < |s|
    ensures s[..i + 1] == s[..i] + [s[i]]
  {
  }

  /** A prefix of a slice is a shorter slice. */
  lemma SlicePrefix<T>(s: seq<T>, lo: nat, hi: nat, n: nat)
    requires lo <= hi <= |s| && n <= hi - lo
    ensures s[lo..lo + n] == s[lo..hi][..n]
  {
  }

  /** Replacing the elements of s by those of w one by one: nothing replaced yet. */
  lemma SpliceStart<T>(w: seq<T>, s: seq<T>)
    ensures s == w[..0] + s[0..]
  {
  }

  /** Replacing the elements of s by those of w one by one: everything replaced. */
  lemma SpliceEnd<T>(w: seq<T>, s: seq<T>)
    requires |w| == |s|
    ensures w[..|s|] + s[|s|..] == w
  {
  }
}
