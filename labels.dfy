/**
 * The noun-phrase label of a word position and the phrases a label sequence
 * describes: a phrase is one B followed by the I labels right after it.
 */
module Labels {

  /** `B` begins a phrase, `I` continues it, `O` (the empty label '') is outside any phrase. */
  datatype Label = B | I | O

  /** A sentence-long sequence of empty labels. */
  function Blank(n: nat): (r: seq<Label>)
    ensures |r| == n && forall k :: 0 <= k < n ==> r[k] == O
  {
    seq(n, _ => O)
  }

  /**
   * One past the last position of the run that starts at `i`: the positions
   * after `i` are I up to the end of the sentence or up to the first B or O.
   */
  function RunEnd(L: seq<Label>, i: nat): (e: nat)
    requires i < |L|
    ensures i < e <= |L|
    ensures forall k :: i < k < e ==> L[k] == I
    ensures e == |L| || L[e] != I
    decreases |L| - i
  {
    if i + 1 < |L| && L[i + 1] == I then RunEnd(L, i + 1) else i + 1
  }

  /** The run end is the only position with the two properties above. */
  lemma RunEndUnique(L: seq<Label>, i: nat, e: int)
    requires i < e <= |L|
    requires forall k :: i < k < e ==> L[k] == I
    requires e == |L| || L[e] != I
    ensures RunEnd(L, i) == e
  {
  }

  /** Two phrases never overlap: a later B lies at or after the end of an earlier phrase. */
  lemma PhrasesDisjoint(L: seq<Label>, b1: nat, b2: nat)
    requires b1 < b2 < |L| && L[b1] == B && L[b2] == B
    ensures RunEnd(L, b1) <= b2
  {
  }

  /**
   * The start of the phrase holding position `k`, or -1 when `k` is outside
   * every phrase (labelled O, or an I with no B before its run of I labels).
   */
  function Owner(L: seq<Label>, k: nat): (b: int)
    requires k < |L|
    ensures -1 <= b <= k
    ensures b >= 0 ==> L[b] == B && forall j :: b < j <= k ==> L[j] == I
    ensures L[k] == B ==> b == k
    ensures L[k] == O ==> b == -1
  {
    if L[k] == B then k
    else if L[k] == I && k > 0 then Owner(L, k - 1)
    else -1
  }

  /** Every position of the phrase starting at `b` is owned by `b`. */
  lemma {:induction false} OwnerOfRun(L: seq<Label>, b: nat, k: nat)
    requires b < |L| && L[b] == B
    requires b <= k < RunEnd(L, b)
    ensures Owner(L, k) == b
    decreases k
  {
    if k > b {
      OwnerOfRun(L, b, k - 1);
    }
  }

  /** No I at position 0 and no I right after an O. */
  predicate WellFormed(L: seq<Label>) {
    forall k :: 0 <= k < |L| && L[k] == I ==> 0 < k && L[k - 1] != O
  }

  /** Every phrase has at most `threshold` words. */
  predicate Bounded(L: seq<Label>, threshold: int) {
    forall b :: 0 <= b < |L| && L[b] == B ==> RunEnd(L, b) - b <= threshold
  }

  /** `L` with the positions `lo .. hi-1` set to `v`. */
  function Fill(L: seq<Label>, lo: nat, hi: nat, v: Label): (r: seq<Label>)
    requires lo <= hi <= |L|
    ensures |r| == |L|
    ensures forall k :: 0 <= k < |L| && (k < lo || hi <= k) ==> r[k] == L[k]
    ensures forall k :: lo <= k < hi ==> r[k] == v
  {
    seq(|L|, k requires 0 <= k < |L| => if lo <= k < hi then v else L[k])
  }

  /** `L` with one phrase written over `first .. last`: B at `first`, I after it. */
  function Span(L: seq<Label>, first: nat, last: nat): (r: seq<Label>)
    requires first < last < |L|
    ensures |r| == |L| && r[first] == B
    ensures forall k :: first < k <= last ==> r[k] == I
    ensures forall k :: 0 <= k < |L| && (k < first || last < k) ==> r[k] == L[k]
  {
    Fill(L[first := B], first + 1, last + 1, I)
  }

  /** The owner of an I is the owner of the position before it. */
  lemma OwnerOfInside(L: seq<Label>, k: nat)
    requires 0 < k < |L| && L[k] == I
    ensures Owner(L, k) == Owner(L, k - 1)
  {
  }

  /** Starting a phrase anywhere keeps the labels well formed. */
  lemma BeginKeepsWellFormed(L: seq<Label>, k: nat)
    requires k < |L| && WellFormed(L)
    ensures WellFormed(L[k := B])
  {
  }

  /** Writing a phrase over well-formed labels keeps them well formed. */
  lemma SpanKeepsWellFormed(L: seq<Label>, first: nat, last: nat)
    requires first < last < |L| && WellFormed(L)
    ensures WellFormed(Span(L, first, last))
  {
    var r := Span(L, first, last);
    forall k | 0 <= k < |r| && r[k] == I
      ensures 0 < k && r[k - 1] != O
    {
      if first < k <= last {
        assert r[k - 1] == if k - 1 == first then B else I;
      } else if k == last + 1 {
        assert r[k - 1] == I;
      } else {
        assert r[k] == L[k] && r[k - 1] == L[k - 1];
      }
    }
  }

  /** Every labelled position of `L` is still labelled in `R`. */
  predicate KeepsLabelled(L: seq<Label>, R: seq<Label>) {
    |L| == |R| && forall k :: 0 <= k < |L| && L[k] != O ==> R[k] != O
  }
}
