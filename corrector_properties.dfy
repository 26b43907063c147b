/**
 * What the post-fix corrector guarantees: pass X leaves no I without a
 * labelled word before it, pass Y leaves no phrase longer than the threshold
 * and touches only the phrases that were too long, and hence the labels of a
 * sentence are always well formed.
 */
module CorrectorProperties {
  import opened Tokens
  import opened Labels
  import opened Rules

  // ---------------------------------------------------------------------------
  // Pass X
  // ---------------------------------------------------------------------------

  /** An I at position 0 or right after an O turns into B; every other label stays. */
  function Repaired(L: seq<Label>, k: nat): Label
    requires k < |L|
  {
    if L[k] == I && (k == 0 || L[k - 1] == O) then B else L[k]
  }

  lemma {:induction false} StrayInsideSweep(s: seq<Token>, L: seq<Label>, m: nat)
    requires |L| == |s| && m <= |s|
    ensures forall k :: 0 <= k < |s| ==>
      Sweep(StrayInside, s, L, m)[k] == if k < m then Repaired(L, k) else L[k]
    decreases m
  {
    if m > 0 {
      StrayInsideSweep(s, L, m - 1);
    }
  }

  /**
   * Pass X decides every position on the labels it was given: a stray I
   * becomes B and nothing else changes. Its result is well formed, and it
   * leaves well-formed labels as they are.
   */
  lemma StrayInsideRepairs(s: seq<Token>, L: seq<Label>)
    requires |L| == |s|
    ensures forall k :: 0 <= k < |L| ==> Run(StrayInside, s, L)[k] == Repaired(L, k)
    ensures WellFormed(Run(StrayInside, s, L))
    ensures WellFormed(L) ==> Run(StrayInside, s, L) == L
  {
    StrayInsideSweep(s, L, |s|);
  }

  /** Running pass X twice is running it once. */
  lemma StrayInsideIdempotent(s: seq<Token>, L: seq<Label>)
    requires |L| == |s|
    ensures Run(StrayInside, s, Run(StrayInside, s, L)) == Run(StrayInside, s, L)
  {
    StrayInsideRepairs(s, L);
    StrayInsideRepairs(s, Run(StrayInside, s, L));
  }

  // ---------------------------------------------------------------------------
  // Pass Y
  // ---------------------------------------------------------------------------

  /** Position `k` lies in a phrase of more than `threshold` words. */
  predicate InLongPhrase(L: seq<Label>, k: nat, threshold: int)
    requires k < |L|
  {
    Owner(L, k) >= 0 && RunEnd(L, Owner(L, k)) - Owner(L, k) > threshold
  }

  /** The label pass Y gives position `k`: a word of a long phrase becomes a phrase of its own or O. */
  function CutLabel(s: seq<Token>, L: seq<Label>, k: nat, threshold: int): Label
    requires |L| == |s| && k < |L|
  {
    if InLongPhrase(L, k, threshold) then (if Pos(s[k]) in HeadPos then B else O) else L[k]
  }

  /** The labels after pass Y has visited `0 .. m-1`: the phrases starting there are decided. */
  function CutUpTo(s: seq<Token>, L: seq<Label>, threshold: int, m: nat, k: nat): Label
    requires |L| == |s| && k < |L|
  {
    if 0 <= Owner(L, k) < m then CutLabel(s, L, k, threshold) else L[k]
  }

  /** At a phrase start not yet visited, the phrase is still the one of the original labels. */
  lemma {:induction false} CutRunEndAtStart(s: seq<Token>, L: seq<Label>, P: seq<Label>, threshold: int, c: nat)
    requires |L| == |s| == |P| && c < |s| && L[c] == B
    requires forall k :: 0 <= k < |s| ==> P[k] == CutUpTo(s, L, threshold, c, k)
    ensures P[c] == B && RunEnd(P, c) == RunEnd(L, c)
  {
    var e := RunEnd(L, c);
    forall k | c < k < e
      ensures P[k] == I
    {
      OwnerOfRun(L, c, k);
    }
    if e < |s| {
      assert P[e] == L[e];
    }
    RunEndUnique(P, c, e);
  }

  /** Inside a long phrase already cut, every B is alone. */
  lemma {:induction false} CutRunEndInside(s: seq<Token>, L: seq<Label>, P: seq<Label>, threshold: int, c: nat)
    requires |L| == |s| == |P| && c < |s| && L[c] != B && threshold > 0
    requires forall k :: 0 <= k < |s| ==> P[k] == CutUpTo(s, L, threshold, c, k)
    requires P[c] == B
    ensures RunEnd(P, c) == c + 1
  {
    var b := Owner(L, c);
    assert b >= 0 && InLongPhrase(L, c, threshold) && L[c] == I;
    if c + 1 < |s| {
      if L[c + 1] == I {
        OwnerOfInside(L, c + 1);
      }
      assert P[c + 1] != I;
    }
    RunEndUnique(P, c, c + 1);
  }

  lemma {:induction false} LengthCutSweep(s: seq<Token>, L: seq<Label>, threshold: int, m: nat)
    requires |L| == |s| && m <= |s| && threshold > 0
    ensures forall k :: 0 <= k < |s| ==>
      Sweep(LengthCut(threshold), s, L, m)[k] == CutUpTo(s, L, threshold, m, k)
    decreases m
  {
    if m > 0 {
      var c := m - 1;
      LengthCutSweep(s, L, threshold, c);
      var P := Sweep(LengthCut(threshold), s, L, c);
      var R := LengthCutAt(s, P, c, threshold);
      assert R == Sweep(LengthCut(threshold), s, L, m);
      if L[c] == B {
        CutRunEndAtStart(s, L, P, threshold, c);
        var e := RunEnd(L, c);
        forall k | 0 <= k < |s|
          ensures R[k] == CutUpTo(s, L, threshold, m, k)
        {
          if c <= k < e {
            OwnerOfRun(L, c, k);
          }
        }
      } else {
        // no position is owned by `c`, which does not start a phrase
        assert forall k :: 0 <= k < |s| ==>
          CutUpTo(s, L, threshold, m, k) == CutUpTo(s, L, threshold, c, k);
        if P[c] == B {
          CutRunEndInside(s, L, P, threshold, c);
        }
        assert R == P;
      }
    }
  }

  /**
   * Pass Y: a word of a phrase longer than the threshold becomes a phrase of
   * its own when it may be a head and O otherwise; every other word keeps its label.
   */
  lemma LengthCutCutsLongPhrases(s: seq<Token>, L: seq<Label>, threshold: int)
    requires |L| == |s| && threshold > 0
    ensures forall k :: 0 <= k < |L| ==>
      Run(LengthCut(threshold), s, L)[k] ==
        if InLongPhrase(L, k, threshold) then (if Pos(s[k]) in HeadPos then B else O) else L[k]
  {
    LengthCutSweep(s, L, threshold, |s|);
  }

  /** Labels `R` that pass Y could have produced from `L`, position by position. */
  predicate CutFrom(s: seq<Token>, L: seq<Label>, R: seq<Label>, threshold: int)
    requires |L| == |s|
  {
    |R| == |L| && forall k :: 0 <= k < |L| ==> R[k] == CutLabel(s, L, k, threshold)
  }

  /** A B that pass Y wrote inside a long phrase stands alone. */
  lemma CutPhraseIsSingle(s: seq<Token>, L: seq<Label>, R: seq<Label>, threshold: int, b: nat)
    requires |L| == |s| == |R| && threshold > 0 && b < |R| && R[b] == B
    requires InLongPhrase(L, b, threshold)
    requires b + 1 < |R| ==> R[b + 1] == CutLabel(s, L, b + 1, threshold)
    ensures RunEnd(R, b) == b + 1
  {
    if b + 1 < |L| && L[b + 1] == I {
      OwnerOfInside(L, b + 1);
    }
  }

  /** A phrase pass Y left alone keeps its end, which was within the threshold. */
  lemma KeptPhraseIsShort(s: seq<Token>, L: seq<Label>, R: seq<Label>, threshold: int, b: nat)
    requires |L| == |s| && threshold > 0 && CutFrom(s, L, R, threshold)
    requires b < |R| && R[b] == B && !InLongPhrase(L, b, threshold)
    ensures RunEnd(R, b) == RunEnd(L, b) && RunEnd(R, b) - b <= threshold
  {
    assert R[b] == CutLabel(s, L, b, threshold);
    assert L[b] == B;
    var e := RunEnd(L, b);
    forall k | b < k < e
      ensures R[k] == I
    {
      OwnerOfRun(L, b, k);
      assert R[k] == CutLabel(s, L, k, threshold);
    }
    if e < |R| {
      assert R[e] == CutLabel(s, L, e, threshold);
      assert R[e] != I;
    }
    RunEndUnique(R, b, e);
  }

  /** After pass Y no phrase has more words than the threshold. */
  lemma LengthCutBounds(s: seq<Token>, L: seq<Label>, threshold: int)
    requires |L| == |s| && threshold > 0
    ensures Bounded(Run(LengthCut(threshold), s, L), threshold)
  {
    var R := Run(LengthCut(threshold), s, L);
    LengthCutCutsLongPhrases(s, L, threshold);
    assert CutFrom(s, L, R, threshold);
    forall b | 0 <= b < |R| && R[b] == B
      ensures RunEnd(R, b) - b <= threshold
    {
      if InLongPhrase(L, b, threshold) {
        CutPhraseIsSingle(s, L, R, threshold, b);
      } else {
        KeptPhraseIsShort(s, L, R, threshold, b);
      }
    }
  }

  /** Pass Y keeps well-formed labels well formed. */
  lemma LengthCutKeepsWellFormed(s: seq<Token>, L: seq<Label>, threshold: int)
    requires |L| == |s| && threshold > 0 && WellFormed(L)
    ensures WellFormed(Run(LengthCut(threshold), s, L))
  {
    var R := Run(LengthCut(threshold), s, L);
    LengthCutCutsLongPhrases(s, L, threshold);
    forall k | 0 <= k < |R| && R[k] == I
      ensures 0 < k && R[k - 1] != O
    {
      assert L[k] == I;
      OwnerOfInside(L, k);
    }
  }

  /** Labels whose phrases are all short enough pass through pass Y unchanged; so pass Y is idempotent. */
  lemma LengthCutIdempotent(s: seq<Token>, L: seq<Label>, threshold: int)
    requires |L| == |s| && threshold > 0
    ensures Bounded(L, threshold) ==> Run(LengthCut(threshold), s, L) == L
    ensures Run(LengthCut(threshold), s, Run(LengthCut(threshold), s, L)) == Run(LengthCut(threshold), s, L)
  {
    forall M: seq<Label> | |M| == |s| && Bounded(M, threshold)
      ensures Run(LengthCut(threshold), s, M) == M
    {
      LengthCutCutsLongPhrases(s, M, threshold);
      forall k | 0 <= k < |M|
        ensures !InLongPhrase(M, k, threshold)
      {
        if Owner(M, k) >= 0 {
          assert M[Owner(M, k)] == B;
        }
      }
    }
    LengthCutBounds(s, L, threshold);
  }

  // ---------------------------------------------------------------------------
  // Passes 1-7
  // ---------------------------------------------------------------------------

  /** Pass 1 deletes a phrase of two or more words exactly when every word is an abbreviation. */
  lemma LetterSpacingDeletesAbbreviations(s: seq<Token>, L: seq<Label>, i: nat, e: nat)
    requires |L| == |s| && i < e <= |s|
    ensures WithoutLetterSpacing(s, L, i, e) ==
      if e - i > 1 && forall k :: i <= k < e ==> Pos(s[k]) == "Y" then Fill(L, i, e, O) else L
  {
    var posTags := PosTags(s, i, e);
    if forall k :: i <= k < e ==> Pos(s[k]) == "Y" {
      assert TagSet(posTags) - {"Y"} == {};
    } else {
      var k :| i <= k < e && Pos(s[k]) != "Y";
      assert posTags[k - i] in TagSet(posTags) - {"Y"};
    }
  }

  /**
   * Pass 2 removes the B of a phrase of two or more words exactly when its
   * first word is an adjective with some nud/tud/dud analysis and follows
   * `ei` or `olema`.
   */
  lemma ParticipleStartDropped(s: seq<Token>, L: seq<Label>, i: nat, e: nat)
    requires |L| == |s| && i < e <= |s|
    ensures WithoutParticipleStart(s, L, i, e) ==
      if e - i > 1 && Pos(s[i]) == "A" &&
         (exists a :: a in s[i].analyses && a.form in {"nud", "tud", "dud"}) &&
         i >= 1 && (Matches(VerbEi, s[i - 1]) || Matches(VerbOle, s[i - 1]))
      then L[i := O] else L
  {
    var t := s[i];
    if HasPastParticipleForm(t) {
      var f :| f in {"nud", "tud", "dud"} && f in FormList(t);
      var k :| 0 <= k < |FormList(t)| && FormList(t)[k] == f;
      assert t.analyses[k] in t.analyses && t.analyses[k].form == f;
    } else {
      forall a | a in t.analyses
        ensures a.form !in {"nud", "tud", "dud"}
      {
        var k :| 0 <= k < |t.analyses| && t.analyses[k] == a;
        assert FormList(t)[k] == a.form;
      }
    }
  }

  /** Pass 3 deletes a phrase of two or more words exactly when every word is a numeral. */
  lemma NumeralOnlyDeletesNumerals(s: seq<Token>, L: seq<Label>, i: nat, e: nat)
    requires |L| == |s| && i < e <= |s|
    ensures WithoutNumeralOnly(s, L, i, e) ==
      if e - i > 1 && forall k :: i <= k < e ==> Pos(s[k]) in NumeralPos then Fill(L, i, e, O) else L
  {
    var posTags := PosTags(s, i, e);
    if forall k :: i <= k < e ==> Pos(s[k]) in NumeralPos {
      assert TagSet(posTags) <= {"O", "N"};
    } else {
      var k :| i <= k < e && Pos(s[k]) !in NumeralPos;
      assert posTags[k - i] in TagSet(posTags);
    }
  }

  lemma {:induction false} RelabelNumeralListPointwise(s: seq<Token>, L: seq<Label>, i: nat, e: nat, k: nat)
    requires |L| == |s| && i + k <= e <= |s|
    ensures var R := RelabelNumeralList(s, L, i, e, k);
      forall m :: i + k <= m < e ==>
        R[m] == if m == i then (if Pos(s[m]) == "N" then O else L[m])
                else if R[m - 1] == O then (if Pos(s[m]) == "N" then O else B)
                else I
    decreases e - (i + k)
  {
    if i + k < e {
      var next := RelabelStep(s, L, i, k);
      var R := RelabelNumeralList(s, L, i, e, k);
      assert R == RelabelNumeralList(s, next, i, e, k + 1);
      RelabelNumeralListPointwise(s, next, i, e, k + 1);
      assert R[i + k] == next[i + k];
      if k > 0 {
        assert R[i + k - 1] == next[i + k - 1] == L[i + k - 1];
      }
    }
  }

  /**
   * Pass 4 relabels a phrase word by word, reading the label it has just
   * written to the left: the first word becomes O if it is a numeral; a later
   * word after an O becomes O if it is a numeral and a phrase start otherwise;
   * a later word after a label continues that phrase. Nothing outside the
   * phrase changes.
   */
  lemma NumeralListRelabels(s: seq<Token>, L: seq<Label>, i: nat, e: nat)
    requires |L| == |s| && i < e <= |s|
    ensures var R := RelabelNumeralList(s, L, i, e, 0);
      (R[i] == if Pos(s[i]) == "N" then O else L[i]) &&
      (forall m :: i < m < e ==>
        R[m] == if R[m - 1] == O then (if Pos(s[m]) == "N" then O else B) else I) &&
      (forall m :: 0 <= m < |L| && (m < i || e <= m) ==> R[m] == L[m])
  {
    RelabelNumeralListPointwise(s, L, i, e, 0);
  }

  /**
   * Pass 5 fires only when the first word of the phrase is a past participle
   * not in title case followed by a title-case word, and no later word of the
   * phrase is such a participle; then the title-case word starts the phrase.
   */
  lemma ParticipleTitleSplitFires(s: seq<Token>, L: seq<Label>, i: nat, e: nat)
    requires |L| == |s| && i < e <= |s|
    ensures var r := ParticipleTitleSplit(s, L, i, e);
      r != L ==>
        ParticipleBeforeTitle(s[i..e], 0) &&
        (forall j :: 0 < j < e - i ==> !ParticipleBeforeTitle(s[i..e], j)) &&
        i + 1 < e && r == L[i := O][i + 1 := B]
  {
  }

  /**
   * Pass 6 at the first word of the sentence reads the last word as the word
   * before it: a sentence-final, unlabelled `kõige` starts a phrase and the
   * first word continues it.
   */
  lemma KoigeWrapsAround(s: seq<Token>, L: seq<Label>, e: nat)
    requires |L| == |s| && 1 < |s| && 0 < e <= |s|
    requires Pos(s[0]) == "C" && L[|s| - 1] == O && Matches(Koige, s[|s| - 1])
    ensures KoigePulledIn(s, L, 0, e)[|s| - 1] == B && KoigePulledIn(s, L, 0, e)[0] == I
  {
  }

  /**
   * Pass 6 at a later word: when it fires, the unlabelled `kõige` right
   * before the comparative starts a phrase the comparative continues.
   */
  lemma KoigeJoinsPhrase(s: seq<Token>, L: seq<Label>, i: nat, e: nat)
    requires |L| == |s| && 0 < i < e <= |s|
    ensures var r := KoigePulledIn(s, L, i, e);
      r != L ==>
        Pos(s[i]) == "C" && L[i - 1] == O && Matches(Koige, s[i - 1]) && r == Span(L, i - 1, i)
  {
    var r := KoigePulledIn(s, L, i, e);
    if r != L {
      assert r == Span(L, i - 1, i);
    }
  }

  /**
   * Pass 7: when it fires, the phrase was the two words comparative + proper
   * noun starting at `i`, and the proper noun starts it alone.
   */
  lemma ComparativeBeforeNameSplits(s: seq<Token>, L: seq<Label>, i: nat, e: nat)
    requires |L| == |s| && i < e <= |s|
    ensures var r := WithoutComparativeBeforeName(s, L, i, e);
      r != L ==>
        e == i + 2 && L[i] == B && Pos(s[i]) == "C" && Pos(s[i + 1]) == "H" &&
        r[i] == O && r[i + 1] == B &&
        forall k :: 0 <= k < |L| && k != i && k != i + 1 ==> r[k] == L[k]
  {
  }

  /** Passes 1, 3 and 4 clear or relabel only inside the phrase. */
  lemma PhraseOnlyFrame(s: seq<Token>, L: seq<Label>, i: nat, e: nat, k: nat)
    requires |L| == |s| && i < e <= |s| && k < |L| && (k < i || e <= k)
    ensures WithoutLetterSpacing(s, L, i, e)[k] == L[k]
    ensures WithoutNumeralOnly(s, L, i, e)[k] == L[k]
    ensures NumeralListBroken(s, L, i, e)[k] == L[k]
  {
  }

  /** Passes 2, 5, 6 and 7 write only the phrase start, the word after it, or the word before it. */
  lemma PhraseStartFrame(s: seq<Token>, L: seq<Label>, i: nat, e: nat, k: nat)
    requires |L| == |s| && i < e <= |s| && k < |L| && (k < i || e <= k)
    ensures WithoutParticipleStart(s, L, i, e)[k] == L[k]
    ensures ParticipleTitleSplit(s, L, i, e)[k] == L[k]
    ensures k != Before(i, |L|) ==> KoigePulledIn(s, L, i, e)[k] == L[k]
    ensures WithoutComparativeBeforeName(s, L, i, e)[k] == L[k]
  {
    if ParticipleTitleSplit(s, L, i, e) != L {
      ParticipleTitleSplitFires(s, L, i, e);
    }
  }

  /**
   * Passes 1-7 at a phrase start `i` change only the phrase found there and
   * the word the source reads as the one before it.
   */
  lemma PostFixFrame(s: seq<Token>, L: seq<Label>, i: nat)
    requires |L| == |s| && i < |s|
    ensures forall k ::
      0 <= k < |L| && k != Before(i, |L|) && (L[i] != B || k < i || RunEnd(L, i) <= k) ==>
        PostFixAt(s, L, i)[k] == L[k]
  {
    if L[i] == B {
      var e := RunEnd(L, i);
      var L1 := WithoutLetterSpacing(s, L, i, e);
      var L2 := WithoutParticipleStart(s, L1, i, e);
      var L3 := WithoutNumeralOnly(s, L2, i, e);
      var L4 := NumeralListBroken(s, L3, i, e);
      var L5 := ParticipleTitleSplit(s, L4, i, e);
      var L6 := KoigePulledIn(s, L5, i, e);
      var L7 := WithoutComparativeBeforeName(s, L6, i, e);
      assert L7 == PostFixAt(s, L, i);
      forall k | 0 <= k < |L| && k != Before(i, |L|) && (k < i || e <= k)
        ensures L7[k] == L[k]
      {
        PhraseOnlyFrame(s, L, i, e, k);
        PhraseStartFrame(s, L1, i, e, k);
        PhraseOnlyFrame(s, L2, i, e, k);
        PhraseOnlyFrame(s, L3, i, e, k);
        PhraseStartFrame(s, L4, i, e, k);
        PhraseStartFrame(s, L5, i, e, k);
        PhraseStartFrame(s, L6, i, e, k);
      }
    }
  }

  // ---------------------------------------------------------------------------
  // The whole corrector
  // ---------------------------------------------------------------------------

  /**
   * Whatever labels the corrector is given, its result is well formed, and
   * when cutting is asked for with a positive threshold no phrase is longer.
   */
  lemma CorrectedWellFormed(s: seq<Token>, L: seq<Label>, cutPhrases: bool, cutMaxThreshold: int)
    requires |L| == |s|
    ensures WellFormed(Corrected(s, L, cutPhrases, cutMaxThreshold))
    ensures cutPhrases && cutMaxThreshold > 0 ==> Bounded(Corrected(s, L, cutPhrases, cutMaxThreshold), cutMaxThreshold)
    ensures !(cutPhrases && cutMaxThreshold > 0) ==>
      Corrected(s, L, cutPhrases, cutMaxThreshold) == Run(StrayInside, s, Run(PostFix, s, L))
  {
    var fixed := Run(PostFix, s, L);
    var repaired := Run(StrayInside, s, fixed);
    StrayInsideRepairs(s, fixed);
    if cutPhrases && cutMaxThreshold > 0 {
      LengthCutKeepsWellFormed(s, repaired, cutMaxThreshold);
      LengthCutBounds(s, repaired, cutMaxThreshold);
    }
  }

  /** The labels of every sentence are well formed, and bounded in length when cutting is asked for. */
  lemma NounPhraseLabelsWellFormed(s: seq<Token>, cutPhrases: bool, cutMaxThreshold: int)
    ensures WellFormed(NounPhraseLabels(s, cutPhrases, cutMaxThreshold))
    ensures cutPhrases && cutMaxThreshold > 0 ==>
      Bounded(NounPhraseLabels(s, cutPhrases, cutMaxThreshold), cutMaxThreshold)
  {
    CorrectedWellFormed(s, PhaseEngine(s), cutPhrases, cutMaxThreshold);
  }
}
