/**
 * What Seeding and Phases I-VI guarantee: seeding labels exactly the possible
 * heads and pronouns, no phase ever leaves an I without a labelled word before
 * it, and no phase takes a label away.
 */
module PhaseProperties {
  import opened Tokens
  import opened Labels
  import opened Rules

  /** Whether seeding makes position `k` a phrase start. */
  predicate SeedsPhrase(s: seq<Token>, k: nat)
    requires k < |s|
  {
    Pos(s[k]) in HeadPos || Pos(s[k]) == "P"
  }

  lemma {:induction false} SeedingSweep(s: seq<Token>, L: seq<Label>, m: nat, k: nat)
    requires |L| == |s| && m <= |s| && k < |s|
    ensures Sweep(Seeding, s, L, m)[k] == if k < m && SeedsPhrase(s, k) then B else L[k]
    decreases m
  {
    if m > 0 {
      SeedingSweep(s, L, m - 1, k);
    }
  }

  /** Seeding labels B exactly the possible heads and the pronouns, and leaves every other word O. */
  lemma SeedingMarksHeads(s: seq<Token>)
    ensures forall k :: 0 <= k < |s| ==>
      Run(Seeding, s, Blank(|s|))[k] == if SeedsPhrase(s, k) then B else O
  {
    forall k | 0 <= k < |s| {
      SeedingSweep(s, Blank(|s|), |s|, k);
    }
  }

  /** The loops of Seeding and Phases I-V. */
  predicate PhasePass(p: Pass) {
    p.Seeding? || p.AttributeHead? || p.NumeralChain? || p.TrailingNumeral? ||
    p.NumeralHead? || p.QuantitySplit?
  }

  lemma JoinNextKeepsWellFormed(L: seq<Label>, i: nat)
    requires i + 1 < |L| && WellFormed(L)
    ensures WellFormed(JoinNext(L, i)) && KeepsLabelled(L, JoinNext(L, i))
  {
    var r := JoinNext(L, i);
    forall k | 0 <= k < |r| && r[k] == I
      ensures 0 < k && r[k - 1] != O
    {
      if k != i && k != i + 1 {
        assert L[k] == I;
      }
    }
  }

  /** One step of Seeding or of Phases I-V keeps the labels well formed and removes none. */
  lemma StepKeepsWellFormed(p: Pass, s: seq<Token>, L: seq<Label>, i: nat)
    requires PhasePass(p) && |L| == |s| && i < |s| && WellFormed(L)
    ensures WellFormed(StepAt(p, s, L, i)) && KeepsLabelled(L, StepAt(p, s, L, i))
  {
    var r := StepAt(p, s, L, i);
    if r != L {
      match p
      case Seeding =>
        BeginKeepsWellFormed(L, i);
      case AttributeHead =>
        JoinNextKeepsWellFormed(L, i);
      case NumeralChain =>
        JoinNextKeepsWellFormed(L, i);
      case TrailingNumeral =>
        assert r == L[i := I] && 0 < i && L[i - 1] != O;
      case NumeralHead =>
        JoinNextKeepsWellFormed(L, i);
      case QuantitySplit =>
        BeginKeepsWellFormed(L, SplitPoint(s, i, RunEnd(L, i) - 2));
    }
  }

  lemma {:induction false} SweepKeepsWellFormed(p: Pass, s: seq<Token>, L: seq<Label>, m: nat)
    requires PhasePass(p) && |L| == |s| && m <= |s| && WellFormed(L)
    ensures WellFormed(Sweep(p, s, L, m)) && KeepsLabelled(L, Sweep(p, s, L, m))
    decreases m
  {
    if m > 0 {
      SweepKeepsWellFormed(p, s, L, m - 1);
      StepKeepsWellFormed(p, s, Sweep(p, s, L, m - 1), m - 1);
    }
  }

  /**
   * Phase VI at one position: when it changes anything, the attribute and
   * every word up to its governor (or up to the next word) form one phrase,
   * possibly with `kõige` before the attribute; nothing else changes.
   */
  lemma DistantAtJoinsGovernor(s: seq<Token>, L: seq<Label>, i: nat)
    requires |L| == |s| && i < |s|
    ensures var r := DistantAt(s, L, i);
      r != L ==>
        DistantCandidate(s, L, i) && r[i] != O &&
        exists first: nat, last: nat :: i - 1 <= first <= i && i < last <= Governor(s, i) &&
          r == Span(L, first, last)
  {
    var r := DistantAt(s, L, i);
    if r != L {
      var a := DistantAttachment(s, L, i);
      assert a.Attach?;
      assert r == Span(L, a.first, a.last);
    }
  }

  lemma DistantAtKeepsWellFormed(s: seq<Token>, L: seq<Label>, i: nat)
    requires |L| == |s| && i < |s| && WellFormed(L)
    ensures WellFormed(DistantAt(s, L, i)) && KeepsLabelled(L, DistantAt(s, L, i))
  {
    var a := DistantAttachment(s, L, i);
    if a.Attach? {
      SpanKeepsWellFormed(L, a.first, a.last);
    }
  }

  lemma {:induction false} SweepBackKeepsWellFormed(s: seq<Token>, L: seq<Label>, k: nat)
    requires |L| == |s| && k <= |s| && WellFormed(L)
    ensures WellFormed(SweepBack(s, L, k)) && KeepsLabelled(L, SweepBack(s, L, k))
    decreases |s| - k
  {
    if k < |s| {
      SweepBackKeepsWellFormed(s, L, k + 1);
      DistantAtKeepsWellFormed(s, SweepBack(s, L, k + 1), k);
    }
  }

  /**
   * After Phases I-VI the labels are well formed, and every word seeding made
   * a phrase start still belongs to some phrase.
   */
  lemma PhaseEngineWellFormed(s: seq<Token>)
    ensures WellFormed(PhaseEngine(s))
    ensures forall k :: 0 <= k < |s| && SeedsPhrase(s, k) ==> PhaseEngine(s)[k] != O
  {
    var blank := Blank(|s|);
    var seeded := Run(Seeding, s, blank);
    var phase1 := Run(AttributeHead, s, seeded);
    var phase2 := Run(NumeralChain, s, phase1);
    var phase3 := Run(TrailingNumeral, s, phase2);
    var phase4 := Run(NumeralHead, s, phase3);
    var phase5 := Run(QuantitySplit, s, phase4);
    SeedingMarksHeads(s);
    SweepKeepsWellFormed(Seeding, s, blank, |s|);
    SweepKeepsWellFormed(AttributeHead, s, seeded, |s|);
    SweepKeepsWellFormed(NumeralChain, s, phase1, |s|);
    SweepKeepsWellFormed(TrailingNumeral, s, phase2, |s|);
    SweepKeepsWellFormed(NumeralHead, s, phase3, |s|);
    SweepKeepsWellFormed(QuantitySplit, s, phase4, |s|);
    SweepBackKeepsWellFormed(s, phase5, 0);
  }
}
