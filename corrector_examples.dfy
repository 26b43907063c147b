/**
 * A sentence on which the corrector lets a phrase of numerals only through:
 * pass 3 is meant to delete such phrases, but it reads the phrase found before
 * pass 2 changed the labels, and pass X later revives the rest of it.
 */
module CorrectorExamples {
  import opened Tokens
  import opened Labels
  import opened Rules
  import opened CorrectorProperties

  /**
   * `ei saanud kaks miljonit` ("did not get two million"): `saanud` and
   * `kaks` are both governed by `miljonit`, and `saanud` shares the form
   * `sg p` with it.
   */
  function NegatedParticipleNumerals(): (s: seq<Token>)
    ensures |s| == 4
  {
    [
      Word("ei", [Analysis("ei", "V", "neg")], 1, 2),
      Word("saanud", [Analysis("saa", "A", "nud"), Analysis("saa", "A", "sg p")], 2, 4),
      Word("kaks", [Analysis("kaks", "N", "sg n")], 3, 4),
      Word("miljonit", [Analysis("miljon", "N", "sg p")], 4, 0)
    ]
  }

  /**
   * Pass 3 deletes a phrase of numerals only, but it reads the phrase found
   * before pass 2. Here Phase VI makes `saanud kaks miljonit` one phrase; pass
   * 2 then drops the B of `saanud`, pass 3 sees a phrase that also holds an
   * adjective, and pass X turns the stray I of `kaks` into B. The numerals
   * `kaks miljonit` end up a phrase of their own.
   */
  lemma NumeralOnlyPhraseSurvives()
    ensures PhaseEngine(NegatedParticipleNumerals()) == [O, B, I, I]
    ensures NounPhraseLabels(NegatedParticipleNumerals(), true, 3) == [O, O, B, I]
    ensures RunEnd([O, O, B, I], 2) == 4 && PosTags(NegatedParticipleNumerals(), 2, 4) == ["N", "N"]
  {
    WitnessPhaseEngine();
    WitnessCorrected();
    WitnessSurvivor();
  }

  /** Phases I-VI put `saanud kaks miljonit` in one phrase. */
  lemma WitnessPhaseEngine()
    ensures PhaseEngine(NegatedParticipleNumerals()) == [O, B, I, I]
  {
    var s := NegatedParticipleNumerals();
    assert Blank(|s|) == [O, O, O, O];
    WitnessSeeding();
    WitnessPhaseI();
    WitnessPhaseII();
    WitnessPhasesIIIToV();
    WitnessPhaseVI();
  }

  /** The phrase left standing is the two numerals. */
  lemma WitnessSurvivor()
    ensures RunEnd([O, O, B, I], 2) == 4 && PosTags(NegatedParticipleNumerals(), 2, 4) == ["N", "N"]
  {
    assert RunEnd([O, O, B, I], 3) == 4;
    WitnessWords();
  }

  /** The words of the sentence, with their tags and identifiers. */
  lemma WitnessWords()
    ensures var s := NegatedParticipleNumerals();
      Pos(s[0]) == "V" && Pos(s[1]) == "A" && Pos(s[2]) == "N" && Pos(s[3]) == "N" &&
      s[0].selfId == 1 && s[1].selfId == 2 && s[2].selfId == 3 && s[3].selfId == 4 &&
      s[0].headId == 2 && s[1].headId == 4 && s[2].headId == 4 && s[3].headId == 0
  {
  }

  /** No word is a possible head or a pronoun, so seeding marks nothing. */
  lemma WitnessSeeding()
    ensures Run(Seeding, NegatedParticipleNumerals(), [O, O, O, O]) == [O, O, O, O]
  {
    var s := NegatedParticipleNumerals();
    var L := [O, O, O, O];
    WitnessWords();
    assert Sweep(Seeding, s, L, 1) == L;
    assert Sweep(Seeding, s, L, 2) == L;
    assert Sweep(Seeding, s, L, 3) == L;
  }

  /** No word is followed by a possible head, so Phase I joins nothing. */
  lemma WitnessPhaseI()
    ensures Run(AttributeHead, NegatedParticipleNumerals(), [O, O, O, O]) == [O, O, O, O]
  {
    var s := NegatedParticipleNumerals();
    var L := [O, O, O, O];
    WitnessWords();
    assert Sweep(AttributeHead, s, L, 1) == L;
    assert Sweep(AttributeHead, s, L, 2) == L;
    assert Sweep(AttributeHead, s, L, 3) == L;
  }

  /** Phase II joins `kaks` to `miljonit`, which governs it. */
  lemma WitnessPhaseII()
    ensures Run(NumeralChain, NegatedParticipleNumerals(), [O, O, O, O]) == [O, O, B, I]
  {
    var s := NegatedParticipleNumerals();
    var L := [O, O, O, O];
    WitnessWords();
    assert Sweep(NumeralChain, s, L, 1) == L;
    assert Sweep(NumeralChain, s, L, 2) == L;
    assert JoinNext(L, 2) == [O, O, B, I];
    assert Sweep(NumeralChain, s, L, 3) == [O, O, B, I];
  }

  /** Phases III-V leave `[O, O, B, I]` as it is. */
  lemma WitnessPhasesIIIToV()
    ensures var s := NegatedParticipleNumerals(); var P := [O, O, B, I];
      Run(TrailingNumeral, s, P) == P && Run(NumeralHead, s, P) == P && Run(QuantitySplit, s, P) == P
  {
    var s := NegatedParticipleNumerals();
    var P := [O, O, B, I];
    WitnessWords();
    assert Sweep(TrailingNumeral, s, P, 2) == P;
    assert Sweep(TrailingNumeral, s, P, 3) == P;
    assert Sweep(NumeralHead, s, P, 2) == P;
    assert Sweep(NumeralHead, s, P, 3) == P;
    assert RunEnd(P, 3) == 4 && RunEnd(P, 2) == 4;
    assert Sweep(QuantitySplit, s, P, 2) == P;
    assert Sweep(QuantitySplit, s, P, 3) == P;
  }

  /** A root whose last letter ends none of the suffixes has none of them. */
  lemma NoSuffixFits(x: string, suffixes: set<string>)
    requires |x| > 0 && x[|x| - 1] != '\n'
    requires forall suffix :: suffix in suffixes ==> suffix != [] && suffix[|suffix| - 1] != x[|x| - 1]
    ensures !EndAnchoredSuffix(x, suffixes)
  {
    forall suffix | suffix in suffixes && |x| > |suffix|
      ensures x[|x| - |suffix|..] != suffix
    {
      assert x[|x| - |suffix|..][|suffix| - 1] == x[|x| - 1];
    }
  }

  /** The root `saa` fits none of the participle suffixes. */
  lemma SaaIsNoParticle()
    ensures !RootFits(VerbParticle, "saa") && !RootFits(VerbPastParticle, "saa")
  {
    NoSuffixFits("saa", {"tav", "v", "nud", "tud"});
    NoSuffixFits("saa", {"nud", "tud"});
  }

  /** Phase VI attaches `saanud` to the numeral phrase, up to the word after it. */
  lemma WitnessPhaseVI()
    ensures SweepBack(NegatedParticipleNumerals(), [O, O, B, I], 0) == [O, B, I, I]
  {
    var s := NegatedParticipleNumerals();
    var L := [O, O, B, I];
    WitnessNoAttachmentAfterParticiple();
    WitnessAttachmentAtParticiple();
    var M := [O, B, I, I];
    assert Span(L, 1, 2) == M;
    assert SweepBack(s, L, 1) == M;
    WitnessNoAttachmentAtNegation();
  }

  /** The negation `ei` is no attribute, so Phase VI leaves it. */
  lemma WitnessNoAttachmentAtNegation()
    ensures !DistantCandidate(NegatedParticipleNumerals(), [O, B, I, I], 0)
  {
    WitnessWords();
    assert "V" !in AttributePos;
  }

  /** The numerals themselves are no Phase VI candidates. */
  lemma WitnessNoAttachmentAfterParticiple()
    ensures SweepBack(NegatedParticipleNumerals(), [O, O, B, I], 2) == [O, O, B, I]
  {
    var s := NegatedParticipleNumerals();
    var L := [O, O, B, I];
    assert SweepBack(s, L, 4) == L;
    assert !DistantCandidate(s, L, 3) && !DistantCandidate(s, L, 2);
  }

  /** `saanud` agrees in case with its governor `miljonit` and nothing lies between. */
  lemma WitnessAttachmentAtParticiple()
    ensures DistantAttachment(NegatedParticipleNumerals(), [O, O, B, I], 1) == Attach(1, 2)
  {
    var s := NegatedParticipleNumerals();
    var L := [O, O, B, I];
    assert Governor(s, 1) == 3 && DistantCandidate(s, L, 1);
    assert TrimEnd(L, 2, 3) == 2;
    assert Intervening(s, L, 1) == [];
    assert s[1].analyses[1] in s[1].analyses && s[3].analyses[0] in s[3].analyses;
    assert "sg p" in Forms(s[1]) * Forms(s[3]);
    assert CaseAgreement(s[1], s[3]).Some?;
    SaaIsNoParticle();
    assert !Matches(VerbParticle, s[1]);
    assert !AnyMatches([], Punctuation) && !AnyMatches([], Conjunction);
  }

  /** Passes 1-7 at `saanud`: only pass 2 fires, and clears its B. */
  lemma WitnessPostFixAt()
    ensures PostFixAt(NegatedParticipleNumerals(), [O, B, I, I], 1) == [O, O, I, I]
  {
    var s := NegatedParticipleNumerals();
    var L := [O, B, I, I];
    assert RunEnd(L, 3) == 4 && RunEnd(L, 2) == 4 && RunEnd(L, 1) == 4;
    WitnessPassesOneToThree();
    WitnessPassesFourToSeven();
  }

  lemma WitnessPassesOneToThree()
    ensures var s := NegatedParticipleNumerals();
      WithoutNumeralOnly(s, WithoutParticipleStart(s, WithoutLetterSpacing(s, [O, B, I, I], 1, 4), 1, 4), 1, 4)
        == [O, O, I, I]
  {
    var s := NegatedParticipleNumerals();
    var L := [O, B, I, I];
    var tags := PosTags(s, 1, 4);
    assert tags[0] == "A" && "A" in TagSet(tags) - {"Y"};
    assert WithoutLetterSpacing(s, L, 1, 4) == L;
    assert FormList(s[1])[0] == "nud";
    assert s[0].analyses[0] in s[0].analyses && Matches(VerbEi, s[0]);
    var L2 := WithoutParticipleStart(s, L, 1, 4);
    assert L2 == [O, O, I, I];
    assert WithoutNumeralOnly(s, L2, 1, 4) == L2;
  }

  lemma WitnessPassesFourToSeven()
    ensures var s := NegatedParticipleNumerals(); var L := [O, O, I, I];
      WithoutComparativeBeforeName(s, KoigePulledIn(s, ParticipleTitleSplit(s,
        NumeralListBroken(s, L, 1, 4), 1, 4), 1, 4), 1, 4) == L
  {
    var s := NegatedParticipleNumerals();
    var L := [O, O, I, I];
    var tags := PosTags(s, 1, 4);
    assert tags == ["A", "N", "N"];
    assert multiset(tags)["N"] == 2;
    assert NumeralListBroken(s, L, 1, 4) == L;
    SaaIsNoParticle();
    assert !Matches(VerbPastParticle, s[1]);
    assert !ParticipleBeforeTitle(s[1..4], 0);
    assert ParticipleTitleSplit(s, L, 1, 4) == L;
    assert Pos(s[1]) == "A";
  }

  /** The corrector on the labels Phase VI leaves. */
  lemma WitnessCorrected()
    ensures Corrected(NegatedParticipleNumerals(), [O, B, I, I], true, 3) == [O, O, B, I]
  {
    var s := NegatedParticipleNumerals();
    WitnessPostFix();
    var F := [O, O, I, I];
    StrayInsideRepairs(s, F);
    var R := [O, O, B, I];
    assert Run(StrayInside, s, F) == R;
    WitnessLengthCut();
  }

  lemma WitnessPostFix()
    ensures Run(PostFix, NegatedParticipleNumerals(), [O, B, I, I]) == [O, O, I, I]
  {
    var s := NegatedParticipleNumerals();
    var L := [O, B, I, I];
    assert Sweep(PostFix, s, L, 1) == L;
    WitnessPostFixAt();
    var F := [O, O, I, I];
    assert Sweep(PostFix, s, L, 2) == F;
    assert Sweep(PostFix, s, L, 3) == F;
  }

  lemma WitnessLengthCut()
    ensures Run(LengthCut(3), NegatedParticipleNumerals(), [O, O, B, I]) == [O, O, B, I]
  {
    var R := [O, O, B, I];
    assert RunEnd(R, 3) == 4 && RunEnd(R, 2) == 4;
    LengthCutIdempotent(NegatedParticipleNumerals(), R, 3);
  }
}
