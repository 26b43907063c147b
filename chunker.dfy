/**
 * The chunker itself: the loops of `find_phrases` and `applyPostFixes` over a
 * mutable label array, each proved to compute the corresponding function of
 * module Rules.
 */
module Chunker {
  import opened Tokens
  import opened Labels
  import opened Rules
  import CorrectorProperties

  // ---------------------------------------------------------------------------
  // Reading a phrase off the labels
  // ---------------------------------------------------------------------------

  /** `phrase` and `indices` are the words and positions `i .. i+|indices|-1` of the sentence. */
  predicate PhraseView(sentence: seq<Token>, i: nat, phrase: seq<Token>, indices: seq<nat>) {
    |indices| >= 1 && i + |indices| <= |sentence| && |phrase| == |indices| &&
    (forall k :: 0 <= k < |indices| ==> indices[k] == i + k) &&
    phrase == sentence[i .. i + |indices|]
  }

  /**
   * The phrase starting at `i`: the B there and the I labels right after it.
   * Nothing is returned when `i` is out of range or not labelled B.
   */
  method GetPhrase(i: int, sentence: seq<Token>, labels: array<Label>)
    returns (phrase: seq<Token>, indices: seq<nat>)
    requires labels.Length == |sentence|
    ensures !(0 <= i < |sentence| && labels[i] == B) ==> phrase == [] && indices == []
    ensures 0 <= i < |sentence| && labels[i] == B ==>
      PhraseView(sentence, i, phrase, indices) && i + |indices| == RunEnd(labels[..], i)
  {
    phrase := [];
    indices := [];
    if 0 <= i < |sentence| && labels[i] == B {
      phrase := [sentence[i]];
      indices := [i];
      var j := i + 1;
      while j < |sentence|
        invariant i + 1 <= j <= |sentence| && |indices| == j - i
        invariant PhraseView(sentence, i, phrase, indices)
        invariant forall k :: i < k < j ==> labels[k] == I
      {
        if labels[j] in {B, O} {
          break;
        }
        phrase := phrase + [sentence[j]];
        indices := indices + [j];
        j := j + 1;
      }
      RunEndUnique(labels[..], i, i + |indices|);
    }
  }

  // ---------------------------------------------------------------------------
  // Seeding and Phases I-V
  // ---------------------------------------------------------------------------

  method SeedHeads(sentence: seq<Token>, labels: array<Label>)
    requires labels.Length == |sentence|
    modifies labels
    ensures labels[..] == Run(Seeding, sentence, old(labels[..]))
  {
    for i := 0 to |sentence|
      invariant labels[..] == Sweep(Seeding, sentence, old(labels[..]), i)
    {
      var pos1 := Pos(sentence[i]);
      if pos1 in HeadPos {
        labels[i] := B;
      } else if pos1 == "P" {
        // single pronouns are taken for heads as well
        labels[i] := B;
      }
    }
  }

  method JoinAttributeHeads(sentence: seq<Token>, labels: array<Label>)
    requires labels.Length == |sentence|
    modifies labels
    ensures labels[..] == Run(AttributeHead, sentence, old(labels[..]))
  {
    for i := 0 to |sentence|
      invariant labels[..] == Sweep(AttributeHead, sentence, old(labels[..]), i)
    {
      var parent1 := sentence[i].headId;
      if i + 1 < |sentence| {
        var label2 := sentence[i + 1].selfId;
        var pos1 := Pos(sentence[i]);
        var pos2 := Pos(sentence[i + 1]);
        if parent1 == label2 && pos1 in AttributePos && pos2 in HeadPos {
          if 'K' in pos1 && labels[i] == O {
            // an adposition does not start a phrase
          } else if 'D' in pos1 && !Matches(AdvStartingPhrase, sentence[i]) {
            // nor does an adverb other than the few listed
          } else {
            if labels[i] == O {
              labels[i] := B;
            }
            labels[i + 1] := I;
          }
        }
      }
    }
  }

  method JoinNumeralChains(sentence: seq<Token>, labels: array<Label>)
    requires labels.Length == |sentence|
    modifies labels
    ensures labels[..] == Run(NumeralChain, sentence, old(labels[..]))
  {
    for i := 0 to |sentence|
      invariant labels[..] == Sweep(NumeralChain, sentence, old(labels[..]), i)
    {
      var label1 := sentence[i].selfId;
      var parent1 := sentence[i].headId;
      var pos1 := Pos(sentence[i]);
      if pos1 in NumeralPos && i + 1 < |sentence| {
        var label2 := sentence[i + 1].selfId;
        var parent2 := sentence[i + 1].headId;
        var pos2 := Pos(sentence[i + 1]);
        if pos2 in NumeralPos && (parent2 == label1 || parent1 == label2) {
          if labels[i] == O {
            labels[i] := B;
          }
          labels[i + 1] := I;
        }
      }
    }
  }

  method AppendTrailingNumerals(sentence: seq<Token>, labels: array<Label>)
    requires labels.Length == |sentence|
    modifies labels
    ensures labels[..] == Run(TrailingNumeral, sentence, old(labels[..]))
  {
    for i := 0 to |sentence|
      invariant labels[..] == Sweep(TrailingNumeral, sentence, old(labels[..]), i)
    {
      var parent1 := sentence[i].headId;
      var pos1 := Pos(sentence[i]);
      if pos1 in NumeralPos && i - 1 > -1 {
        var label2 := sentence[i - 1].selfId;
        if parent1 == label2 && labels[i - 1] != O {
          labels[i] := I;
        }
      }
    }
  }

  method JoinNumeralHeads(sentence: seq<Token>, labels: array<Label>)
    requires labels.Length == |sentence|
    modifies labels
    ensures labels[..] == Run(NumeralHead, sentence, old(labels[..]))
  {
    for i := 0 to |sentence|
      invariant labels[..] == Sweep(NumeralHead, sentence, old(labels[..]), i)
    {
      var label1 := sentence[i].selfId;
      var pos1 := Pos(sentence[i]);
      if pos1 in NumeralPos && i + 1 < |sentence| {
        var parent2 := sentence[i + 1].headId;
        var pos2 := Pos(sentence[i + 1]);
        if parent2 == label1 && labels[i + 1] != O && pos2 != "P" {
          if labels[i] == O {
            labels[i] := B;
          }
          labels[i + 1] := I;
        }
      }
    }
  }

  /** Phase V at one B: the walk back over the numerals before the final noun. */
  method SplitQuantityPhrase(sentence: seq<Token>, labels: array<Label>, i: nat)
    requires labels.Length == |sentence| && i < |sentence| && labels[i] == B
    modifies labels
    ensures labels[..] == QuantitySplitAt(sentence, old(labels[..]), i)
  {
    var phrase, indices := GetPhrase(i, sentence, labels);
    var posTags := PosTags(phrase, 0, |phrase|);
    var n := |phrase|;
    ghost var e := i + n;
    assert e == RunEnd(labels[..], i);
    if n > 2 && posTags[n - 1] in {"S", "Y"} && posTags[n - 2] == "N" && posTags[0] !in NumeralPos {
      assert QuantityPhrase(sentence, i, e);
      // a second-to-last word with four digits in a row is taken for a year
      var yearCheck := HasFourDigits(phrase[n - 2].text);
      var breakPoint := BreakPoint(sentence, i, indices, posTags);
      if !yearCheck {
        labels[breakPoint] := B;
      }
    } else {
      assert !QuantityPhrase(sentence, i, e);
    }
  }

  /**
   * Phase V's walk back from the second-to-last word of the phrase at `i`
   * over the numerals before it.
   */
  method BreakPoint(sentence: seq<Token>, i: nat, indices: seq<nat>, posTags: seq<string>)
    returns (breakPoint: nat)
    requires 2 < |indices| && i + |indices| <= |sentence|
    requires forall k :: 0 <= k < |indices| ==> indices[k] == i + k
    requires |posTags| == |indices| && forall k :: 0 <= k < |indices| ==> posTags[k] == Pos(sentence[i + k])
    requires posTags[|indices| - 2] == "N" && posTags[0] != "N"
    ensures breakPoint == SplitPoint(sentence, i, i + |indices| - 2)
  {
    var n := |indices|;
    breakPoint := indices[n - 2];
    var j := n - 3;
    while posTags[j] == "N"
      invariant 0 <= j <= n - 3 && breakPoint == i + j + 1
      invariant SplitPoint(sentence, i, breakPoint) == SplitPoint(sentence, i, i + n - 2)
      decreases j
    {
      breakPoint := indices[j];
      j := j - 1;
    }
  }

  method SplitQuantityPhrases(sentence: seq<Token>, labels: array<Label>)
    requires labels.Length == |sentence|
    modifies labels
    ensures labels[..] == Run(QuantitySplit, sentence, old(labels[..]))
  {
    for i := 0 to |sentence|
      invariant labels[..] == Sweep(QuantitySplit, sentence, old(labels[..]), i)
    {
      if labels[i] == B {
        SplitQuantityPhrase(sentence, labels, i);
      }
    }
  }

  // ---------------------------------------------------------------------------
  // Phase VI
  // ---------------------------------------------------------------------------

  /** Writes one phrase: B at `first`, I at `first+1 .. last`. */
  method MarkPhrase(labels: array<Label>, first: nat, last: nat)
    requires first < last < labels.Length
    modifies labels
    ensures labels[..] == Span(old(labels[..]), first, last)
  {
    labels[first] := B;
    var j := first + 1;
    while j <= last
      invariant first + 1 <= j <= last + 1
      invariant labels[..] == Fill(old(labels[..])[first := B], first + 1, j, I)
    {
      labels[j] := I;
      j := j + 1;
    }
  }

  /**
   * The words strictly between `i` and its governor `g`, without those that
   * already belong to the governor's phrase when the governor is labelled I.
   */
  method InterveningWords(sentence: seq<Token>, labels: array<Label>, i: nat, g: nat)
    returns (interveningTokens: seq<Token>, interveningTokenIDs: seq<nat>)
    requires labels.Length == |sentence| && i + 1 < g < |sentence|
    ensures |interveningTokenIDs| == |interveningTokens|
    ensures forall k :: 0 <= k < |interveningTokenIDs| ==> interveningTokenIDs[k] == i + 1 + k
    ensures i + 1 + |interveningTokenIDs| ==
      if labels[g] == I then TrimEnd(labels[..], i + 1, g) else g
    ensures interveningTokens == sentence[i + 1 .. i + 1 + |interveningTokenIDs|]
  {
    interveningTokens := [];
    interveningTokenIDs := [];
    var j := i + 1;
    while j < g
      invariant i + 1 <= j <= g && |interveningTokenIDs| == j - (i + 1)
      invariant forall k :: 0 <= k < |interveningTokenIDs| ==> interveningTokenIDs[k] == i + 1 + k
      invariant interveningTokens == sentence[i + 1 .. j]
    {
      interveningTokens := interveningTokens + [sentence[j]];
      interveningTokenIDs := interveningTokenIDs + [j];
      j := j + 1;
    }
    if labels[g] == I {
      interveningTokens, interveningTokenIDs :=
        PopToPhraseStart(sentence, labels, i + 1, interveningTokens, interveningTokenIDs);
    }
  }

  /**
   * Pops words off the end of the intervening words `lo .. lo+|ids|-1` up to
   * and including the nearest B, or all of them when there is none.
   */
  method PopToPhraseStart(sentence: seq<Token>, labels: array<Label>, lo: nat,
                          tokens: seq<Token>, ids: seq<nat>)
    returns (interveningTokens: seq<Token>, interveningTokenIDs: seq<nat>)
    requires labels.Length == |sentence| && lo + |ids| <= |sentence| && |tokens| == |ids|
    requires forall k :: 0 <= k < |ids| ==> ids[k] == lo + k
    requires tokens == sentence[lo .. lo + |ids|]
    ensures |interveningTokenIDs| == |interveningTokens|
    ensures forall k :: 0 <= k < |interveningTokenIDs| ==> interveningTokenIDs[k] == lo + k
    ensures lo + |interveningTokenIDs| == TrimEnd(labels[..], lo, lo + |ids|)
    ensures interveningTokens == sentence[lo .. lo + |interveningTokenIDs|]
  {
    interveningTokens := tokens;
    interveningTokenIDs := ids;
    while |interveningTokenIDs| > 0
      invariant |interveningTokenIDs| == |interveningTokens| <= |ids|
      invariant interveningTokenIDs == ids[..|interveningTokenIDs|]
      invariant interveningTokens == sentence[lo .. lo + |interveningTokenIDs|]
      invariant TrimEnd(labels[..], lo, lo + |interveningTokenIDs|) == TrimEnd(labels[..], lo, lo + |ids|)
    {
      var lastID := interveningTokenIDs[|interveningTokenIDs| - 1];
      interveningTokenIDs := interveningTokenIDs[..|interveningTokenIDs| - 1];
      interveningTokens := interveningTokens[..|interveningTokens| - 1];
      assert lastID == lo + |interveningTokenIDs|;
      if labels[lastID] == B {
        // the start of the phrase is reached
        break;
      }
    }
  }

  /** Whether punctuation, and whether a conjunction, stands among `tokens`. */
  method BlockingWords(tokens: seq<Token>) returns (punctIntervening: bool, jaNingEgaVoi: bool)
    ensures punctIntervening <==> exists m :: 0 <= m < |tokens| && Matches(Punctuation, tokens[m])
    ensures jaNingEgaVoi <==> exists m :: 0 <= m < |tokens| && Matches(Conjunction, tokens[m])
  {
    punctIntervening := false;
    jaNingEgaVoi := false;
    for k := 0 to |tokens|
      invariant punctIntervening <==> exists m :: 0 <= m < k && Matches(Punctuation, tokens[m])
      invariant jaNingEgaVoi <==> exists m :: 0 <= m < k && Matches(Conjunction, tokens[m])
    {
      if Matches(Punctuation, tokens[k]) {
        punctIntervening := true;
      }
      if Matches(Conjunction, tokens[k]) {
        jaNingEgaVoi := true;
      }
    }
  }

  /**
   * What the three rule groups of Phase VI share: a candidate `i` with its
   * governor `g`, the intervening words, and their case agreement, none of
   * the words being punctuation or a conjunction and the agreement being some form.
   */
  predicate AttachmentInputs(sentence: seq<Token>, L: seq<Label>, i: nat, g: nat,
                             interveningTokens: seq<Token>, caseAgreement: Option<string>)
    requires |L| == |sentence| && i < |sentence|
  {
    DistantCandidate(sentence, L, i) && g == Governor(sentence, i) &&
    interveningTokens == Intervening(sentence, L, i) &&
    !AnyMatches(interveningTokens, Punctuation) && !AnyMatches(interveningTokens, Conjunction) &&
    caseAgreement == CaseAgreement(sentence[i], sentence[g]) && caseAgreement.Some?
  }

  /** Rules VI.a and VI.b, for an ordinal. */
  method AttachOrdinal(sentence: seq<Token>, labels: array<Label>, i: nat, g: nat,
                       interveningTokens: seq<Token>, interveningTokenIDs: seq<nat>,
                       caseAgreement: Option<string>)
    requires labels.Length == |sentence| && i < |sentence| && Pos(sentence[i]) == "O"
    requires AttachmentInputs(sentence, labels[..], i, g, interveningTokens, caseAgreement)
    requires |interveningTokenIDs| == |interveningTokens|
    modifies labels
    ensures labels[..] == DistantAt(sentence, old(labels[..]), i)
  {
    if |interveningTokenIDs| == 0 {
      // VI.a: an agreeing ordinal right before the phrase
      labels[i] := B;
      labels[i + 1] := I;
      assert labels[..] == Span(old(labels[..]), i, i + 1);
    } else {
      // VI.b: an agreeing ordinal with only agreeing words in between
      var agreements := seq(|interveningTokens|, k requires 0 <= k < |interveningTokens| =>
        CaseAgreement(interveningTokens[k], sentence[g]));
      if forall k :: 0 <= k < |agreements| ==> Truthy(agreements[k]) {
        assert AllAgreeWith(interveningTokens, sentence[g]) by {
          forall m | 0 <= m < |interveningTokens|
            ensures Truthy(CaseAgreement(interveningTokens[m], sentence[g]))
          {
            assert agreements[m] == CaseAgreement(interveningTokens[m], sentence[g]);
          }
        }
        MarkPhrase(labels, i, g);
      } else {
        assert !AllAgreeWith(interveningTokens, sentence[g]) by {
          var k :| 0 <= k < |agreements| && !Truthy(agreements[k]);
          assert !Truthy(CaseAgreement(interveningTokens[k], sentence[g]));
        }
      }
    }
  }

  /** Rules VI.c and VI.d, for an adjective. */
  method AttachAdjective(sentence: seq<Token>, labels: array<Label>, i: nat, g: nat,
                         interveningTokens: seq<Token>, interveningTokenIDs: seq<nat>,
                         caseAgreement: Option<string>)
    requires labels.Length == |sentence| && i < |sentence| && Pos(sentence[i]) in {"A", "G"}
    requires AttachmentInputs(sentence, labels[..], i, g, interveningTokens, caseAgreement)
    requires |interveningTokenIDs| == |interveningTokens|
    modifies labels
    ensures labels[..] == DistantAt(sentence, old(labels[..]), i)
  {
    // participles are not added at the start
    var isVerbParticle := Matches(VerbParticle, sentence[i]);
    var interveningProblematicPos := false;
    if |interveningTokenIDs| > 0 {
      interveningProblematicPos := HasProblematicPos(interveningTokens);
    }
    if !isVerbParticle && |interveningTokenIDs| == 0 {
      // VI.c: an agreeing adjective right before the phrase
      labels[i] := B;
      labels[i + 1] := I;
      assert labels[..] == Span(old(labels[..]), i, i + 1);
    } else if !isVerbParticle && |interveningTokenIDs| > 0 && !interveningProblematicPos {
      // VI.d: an agreeing adjective with no verb, adverb, conjunction or punctuation in between
      MarkPhrase(labels, i, g);
    }
  }

  /** Rules VI.e and VI.f, for a comparative. */
  method AttachComparative(sentence: seq<Token>, labels: array<Label>, i: nat, g: nat,
                           interveningTokens: seq<Token>, interveningTokenIDs: seq<nat>,
                           caseAgreement: Option<string>)
    requires labels.Length == |sentence| && i < |sentence| && Pos(sentence[i]) == "C"
    requires AttachmentInputs(sentence, labels[..], i, g, interveningTokens, caseAgreement)
    requires |interveningTokenIDs| == |interveningTokens|
    modifies labels
    ensures labels[..] == DistantAt(sentence, old(labels[..]), i)
  {
    if i - 1 > -1 && Matches(Koige, sentence[i - 1]) {
      // VI.e: an agreeing comparative after `kõige`
      MarkPhrase(labels, i - 1, g);
    } else if PluralOrSemanticCase(caseAgreement.value) {
      // VI.f: an agreeing comparative in the plural or a semantic case
      MarkPhrase(labels, i, g);
    }
  }

  /** A word that is no candidate leaves the labels as they are. */
  lemma NoCandidateKeeps(sentence: seq<Token>, L: seq<Label>, i: nat)
    requires |L| == |sentence| && i < |sentence| && !DistantCandidate(sentence, L, i)
    ensures DistantAt(sentence, L, i) == L
  {
  }

  /** Phase VI at one position. */
  method AttachDistantAttribute(sentence: seq<Token>, labels: array<Label>, i: nat)
    requires labels.Length == |sentence| && i < |sentence|
    modifies labels
    ensures labels[..] == DistantAt(sentence, old(labels[..]), i)
  {
    var label1 := sentence[i].selfId;
    var parent1 := sentence[i].headId;
    var pos1 := Pos(sentence[i]);
    var parentRelativeLoc := parent1 - label1;
    if pos1 in AttributePos && labels[i] == O && parentRelativeLoc > 1 &&
       i + parentRelativeLoc < |sentence|
    {
      var g := i + parentRelativeLoc;
      var label2 := sentence[g].selfId;
      if parent1 == label2 && labels[g] != O {
        var interveningTokens, interveningTokenIDs := InterveningWords(sentence, labels, i, g);
        assert DistantCandidate(sentence, labels[..], i) && g == Governor(sentence, i);
        assert interveningTokens == Intervening(sentence, labels[..], i);
        // punctuation and conjunctions are always left outside a phrase
        var punctIntervening, jaNingEgaVoi := BlockingWords(interveningTokens);
        var caseAgreement := CaseAgreement(sentence[i], sentence[g]);
        if !punctIntervening && !jaNingEgaVoi && caseAgreement.Some? {
          if pos1 == "O" {
            AttachOrdinal(sentence, labels, i, g, interveningTokens, interveningTokenIDs, caseAgreement);
          } else if pos1 in {"A", "G"} {
            AttachAdjective(sentence, labels, i, g, interveningTokens, interveningTokenIDs, caseAgreement);
          } else if pos1 == "C" {
            AttachComparative(sentence, labels, i, g, interveningTokens, interveningTokenIDs, caseAgreement);
          }
        }
      } else {
        NoCandidateKeeps(sentence, labels[..], i);
      }
    } else {
      NoCandidateKeeps(sentence, labels[..], i);
    }
  }

  method AttachDistantAttributes(sentence: seq<Token>, labels: array<Label>)
    requires labels.Length == |sentence|
    modifies labels
    ensures labels[..] == SweepBack(sentence, old(labels[..]), 0)
  {
    var i := |sentence|;
    while i > 0
      invariant 0 <= i <= |sentence|
      invariant labels[..] == SweepBack(sentence, old(labels[..]), i)
    {
      ghost var before := labels[..];
      i := i - 1;
      AttachDistantAttribute(sentence, labels, i);
      SweepBackStep(sentence, old(labels[..]), i, before, labels[..]);
    }
  }

  /** One step of Phase VI's backward sweep, stated on values. */
  lemma SweepBackStep(s: seq<Token>, L: seq<Label>, k: nat, before: seq<Label>, after: seq<Label>)
    requires |L| == |s| && k < |s|
    requires before == SweepBack(s, L, k + 1) && after == DistantAt(s, before, k)
    ensures after == SweepBack(s, L, k)
  {
  }

  // ---------------------------------------------------------------------------
  // Post-fix passes
  // ---------------------------------------------------------------------------

  /** What every post-fix pass 1-7 receives: the phrase found at `i`, with its tags. */
  predicate PhraseAt(sentence: seq<Token>, i: nat, phrase: seq<Token>, indices: seq<nat>, posTags: seq<string>) {
    PhraseView(sentence, i, phrase, indices) && posTags == PosTags(phrase, 0, |phrase|)
  }

  /** Pass 1. */
  method DeleteLetterSpacing(sentence: seq<Token>, labels: array<Label>, i: nat,
                             phrase: seq<Token>, indices: seq<nat>, posTags: seq<string>)
    requires labels.Length == |sentence| && PhraseAt(sentence, i, phrase, indices, posTags)
    modifies labels
    ensures labels[..] == WithoutLetterSpacing(sentence, old(labels[..]), i, i + |indices|)
  {
    PosTagsOfSlice(sentence, i, i + |indices|);
    if |posTags| > 1 && TagSet(posTags) - {"Y"} == {} {
      // the phrase is deleted
      for m := 0 to |indices|
        invariant labels[..] == Fill(old(labels[..]), i, i + m, O)
      {
        labels[indices[m]] := O;
      }
    }
  }

  /** Pass 2. */
  method DropParticipleStart(sentence: seq<Token>, labels: array<Label>, i: nat,
                             phrase: seq<Token>, indices: seq<nat>, posTags: seq<string>)
    requires labels.Length == |sentence| && PhraseAt(sentence, i, phrase, indices, posTags)
    modifies labels
    ensures labels[..] == WithoutParticipleStart(sentence, old(labels[..]), i, i + |indices|)
  {
    if |posTags| > 1 && posTags[0] == "A" {
      var forms := FormList(phrase[0]);
      if "nud" in forms || "tud" in forms || "dud" in forms {
        // a participle that forms a compound predicate with `ei` or `olema`
        if i - 1 > -1 && (Matches(VerbEi, sentence[i - 1]) || Matches(VerbOle, sentence[i - 1])) {
          labels[i] := O;
        }
      }
    }
  }

  /** Pass 3. */
  method DeleteNumeralOnly(sentence: seq<Token>, labels: array<Label>, i: nat,
                           phrase: seq<Token>, indices: seq<nat>, posTags: seq<string>)
    requires labels.Length == |sentence| && PhraseAt(sentence, i, phrase, indices, posTags)
    modifies labels
    ensures labels[..] == WithoutNumeralOnly(sentence, old(labels[..]), i, i + |indices|)
  {
    PosTagsOfSlice(sentence, i, i + |indices|);
    if |phrase| > 1 && TagSet(posTags) <= {"O", "N"} {
      for m := 0 to |indices|
        invariant labels[..] == Fill(old(labels[..]), i, i + m, O)
      {
        labels[indices[m]] := O;
      }
    }
  }

  /** Pass 4 at one word of the phrase: `ind` is the word's position, `k` its phrase offset. */
  method RelabelWord(sentence: seq<Token>, labels: array<Label>, i: nat, k: nat, ind: nat, pos: string)
    requires labels.Length == |sentence| && ind == i + k < |sentence| && pos == Pos(sentence[ind])
    modifies labels
    ensures labels[..] == RelabelStep(sentence, old(labels[..]), i, k)
  {
    if pos == "N" && (k == 0 || (k > 0 && labels[ind - 1] == O)) {
      labels[ind] := O;
    } else if k > 0 && labels[ind - 1] == O {
      labels[ind] := B;
    } else if k > 0 && labels[ind - 1] != O {
      labels[ind] := I;
    }
  }

  /** Pass 4. */
  method BreakNumeralList(sentence: seq<Token>, labels: array<Label>, i: nat,
                          phrase: seq<Token>, indices: seq<nat>, posTags: seq<string>)
    requires labels.Length == |sentence| && PhraseAt(sentence, i, phrase, indices, posTags)
    modifies labels
    ensures labels[..] == NumeralListBroken(sentence, old(labels[..]), i, i + |indices|)
  {
    PosTagsOfSlice(sentence, i, i + |indices|);
    if multiset(posTags)["N"] > 7 {
      // the phrase is taken for a list or a table of numbers
      RelabelNumerals(sentence, labels, i, indices, posTags);
    }
  }

  /** Pass 4's loop over the words of the phrase. */
  method RelabelNumerals(sentence: seq<Token>, labels: array<Label>, i: nat,
                         indices: seq<nat>, posTags: seq<string>)
    requires labels.Length == |sentence| && i + |indices| <= |sentence|
    requires forall k :: 0 <= k < |indices| ==> indices[k] == i + k
    requires |posTags| == |indices| && forall k :: 0 <= k < |indices| ==> posTags[k] == Pos(sentence[i + k])
    modifies labels
    ensures labels[..] == RelabelNumeralList(sentence, old(labels[..]), i, i + |indices|, 0)
  {
    ghost var e := i + |indices|;
    for k := 0 to |indices|
      invariant RelabelNumeralList(sentence, labels[..], i, e, k) ==
                RelabelNumeralList(sentence, old(labels[..]), i, e, 0)
    {
      var ind := indices[k];
      var pos := posTags[k];
      ghost var before := labels[..];
      RelabelWord(sentence, labels, i, k, ind, pos);
      assert RelabelNumeralList(sentence, before, i, e, k) ==
             RelabelNumeralList(sentence, labels[..], i, e, k + 1);
    }
  }

  /** Pass 5. */
  method SplitParticipleTitle(sentence: seq<Token>, labels: array<Label>, i: nat,
                              phrase: seq<Token>, indices: seq<nat>, posTags: seq<string>)
    requires labels.Length == |sentence| && PhraseAt(sentence, i, phrase, indices, posTags)
    modifies labels
    ensures labels[..] == ParticipleTitleSplit(sentence, old(labels[..]), i, i + |indices|)
  {
    var verbPartFollowedByTitle := FindParticipleBeforeTitle(phrase);
    if verbPartFollowedByTitle == 0 {
      // a participle before a proper name is taken out of the phrase
      labels[indices[verbPartFollowedByTitle]] := O;
      labels[indices[verbPartFollowedByTitle] + 1] := B;
    }
  }

  /** Pass 5's loop: the last participle in the phrase that precedes a title-case word. */
  method FindParticipleBeforeTitle(phrase: seq<Token>) returns (verbPartFollowedByTitle: int)
    ensures verbPartFollowedByTitle == LastParticipleBeforeTitle(phrase, |phrase|)
  {
    verbPartFollowedByTitle := -1;
    for j := 0 to |phrase|
      invariant verbPartFollowedByTitle == LastParticipleBeforeTitle(phrase, j)
    {
      if Matches(VerbPastParticle, phrase[j]) && !IsTitle(phrase[j].text) &&
         j + 1 < |phrase| && IsTitle(phrase[j + 1].text)
      {
        verbPartFollowedByTitle := j;
      }
    }
  }

  /** Pass 6. */
  method PullInKoige(sentence: seq<Token>, labels: array<Label>, i: nat,
                     phrase: seq<Token>, indices: seq<nat>, posTags: seq<string>)
    requires labels.Length == |sentence| && PhraseAt(sentence, i, phrase, indices, posTags)
    modifies labels
    ensures labels[..] == KoigePulledIn(sentence, old(labels[..]), i, i + |indices|)
  {
    // NPlabels[i-1] in the source, where i-1 == -1 denotes the last word
    var before := (i - 1 + |sentence|) % |sentence|;
    if posTags[0] == "C" && i + 1 > -1 && labels[before] == O {
      if Matches(Koige, sentence[before]) {
        labels[before] := B;
        labels[i] := I;
      }
    }
  }

  /** Pass 7. */
  method DropComparativeBeforeName(sentence: seq<Token>, labels: array<Label>, i: nat,
                                   phrase: seq<Token>, indices: seq<nat>, posTags: seq<string>)
    requires labels.Length == |sentence| && PhraseAt(sentence, i, phrase, indices, posTags)
    modifies labels
    ensures labels[..] == WithoutComparativeBeforeName(sentence, old(labels[..]), i, i + |indices|)
  {
    if posTags[0] == "C" && |posTags| == 2 && posTags[1] == "H" && labels[i] == B {
      labels[i] := O;
      labels[i + 1] := B;
    }
  }

  /** Passes 1-7 at one B, all reading the phrase found before pass 1. */
  method FixPhrase(sentence: seq<Token>, labels: array<Label>, i: nat)
    requires labels.Length == |sentence| && i < |sentence| && labels[i] == B
    modifies labels
    ensures labels[..] == PostFixAt(sentence, old(labels[..]), i)
  {
    var phrase, indices := GetPhrase(i, sentence, labels);
    var posTags := PosTags(phrase, 0, |phrase|);
    ghost var L := labels[..];
    ghost var e := i + |indices|;
    assert e == RunEnd(L, i);
    DeleteLetterSpacing(sentence, labels, i, phrase, indices, posTags);
    ghost var L1 := labels[..];
    assert L1 == WithoutLetterSpacing(sentence, L, i, e);
    DropParticipleStart(sentence, labels, i, phrase, indices, posTags);
    ghost var L2 := labels[..];
    assert L2 == WithoutParticipleStart(sentence, L1, i, e);
    DeleteNumeralOnly(sentence, labels, i, phrase, indices, posTags);
    ghost var L3 := labels[..];
    assert L3 == WithoutNumeralOnly(sentence, L2, i, e);
    BreakNumeralList(sentence, labels, i, phrase, indices, posTags);
    ghost var L4 := labels[..];
    assert L4 == NumeralListBroken(sentence, L3, i, e);
    SplitParticipleTitle(sentence, labels, i, phrase, indices, posTags);
    ghost var L5 := labels[..];
    assert L5 == ParticipleTitleSplit(sentence, L4, i, e);
    PullInKoige(sentence, labels, i, phrase, indices, posTags);
    ghost var L6 := labels[..];
    assert L6 == KoigePulledIn(sentence, L5, i, e);
    DropComparativeBeforeName(sentence, labels, i, phrase, indices, posTags);
    assert labels[..] == WithoutComparativeBeforeName(sentence, L6, i, e);
    PostFixInSteps(sentence, L, i, e, L1, L2, L3, L4, L5, L6, labels[..]);
  }

  /** Passes 1-7 one after the other, on the phrase end found before pass 1, are `PostFixAt`. */
  lemma PostFixInSteps(s: seq<Token>, L: seq<Label>, i: nat, e: nat,
                       L1: seq<Label>, L2: seq<Label>, L3: seq<Label>, L4: seq<Label>,
                       L5: seq<Label>, L6: seq<Label>, R: seq<Label>)
    requires |L| == |s| && i < |s| && L[i] == B && e == RunEnd(L, i)
    requires L1 == WithoutLetterSpacing(s, L, i, e) && L2 == WithoutParticipleStart(s, L1, i, e)
    requires L3 == WithoutNumeralOnly(s, L2, i, e) && L4 == NumeralListBroken(s, L3, i, e)
    requires L5 == ParticipleTitleSplit(s, L4, i, e) && L6 == KoigePulledIn(s, L5, i, e)
    requires R == WithoutComparativeBeforeName(s, L6, i, e)
    ensures R == PostFixAt(s, L, i)
  {
  }

  /** Pass X. */
  method RepairStrayInside(sentence: seq<Token>, labels: array<Label>)
    requires labels.Length == |sentence|
    modifies labels
    ensures labels[..] == Run(StrayInside, sentence, old(labels[..]))
  {
    for i := 0 to |sentence|
      invariant labels[..] == Sweep(StrayInside, sentence, old(labels[..]), i)
    {
      if labels[i] == I {
        if i == 0 || (i - 1 > -1 && labels[i - 1] !in {I, B}) {
          labels[i] := B;
        }
      }
    }
  }

  /** Pass Y at one B: a long phrase keeps only its possible heads, each a phrase of its own. */
  method CutLongPhrase(sentence: seq<Token>, labels: array<Label>, i: nat, cutMaxThreshold: int)
    requires labels.Length == |sentence| && i < |sentence| && labels[i] == B
    modifies labels
    ensures labels[..] == LengthCutAt(sentence, old(labels[..]), i, cutMaxThreshold)
  {
    var phrase, indices := GetPhrase(i, sentence, labels);
    var posTags := PosTags(phrase, 0, |phrase|);
    if |phrase| > cutMaxThreshold {
      for j := 0 to |phrase|
        invariant labels[..] == CutRun(sentence, old(labels[..]), i, i + j)
      {
        var posTag := posTags[j];
        if posTag in HeadPos {
          labels[indices[j]] := B;
        } else {
          labels[indices[j]] := O;
        }
      }
    }
  }

  /** Pass Y. */
  method CutLongPhrases(sentence: seq<Token>, labels: array<Label>, cutMaxThreshold: int)
    requires labels.Length == |sentence|
    modifies labels
    ensures labels[..] == Run(LengthCut(cutMaxThreshold), sentence, old(labels[..]))
  {
    for i := 0 to |sentence|
      invariant labels[..] == Sweep(LengthCut(cutMaxThreshold), sentence, old(labels[..]), i)
    {
      if labels[i] == B {
        CutLongPhrase(sentence, labels, i, cutMaxThreshold);
      }
    }
  }

  method ApplyPostFixes(sentence: seq<Token>, labels: array<Label>, cutPhrases: bool, cutMaxThreshold: int)
    requires labels.Length == |sentence|
    modifies labels
    ensures labels[..] == Corrected(sentence, old(labels[..]), cutPhrases, cutMaxThreshold)
  {
    for i := 0 to |sentence|
      invariant labels[..] == Sweep(PostFix, sentence, old(labels[..]), i)
    {
      if labels[i] == B {
        FixPhrase(sentence, labels, i);
      }
    }
    RepairStrayInside(sentence, labels);
    if cutPhrases && cutMaxThreshold > 0 {
      CutLongPhrases(sentence, labels, cutMaxThreshold);
    }
  }

  // ---------------------------------------------------------------------------
  // One sentence
  // ---------------------------------------------------------------------------

  /** The noun-phrase labels of one sentence. */
  method FindPhrases(sentence: seq<Token>, cutPhrases: bool, cutMaxThreshold: int)
    returns (npLabels: seq<Label>)
    ensures npLabels == NounPhraseLabels(sentence, cutPhrases, cutMaxThreshold)
    ensures |npLabels| == |sentence| && WellFormed(npLabels)
    ensures cutPhrases && cutMaxThreshold > 0 ==> Bounded(npLabels, cutMaxThreshold)
  {
    var labels := new Label[|sentence|](_ => O);
    assert labels[..] == Blank(|sentence|);
    SeedHeads(sentence, labels);
    JoinAttributeHeads(sentence, labels);
    JoinNumeralChains(sentence, labels);
    AppendTrailingNumerals(sentence, labels);
    JoinNumeralHeads(sentence, labels);
    SplitQuantityPhrases(sentence, labels);
    AttachDistantAttributes(sentence, labels);
    ApplyPostFixes(sentence, labels, cutPhrases, cutMaxThreshold);
    npLabels := labels[..];
    CorrectorProperties.NounPhraseLabelsWellFormed(sentence, cutPhrases, cutMaxThreshold);
  }
}
