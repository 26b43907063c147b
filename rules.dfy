/**
 * The chunker's rules as functions on label sequences. Each loop of the
 * source applies one rule at positions 0, 1, ..., n-1 in turn (Phase VI in
 * reverse order) to the labels as the earlier positions left them; `Sweep`
 * and `SweepBack` are those loops, and `NounPhraseLabels` is the whole run
 * for one sentence.
 */
module Rules {
  import opened Tokens
  import opened Labels

  // ---------------------------------------------------------------------------
  // Seeding and Phases I-IV: rules at one position
  // ---------------------------------------------------------------------------

  /** Seeding: possible heads and pronouns begin a phrase. */
  function SeedAt(s: seq<Token>, L: seq<Label>, i: nat): (r: seq<Label>)
    requires |L| == |s| && i < |s|
    ensures |r| == |L|
  {
    if Pos(s[i]) in HeadPos then L[i := B]
    else if Pos(s[i]) == "P" then L[i := B]
    else L
  }

  /** Joins position `i` to the next one: B at `i` unless already labelled, I after it. */
  function JoinNext(L: seq<Label>, i: nat): (r: seq<Label>)
    requires i + 1 < |L|
    ensures |r| == |L| && r[i + 1] == I
    ensures r[i] == if L[i] == O then B else L[i]
    ensures forall k :: 0 <= k < |L| && k != i && k != i + 1 ==> r[k] == L[k]
  {
    (if L[i] == O then L[i := B] else L)[i + 1 := I]
  }

  /**
   * Phase I: an attribute governed by the next word, which may head a phrase,
   * joins it; an adposition that starts a phrase does not, nor does an adverb
   * other than the few that may start one.
   */
  function AttributeHeadAt(s: seq<Token>, L: seq<Label>, i: nat): (r: seq<Label>)
    requires |L| == |s| && i < |s|
    ensures |r| == |L|
    ensures r != L ==>
      i + 1 < |s| && s[i].headId == s[i + 1].selfId &&
      Pos(s[i]) in AttributePos && Pos(s[i + 1]) in HeadPos &&
      !('K' in Pos(s[i]) && L[i] == O) &&
      ('D' in Pos(s[i]) ==> Matches(AdvStartingPhrase, s[i])) &&
      r == JoinNext(L, i)
  {
    if i + 1 < |s| && s[i].headId == s[i + 1].selfId &&
       Pos(s[i]) in AttributePos && Pos(s[i + 1]) in HeadPos
    then
      if 'K' in Pos(s[i]) && L[i] == O then L
      else if 'D' in Pos(s[i]) && !Matches(AdvStartingPhrase, s[i]) then L
      else JoinNext(L, i)
    else L
  }

  /** Phase II: two adjacent numerals, one governing the other, join. */
  function NumeralChainAt(s: seq<Token>, L: seq<Label>, i: nat): (r: seq<Label>)
    requires |L| == |s| && i < |s|
    ensures |r| == |L|
    ensures r != L ==>
      i + 1 < |s| && Pos(s[i]) in NumeralPos && Pos(s[i + 1]) in NumeralPos &&
      (s[i + 1].headId == s[i].selfId || s[i].headId == s[i + 1].selfId) &&
      r == JoinNext(L, i)
  {
    if Pos(s[i]) in NumeralPos && i + 1 < |s| then
      if Pos(s[i + 1]) in NumeralPos &&
         (s[i + 1].headId == s[i].selfId || s[i].headId == s[i + 1].selfId)
      then JoinNext(L, i)
      else L
    else L
  }

  /** Phase III: a numeral governed by a labelled left neighbour continues its phrase. */
  function TrailingNumeralAt(s: seq<Token>, L: seq<Label>, i: nat): (r: seq<Label>)
    requires |L| == |s| && i < |s|
    ensures |r| == |L|
    ensures r != L ==>
      0 < i && Pos(s[i]) in NumeralPos && s[i].headId == s[i - 1].selfId &&
      L[i - 1] != O && r == L[i := I]
  {
    if Pos(s[i]) in NumeralPos && i > 0 then
      if s[i].headId == s[i - 1].selfId && L[i - 1] != O then L[i := I] else L
    else L
  }

  /** Phase IV: a numeral governing a labelled, non-pronoun right neighbour joins it. */
  function NumeralHeadAt(s: seq<Token>, L: seq<Label>, i: nat): (r: seq<Label>)
    requires |L| == |s| && i < |s|
    ensures |r| == |L|
    ensures r != L ==>
      i + 1 < |s| && Pos(s[i]) in NumeralPos && s[i + 1].headId == s[i].selfId &&
      L[i + 1] != O && Pos(s[i + 1]) != "P" && r == JoinNext(L, i)
  {
    if Pos(s[i]) in NumeralPos && i + 1 < |s| then
      if s[i + 1].headId == s[i].selfId && L[i + 1] != O && Pos(s[i + 1]) != "P"
      then JoinNext(L, i)
      else L
    else L
  }

  // ---------------------------------------------------------------------------
  // Phase V: splitting a quantity off the end of a phrase
  // ---------------------------------------------------------------------------

  /** The part-of-speech tags of the words at `i .. e-1`. */
  function PosTags(s: seq<Token>, i: nat, e: nat): (tags: seq<string>)
    requires i <= e <= |s|
    ensures |tags| == e - i && forall k :: 0 <= k < e - i ==> tags[k] == Pos(s[i + k])
  {
    seq(e - i, k requires 0 <= k < e - i => Pos(s[i + k]))
  }

  /** The tags of a stretch of the sentence are those of the stretch taken on its own. */
  lemma PosTagsOfSlice(s: seq<Token>, i: nat, e: nat)
    requires i <= e <= |s|
    ensures PosTags(s[i..e], 0, e - i) == PosTags(s, i, e)
  {
  }

  /** A phrase of three or more words ending in numeral + noun and not starting with a numeral. */
  predicate QuantityPhrase(s: seq<Token>, i: nat, e: nat)
    requires i < e <= |s|
  {
    e - i > 2 && Pos(s[e - 1]) in {"S", "Y"} && Pos(s[e - 2]) == "N" && Pos(s[i]) !in NumeralPos
  }

  /**
   * Where a quantity phrase is split: the start of the run of numerals that
   * ends at position `b`, which never reaches back to the phrase start `first`.
   */
  function SplitPoint(s: seq<Token>, first: nat, b: nat): (bp: nat)
    requires first < b < |s| && Pos(s[first]) != "N"
    ensures first < bp <= b
    ensures forall k :: bp <= k < b ==> Pos(s[k]) == "N"
    ensures Pos(s[bp - 1]) != "N"
    decreases b
  {
    if Pos(s[b - 1]) == "N" then SplitPoint(s, first, b - 1) else b
  }

  /**
   * Phase V: a phrase `[... numerals noun]` gets a new B where its final run of
   * numerals starts, unless the second-to-last word looks like a year.
   */
  function QuantitySplitAt(s: seq<Token>, L: seq<Label>, i: nat): (r: seq<Label>)
    requires |L| == |s| && i < |s|
    ensures |r| == |L|
    ensures r != L ==>
      L[i] == B && QuantityPhrase(s, i, RunEnd(L, i)) &&
      !HasFourDigits(s[RunEnd(L, i) - 2].text) &&
      i < SplitPoint(s, i, RunEnd(L, i) - 2) <= RunEnd(L, i) - 2 &&
      r == L[SplitPoint(s, i, RunEnd(L, i) - 2) := B]
  {
    if L[i] == B then
      var e := RunEnd(L, i);
      if QuantityPhrase(s, i, e) && !HasFourDigits(s[e - 2].text)
      then L[SplitPoint(s, i, e - 2) := B]
      else L
    else L
  }

  // ---------------------------------------------------------------------------
  // Phase VI: attaching an attribute to a governor two or more words away
  // ---------------------------------------------------------------------------

  /** The position of the governor, read as the word's own position plus the identifier difference. */
  function Governor(s: seq<Token>, i: nat): int
    requires i < |s|
  {
    i + (s[i].headId - s[i].selfId)
  }

  /**
   * An unlabelled attribute whose governor lies two or more positions to its
   * right, inside the sentence, carries the governor's identifier and is labelled.
   */
  predicate DistantCandidate(s: seq<Token>, L: seq<Label>, i: nat)
    requires |L| == |s| && i < |s|
  {
    var g := Governor(s, i);
    Pos(s[i]) in AttributePos && L[i] == O && g > i + 1 && g < |s| &&
    s[i].headId == s[g].selfId && L[g] != O
  }

  /**
   * The intervening identifiers `lo .. hi-1` after popping from the end up to
   * and including the nearest B: up to the last B, or none if there is none.
   */
  function TrimEnd(L: seq<Label>, lo: nat, hi: nat): (r: nat)
    requires lo <= hi <= |L|
    ensures lo <= r <= hi
    ensures (exists k :: lo <= k < hi && L[k] == B) ==>
      r < hi && L[r] == B && forall k :: r < k < hi ==> L[k] != B
    ensures (forall k :: lo <= k < hi ==> L[k] != B) ==> r == lo
    decreases hi
  {
    if hi == lo then lo
    else if L[hi - 1] == B then hi - 1
    else TrimEnd(L, lo, hi - 1)
  }

  /** One phrase to write: B at `first`, I up to `last`. */
  datatype Attachment = NoAttachment | Attach(first: nat, last: nat)

  predicate AnyMatches(tokens: seq<Token>, tpl: Template) {
    exists m :: 0 <= m < |tokens| && Matches(tpl, tokens[m])
  }

  predicate AllAgreeWith(tokens: seq<Token>, governor: Token) {
    forall m :: 0 <= m < |tokens| ==> Truthy(CaseAgreement(tokens[m], governor))
  }

  /** Some analysis of some token is a verb, adverb, conjunction or punctuation. */
  predicate HasProblematicPos(tokens: seq<Token>) {
    exists m, a :: 0 <= m < |tokens| && a in tokens[m].analyses && a.postag in {"V", "D", "J", "Z"}
  }

  /**
   * Which of the rules VI.a-VI.f fires for the attribute at `i` and its governor
   * at `g`, given the words `between` them that do not yet belong to the
   * governor's phrase and the case agreement of the two.
   */
  function ChooseAttachment(s: seq<Token>, i: nat, g: nat, between: seq<Token>,
                            agreement: Option<string>): (a: Attachment)
    requires i + 1 < g < |s|
    ensures a.Attach? ==>
      agreement.Some? && i - 1 <= a.first < a.last <= g && (a.last == i + 1 || a.last == g)
    ensures a.Attach? && a.first < i ==>
      a.first == i - 1 && Pos(s[i]) == "C" && Matches(Koige, s[i - 1]) && a.last == g
    ensures a.Attach? ==> Pos(s[i]) in {"O", "A", "G", "C"}
    ensures a.Attach? ==> !AnyMatches(between, Punctuation) && !AnyMatches(between, Conjunction)
    ensures a.Attach? && a.last == i + 1 ==> between == []
  {
    var blocked := AnyMatches(between, Punctuation) || AnyMatches(between, Conjunction);
    var pos := Pos(s[i]);
    if blocked || agreement.None? then NoAttachment
    else if pos == "O" then
      if |between| == 0 then Attach(i, i + 1)                    // VI.a
      else if AllAgreeWith(between, s[g]) then Attach(i, g)      // VI.b
      else NoAttachment
    else if pos in {"A", "G"} then
      if Matches(VerbParticle, s[i]) then NoAttachment
      else if |between| == 0 then Attach(i, i + 1)               // VI.c
      else if !HasProblematicPos(between) then Attach(i, g)      // VI.d
      else NoAttachment
    else if pos == "C" then
      if i >= 1 && Matches(Koige, s[i - 1]) then Attach(i - 1, g)        // VI.e
      else if PluralOrSemanticCase(agreement.value) then Attach(i, g)   // VI.f
      else NoAttachment
    else NoAttachment
  }

  /**
   * The words strictly between a candidate and its governor, without those
   * that already belong to the governor's phrase when the governor is labelled I.
   */
  function Intervening(s: seq<Token>, L: seq<Label>, i: nat): (between: seq<Token>)
    requires |L| == |s| && i < |s| && DistantCandidate(s, L, i)
    ensures |between| <= Governor(s, i) - (i + 1)
  {
    var g := Governor(s, i);
    var hi := if L[g] == I then TrimEnd(L, i + 1, g) else g;
    s[i + 1 .. hi]
  }

  /** Which of the rules VI.a-VI.f fires at `i`, and the phrase it writes. */
  function DistantAttachment(s: seq<Token>, L: seq<Label>, i: nat): (a: Attachment)
    requires |L| == |s| && i < |s|
    ensures a.Attach? ==>
      DistantCandidate(s, L, i) && CaseAgreement(s[i], s[Governor(s, i)]).Some? &&
      i - 1 <= a.first < a.last <= Governor(s, i) && (a.last == i + 1 || a.last == Governor(s, i))
  {
    if !DistantCandidate(s, L, i) then NoAttachment
    else
      var g := Governor(s, i);
      ChooseAttachment(s, i, g, Intervening(s, L, i), CaseAgreement(s[i], s[g]))
  }

  /** Phase VI at one position: writes the attachment's phrase, if any. */
  function DistantAt(s: seq<Token>, L: seq<Label>, i: nat): (r: seq<Label>)
    requires |L| == |s| && i < |s|
    ensures |r| == |L|
  {
    match DistantAttachment(s, L, i)
    case NoAttachment => L
    case Attach(first, last) => Span(L, first, last)
  }

  // ---------------------------------------------------------------------------
  // Post-fix passes 1-7 for the phrase `i .. e-1` found when the loop reached `i`
  // ---------------------------------------------------------------------------

  function TagSet(tags: seq<string>): set<string> {
    set t | t in tags
  }

  /** Pass 1: a phrase of abbreviations only (letter-spaced text) is deleted. */
  function WithoutLetterSpacing(s: seq<Token>, L: seq<Label>, i: nat, e: nat): (r: seq<Label>)
    requires |L| == |s| && i < e <= |s|
    ensures |r| == |L|
  {
    var posTags := PosTags(s, i, e);
    if |posTags| > 1 && TagSet(posTags) - {"Y"} == {} then Fill(L, i, e, O) else L
  }

  /** The forms of a token's analyses, in order. */
  function FormList(t: Token): seq<string> {
    seq(|t.analyses|, k requires 0 <= k < |t.analyses| => t.analyses[k].form)
  }

  predicate HasPastParticipleForm(t: Token) {
    "nud" in FormList(t) || "tud" in FormList(t) || "dud" in FormList(t)
  }

  /** Pass 2: a leading nud/tud participle after `ei` or `olema` loses its B. */
  function WithoutParticipleStart(s: seq<Token>, L: seq<Label>, i: nat, e: nat): (r: seq<Label>)
    requires |L| == |s| && i < e <= |s|
    ensures |r| == |L|
  {
    if e - i > 1 && Pos(s[i]) == "A" && HasPastParticipleForm(s[i]) &&
       i >= 1 && (Matches(VerbEi, s[i - 1]) || Matches(VerbOle, s[i - 1]))
    then L[i := O]
    else L
  }

  /** Pass 3: a phrase of two or more numerals only is deleted. */
  function WithoutNumeralOnly(s: seq<Token>, L: seq<Label>, i: nat, e: nat): (r: seq<Label>)
    requires |L| == |s| && i < e <= |s|
    ensures |r| == |L|
  {
    if e - i > 1 && TagSet(PosTags(s, i, e)) <= {"O", "N"} then Fill(L, i, e, O) else L
  }

  /**
   * Pass 4 from phrase offset `k` on: a numeral with no labelled left
   * neighbour (or first in the phrase) becomes O, any other word after the
   * first becomes B or I by whether its left neighbour is labelled.
   */
  function RelabelNumeralList(s: seq<Token>, L: seq<Label>, i: nat, e: nat, k: nat): (r: seq<Label>)
    requires |L| == |s| && i + k <= e <= |s|
    ensures |r| == |L|
    ensures forall m :: 0 <= m < |L| && (m < i + k || e <= m) ==> r[m] == L[m]
    decreases e - (i + k)
  {
    if i + k == e then L
    else RelabelNumeralList(s, RelabelStep(s, L, i, k), i, e, k + 1)
  }

  /** Pass 4 at phrase offset `k`. */
  function RelabelStep(s: seq<Token>, L: seq<Label>, i: nat, k: nat): (r: seq<Label>)
    requires |L| == |s| && i + k < |s|
    ensures |r| == |L|
    ensures forall m :: 0 <= m < |L| && m != i + k ==> r[m] == L[m]
  {
    var ind := i + k;
    if Pos(s[ind]) == "N" && (k == 0 || L[ind - 1] == O) then L[ind := O]
    else if k > 0 && L[ind - 1] == O then L[ind := B]
    else if k > 0 && L[ind - 1] != O then L[ind := I]
    else L
  }

  /** Pass 4: a phrase with more than seven numerals is taken for a list or table. */
  function NumeralListBroken(s: seq<Token>, L: seq<Label>, i: nat, e: nat): (r: seq<Label>)
    requires |L| == |s| && i < e <= |s|
    ensures |r| == |L|
  {
    if multiset(PosTags(s, i, e))["N"] > 7 then RelabelNumeralList(s, L, i, e, 0) else L
  }

  /** A past participle, not in title case, followed inside the phrase by a title-case word. */
  predicate ParticipleBeforeTitle(phrase: seq<Token>, j: nat)
    requires j < |phrase|
  {
    Matches(VerbPastParticle, phrase[j]) && !IsTitle(phrase[j].text) &&
    j + 1 < |phrase| && IsTitle(phrase[j + 1].text)
  }

  /** The last offset below `k` where `ParticipleBeforeTitle` holds, or -1. */
  function LastParticipleBeforeTitle(phrase: seq<Token>, k: nat): (r: int)
    requires k <= |phrase|
    ensures -1 <= r < k
    ensures r >= 0 ==> ParticipleBeforeTitle(phrase, r) && r + 1 < |phrase|
    ensures forall j :: r < j < k ==> !ParticipleBeforeTitle(phrase, j)
  {
    if k == 0 then -1
    else if ParticipleBeforeTitle(phrase, k - 1) then k - 1
    else LastParticipleBeforeTitle(phrase, k - 1)
  }

  /** Pass 5: when the phrase starts with such a participle, the title-case word starts it instead. */
  function ParticipleTitleSplit(s: seq<Token>, L: seq<Label>, i: nat, e: nat): (r: seq<Label>)
    requires |L| == |s| && i < e <= |s|
    ensures |r| == |L|
  {
    if LastParticipleBeforeTitle(s[i..e], e - i) == 0 then L[i := O][i + 1 := B] else L
  }

  /**
   * The position Python's `NPlabels[i-1]` denotes: `i-1`, or the last position
   * when `i` is 0, since index -1 counts from the end.
   */
  function Before(i: nat, n: nat): (p: nat)
    requires i < n
    ensures p < n && (i > 0 ==> p == i - 1) && (i == 0 ==> p == n - 1)
  {
    (i - 1 + n) % n
  }

  /**
   * Pass 6: a phrase starting with a comparative takes in an unlabelled `kõige`
   * before it. The guard of the source never excludes `i == 0`, where the word
   * before is the last word of the sentence.
   */
  function KoigePulledIn(s: seq<Token>, L: seq<Label>, i: nat, e: nat): (r: seq<Label>)
    requires |L| == |s| && i < e <= |s|
    ensures |r| == |L|
  {
    var p := Before(i, |L|);
    if Pos(s[i]) == "C" && L[p] == O && Matches(Koige, s[p]) then L[p := B][i := I] else L
  }

  /** Pass 7: a two-word phrase comparative + proper noun keeps only the proper noun. */
  function WithoutComparativeBeforeName(s: seq<Token>, L: seq<Label>, i: nat, e: nat): (r: seq<Label>)
    requires |L| == |s| && i < e <= |s|
    ensures |r| == |L|
  {
    if Pos(s[i]) == "C" && e - i == 2 && Pos(s[i + 1]) == "H" && L[i] == B
    then L[i := O][i + 1 := B]
    else L
  }

  /**
   * Passes 1-7 at a position labelled B. The phrase end `e` is computed once,
   * from the labels as they are before pass 1, and reused by every pass.
   */
  function PostFixAt(s: seq<Token>, L: seq<Label>, i: nat): (r: seq<Label>)
    requires |L| == |s| && i < |s|
    ensures |r| == |L|
  {
    if L[i] != B then L
    else
      var e := RunEnd(L, i);
      var L1 := WithoutLetterSpacing(s, L, i, e);
      var L2 := WithoutParticipleStart(s, L1, i, e);
      var L3 := WithoutNumeralOnly(s, L2, i, e);
      var L4 := NumeralListBroken(s, L3, i, e);
      var L5 := ParticipleTitleSplit(s, L4, i, e);
      var L6 := KoigePulledIn(s, L5, i, e);
      WithoutComparativeBeforeName(s, L6, i, e)
  }

  /** Pass X: an I with no labelled left neighbour, or at position 0, becomes B. */
  function StrayInsideAt(L: seq<Label>, i: nat): (r: seq<Label>)
    requires i < |L|
    ensures |r| == |L|
  {
    if L[i] == I && (i == 0 || (i - 1 > -1 && L[i - 1] !in {I, B})) then L[i := B] else L
  }

  /** The positions `i .. e-1` with possible heads made single-word phrases and the rest O. */
  function CutRun(s: seq<Token>, L: seq<Label>, i: nat, e: nat): (r: seq<Label>)
    requires |L| == |s| && i <= e <= |s|
    ensures |r| == |L|
    ensures forall k :: i <= k < e ==> r[k] == if Pos(s[k]) in HeadPos then B else O
    ensures forall k :: 0 <= k < |L| && (k < i || e <= k) ==> r[k] == L[k]
  {
    seq(|L|, k requires 0 <= k < |L| =>
      if i <= k < e then (if Pos(s[k]) in HeadPos then B else O) else L[k])
  }

  /** Pass Y at one position: a phrase longer than the threshold is cut. */
  function LengthCutAt(s: seq<Token>, L: seq<Label>, i: nat, threshold: int): (r: seq<Label>)
    requires |L| == |s| && i < |s|
    ensures |r| == |L|
  {
    if L[i] == B then
      var e := RunEnd(L, i);
      if e - i > threshold then CutRun(s, L, i, e) else L
    else L
  }

  // ---------------------------------------------------------------------------
  // Whole loops
  // ---------------------------------------------------------------------------

  /** The loops of the source that visit positions left to right. */
  datatype Pass =
    | Seeding
    | AttributeHead      // Phase I
    | NumeralChain       // Phase II
    | TrailingNumeral    // Phase III
    | NumeralHead        // Phase IV
    | QuantitySplit      // Phase V
    | PostFix            // post-fix passes 1-7
    | StrayInside        // post-fix pass X
    | LengthCut(threshold: int)  // post-fix pass Y

  function StepAt(p: Pass, s: seq<Token>, L: seq<Label>, i: nat): (r: seq<Label>)
    requires |L| == |s| && i < |s|
    ensures |r| == |L|
  {
    match p
    case Seeding => SeedAt(s, L, i)
    case AttributeHead => AttributeHeadAt(s, L, i)
    case NumeralChain => NumeralChainAt(s, L, i)
    case TrailingNumeral => TrailingNumeralAt(s, L, i)
    case NumeralHead => NumeralHeadAt(s, L, i)
    case QuantitySplit => QuantitySplitAt(s, L, i)
    case PostFix => PostFixAt(s, L, i)
    case StrayInside => StrayInsideAt(L, i)
    case LengthCut(threshold) => LengthCutAt(s, L, i, threshold)
  }

  /** The labels after the loop of pass `p` has visited positions `0 .. k-1`. */
  function Sweep(p: Pass, s: seq<Token>, L: seq<Label>, k: nat): (r: seq<Label>)
    requires |L| == |s| && k <= |s|
    ensures |r| == |L|
    decreases k
  {
    if k == 0 then L else StepAt(p, s, Sweep(p, s, L, k - 1), k - 1)
  }

  /** The labels after the Phase VI loop has visited positions `n-1` down to `k`. */
  function SweepBack(s: seq<Token>, L: seq<Label>, k: nat): (r: seq<Label>)
    requires |L| == |s| && k <= |s|
    ensures |r| == |L|
    decreases |s| - k
  {
    if k == |s| then L else DistantAt(s, SweepBack(s, L, k + 1), k)
  }

  function Run(p: Pass, s: seq<Token>, L: seq<Label>): (r: seq<Label>)
    requires |L| == |s|
    ensures |r| == |L|
  {
    Sweep(p, s, L, |s|)
  }

  /** Seeding and Phases I-VI, starting from empty labels. */
  function PhaseEngine(s: seq<Token>): (r: seq<Label>)
    ensures |r| == |s|
  {
    var seeded := Run(Seeding, s, Blank(|s|));
    var phase1 := Run(AttributeHead, s, seeded);
    var phase2 := Run(NumeralChain, s, phase1);
    var phase3 := Run(TrailingNumeral, s, phase2);
    var phase4 := Run(NumeralHead, s, phase3);
    var phase5 := Run(QuantitySplit, s, phase4);
    SweepBack(s, phase5, 0)
  }

  /** The post-fix corrector: passes 1-7 at every B, pass X, and pass Y when asked for. */
  function Corrected(s: seq<Token>, L: seq<Label>, cutPhrases: bool, cutMaxThreshold: int): (r: seq<Label>)
    requires |L| == |s|
    ensures |r| == |L|
  {
    var fixed := Run(PostFix, s, L);
    var repaired := Run(StrayInside, s, fixed);
    if cutPhrases && cutMaxThreshold > 0 then Run(LengthCut(cutMaxThreshold), s, repaired)
    else repaired
  }

  /** The labels the chunker assigns to one sentence. */
  function NounPhraseLabels(s: seq<Token>, cutPhrases: bool, cutMaxThreshold: int): (r: seq<Label>)
    ensures |r| == |s|
  {
    Corrected(s, PhaseEngine(s), cutPhrases, cutMaxThreshold)
  }
}
