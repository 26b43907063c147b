/**
 * Words of one sentence as the noun-phrase chunker sees them: the morphological
 * analyses and the dependency arc produced upstream, the lexical templates the
 * rules test, and the case-agreement check between two words.
 */
module Tokens {

  datatype Option<T> = None | Some(value: T)

  /** One morphological analysis: lemma (root), part-of-speech tag, inflectional form. */
  datatype Analysis = Analysis(root: string, postag: string, form: string)

  /**
   * A word with its surface text, its analyses, its own identifier and the
   * identifier of its governor, both assigned by the dependency parser.
   */
  datatype Word = Word(text: string, analyses: seq<Analysis>, selfId: int, headId: int)

  /** The chunker always reads the first analysis, so every word it handles has one. */
  type Token = w: Word | |w.analyses| > 0 witness Word("", [Analysis("", "", "")], 0, 0)

  /** Part of speech of a token: that of its first analysis. */
  function Pos(t: Token): string {
    t.analyses[0].postag
  }

  /** Tags that may stand inside a phrase as attributes. */
  const AttributePos: set<string> := {"Y", "S", "A", "C", "G", "H", "N", "O", "K", "D", "P"}
  /** Tags that may head a phrase: common noun, abbreviation, proper noun. */
  const HeadPos: set<string> := {"S", "Y", "H"}
  /** Cardinal and ordinal numerals. */
  const NumeralPos: set<string> := {"N", "O"}

  // ---------------------------------------------------------------------------
  // Regular-expression building blocks, written out as predicates
  // ---------------------------------------------------------------------------

  predicate NoLineBreak(x: string) {
    forall k :: 0 <= k < |x| ==> x[k] != '\n'
  }

  /** A pattern that ends in `$` matches `x` or `x` without one final line break. */
  predicate EndAnchoredIn(x: string, words: set<string>) {
    x in words || (|x| > 0 && x[|x| - 1] == '\n' && x[..|x| - 1] in words)
  }

  /** `^.+(suffix|...)` up to the end: a non-empty stem without line breaks, then a suffix. */
  predicate StemThenSuffix(x: string, suffixes: set<string>) {
    exists suffix :: suffix in suffixes && |x| > |suffix| &&
      x[|x| - |suffix|..] == suffix && NoLineBreak(x[..|x| - |suffix|])
  }

  predicate EndAnchoredSuffix(x: string, suffixes: set<string>) {
    StemThenSuffix(x, suffixes) ||
    (|x| > 0 && x[|x| - 1] == '\n' && StemThenSuffix(x[..|x| - 1], suffixes))
  }

  /** The characters `\d` accepts in a pattern compiled without `re.UNICODE` under Python 2.7. */
  predicate IsDigit(c: char) {
    '0' <= c <= '9'
  }

  /**
   * The year test `.*\d\d\d\d.*` anchored at the start: four digits in a row,
   * preceded by no line break.
   */
  predicate HasFourDigits(text: string) {
    exists p :: 0 <= p && p + 4 <= |text| && NoLineBreak(text[..p]) &&
      IsDigit(text[p]) && IsDigit(text[p + 1]) && IsDigit(text[p + 2]) && IsDigit(text[p + 3])
  }

  /** The characters `\s` accepts in a pattern compiled without `re.UNICODE` under Python 2.7. */
  predicate IsRegexSpace(c: char) {
    c in {' ', '\t', '\n', '\r', '\U{000B}', '\U{000C}'}
  }

  const SemanticSingularCases: set<string> :=
    {"ab", "abl", "ad", "all", "el", "es", "ill", "in", "kom", "ter", "tr"}

  predicate PluralOrSemanticCaseLine(f: string) {
    |f| >= 3 && IsRegexSpace(f[2]) &&
    ((f[..2] == "pl" && |f| >= 4 && NoLineBreak(f[3..])) ||
     (f[..2] == "sg" && f[3..] in SemanticSingularCases))
  }

  /** The form test `^(pl\s.+|sg\s(ab|abl|ad|all|el|es|ill|in|kom|ter|tr))$` of rule VI.f. */
  predicate PluralOrSemanticCase(f: string) {
    PluralOrSemanticCaseLine(f) ||
    (|f| > 0 && f[|f| - 1] == '\n' && PluralOrSemanticCaseLine(f[..|f| - 1]))
  }

  // ---------------------------------------------------------------------------
  // Title case, as Python's str.istitle decides it
  // ---------------------------------------------------------------------------

  /** Upper-case letters: ASCII, Latin-1 and the Estonian Š and Ž. */
  predicate IsUpper(c: char) {
    ('A' <= c <= 'Z') || ('\U{00C0}' <= c <= '\U{00DE}' && c != '\U{00D7}') ||
    c == '\U{0160}' || c == '\U{017D}'
  }

  /** Lower-case letters, with the ordinal indicators and the micro sign, which Python counts as lower case. */
  predicate IsLower(c: char) {
    ('a' <= c <= 'z') || ('\U{00DF}' <= c <= '\U{00FF}' && c != '\U{00F7}') ||
    c == '\U{00AA}' || c == '\U{00B5}' || c == '\U{00BA}' ||
    c == '\U{0161}' || c == '\U{017E}'
  }

  /**
   * Scans `t` left to right: an upper-case letter may not follow a cased one,
   * a lower-case letter must follow a cased one, and some letter must be cased.
   */
  function TitleScan(t: string, previousIsCased: bool, cased: bool): (r: bool)
    requires previousIsCased ==> cased
    ensures r ==> cased || exists k :: 0 <= k < |t| && IsUpper(t[k])
    decreases |t|
  {
    if t == [] then cased
    else if IsUpper(t[0]) then
      if previousIsCased then false else TitleScan(t[1..], true, true)
    else if IsLower(t[0]) then
      if !previousIsCased then false else TitleScan(t[1..], true, true)
    else TitleScan(t[1..], false, cased)
  }

  /** Python's `str.istitle`. */
  predicate IsTitle(t: string) {
    TitleScan(t, false, false)
  }

  // ---------------------------------------------------------------------------
  // Word templates: some analysis has a fitting root and a tag of the class
  // ---------------------------------------------------------------------------

  datatype Template =
    | AdvStartingPhrase   // adverbs allowed at the start of a phrase
    | Punctuation
    | Conjunction         // ja / ning / ega / või
    | Koige               // the superlative marker kõige
    | VerbParticle        // participles in -tav, -v, -nud, -tud
    | VerbPastParticle    // participles in -nud, -tud
    | VerbEi              // the negation ei
    | VerbOle             // the verb olema

  predicate RootFits(tpl: Template, root: string) {
    match tpl
    case AdvStartingPhrase =>
      EndAnchoredIn(root, {"mitte", "ei", "ilma", "väga", "umbes", "liiga", "peaaegu", "pisut"})
    case Punctuation => true
    case Conjunction => EndAnchoredIn(root, {"ja", "ning", "ega", "v\U{014D}i", "v\U{00F5}i"})
    case Koige => EndAnchoredIn(root, {"k\U{014D}ige", "k\U{00F5}ige"})
    case VerbParticle => EndAnchoredSuffix(root, {"tav", "v", "nud", "tud"})
    case VerbPastParticle => EndAnchoredSuffix(root, {"nud", "tud"})
    case VerbEi => EndAnchoredIn(root, {"ei"})
    case VerbOle => EndAnchoredIn(root, {"ole"})
  }

  function Tags(tpl: Template): set<string> {
    match tpl
    case AdvStartingPhrase => {"D"}
    case Punctuation => {"Z"}
    case Conjunction => {"D", "J"}
    case Koige => {"D"}
    case VerbParticle => {"A"}
    case VerbPastParticle => {"A"}
    case VerbEi => {"D", "V"}
    case VerbOle => {"V"}
  }

  /** `WordTemplate.matches`: some analysis has a fitting root and a tag of the class. */
  predicate Matches(tpl: Template, t: Token) {
    exists a :: a in t.analyses && RootFits(tpl, a.root) && a.postag in Tags(tpl)
  }

  // ---------------------------------------------------------------------------
  // Case agreement
  // ---------------------------------------------------------------------------

  /** The set of inflectional forms over all analyses of a token. */
  function Forms(t: Token): set<string> {
    set a | a in t.analyses :: a.form
  }

  /** The form of the earliest analysis whose form lies in `other`. */
  function FirstSharedForm(analyses: seq<Analysis>, other: set<string>): (r: Option<string>)
    ensures r.None? <==> forall a :: a in analyses ==> a.form !in other
    ensures r.Some? ==> r.value in other && exists a :: a in analyses && a.form == r.value
  {
    if analyses == [] then None
    else if analyses[0].form in other then Some(analyses[0].form)
    else FirstSharedForm(analyses[1..], other)
  }

  /** The first of `candidates`, in their order, that lies in `forms`. */
  function FirstPresent(candidates: seq<string>, forms: set<string>): (r: Option<string>)
    ensures r.None? <==> forall k :: 0 <= k < |candidates| ==> candidates[k] !in forms
    ensures r.Some? ==> r.value in forms && exists k :: (0 <= k < |candidates| &&
      candidates[k] == r.value && forall m :: 0 <= m < k ==> candidates[m] !in forms)
  {
    if candidates == [] then None
    else if candidates[0] in forms then Some(candidates[0])
    else
      var r := FirstPresent(candidates[1..], forms);
      if r.Some? then
        var k :| 0 <= k < |candidates[1..]| && candidates[1..][k] == r.value &&
          r.value in forms && forall m :: 0 <= m < k ==> candidates[1..][m] !in forms;
        assert candidates[k + 1] == r.value;
        r
      else r
  }

  const SingularOblique: seq<string> := ["sg ter", "sg es", "sg ab", "sg kom"]
  const PluralOblique: seq<string> := ["pl ter", "pl es", "pl ab", "pl kom"]

  /**
   * Whether two words agree in case and on which form. Shared forms agree. Without
   * a shared form, a singular genitive followed by a singular terminative, essive,
   * abessive or comitative agrees on that form (tried in that order), and likewise
   * in the plural, the plural being tried only when the first word has no
   * singular genitive.
   */
  function CaseAgreement(t1: Token, t2: Token): (r: Option<string>)
    ensures Forms(t1) * Forms(t2) != {} ==> r.Some? && r.value in Forms(t1) && r.value in Forms(t2)
    ensures Forms(t1) * Forms(t2) == {} && "sg g" in Forms(t1) ==>
      r == FirstPresent(SingularOblique, Forms(t2))
    ensures Forms(t1) * Forms(t2) == {} && "sg g" !in Forms(t1) && "pl g" in Forms(t1) ==>
      r == FirstPresent(PluralOblique, Forms(t2))
    ensures Forms(t1) * Forms(t2) == {} && "sg g" !in Forms(t1) && "pl g" !in Forms(t1) ==>
      r.None?
    ensures r.Some? ==> r.value in Forms(t2)
    ensures r.Some? && r.value !in Forms(t1) ==>
      ("sg g" in Forms(t1) && r.value in SingularOblique) ||
      ("sg g" !in Forms(t1) && "pl g" in Forms(t1) && r.value in PluralOblique)
  {
    var forms1 := Forms(t1);
    var forms2 := Forms(t2);
    if forms1 * forms2 == {} then
      if "sg g" in forms1 then FirstPresent(SingularOblique, forms2)
      else if "pl g" in forms1 then FirstPresent(PluralOblique, forms2)
      else None
    else
      var r := FirstSharedForm(t1.analyses, forms2);
      assert r.Some? by {
        var f :| f in forms1 * forms2;
        var a :| a in t1.analyses && a.form == f;
      }
      r
  }

  /** Python's truth value of an agreement: None and the empty form are false. */
  predicate Truthy(r: Option<string>) {
    r.Some? && r.value != ""
  }
}
