# Noun-phrase chunker of EstNLTK, modelled in Dafny

This project models the rule-based noun-phrase (NP) chunker of EstNLTK
(`estnltk/np_chunker.py`). Its input is one sentence whose words already carry
morphological analyses and a dependency arc. It gives each word a label:

- `B` (the word begins a phrase),
- `I` (the word continues a phrase),
- `O` (the source's empty label `''`: the word is outside every phrase).

The labels start empty and are rewritten in place by a fixed series of loops:

- seeding of phrase heads;
- Phases I–VI, which join attributes, numerals and quantities to their heads;
- the post-fix corrector, with passes 1–7 at each phrase start, then the stray-`I`
  repair (pass X), then the optional length cut (pass Y).

Modules:

- `Tokens` (tokens.dfy): words, analyses, the part-of-speech classes, the lexical
  templates (`WordTemplate` constants) as predicates, and the case-agreement
  check `_getCaseAgreement`.
- `Labels` (labels.dfy): the label type and what a label sequence means. A phrase
  is a `B` and the run of `I` after it (`RunEnd`). A label sequence is well formed
  when no `I` stands first or right after an `O`.
- `Rules` (rules.dfy): every rule as a pure function of the labels at one
  position. `Sweep` and `SweepBack` fold a rule over the positions in the order
  the source's loop visits them. `NounPhraseLabels` is the whole run for one
  sentence.
- `Chunker` (chunker.dfy): the source's loops as methods over an
  `array<Label>`. Each method is proved to compute the corresponding function of
  `Rules`. `FindPhrases` is `find_phrases` and `ApplyPostFixes` is `applyPostFixes`.
- `TokenProperties` (token_properties.dfy): what the title-case test of `Tokens`
  accepts.
- `PhaseProperties` (phase_properties.dfy) and `CorrectorProperties`
  (corrector_properties.dfy): what the phases and the corrector guarantee. The
  final labels are always well formed. After the cut, no phrase is longer than
  the threshold.
- `CorrectorExamples` (corrector_examples.dfy): a sentence on which a phrase of
  numerals only survives the corrector.

Points where the model follows the code exactly:

- Phase VI finds the governor at the word's position plus the difference of the
  two dependency identifiers (`Rules.Governor`).
- Passes 1–7 all work on the phrase read once, before pass 1 ran, even after
  earlier passes changed the labels (`Rules.PostFixAt`).
- Rules VI.a and VI.c write the phrase up to the next word, not up to the
  governor.
- Pass 6 guards with `i + 1 > -1`, which is always true. At the first word of a
  sentence it therefore reads and writes `NPlabels[-1]`, the last word
  (`Rules.Before`, `CorrectorProperties.KoigeWrapsAround`).

## Model

| member | source | states |
|---|---|---|
| Tokens.FirstSharedForm | estnltk/np_chunker.py:193 | finds nothing exactly when no analysis of the first word has a form in the second word's forms; otherwise it returns such a form |
| Tokens.FirstPresent | estnltk/np_chunker.py:173-190 | returns the earliest candidate, in the order the source tests them, that is among the forms; it returns nothing exactly when none is |
| Tokens.CaseAgreement | estnltk/np_chunker.py:161-193 | when the form sets intersect, the result lies in both. Otherwise a singular genitive agrees with the first of sg ter/es/ab/kom the second word has. The plural table is tried only without a singular genitive. In every other case there is no agreement |
| Tokens.Pos | estnltk/np_chunker.py:131-136 | no contract of its own: the definition is the model, the tag of the first analysis, as `_getPOS` reads it with `onlyFirst` |
| Tokens.Matches | estnltk/np_chunker.py:121-129 | no contract of its own: the definition is the model, a word matches when some analysis has a root that fits the template's pattern and a tag in its class |
| Tokens.IsTitle | estnltk/np_chunker.py:634-636 | no contract of its own: CPython's `istitle` scan. `TokenProperties.IsTitleIsTitleCased` states what it accepts |
| TokenProperties.TitleScanIsTitleCased | estnltk/np_chunker.py:634-636 | from any scan state, the scan accepts exactly when some letter is cased (or one was seen), every upper-case letter follows an uncased character and every lower-case letter follows a cased one |
| TokenProperties.IsTitleIsTitleCased | estnltk/np_chunker.py:634-636 | `istitle` holds exactly when the text has a cased letter, no upper-case letter follows a cased character, and no lower-case letter follows an uncased one or starts the text |
| Labels.Blank | estnltk/np_chunker.py:213 | a sentence-long sequence of empty labels |
| Labels.RunEnd | estnltk/np_chunker.py:148-158 | the end of the run from `i`: every position between is I, and the run stops at the sentence end or at a B or O |
| Labels.RunEndUnique | estnltk/np_chunker.py:152-154 | any end with those two properties is the run end |
| Labels.PhrasesDisjoint | estnltk/np_chunker.py:152-154 | a later B lies at or after the end of an earlier phrase |
| Labels.Fill | estnltk/np_chunker.py:582-583 | the given positions hold the new label and all others are unchanged |
| Labels.Span | estnltk/np_chunker.py:450-454 | B at the first position, I through the last one, every other position unchanged |
| Labels.SpanKeepsWellFormed | estnltk/np_chunker.py:450-454 | writing one phrase keeps well-formed labels well formed |
| Labels.BeginKeepsWellFormed | estnltk/np_chunker.py:365 | writing one B keeps well-formed labels well formed |
| Rules.JoinNext | estnltk/np_chunker.py:270-272 | the next word becomes I; the word becomes B unless it is already labelled; nothing else changes |
| Rules.SeedAt | estnltk/np_chunker.py:220-227 | its own contract gives only the length of the result; `PhaseProperties.SeedingSweep` and `PhaseProperties.SeedingMarksHeads` state what seeding writes |
| Rules.AttributeHeadAt | estnltk/np_chunker.py:236-272 | Phase I changes the labels only for an attribute governed by a possible head right after it. The attribute must not be an adposition starting a phrase, nor an adverb outside the allowed list. The change is exactly that join |
| Rules.NumeralChainAt | estnltk/np_chunker.py:280-292 | Phase II changes the labels only for two adjacent numerals where one governs the other, and then joins them |
| Rules.TrailingNumeralAt | estnltk/np_chunker.py:301-309 | Phase III changes a label only for a numeral governed by a labelled left neighbour, and then only to I |
| Rules.NumeralHeadAt | estnltk/np_chunker.py:320-331 | Phase IV changes the labels only for a numeral governing a labelled, non-pronoun right neighbour, and then joins them |
| Rules.PosTags | estnltk/np_chunker.py:344 | the tags of a stretch of words, one per word, in order |
| Rules.PosTagsOfSlice | estnltk/np_chunker.py:572-573 | the tags of a phrase taken on its own are those of its stretch of the sentence |
| Rules.SplitPoint | estnltk/np_chunker.py:359-363 | the split point lies after the phrase start and at or before the second-to-last word. Everything from it up to that word is a numeral, and the word before it is not |
| Rules.QuantitySplitAt | estnltk/np_chunker.py:341-365 | Phase V changes at most one label. It does so only at a B whose phrase has three or more words, ends in numeral + noun or abbreviation, and does not start with a numeral, and only when there is no four-digit year. The one change is a B at the split point |
| Rules.TrimEnd | estnltk/np_chunker.py:401-407 | popping stops at the last B among the intervening words, and pops all of them when there is none |
| Rules.ChooseAttachment | estnltk/np_chunker.py:414-539 | rules VI.a–VI.f fire only with an agreement, no punctuation and no conjunction in between, and an ordinal, adjective, participle or comparative. The phrase begins at the word, or before it only at an earlier `kõige` for a comparative. It ends at the next word (then nothing lies in between) or at the governor |
| Rules.DistantAttachment | estnltk/np_chunker.py:378-387 | an attachment is chosen only for an unlabelled attribute whose labelled governor is two or more positions to the right, and it stays inside the window from the word before up to the governor |
| Rules.DistantAt | estnltk/np_chunker.py:378-539 | its own contract gives only the length of the result; `PhaseProperties.DistantAtJoinsGovernor` states what a Phase VI step writes |
| Rules.LastParticipleBeforeTitle | estnltk/np_chunker.py:631-637 | the last offset where a past participle not in title case is followed by a title-case word, with none after it; -1 when there is none |
| Rules.Before | estnltk/np_chunker.py:654 | the position `NPlabels[i-1]` denotes: `i-1`, or the last position when `i` is 0 |
| Rules.WithoutLetterSpacing | estnltk/np_chunker.py:580-583 | its own contract gives only the length of the result; `CorrectorProperties.LetterSpacingDeletesAbbreviations` states when pass 1 fires and what it writes |
| Rules.WithoutParticipleStart | estnltk/np_chunker.py:584-597 | its own contract gives only the length of the result; `CorrectorProperties.ParticipleStartDropped` states pass 2 |
| Rules.WithoutNumeralOnly | estnltk/np_chunker.py:599-610 | its own contract gives only the length of the result; `CorrectorProperties.NumeralOnlyDeletesNumerals` states pass 3 |
| Rules.RelabelNumeralList | estnltk/np_chunker.py:619-627 | pass 4 changes no label outside the phrase |
| Rules.RelabelStep | estnltk/np_chunker.py:620-627 | one word of pass 4 changes only that word's label |
| Rules.NumeralListBroken | estnltk/np_chunker.py:611-627 | its own contract gives only the length of the result; `CorrectorProperties.NumeralListRelabels` states pass 4 |
| Rules.ParticipleTitleSplit | estnltk/np_chunker.py:631-652 | its own contract gives only the length of the result; `CorrectorProperties.ParticipleTitleSplitFires` states pass 5 |
| Rules.KoigePulledIn | estnltk/np_chunker.py:654-663 | its own contract gives only the length of the result; `CorrectorProperties.KoigeJoinsPhrase` and `CorrectorProperties.KoigeWrapsAround` state pass 6 |
| Rules.WithoutComparativeBeforeName | estnltk/np_chunker.py:664-675 | its own contract gives only the length of the result; `CorrectorProperties.ComparativeBeforeNameSplits` states pass 7 |
| Rules.PostFixAt | estnltk/np_chunker.py:570-675 | its own contract gives only the length of the result; `CorrectorProperties.PostFixFrame` states what passes 1–7 at one B may change |
| Rules.StrayInsideAt | estnltk/np_chunker.py:679-682 | its own contract gives only the length of the result; `CorrectorProperties.StrayInsideSweep` and `CorrectorProperties.StrayInsideRepairs` state pass X |
| Rules.CutRun | estnltk/np_chunker.py:696-705 | in the phrase, possible heads become B and every other word O; outside it nothing changes |
| Rules.LengthCutAt | estnltk/np_chunker.py:692-705 | its own contract gives only the length of the result; `CorrectorProperties.LengthCutSweep` and `CorrectorProperties.LengthCutCutsLongPhrases` state pass Y |
| Rules.PhaseEngine | estnltk/np_chunker.py:213-539 | its own contract gives only the length of the result; `PhaseProperties.PhaseEngineWellFormed` states what Phases I–VI guarantee |
| Rules.Corrected | estnltk/np_chunker.py:559-705 | its own contract gives only the length of the result; `CorrectorProperties.CorrectedWellFormed` states what the corrector guarantees |
| Rules.NounPhraseLabels | estnltk/np_chunker.py:200-553 | its own contract gives only the length of the result; `CorrectorProperties.NounPhraseLabelsWellFormed` states what the labels of a sentence guarantee |
| Chunker.GetPhrase | estnltk/np_chunker.py:139-159 | returns nothing unless `i` is in range and labelled B. Otherwise it returns the words and positions `i, i+1, …` of the phrase, ending exactly at the run end |
| Chunker.SeedHeads | estnltk/np_chunker.py:220-227 | the seeding loop computes `Run(Seeding, …)` |
| Chunker.JoinAttributeHeads | estnltk/np_chunker.py:236-272 | the Phase I loop computes `Run(AttributeHead, …)` |
| Chunker.JoinNumeralChains | estnltk/np_chunker.py:280-292 | the Phase II loop computes `Run(NumeralChain, …)` |
| Chunker.AppendTrailingNumerals | estnltk/np_chunker.py:301-309 | the Phase III loop computes `Run(TrailingNumeral, …)` |
| Chunker.JoinNumeralHeads | estnltk/np_chunker.py:320-331 | the Phase IV loop computes `Run(NumeralHead, …)` |
| Chunker.SplitQuantityPhrase | estnltk/np_chunker.py:342-365 | the backward walk over numerals stays in bounds and writes what `QuantitySplitAt` says |
| Chunker.BreakPoint | estnltk/np_chunker.py:359-363 | the walk back over the numerals ends at the split point `SplitPoint` names |
| Chunker.SplitQuantityPhrases | estnltk/np_chunker.py:341-365 | the Phase V loop computes `Run(QuantitySplit, …)` |
| Chunker.MarkPhrase | estnltk/np_chunker.py:450-454 | the fill loops write exactly one phrase, as `Span` says |
| Chunker.InterveningWords | estnltk/np_chunker.py:391-407 | the collected words are positions `i+1, i+2, …`. They end at the governor, or, when the governor is I, at the last B between the word and the governor |
| Chunker.PopToPhraseStart | estnltk/np_chunker.py:401-407 | popping ends right after the last B among the words, or empties them when there is none; what is left is still a prefix of them |
| Chunker.BlockingWords | estnltk/np_chunker.py:414-420 | each flag is set exactly when some intervening word is punctuation, or a conjunction |
| Chunker.AttachOrdinal | estnltk/np_chunker.py:428-454 | rules VI.a and VI.b write what `DistantAt` says |
| Chunker.AttachAdjective | estnltk/np_chunker.py:456-506 | rules VI.c and VI.d write what `DistantAt` says |
| Chunker.AttachComparative | estnltk/np_chunker.py:508-539 | rules VI.e and VI.f write what `DistantAt` says |
| Chunker.AttachDistantAttribute | estnltk/np_chunker.py:379-539 | one step of Phase VI writes what `DistantAt` says |
| Chunker.AttachDistantAttributes | estnltk/np_chunker.py:378-539 | the Phase VI loop, from the last word to the first, computes `SweepBack` |
| Chunker.DeleteLetterSpacing | estnltk/np_chunker.py:580-583 | pass 1 writes what `WithoutLetterSpacing` says |
| Chunker.DropParticipleStart | estnltk/np_chunker.py:584-597 | pass 2 writes what `WithoutParticipleStart` says |
| Chunker.DeleteNumeralOnly | estnltk/np_chunker.py:599-610 | pass 3 writes what `WithoutNumeralOnly` says |
| Chunker.RelabelWord | estnltk/np_chunker.py:620-627 | one word of pass 4 writes what `RelabelStep` says |
| Chunker.RelabelNumerals | estnltk/np_chunker.py:619-627 | the loop over the phrase writes what `RelabelNumeralList` says |
| Chunker.BreakNumeralList | estnltk/np_chunker.py:611-627 | pass 4 writes what `NumeralListBroken` says |
| Chunker.SplitParticipleTitle | estnltk/np_chunker.py:631-652 | pass 5 finds the last participle before a title-case word and writes what `ParticipleTitleSplit` says |
| Chunker.FindParticipleBeforeTitle | estnltk/np_chunker.py:630-636 | the loop returns the last offset where a past participle not in title case precedes a title-case word, or -1 when there is none |
| Chunker.PullInKoige | estnltk/np_chunker.py:654-663 | pass 6, including the wrap to the last word at `i == 0`, writes what `KoigePulledIn` says |
| Chunker.DropComparativeBeforeName | estnltk/np_chunker.py:664-675 | pass 7 writes what `WithoutComparativeBeforeName` says |
| Chunker.FixPhrase | estnltk/np_chunker.py:571-675 | passes 1–7 at one B, all reading the phrase found before pass 1, compute `PostFixAt` |
| Chunker.RepairStrayInside | estnltk/np_chunker.py:679-682 | the pass X loop computes `Run(StrayInside, …)` |
| Chunker.CutLongPhrase | estnltk/np_chunker.py:692-705 | pass Y at one B writes what `LengthCutAt` says |
| Chunker.CutLongPhrases | estnltk/np_chunker.py:691-705 | the pass Y loop computes `Run(LengthCut(threshold), …)` |
| Chunker.ApplyPostFixes | estnltk/np_chunker.py:559-705 | the corrector computes `Corrected` |
| Chunker.FindPhrases | estnltk/np_chunker.py:200-553 | the labels of a sentence are `NounPhraseLabels`: one per word, well formed, and no phrase longer than the threshold when cutting is asked for |
| PhaseProperties.SeedingSweep | estnltk/np_chunker.py:220-227 | after seeding has visited the first `m` words, exactly the possible heads and pronouns among them are B and every other word keeps its label |
| PhaseProperties.SeedingMarksHeads | estnltk/np_chunker.py:213-227 | right after seeding, a word is B exactly when its tag is S, Y, H or P, and O otherwise |
| PhaseProperties.JoinNextKeepsWellFormed | estnltk/np_chunker.py:270-272 | a join keeps well-formed labels well formed and removes no label |
| PhaseProperties.StepKeepsWellFormed | estnltk/np_chunker.py:220-365 | one step of seeding or of Phases I–V keeps the labels well formed and removes no label |
| PhaseProperties.SweepKeepsWellFormed | estnltk/np_chunker.py:220-365 | so does each whole loop |
| PhaseProperties.DistantAtJoinsGovernor | estnltk/np_chunker.py:378-539 | a Phase VI step changes the labels only for a candidate. The word then becomes labelled, and the change is one phrase written from the word (or the word before it) up to a position no further than the governor |
| PhaseProperties.DistantAtKeepsWellFormed | estnltk/np_chunker.py:378-539 | a Phase VI step keeps the labels well formed and removes no label |
| PhaseProperties.SweepBackKeepsWellFormed | estnltk/np_chunker.py:378-539 | so does the whole Phase VI loop |
| PhaseProperties.PhaseEngineWellFormed | estnltk/np_chunker.py:213-539 | after Phases I–VI the labels are well formed, and every seeded head or pronoun still has a label |
| CorrectorProperties.StrayInsideSweep | estnltk/np_chunker.py:679-682 | after pass X has visited the first `m` words, each of them holds its repaired label, read off the labels before the pass; the rest are unchanged |
| CorrectorProperties.StrayInsideRepairs | estnltk/np_chunker.py:677-682 | pass X turns exactly the I labels that stand first or after an O into B. Its result is well formed, and it leaves well-formed labels unchanged |
| CorrectorProperties.StrayInsideIdempotent | estnltk/np_chunker.py:679-682 | running pass X twice equals running it once |
| CorrectorProperties.LengthCutSweep | estnltk/np_chunker.py:691-705 | after pass Y has visited the first `m` words, every phrase starting there has been decided on the labels before the pass |
| CorrectorProperties.LengthCutCutsLongPhrases | estnltk/np_chunker.py:689-705 | in a phrase longer than the threshold, each word becomes B if it may be a head and O otherwise. Every other label is unchanged |
| CorrectorProperties.LengthCutBounds | estnltk/np_chunker.py:684-705 | after pass Y no phrase is longer than the threshold |
| CorrectorProperties.LengthCutKeepsWellFormed | estnltk/np_chunker.py:689-705 | pass Y keeps well-formed labels well formed |
| CorrectorProperties.LengthCutIdempotent | estnltk/np_chunker.py:689-705 | labels with no over-long phrase pass through pass Y unchanged, so running it twice equals running it once |
| CorrectorProperties.LetterSpacingDeletesAbbreviations | estnltk/np_chunker.py:580-583 | pass 1 clears a phrase exactly when it has two or more words, all abbreviations |
| CorrectorProperties.ParticipleStartDropped | estnltk/np_chunker.py:584-597 | pass 2 clears the B exactly when the phrase has two or more words and its first word is an adjective with a nud/tud/dud analysis following `ei` or `olema` |
| CorrectorProperties.NumeralOnlyDeletesNumerals | estnltk/np_chunker.py:599-610 | pass 3 clears a phrase exactly when it has two or more words, all numerals |
| CorrectorProperties.RelabelNumeralListPointwise | estnltk/np_chunker.py:619-627 | from offset `k` on, pass 4 decides each word from the label it has just written to that word's left |
| CorrectorProperties.NumeralListRelabels | estnltk/np_chunker.py:611-627 | pass 4 clears a leading numeral. A later word after an O becomes O if it is a numeral and B otherwise; a later word after a label becomes I. Nothing outside the phrase changes |
| CorrectorProperties.ParticipleTitleSplitFires | estnltk/np_chunker.py:631-652 | pass 5 fires only when the first word is the last participle before a title-case word, and then it moves the B to the second word |
| CorrectorProperties.KoigeWrapsAround | estnltk/np_chunker.py:654-663 | at the first word, pass 6 reads the last word of the sentence as the word before, and pulls a sentence-final `kõige` into the phrase |
| CorrectorProperties.KoigeJoinsPhrase | estnltk/np_chunker.py:654-663 | at a later word, pass 6 fires only for a comparative after an unlabelled `kõige`. It then writes the two-word phrase `kõige` + comparative |
| CorrectorProperties.ComparativeBeforeNameSplits | estnltk/np_chunker.py:664-675 | pass 7 fires only on a two-word phrase comparative + proper noun still starting with B. The proper noun then starts a phrase alone, and nothing else changes |
| CorrectorProperties.PhraseOnlyFrame | estnltk/np_chunker.py:580-627 | passes 1, 3 and 4 change no label outside the phrase |
| CorrectorProperties.PhraseStartFrame | estnltk/np_chunker.py:584-675 | passes 2, 5 and 7 change no label outside the phrase; pass 6 changes none outside it except the word it reads as the one before |
| CorrectorProperties.CutPhraseIsSingle | estnltk/np_chunker.py:695-705 | a word of a long phrase that pass Y made B is a phrase of one word |
| CorrectorProperties.KeptPhraseIsShort | estnltk/np_chunker.py:695 | a phrase pass Y did not cut keeps its end and is no longer than the threshold |
| CorrectorProperties.PostFixFrame | estnltk/np_chunker.py:570-675 | passes 1–7 at `i` change nothing outside the phrase read at `i`, except the word pass 6 reads as the one before it |
| CorrectorProperties.CorrectedWellFormed | estnltk/np_chunker.py:559-705 | the corrector's result is always well formed. With cutting asked for and a positive threshold, no phrase is longer. Otherwise pass Y is skipped |
| CorrectorProperties.NounPhraseLabelsWellFormed | estnltk/np_chunker.py:200-553 | the labels of every sentence are well formed, and bounded when cutting is asked for |
| CorrectorExamples.NumeralOnlyPhraseSurvives | estnltk/np_chunker.py:584-610 | for `ei saanud kaks miljonit`, Phases I–VI label `saanud kaks miljonit` as one phrase, and the corrector leaves the numeral-only phrase `kaks miljonit` standing with cutting at threshold 3 |

## Left out

- `analyze_text` and `__init__` (estnltk/np_chunker.py:41-114) are not modelled. They build and call the external MaltParser, split the text, check the keyword options and write the labels back onto the words; this is I/O and foreign code. The code defaults `cutPhrases` to True, although its docstring says False. In the model, `cutPhrases` and `cutMaxThreshold` are plain parameters of `FindPhrases`.
- The dependency parser and the morphological analyser are not modelled. Their output is the input of the model: every word has at least one analysis and integer identifiers. The source's `int(...)` conversions of the identifiers are therefore the identity.
- `WordTemplate` is not part of this model. Each template is modelled by its contract: some analysis has a root that fits the pattern and a tag in the class.
- The regular-expression engine is replaced by predicates for the patterns used. For the root patterns these are anchored alternations and suffixes, where `$` also accepts one final line break. The model follows Python 2.7's `re`, the interpreter the code's `from __future__ import unicode_literals` (estnltk/np_chunker.py:7) is written for, with the patterns of estnltk/np_chunker.py:352 and 523 compiled without `re.UNICODE`: `\d` is the ASCII digits 0–9 and `\s` is space, tab, line feed, carriage return, vertical tab and form feed. Under Python 3 both would also accept other Unicode digits and white space; the model does not capture that. The year test is four ASCII digits with no line break before them.
- `str.istitle` is modelled by CPython's scan. Cased letters are ASCII, Latin-1 (including ª, µ and º, which count as lower case) and Š/Ž; no other Unicode letter counts as cased.
- Pass 3 (estnltk/np_chunker.py:599-610) deletes a phrase of two or more numerals, but this does not make the corrector's output free of such phrases. Pass 3 reads the phrase found before pass 2, so when pass 2 drops a leading participle, the numerals behind it are not a phrase of numerals only yet. Pass X then turns their I into B, and the numeral-only phrase stays. `CorrectorExamples.NumeralOnlyPhraseSurvives` shows this on `ei saanud kaks miljonit`. No lemma therefore claims that numeral-only phrases are absent.
- `_getPOS` with `onlyFirst=False` is not modelled: the core never calls it that way. Rule VI.d reads all tags of the intervening words directly.
- CaseAgreement: when the form sets intersect, the source returns `list(intersection)[0]`. Which element that is depends on Python's set iteration order, so the contract only promises an element of the intersection. The body picks the form of the earliest analysis of the first word that the second word shares.
- The debug helpers `__debug_get_text_snippet` and `__debug_extract_NP_from_pos` (estnltk/np_chunker.py:714-744) are not modelled. They are unused string formatting, and their only call is commented out.
- Pass 6's guard `i + 1 > -1` is modelled as written. At the first word, index `-1` is the last word of the sentence; the model does not assume the intended `i - 1 > -1`.
