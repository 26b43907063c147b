/**
 * What the word-level tests of module Tokens mean: the title-case scan decides
 * the rule Python documents for `str.istitle`, the part of speech is that of
 * an analysis, and how the lexical templates relate.
 */
module TokenProperties {
  import opened Tokens

  // ---------------------------------------------------------------------------
  // Title case
  // ---------------------------------------------------------------------------

  predicate IsCased(c: char) {
    IsUpper(c) || IsLower(c)
  }

  /** Whether a cased letter stands right before position `k` of `t`. */
  predicate CasedBefore(t: string, k: nat, previousIsCased: bool)
    requires k < |t|
  {
    if k == 0 then previousIsCased else IsCased(t[k - 1])
  }

  /**
   * Title case as Python documents it: an upper-case letter only follows an
   * uncased character, and a lower-case letter only a cased one.
   * `previousIsCased` says whether a cased letter stands before `t`.
   */
  predicate TitleCased(t: string, previousIsCased: bool) {
    (forall k :: 0 <= k < |t| && IsUpper(t[k]) ==> !CasedBefore(t, k, previousIsCased)) &&
    (forall k :: 0 <= k < |t| && IsLower(t[k]) ==> CasedBefore(t, k, previousIsCased))
  }

  /** The scan decides the documented rule, and there must be a cased letter. */
  lemma {:induction false} TitleScanIsTitleCased(t: string, previousIsCased: bool, cased: bool)
    requires previousIsCased ==> cased
    ensures TitleScan(t, previousIsCased, cased) <==>
      (cased || exists k :: 0 <= k < |t| && IsCased(t[k])) && TitleCased(t, previousIsCased)
    decreases |t|
  {
    if t != [] {
      var prev' := IsCased(t[0]);
      var rest := t[1..];
      TitleScanIsTitleCased(rest, prev', cased || prev');
      assert forall k :: 0 < k < |t| ==> rest[k - 1] == t[k];
      if IsUpper(t[0]) && previousIsCased {
        assert CasedBefore(t, 0, previousIsCased);
      } else if IsLower(t[0]) && !previousIsCased {
        assert !IsUpper(t[0]) && !CasedBefore(t, 0, previousIsCased);
      } else {
        assert TitleCased(t, previousIsCased) <==> TitleCased(rest, prev') by {
          forall k | 0 < k < |t|
            ensures CasedBefore(t, k, previousIsCased) == CasedBefore(rest, k - 1, prev')
          {
            if k > 1 { assert t[k - 1] == rest[k - 2]; }
          }
          if TitleCased(rest, prev') {
            forall k | 0 <= k < |t|
              ensures IsUpper(t[k]) ==> !CasedBefore(t, k, previousIsCased)
              ensures IsLower(t[k]) ==> CasedBefore(t, k, previousIsCased)
            {
              if k > 0 { assert rest[k - 1] == t[k]; }
            }
          }
          if TitleCased(t, previousIsCased) {
            forall k | 0 <= k < |rest|
              ensures IsUpper(rest[k]) ==> !CasedBefore(rest, k, prev')
              ensures IsLower(rest[k]) ==> CasedBefore(rest, k, prev')
            {
              assert rest[k] == t[k + 1];
              assert CasedBefore(t, k + 1, previousIsCased) == CasedBefore(rest, k, prev');
            }
          }
        }
        assert (exists k :: 0 <= k < |t| && IsCased(t[k])) <==>
               (prev' || exists k :: 0 <= k < |rest| && IsCased(rest[k])) by {
          if exists k :: 0 <= k < |t| && IsCased(t[k]) {
            var k :| 0 <= k < |t| && IsCased(t[k]);
            if k > 0 { assert rest[k - 1] == t[k]; }
          }
          if exists k :: 0 <= k < |rest| && IsCased(rest[k]) {
            var k :| 0 <= k < |rest| && IsCased(rest[k]);
            assert t[k + 1] == rest[k];
          }
        }
      }
    }
  }

  /** A string is in title case when it has a cased letter and follows the documented rule. */
  lemma IsTitleIsTitleCased(t: string)
    ensures IsTitle(t) <==> (exists k :: 0 <= k < |t| && IsCased(t[k])) && TitleCased(t, false)
  {
    TitleScanIsTitleCased(t, false, false);
  }
}
