/**
 * The top-level `utils.py`, the helper copy the legacy cleaners import: a `-`-separated slug and
 * the same whitespace cleaning as `common/utils.py`.
 */
module RootUtils {
  import opened Wrappers
  import opened Text
  import CommonUtils

  /**
   * `slugify` with `-`: the runs of slug characters of the lowered text joined by single
   * hyphens, so slug characters and single hyphens only, no hyphen at either end.
   */
  function Slugify(text: string): (r: string)
    ensures r == Join(Words(Lower(text), NotSlugChar), "-")
    ensures CommonUtils.SlugText(r, '-')
    ensures r == [] || (r[0] != '-' && r[|r| - 1] != '-')
    ensures forall i :: 0 <= i < |r| - 1 ==> !(r[i] == '-' && r[i + 1] == '-')
    ensures Outside(r, NotSlugChar) == Outside(Lower(text), NotSlugChar)
  {
    CommonUtils.SlugWith(text, '-')
  }

  /** The hyphen slug is the underscore slug of `common/utils.py` with every `_` turned into `-`. */
  lemma SlugifyIsSubstitution(text: string)
    ensures Slugify(text) == Substitute(CommonUtils.Slugify(text), '_', '-')
  {
    var t := Lower(text);
    var u := ReplaceRuns(t, NotSlugChar, '_');
    var v := ReplaceRuns(t, NotSlugChar, '-');
    ReplaceRunsCollapsed(t, NotSlugChar, '_');
    ReplaceRunsCollapsed(t, NotSlugChar, '-');
    StripSameClass(u, NotSlugChar, '_');
    StripSameClass(v, NotSlugChar, '-');
    ReplaceRunsSubstitute(t, NotSlugChar, '_', '-');
    StripSubstitute(u, NotSlugChar, '_', '-');
  }

  lemma SlugifyIdempotent(text: string)
    ensures Slugify(Slugify(text)) == Slugify(text)
  {
    CommonUtils.SlugWithIdempotent(text, '-');
  }

  /** `clean_text`, written out again in this file: it agrees with the `common/utils.py` copy. */
  function CleanText(text: Option<string>): (r: Option<string>)
    ensures r == CommonUtils.CleanText(text)
    ensures r.None? <==> text == None || text == Some("")
  {
    if text == None || text.value == "" then None
    else Some(Strip(ReplaceRuns(text.value, Space, ' ')))
  }
}
