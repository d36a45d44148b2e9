/**
 * The shared helpers of `common/utils.py`: whitespace cleaning, slugs, record identifiers,
 * and the defensive accessors the product cleaner applies to raw JSON values.
 */
module CommonUtils {
  import opened Wrappers
  import opened Text
  import opened Json

  /**
   * `clean_text`: `None` for `None` or the empty string; otherwise every run of blanks becomes
   * one space and the ends are stripped. Only blanks change: the other characters stay, in order.
   */
  function CleanText(text: Option<string>): (r: Option<string>)
    ensures r.None? <==> text == None || text == Some("")
    ensures r.Some? ==> Trimmed(r.value, Space) && Collapsed(r.value, Space, ' ')
    ensures r.Some? ==> Outside(r.value, Space) == Outside(text.value, Space)
    ensures r.Some? ==> r.value == Join(Words(text.value, Space), " ")
  {
    if text == None || text.value == "" then None
    else
      CollapseShape(text.value);
      Some(Strip(ReplaceRuns(text.value, Space, ' ')))
  }

  lemma CollapseShape(t: string)
    ensures Trimmed(Strip(ReplaceRuns(t, Space, ' ')), Space)
    ensures Collapsed(Strip(ReplaceRuns(t, Space, ' ')), Space, ' ')
    ensures Outside(Strip(ReplaceRuns(t, Space, ' ')), Space) == Outside(t, Space)
    ensures Strip(ReplaceRuns(t, Space, ' ')) == Join(Words(t, Space), " ")
  {
    StripReplaceRunsWords(t, Space, ' ');
    var u := ReplaceRuns(t, Space, ' ');
    ReplaceRunsCollapsed(t, Space, ' ');
    ReplaceRunsKeepsOutside(t, Space, ' ');
    CollapsedStrip(u, Space, ' ');
    StripClassShape(u, Space);
    StripKeepsOutside(u, Space);
  }

  /** Cleaning an already cleaned, non-empty text changes nothing. */
  lemma CleanTextIdempotent(text: Option<string>)
    requires CleanText(text).Some? && CleanText(text).value != ""
    ensures CleanText(CleanText(text)) == CleanText(text)
  {
    var t := CleanText(text).value;
    ReplaceRunsFixpoint(t, Space, ' ');
    StripTrimmed(t, Space);
  }

  /** A text made only of blanks cleans to the empty string, not to `None`. */
  lemma CleanTextBlank(t: string)
    requires t != [] && forall i :: 0 <= i < |t| ==> IsSpace(t[i])
    ensures CleanText(Some(t)) == Some("")
  {
    var l := LStrip(t, Space);
    assert l == [];
    var u := ReplaceRuns(t, Space, ' ');
    assert u == " " by {
      assert IsSpace(t[0]);
      assert u == [' '] + ReplaceRuns(l, Space, ' ');
    }
    assert Strip(u) == [];
  }

  /** Text made only of slug characters is its own slug. */
  lemma SlugifyOfSlug(s: string)
    requires forall i :: 0 <= i < |s| ==> IsSlugChar(s[i])
    ensures Slugify(s) == s
  {
    assert Lower(s) == s by {
      forall i | 0 <= i < |s| ensures LowerChar(s[i]) == s[i] {
        assert IsSlugChar(s[i]);
      }
    }
    ReplaceRunsFixpoint(s, NotSlugChar, '_');
    StripTrimmed(s, Exactly('_'));
  }

  /** A brand made only of slug characters appears in the identifier as it is. */
  lemma IdPrefix(brand: string, title: string)
    requires forall i :: 0 <= i < |brand| ==> IsSlugChar(brand[i])
    ensures StartsWith(GenerateId(brand, title), "recipe_" + brand + "_")
  {
    SlugifyOfSlug(brand);
  }

  /**
   * `re.sub(r"[^a-z0-9]+", sep, text.lower()).strip(sep)` for a separator outside `[a-z0-9]`:
   * the runs of slug characters of the lowered text, in order, with one separator between each
   * two; hence only slug characters and single separators, never at either end.
   */
  function SlugWith(text: string, sep: char): (r: string)
    requires !IsSlugChar(sep)
    ensures r == Join(Words(Lower(text), NotSlugChar), [sep])
    ensures SlugText(r, sep)
    ensures Trimmed(r, Exactly(sep))
    ensures Collapsed(r, NotSlugChar, sep)
    ensures Outside(r, NotSlugChar) == Outside(Lower(text), NotSlugChar)
  {
    SlugShape(Lower(text), sep);
    StripClass(ReplaceRuns(Lower(text), NotSlugChar, sep), Exactly(sep))
  }

  lemma SlugShape(t: string, sep: char)
    requires !IsSlugChar(sep)
    ensures var r := StripClass(ReplaceRuns(t, NotSlugChar, sep), Exactly(sep));
      SlugText(r, sep) && Trimmed(r, Exactly(sep)) && Collapsed(r, NotSlugChar, sep) &&
      Outside(r, NotSlugChar) == Outside(t, NotSlugChar) &&
      r == Join(Words(t, NotSlugChar), [sep])
  {
    var u := ReplaceRuns(t, NotSlugChar, sep);
    ReplaceRunsCollapsed(t, NotSlugChar, sep);
    ReplaceRunsKeepsOutside(t, NotSlugChar, sep);
    StripSameClass(u, NotSlugChar, sep);
    CollapsedStrip(u, NotSlugChar, sep);
    StripClassShape(u, NotSlugChar);
    StripKeepsOutside(u, NotSlugChar);
    StripReplaceRunsWords(t, NotSlugChar, sep);
  }

  /** A slug is a fixed point of the slugging it came from. */
  lemma SlugWithIdempotent(text: string, sep: char)
    requires !IsSlugChar(sep) && !('A' <= sep <= 'Z')
    ensures SlugWith(SlugWith(text, sep), sep) == SlugWith(text, sep)
  {
    var s := SlugWith(text, sep);
    assert Lower(s) == s by {
      forall i | 0 <= i < |s| ensures LowerChar(s[i]) == s[i] {
        assert IsSlugChar(s[i]) || s[i] == sep;
      }
    }
    ReplaceRunsFixpoint(s, NotSlugChar, sep);
    StripTrimmed(s, Exactly(sep));
  }

  /** Only slug characters and the separator. */
  predicate SlugText(s: string, sep: char) {
    forall i :: 0 <= i < |s| ==> IsSlugChar(s[i]) || s[i] == sep
  }

  /** `slugify`: the `_`-separated slug. */
  function Slugify(text: string): (r: string)
    ensures r == Join(Words(Lower(text), NotSlugChar), "_")
    ensures SlugText(r, '_')
    ensures r == [] || (r[0] != '_' && r[|r| - 1] != '_')
    ensures forall i :: 0 <= i < |r| - 1 ==> !(r[i] == '_' && r[i + 1] == '_')
    ensures Outside(r, NotSlugChar) == Outside(Lower(text), NotSlugChar)
  {
    SlugWith(text, '_')
  }

  /** A blank between two slug characters becomes one `_`: `slugify("a b")` is `a_b`. */
  lemma SlugifySeparates(x: char, y: char)
    requires IsSlugChar(x) && IsSlugChar(y)
    ensures Slugify([x, ' ', y]) == [x, '_', y]
  {
    var t := Lower([x, ' ', y]);
    assert t == [x, ' ', y];
    assert TakeWord(t[1..], NotSlugChar) == [];
    assert TakeWord(t, NotSlugChar) == [x];
    assert t[1..] == [' ', y] && t[2..] == [y];
    assert TakeWord([y], NotSlugChar) == [y] by {
      assert [y][1..] == [];
    }
    assert Words([y], NotSlugChar) == [[y]] by {
      assert [y][1..] == [];
    }
    var ws := [[x], [y]];
    assert Words(t, NotSlugChar) == ws;
    assert ws[1..] == [[y]];
    assert Join(ws, "_") == [x] + "_" + [y];
    assert [x] + "_" + [y] == [x, '_', y];
  }

  lemma SlugifyIdempotent(text: string)
    ensures Slugify(Slugify(text)) == Slugify(text)
  {
    SlugWithIdempotent(text, '_');
  }

  /**
   * `generate_id`: `recipe_<brand slug>_<title slug>`, whatever kind of record it names.
   * The identifier is made of slug characters and `_` only.
   */
  function GenerateId(brand: string, title: string): (r: string)
    ensures StartsWith(r, "recipe_" + Slugify(brand) + "_")
    ensures EndsWith(r, Slugify(title))
    ensures SlugText(r, '_')
  {
    var b := Slugify(brand);
    var t := Slugify(title);
    IdShape(b, t);
    "recipe_" + b + "_" + t
  }

  /** The identifier built from two slugs starts with the prefix, ends with the title, and is a slug. */
  lemma IdShape(b: string, t: string)
    requires SlugText(b, '_') && SlugText(t, '_')
    ensures StartsWith("recipe_" + b + "_" + t, "recipe_" + b + "_")
    ensures EndsWith("recipe_" + b + "_" + t, t)
    ensures SlugText("recipe_" + b + "_" + t, '_')
  {
    RecipePrefixSlug();
    SlugTextConcat("recipe_", b);
    SlugTextConcat("recipe_" + b, "_");
    var p := "recipe_" + b + "_";
    SlugTextConcat(p, t);
    StartsWithConcat(p, t);
    assert (p + t)[|p + t| - |t|..] == t;
  }

  /** `generate_id` applied to raw record values: `slugify` calls `.lower()`, which only a string has. */
  function GenerateIdOf(brand: Json, title: Json): (r: Result<string>)
    ensures r.Ok? <==> brand.JStr? && title.JStr?
    ensures r.Raised? ==> r.error == AttributeError
    ensures r.Ok? ==> SlugText(r.value, '_') && EndsWith(r.value, Slugify(title.s))
  {
    if brand.JStr? && title.JStr? then Ok(GenerateId(brand.s, title.s)) else Raised(AttributeError)
  }

  lemma RecipePrefixSlug()
    ensures SlugText("recipe_", '_')
  {
  }

  lemma SlugTextConcat(a: string, b: string)
    requires SlugText(a, '_') && SlugText(b, '_')
    ensures SlugText(a + b, '_')
  {
    assert forall i :: 0 <= i < |a + b| ==> (a + b)[i] == if i < |a| then a[i] else b[i - |a|];
  }

  /** `safe_strip`: a string is stripped, any other value is returned as it is. */
  function SafeStrip(value: Json): (r: Json)
    ensures value.JStr? <==> r.JStr?
    ensures value.JStr? ==> r.s == Strip(value.s) && Trimmed(r.s, Space)
    ensures !value.JStr? ==> r == value
  {
    if value.JStr? then
      StripClassShape(value.s, Space);
      JStr(Strip(value.s))
    else value
  }

  lemma SafeStripIdempotent(value: Json)
    ensures SafeStrip(SafeStrip(value)) == SafeStrip(value)
  {
    if value.JStr? {
      StripIdempotent(value.s, Space);
    }
  }

  /** `safe_dict`: the value itself exactly when it is a dict, otherwise `{}`. */
  function SafeDict(d: Json): (r: Json)
    ensures r.JObj?
    ensures r == d <==> d.JObj?
    ensures !d.JObj? ==> r.fields == []
  {
    if d.JObj? then d else JObj([])
  }

  /** `safe_first`: the first element of a non-empty list, `None` for anything else. */
  function SafeFirst(lst: Json): (r: Json)
    ensures lst.JList? && lst.items != [] ==> r == lst.items[0] && First(lst) == Ok(r)
    ensures !(lst.JList? && lst.items != []) ==> r == JNull
  {
    if lst.JList? && lst.items != [] then lst.items[0] else JNull
  }
}
