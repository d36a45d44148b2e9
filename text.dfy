/**
 * ASCII string helpers shared by the whole model: Python's `str.lower`, `str.strip`,
 * `str.strip(chars)`, `str.split()`, `str.join`, `in` on strings, `startswith`,
 * decimal rendering of integers, and the run-replacing regular-expression substitutions
 * `re.sub(r"\s+", ...)` and `re.sub(r"[^a-z0-9]+", ...)`.
 *
 * Only ASCII is modelled: Unicode whitespace beyond ASCII and Unicode case mapping are not.
 */
module Text {

  /** Python's `str.isspace` / regex `\s`, restricted to ASCII: space, \t \n \v \f \r and \x1c-\x1f. */
  predicate IsSpace(c: char) {
    c == ' ' || ('\t' <= c <= '\r') || ('\U{1C}' <= c <= '\U{1F}')
  }

  /** The characters a slug keeps: the class `[a-z0-9]`. */
  predicate IsSlugChar(c: char) {
    ('a' <= c <= 'z') || ('0' <= c <= '9')
  }

  predicate IsDigit(c: char) {
    '0' <= c <= '9'
  }

  /** The character classes the source's regular expressions and strip calls use. */
  datatype CharClass = Space | NotSlugChar | Exactly(c: char)

  predicate In(c: char, k: CharClass) {
    match k
    case Space => IsSpace(c)
    case NotSlugChar => !IsSlugChar(c)
    case Exactly(d) => c == d
  }

  /** `str.lower` on one ASCII character. */
  function LowerChar(c: char): (r: char)
    ensures 'A' <= c <= 'Z' ==> 'a' <= r <= 'z'
    ensures !('A' <= c <= 'Z') ==> r == c
  {
    if 'A' <= c <= 'Z' then (c as int + 32) as char else c
  }

  function Lower(s: string): (r: string)
    ensures |r| == |s|
    ensures forall i :: 0 <= i < |s| ==> r[i] == LowerChar(s[i])
  {
    seq(|s|, i requires 0 <= i < |s| => LowerChar(s[i]))
  }

  /** `str.lstrip` for a character class: the longest suffix that does not start in `k`. */
  function LStrip(s: string, k: CharClass): (r: string)
    ensures |r| <= |s| && r == s[|s| - |r|..]
    ensures r == [] || !In(r[0], k)
    ensures forall i :: 0 <= i < |s| - |r| ==> In(s[i], k)
    ensures s != [] && In(s[0], k) ==> |r| < |s|
    decreases |s|
  {
    if s == [] || !In(s[0], k) then s
    else
      var r := LStrip(s[1..], k);
      assert s[1..][|s| - 1 - |r|..] == s[|s| - |r|..];
      assert forall i :: 1 <= i < |s| - |r| ==> s[i] == s[1..][i - 1];
      r
  }

  /** `str.rstrip` for a character class: the longest prefix that does not end in `k`. */
  function RStrip(s: string, k: CharClass): (r: string)
    ensures |r| <= |s| && r == s[..|r|]
    ensures r == [] || !In(r[|r| - 1], k)
    ensures forall i :: |r| <= i < |s| ==> In(s[i], k)
    decreases |s|
  {
    if s == [] || !In(s[|s| - 1], k) then s
    else
      var r := RStrip(s[..|s| - 1], k);
      assert s[..|s| - 1][..|r|] == s[..|r|];
      r
  }

  /** `str.strip(chars)` for a character class. */
  function StripClass(s: string, k: CharClass): string {
    RStrip(LStrip(s, k), k)
  }

  /** `str.strip()` without arguments. */
  function Strip(s: string): string {
    StripClass(s, Space)
  }

  /** A string that neither starts nor ends with a character of `k`. */
  predicate Trimmed(s: string, k: CharClass) {
    s == [] || (!In(s[0], k) && !In(s[|s| - 1], k))
  }

  /** Where the stripped string starts inside the original. */
  function StripOffset(s: string, k: CharClass): nat {
    |s| - |LStrip(s, k)|
  }

  /** Stripping cuts a trimmed slice out of the original string. */
  lemma StripClassShape(s: string, k: CharClass)
    ensures Trimmed(StripClass(s, k), k)
    ensures StripOffset(s, k) + |StripClass(s, k)| <= |s|
    ensures StripClass(s, k) == s[StripOffset(s, k)..StripOffset(s, k) + |StripClass(s, k)|]
  {
    var l := LStrip(s, k);
    var r := RStrip(l, k);
    var a := |s| - |l|;
    assert r == s[a..a + |r|];
  }

  /** Stripping a string that is already trimmed changes nothing. */
  lemma StripTrimmed(s: string, k: CharClass)
    requires Trimmed(s, k)
    ensures StripClass(s, k) == s
  {
  }

  /**
   * `r` is `s` cut at both ends: a trimmed slice `s[i..i + |r|]` with only characters of `k`
   * before and after it. This is what `str.strip` promises, stated without computing it.
   */
  ghost predicate StrippedOf(r: string, s: string, k: CharClass) {
    Trimmed(r, k) && exists i :: StrippedAt(r, s, k, i)
  }

  /** `r` is the slice of `s` at `i`, with only characters of `k` around it. */
  predicate StrippedAt(r: string, s: string, k: CharClass, i: int) {
    0 <= i <= |s| - |r| && r == s[i..i + |r|] &&
    (forall p :: 0 <= p < i ==> In(s[p], k)) && (forall p :: i + |r| <= p < |s| ==> In(s[p], k))
  }

  /** Stripping yields the trimmed middle of the string. */
  lemma StripStripped(s: string, k: CharClass)
    ensures StrippedOf(StripClass(s, k), s, k)
  {
    StripClassShape(s, k);
    var l := LStrip(s, k);
    var r := RStrip(l, k);
    var a := |s| - |l|;
    assert r == s[a..a + |r|] by {
      assert l == s[a..] && r == l[..|r|];
    }
    forall p | a + |r| <= p < |s|
      ensures In(s[p], k)
    {
      assert s[p] == l[p - a];
    }
    assert StrippedAt(r, s, k, a);
  }

  /** Left-stripping stops at the first character outside `k`. */
  lemma LStripAt(s: string, k: CharClass, i: nat)
    requires i <= |s| && (forall p :: 0 <= p < i ==> In(s[p], k)) && (i < |s| ==> !In(s[i], k))
    ensures LStrip(s, k) == s[i..]
  {
    var l := LStrip(s, k);
    var o := |s| - |l|;
    assert l == [] || l[0] == s[o];
  }

  /** Right-stripping stops after the last character outside `k`. */
  lemma RStripAt(s: string, k: CharClass, m: nat)
    requires m <= |s| && (forall p :: m <= p < |s| ==> In(s[p], k)) && (m > 0 ==> !In(s[m - 1], k))
    ensures RStrip(s, k) == s[..m]
  {
    var r := RStrip(s, k);
    assert r == [] || r[|r| - 1] == s[|r| - 1];
  }

  /** Only one string is the stripped form of `s`: the characterization pins the result down. */
  lemma StrippedUnique(r: string, s: string, k: CharClass)
    requires StrippedOf(r, s, k)
    ensures r == StripClass(s, k)
  {
    var i :| StrippedAt(r, s, k, i);
    if r == [] {
      LStripAt(s, k, |s|);
    } else {
      StrippedAtUnique(r, s, k, i);
    }
  }

  lemma StrippedAtUnique(r: string, s: string, k: CharClass, i: int)
    requires r != [] && Trimmed(r, k) && StrippedAt(r, s, k, i)
    ensures r == StripClass(s, k)
  {
    assert s[i] == r[0];
    LStripAt(s, k, i);
    var l := s[i..];
    assert l[..|r|] == r;
    forall p | |r| <= p < |l|
      ensures In(l[p], k)
    {
      assert l[p] == s[i + p];
    }
    RStripSlice(r, l, k);
  }

  lemma RStripSlice(r: string, l: string, k: CharClass)
    requires r != [] && !In(r[|r| - 1], k) && |r| <= |l| && l[..|r|] == r
    requires forall p :: |r| <= p < |l| ==> In(l[p], k)
    ensures RStrip(l, k) == r
  {
    assert l[|r| - 1] == r[|r| - 1];
    RStripAt(l, k, |r|);
  }

  /** `str.strip()` is idempotent. */
  lemma StripIdempotent(s: string, k: CharClass)
    ensures StripClass(StripClass(s, k), k) == StripClass(s, k)
  {
    StripClassShape(s, k);
  }

  /**
   * The string `s` with every maximal run of characters of class `k` replaced by the one
   * character `rep`: this is `re.sub(r"K+", rep, s)` for the class `K`, whose leftmost, greedy
   * matches are exactly those maximal runs.
   */
  function ReplaceRuns(s: string, k: CharClass, rep: char): string
    decreases |s|
  {
    if s == [] then []
    else if !In(s[0], k) then [s[0]] + ReplaceRuns(s[1..], k, rep)
    else
      [rep] + ReplaceRuns(LStrip(s, k), k, rep)
  }

  /** Every character of class `k` is `rep`, and no two characters of class `k` are adjacent. */
  predicate Collapsed(s: string, k: CharClass, rep: char) {
    (forall i :: 0 <= i < |s| && In(s[i], k) ==> s[i] == rep) &&
    (forall i :: 0 <= i < |s| - 1 ==> !(In(s[i], k) && In(s[i + 1], k)))
  }

  lemma ReplaceRunsHead(s: string, k: CharClass, rep: char)
    requires s != [] && !In(s[0], k)
    ensures ReplaceRuns(s, k, rep) != [] && ReplaceRuns(s, k, rep)[0] == s[0]
  {
  }

  /** The substitution leaves a collapsed string: e.g. `re.sub(r"\s+", " ", s)` has no two adjacent blanks. */
  lemma {:induction false} ReplaceRunsCollapsed(s: string, k: CharClass, rep: char)
    requires In(rep, k)
    ensures Collapsed(ReplaceRuns(s, k, rep), k, rep)
    decreases |s|
  {
    if s == [] {
    } else if !In(s[0], k) {
      ReplaceRunsCollapsed(s[1..], k, rep);
    } else {
      var rest := LStrip(s, k);
      ReplaceRunsCollapsed(rest, k, rep);
      if rest != [] {
        ReplaceRunsHead(rest, k, rep);
      }
    }
  }

  /** A collapsed string is a fixed point of the substitution. */
  lemma {:induction false} ReplaceRunsFixpoint(s: string, k: CharClass, rep: char)
    requires Collapsed(s, k, rep)
    ensures ReplaceRuns(s, k, rep) == s
    decreases |s|
  {
    if s == [] {
    } else {
      assert Collapsed(s[1..], k, rep);
      ReplaceRunsFixpoint(s[1..], k, rep);
      if In(s[0], k) {
        assert s[1..] == [] || !In(s[1], k);
        assert LStrip(s, k) == s[1..];
      }
    }
  }

  /** A slice of a collapsed string is collapsed. */
  lemma CollapsedSlice(s: string, k: CharClass, rep: char, a: int, b: int)
    requires Collapsed(s, k, rep) && 0 <= a <= b <= |s|
    ensures Collapsed(s[a..b], k, rep)
  {
    var t := s[a..b];
    forall i | 0 <= i < |t| - 1 ensures !(In(t[i], k) && In(t[i + 1], k)) {
      assert t[i] == s[a + i] && t[i + 1] == s[a + i + 1];
    }
  }

  lemma CollapsedStrip(s: string, k: CharClass, rep: char)
    requires Collapsed(s, k, rep)
    ensures Collapsed(StripClass(s, k), k, rep)
  {
    StripClassShape(s, k);
    var r := StripClass(s, k);
    var a := StripOffset(s, k);
    CollapsedSlice(s, k, rep, a, a + |r|);
    assert r == s[a..a + |r|];
  }

  /** In a string whose class-`k` characters are exactly the `rep` characters, stripping `rep` is stripping `k`. */
  lemma {:induction false} LStripSameClass(s: string, k: CharClass, rep: char)
    requires forall i :: 0 <= i < |s| ==> (In(s[i], k) <==> s[i] == rep)
    ensures LStrip(s, Exactly(rep)) == LStrip(s, k)
    decreases |s|
  {
    if s != [] && In(s[0], k) {
      LStripSameClass(s[1..], k, rep);
    }
  }

  lemma {:induction false} RStripSameClass(s: string, k: CharClass, rep: char)
    requires forall i :: 0 <= i < |s| ==> (In(s[i], k) <==> s[i] == rep)
    ensures RStrip(s, Exactly(rep)) == RStrip(s, k)
    decreases |s|
  {
    if s != [] && In(s[|s| - 1], k) {
      RStripSameClass(s[..|s| - 1], k, rep);
    }
  }

  lemma StripSameClass(s: string, k: CharClass, rep: char)
    requires forall i :: 0 <= i < |s| ==> (In(s[i], k) <==> s[i] == rep)
    ensures StripClass(s, Exactly(rep)) == StripClass(s, k)
  {
    LStripSameClass(s, k, rep);
    var l := LStrip(s, k);
    forall i | 0 <= i < |l| ensures In(l[i], k) <==> l[i] == rep {
      assert l[i] == s[|s| - |l| + i];
    }
    RStripSameClass(l, k, rep);
  }

  /** The characters of `s` outside class `k`, in order. */
  function Outside(s: string, k: CharClass): string
    decreases |s|
  {
    if s == [] then [] else (if In(s[0], k) then [] else [s[0]]) + Outside(s[1..], k)
  }

  lemma {:induction false} OutsideConcat(a: string, b: string, k: CharClass)
    ensures Outside(a + b, k) == Outside(a, k) + Outside(b, k)
    decreases |a|
  {
    if a == [] {
      assert a + b == b;
    } else {
      assert (a + b)[0] == a[0];
      assert (a + b)[1..] == a[1..] + b;
      OutsideConcat(a[1..], b, k);
    }
  }

  lemma {:induction false} OutsideAllIn(s: string, k: CharClass)
    requires forall i :: 0 <= i < |s| ==> In(s[i], k)
    ensures Outside(s, k) == []
    decreases |s|
  {
    if s != [] {
      OutsideAllIn(s[1..], k);
    }
  }

  /** Cutting off a prefix or a suffix made only of class-`k` characters keeps `Outside`. */
  lemma OutsideCut(s: string, i: nat, j: nat, k: CharClass)
    requires i <= j <= |s|
    requires forall p :: 0 <= p < i ==> In(s[p], k)
    requires forall p :: j <= p < |s| ==> In(s[p], k)
    ensures Outside(s[i..j], k) == Outside(s, k)
  {
    var x, y, z := s[..i], s[i..j], s[j..];
    assert s == x + (y + z);
    OutsideConcat(x, y + z, k);
    OutsideConcat(y, z, k);
    OutsideAllIn(x, k);
    OutsideAllIn(z, k);
  }

  /** Stripping class `k` only removes characters of class `k`. */
  lemma StripKeepsOutside(s: string, k: CharClass)
    ensures Outside(StripClass(s, k), k) == Outside(s, k)
  {
    var l := LStrip(s, k);
    assert l == s[|s| - |l|..|s|];
    OutsideCut(s, |s| - |l|, |s|, k);
    var r := RStrip(l, k);
    assert r == l[0..|r|];
    OutsideCut(l, 0, |r|, k);
  }

  /** Replacing runs of class `k` by a character of class `k` keeps every other character, in order. */
  lemma {:induction false} ReplaceRunsKeepsOutside(s: string, k: CharClass, rep: char)
    requires In(rep, k)
    ensures Outside(ReplaceRuns(s, k, rep), k) == Outside(s, k)
    decreases |s|
  {
    if s == [] {
    } else if !In(s[0], k) {
      ReplaceRunsKeepsOutside(s[1..], k, rep);
      OutsideConcat([s[0]], ReplaceRuns(s[1..], k, rep), k);
    } else {
      var l := LStrip(s, k);
      ReplaceRunsKeepsOutside(l, k, rep);
      OutsideConcat([rep], ReplaceRuns(l, k, rep), k);
      assert l == s[|s| - |l|..|s|];
      OutsideCut(s, |s| - |l|, |s|, k);
    }
  }

  /** `s.replace(a, b)` for single characters. */
  function Substitute(s: string, a: char, b: char): (r: string)
    ensures |r| == |s|
    ensures forall i :: 0 <= i < |s| ==> r[i] == (if s[i] == a then b else s[i])
  {
    seq(|s|, i requires 0 <= i < |s| => if s[i] == a then b else s[i])
  }

  /** Replacing runs by `b` is replacing them by `a` and then turning every `a` into `b`. */
  lemma {:induction false} ReplaceRunsSubstitute(s: string, k: CharClass, a: char, b: char)
    requires In(a, k) && In(b, k)
    ensures ReplaceRuns(s, k, b) == Substitute(ReplaceRuns(s, k, a), a, b)
    decreases |s|
  {
    if s == [] {
    } else if !In(s[0], k) {
      ReplaceRunsSubstitute(s[1..], k, a, b);
    } else {
      ReplaceRunsSubstitute(LStrip(s, k), k, a, b);
    }
  }

  /** Two strings with class `k` at the same positions lose the same prefix to `lstrip`. */
  lemma {:induction false} LStripPattern(u: string, v: string, k: CharClass)
    requires |u| == |v| && forall i :: 0 <= i < |u| ==> (In(u[i], k) <==> In(v[i], k))
    ensures |LStrip(u, k)| == |LStrip(v, k)|
    decreases |u|
  {
    if u != [] {
      assert In(u[0], k) <==> In(v[0], k);
      if In(u[0], k) {
        var u', v' := u[1..], v[1..];
        forall i | 0 <= i < |u'|
          ensures In(u'[i], k) <==> In(v'[i], k)
        {
          assert u'[i] == u[i + 1] && v'[i] == v[i + 1];
        }
        LStripPattern(u', v', k);
      }
    }
  }

  lemma {:induction false} RStripPattern(u: string, v: string, k: CharClass)
    requires |u| == |v| && forall i :: 0 <= i < |u| ==> (In(u[i], k) <==> In(v[i], k))
    ensures |RStrip(u, k)| == |RStrip(v, k)|
    decreases |u|
  {
    if u != [] {
      assert In(u[|u| - 1], k) <==> In(v[|v| - 1], k);
      if In(u[|u| - 1], k) {
        var u', v' := u[..|u| - 1], v[..|v| - 1];
        forall i | 0 <= i < |u'|
          ensures In(u'[i], k) <==> In(v'[i], k)
        {
          assert u'[i] == u[i] && v'[i] == v[i];
        }
        RStripPattern(u', v', k);
      }
    }
  }

  /** Substituting one class-`k` character for another keeps the positions of class `k`. */
  lemma SubstitutePattern(u: string, k: CharClass, a: char, b: char, o: nat)
    requires In(a, k) && In(b, k) && o <= |u|
    ensures forall i :: 0 <= i < |u| - o ==>
      (In(u[o..][i], k) <==> In(Substitute(u, a, b)[o..][i], k))
  {
  }

  lemma SubstituteSlice(u: string, a: char, b: char, o: nat, n: nat)
    requires o + n <= |u|
    ensures Substitute(u, a, b)[o..o + n] == Substitute(u[o..o + n], a, b)
  {
  }

  /** Substituting one class-`k` character for another leaves the same offset and length to `strip`. */
  lemma StripSubstituteBounds(u: string, k: CharClass, a: char, b: char)
    requires In(a, k) && In(b, k)
    ensures StripOffset(Substitute(u, a, b), k) == StripOffset(u, k)
    ensures |StripClass(Substitute(u, a, b), k)| == |StripClass(u, k)|
  {
    var v := Substitute(u, a, b);
    SubstitutePattern(u, k, a, b, 0);
    assert u[0..] == u && v[0..] == v;
    LStripPattern(u, v, k);
    var o := StripOffset(u, k);
    assert LStrip(u, k) == u[o..] && LStrip(v, k) == v[o..];
    SubstitutePattern(u, k, a, b, o);
    RStripPattern(u[o..], v[o..], k);
  }

  /** Substituting one class-`k` character for another commutes with stripping class `k`. */
  lemma StripSubstitute(u: string, k: CharClass, a: char, b: char)
    requires In(a, k) && In(b, k)
    ensures StripClass(Substitute(u, a, b), k) == Substitute(StripClass(u, k), a, b)
  {
    var v := Substitute(u, a, b);
    StripSubstituteBounds(u, k, a, b);
    var o := StripOffset(u, k);
    var n := |StripClass(u, k)|;
    StripClassShape(u, k);
    StripClassShape(v, k);
    SubstituteSlice(u, a, b, o, n);
  }

  /** `sep.join(parts)`. */
  function Join(parts: seq<string>, sep: string): string
    decreases |parts|
  {
    if |parts| == 0 then ""
    else if |parts| == 1 then parts[0]
    else parts[0] + sep + Join(parts[1..], sep)
  }

  lemma {:induction false} JoinSnoc(parts: seq<string>, x: string, sep: string)
    requires parts != []
    ensures Join(parts + [x], sep) == Join(parts, sep) + sep + x
    decreases |parts|
  {
    if |parts| == 1 {
      assert parts + [x] == [parts[0], x];
    } else {
      assert (parts + [x])[1..] == parts[1..] + [x];
      JoinSnoc(parts[1..], x, sep);
    }
  }

  /** The joined string starts with the first part and ends with the last part. */
  lemma {:induction false} JoinEnds(parts: seq<string>, sep: string)
    requires parts != []
    ensures |Join(parts, sep)| >= |parts[0]| && Join(parts, sep)[..|parts[0]|] == parts[0]
    ensures |Join(parts, sep)| >= |parts[|parts| - 1]|
    ensures Join(parts, sep)[|Join(parts, sep)| - |parts[|parts| - 1]|..] == parts[|parts| - 1]
    decreases |parts|
  {
    if |parts| > 1 {
      JoinEnds(parts[1..], sep);
      var j := Join(parts[1..], sep);
      assert Join(parts, sep) == parts[0] + sep + j;
    }
  }

  /** The joined string is the first part alone, or the first part followed by the separator. */
  lemma JoinHead(parts: seq<string>, sep: string)
    requires parts != []
    ensures StartsWith(Join(parts, sep), parts[0])
    ensures |parts| == 1 ==> Join(parts, sep) == parts[0]
    ensures |parts| > 1 ==> StartsWith(Join(parts, sep), parts[0] + sep)
  {
    if |parts| > 1 {
      var j := Join(parts, sep);
      assert j == parts[0] + sep + Join(parts[1..], sep);
      assert j[..|parts[0] + sep|] == parts[0] + sep;
      assert j[..|parts[0]|] == parts[0];
    }
  }

  /** Non-empty and without a blank at either end. */
  predicate Solid(s: string) {
    s != [] && !IsSpace(s[0]) && !IsSpace(s[|s| - 1])
  }

  /** Wrapping a solid string in text that starts and ends with non-blanks keeps it solid. */
  lemma SolidBetween(a: string, x: string, b: string)
    requires Solid(x)
    requires a != [] ==> !IsSpace(a[0])
    requires b != [] ==> !IsSpace(b[|b| - 1])
    ensures Solid(a + x + b)
  {
    var r := a + x + b;
    assert r[0] == if a != [] then a[0] else x[0];
    assert r[|r| - 1] == if b != [] then b[|b| - 1] else x[|x| - 1];
  }

  /** A join is solid when its first part starts and its last part ends with a non-blank. */
  lemma SolidJoin(parts: seq<string>, sep: string)
    requires parts != [] && parts[0] != [] && parts[|parts| - 1] != []
    requires !IsSpace(parts[0][0]) && !IsSpace(parts[|parts| - 1][|parts[|parts| - 1]| - 1])
    ensures Solid(Join(parts, sep))
  {
    JoinEnds(parts, sep);
    var j := Join(parts, sep);
    var last := parts[|parts| - 1];
    assert j[0] == j[..|parts[0]|][0];
    assert j[|j| - 1] == j[|j| - |last|..][|last| - 1];
  }

  /** A solid string is its own strip. */
  lemma SolidStrip(s: string)
    requires Solid(s)
    ensures Strip(s) == s
  {
    StripTrimmed(s, Space);
  }

  /** Stripping a string that starts with two non-blanks keeps those two characters in front. */
  lemma StripKeepsHead(s: string)
    requires |s| >= 2 && !IsSpace(s[0]) && !IsSpace(s[1])
    ensures |Strip(s)| >= 2 && Strip(s)[0] == s[0] && Strip(s)[1] == s[1]
  {
    var l := LStrip(s, Space);
    assert l == s;
    var r := RStrip(l, Space);
    assert r == s[..|r|];
  }

  /** Joining solid parts: the strip of the result changes nothing. */
  lemma JoinSolidParts(ts: seq<string>, sep: string)
    requires forall i :: 0 <= i < |ts| ==> Solid(ts[i])
    ensures Strip(Join(ts, sep)) == Join(ts, sep)
  {
    if ts != [] {
      assert Solid(ts[0]) && Solid(ts[|ts| - 1]);
      SolidJoin(ts, sep);
      SolidStrip(Join(ts, sep));
    }
  }

  /** A join ends with its last part. */
  lemma JoinEndsWith(ts: seq<string>, sep: string)
    requires ts != []
    ensures EndsWith(Join(ts, sep), ts[|ts| - 1])
  {
    JoinEnds(ts, sep);
  }

  /** Right-stripping `a + b` when `a` ends outside the class only touches `b`. */
  lemma {:induction false} RStripConcat(a: string, b: string, k: CharClass)
    requires a != [] && !In(a[|a| - 1], k)
    ensures RStrip(a + b, k) == a + RStrip(b, k)
    decreases |b|
  {
    if b != [] && In(b[|b| - 1], k) {
      assert (a + b)[..|a + b| - 1] == a + b[..|b| - 1];
      RStripConcat(a, b[..|b| - 1], k);
    } else if b == [] {
      assert a + b == a;
    }
  }

  /** `s.startswith(p)`. */
  predicate StartsWith(s: string, p: string) {
    |p| <= |s| && s[..|p|] == p
  }

  /** A string starts with any of its prefixes. */
  lemma StartsWithConcat(a: string, b: string)
    ensures StartsWith(a + b, a)
  {
    assert (a + b)[..|a|] == a;
  }

  /** `s.endswith(p)`. */
  predicate EndsWith(s: string, p: string) {
    |p| <= |s| && s[|s| - |p|..] == p
  }

  /** A string ending with `t` still ends with it after something is put in front. */
  lemma EndsWithConcat(a: string, b: string, t: string)
    requires EndsWith(b, t)
    ensures EndsWith(a + b, t)
  {
    assert (a + b)[|a + b| - |t|..] == b[|b| - |t|..];
  }

  /** `needle in hay` for strings. */
  predicate Contains(hay: string, needle: string)
    decreases |hay|
  {
    StartsWith(hay, needle) || (hay != [] && Contains(hay[1..], needle))
  }

  lemma {:induction false} ContainsAt(hay: string, needle: string, i: nat)
    requires i + |needle| <= |hay| && hay[i..i + |needle|] == needle
    ensures Contains(hay, needle)
    decreases i
  {
    if i > 0 {
      assert hay[1..][i - 1..i - 1 + |needle|] == needle;
      ContainsAt(hay[1..], needle, i - 1);
    }
  }

  /** The longest prefix of `s` without a character of class `k`. */
  function TakeWord(s: string, k: CharClass): (w: string)
    ensures |w| <= |s| && w == s[..|w|]
    ensures forall i :: 0 <= i < |w| ==> !In(w[i], k)
    ensures |w| == |s| || In(s[|w|], k)
    decreases |s|
  {
    if s == [] || In(s[0], k) then [] else [s[0]] + TakeWord(s[1..], k)
  }

  /**
   * The maximal runs of characters outside class `k`, in order: `s.split()` without arguments
   * for the blanks, and the pieces `re.sub(r"K+", …)` keeps for any other class `K`.
   */
  function Words(s: string, k: CharClass): (ws: seq<string>)
    ensures forall i :: 0 <= i < |ws| ==> ws[i] != []
    decreases |s|
  {
    if s == [] then []
    else if In(s[0], k) then Words(s[1..], k)
    else
      var w := TakeWord(s, k);
      [w] + Words(s[|w|..], k)
  }

  /** Leading characters of the class start no word. */
  lemma {:induction false} WordsLStrip(s: string, k: CharClass)
    ensures Words(LStrip(s, k), k) == Words(s, k)
    decreases |s|
  {
    if s != [] && In(s[0], k) {
      WordsLStrip(s[1..], k);
    }
  }

  /** Putting characters in front of a string that does not end in the class keeps them all. */
  lemma {:induction false} RStripPrefix(a: string, x: string, k: CharClass)
    requires RStrip(x, k) != []
    ensures RStrip(a + x, k) == a + RStrip(x, k)
    decreases |x|
  {
    if In(x[|x| - 1], k) {
      assert (a + x)[..|a + x| - 1] == a + x[..|x| - 1];
      RStripPrefix(a, x[..|x| - 1], k);
    }
  }

  /** Run replacement passes a word through unchanged. */
  lemma {:induction false} ReplaceRunsWord(w: string, s: string, k: CharClass, rep: char)
    requires forall i :: 0 <= i < |w| ==> !In(w[i], k)
    ensures ReplaceRuns(w + s, k, rep) == w + ReplaceRuns(s, k, rep)
    decreases |w|
  {
    if w != [] {
      var ws := w + s;
      assert ws[0] == w[0] && !In(ws[0], k);
      assert ws[1..] == w[1..] + s;
      assert ReplaceRuns(ws, k, rep) == [w[0]] + ReplaceRuns(w[1..] + s, k, rep);
      ReplaceRunsWord(w[1..], s, k, rep);
      assert w == [w[0]] + w[1..];
    } else {
      assert w + s == s;
    }
  }

  /** Collapsing runs of the class to one of its characters does not create a leading run. */
  lemma LStripReplaceRuns(t: string, k: CharClass, rep: char)
    requires In(rep, k)
    ensures LStrip(ReplaceRuns(t, k, rep), k) == ReplaceRuns(LStrip(t, k), k, rep)
  {
    if t != [] && In(t[0], k) {
      var l := LStrip(t, k);
      var y := ReplaceRuns(l, k, rep);
      assert ReplaceRuns(t, k, rep) == [rep] + y;
      LStripNoHead(y, k, rep);
      if l != [] {
        ReplaceRunsHead(l, k, rep);
        LStripNoBlank(y, k);
      }
    } else if t != [] {
      ReplaceRunsHead(t, k, rep);
      LStripNoBlank(ReplaceRuns(t, k, rep), k);
    }
  }

  lemma LStripNoHead(y: string, k: CharClass, rep: char)
    requires In(rep, k)
    ensures LStrip([rep] + y, k) == LStrip(y, k)
  {
    var s := [rep] + y;
    assert s != [] && In(s[0], k);
    assert s[1..] == y;
  }

  lemma LStripNoBlank(y: string, k: CharClass)
    requires y != [] && !In(y[0], k)
    ensures LStrip(y, k) == y
  {
  }

  /** For a string that starts with a word, collapsing and right-stripping joins its words. */
  lemma {:induction false} RStripReplaceRunsWords(u: string, k: CharClass, rep: char)
    requires In(rep, k)
    requires u == [] || !In(u[0], k)
    ensures RStrip(ReplaceRuns(u, k, rep), k) == Join(Words(u, k), [rep])
    decreases |u|
  {
    if u != [] {
      var w, rest := WordSplit(u, k, rep);
      if rest != [] {
        RStripReplaceRunsWords(LStrip(rest, k), k, rep);
      }
      WordStep(w, rest, k, rep);
    }
  }

  /** One word followed by the rest of the text, which is already known to join its words. */
  lemma WordStep(w: string, rest: string, k: CharClass, rep: char)
    requires In(rep, k)
    requires w != [] && !In(w[|w| - 1], k) && (rest == [] || In(rest[0], k))
    requires rest != [] ==>
      RStrip(ReplaceRuns(LStrip(rest, k), k, rep), k) == Join(Words(LStrip(rest, k), k), [rep])
    ensures RStrip(w + ReplaceRuns(rest, k, rep), k) == Join([w] + Words(rest, k), [rep])
  {
    if rest == [] {
      assert w + [] == w;
    } else {
      WordsLStrip(rest, k);
      ReplaceRunsBlankHead(w, rest, k, rep);
      var v := LStrip(rest, k);
      if v == [] {
        LastWord(w, k, rep);
      } else {
        WordsHead(v, k);
        RStripJoinStep(w, ReplaceRuns(v, k, rep), Words(v, k), k, rep);
      }
    }
  }

  lemma LastWord(w: string, k: CharClass, rep: char)
    requires In(rep, k)
    requires w != [] && !In(w[|w| - 1], k)
    ensures RStrip(w + [rep] + ReplaceRuns([], k, rep), k) == Join([w] + Words([], k), [rep])
  {
    RStripConcat(w, [rep], k);
    assert w + [rep] + [] == w + [rep];
    assert [w] + [] == [w];
  }

  lemma WordsHead(v: string, k: CharClass)
    requires v != [] && !In(v[0], k)
    ensures Words(v, k) != [] && Words(v, k)[0] != []
  {
  }

  /** A string starting with a word splits into that word and a rest that starts in the class. */
  lemma WordSplit(u: string, k: CharClass, rep: char) returns (w: string, rest: string)
    requires u != [] && !In(u[0], k)
    ensures w != [] && !In(w[|w| - 1], k) && (rest == [] || In(rest[0], k)) && |rest| < |u|
    ensures Words(u, k) == [w] + Words(rest, k)
    ensures ReplaceRuns(u, k, rep) == w + ReplaceRuns(rest, k, rep)
  {
    w := TakeWord(u, k);
    rest := u[|w|..];
    assert u == w + rest;
    ReplaceRunsWord(w, rest, k, rep);
  }

  lemma ReplaceRunsBlankHead(w: string, rest: string, k: CharClass, rep: char)
    requires rest != [] && In(rest[0], k)
    ensures w + ReplaceRuns(rest, k, rep) == w + [rep] + ReplaceRuns(LStrip(rest, k), k, rep)
  {
    assert ReplaceRuns(rest, k, rep) == [rep] + ReplaceRuns(LStrip(rest, k), k, rep);
  }

  lemma RStripJoinStep(w: string, x: string, ws: seq<string>, k: CharClass, rep: char)
    requires w != [] && !In(w[|w| - 1], k)
    requires ws != [] && ws[0] != [] && RStrip(x, k) == Join(ws, [rep])
    ensures RStrip(w + [rep] + x, k) == Join([w] + ws, [rep])
  {
    JoinHead(ws, [rep]);
    assert Join(ws, [rep])[0] == ws[0][0];
    RStripPrefix(w + [rep], x, k);
    assert ([w] + ws)[1..] == ws;
  }

  /**
   * Replacing every run of class `k` by the one character `rep` of that class and stripping the
   * class joins the words by `rep`: `re.sub(r"\s+", " ", t).strip()` is `" ".join(t.split())`,
   * and `re.sub(r"[^a-z0-9]+", "_", t).strip("_")` puts exactly one `_` between the pieces.
   */
  lemma StripReplaceRunsWords(t: string, k: CharClass, rep: char)
    requires In(rep, k)
    ensures StripClass(ReplaceRuns(t, k, rep), k) == Join(Words(t, k), [rep])
  {
    LStripReplaceRuns(t, k, rep);
    WordsLStrip(t, k);
    RStripReplaceRunsWords(LStrip(t, k), k, rep);
  }

  /** `str(n)` for a natural number. */
  function NatToString(n: nat): (r: string)
    ensures r != [] && forall i :: 0 <= i < |r| ==> IsDigit(r[i])
  {
    if n < 10 then [('0' as int + n) as char]
    else NatToString(n / 10) + [('0' as int + n % 10) as char]
  }

  /** `str(i)` for an integer. */
  function IntToString(i: int): (r: string)
    ensures r != [] && !IsSpace(r[0]) && !IsSpace(r[|r| - 1])
  {
    if i < 0 then "-" + NatToString(-i) else NatToString(i)
  }

  /** The value of a decimal digit string, leading zeros allowed (JavaScript's `parseInt` on `\d+`). */
  function DigitsValue(d: string): nat
    decreases |d|
  {
    if d == [] then 0
    else if IsDigit(d[|d| - 1]) then DigitsValue(d[..|d| - 1]) * 10 + (d[|d| - 1] as int - '0' as int)
    else DigitsValue(d[..|d| - 1]) * 10
  }

  /** Reading back a rendered number gives the number. */
  lemma {:induction false} NatToStringValue(n: nat)
    ensures DigitsValue(NatToString(n)) == n
  {
    if n >= 10 {
      NatToStringValue(n / 10);
      var s := NatToString(n);
      assert s[..|s| - 1] == NatToString(n / 10);
    }
  }
}
