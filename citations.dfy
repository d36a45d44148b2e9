/**
 * Citation renumbering in the chat front end (`frontend/src/features/chatBot/utils.ts`).
 *
 * An answer is read as the regular expression `/\[(\d+)\]/g` reads it: left to right, a `[`
 * followed by one or more digits and a `]` is a citation token, and every other character is
 * literal text. The three operations collect the cited numbers, renumber the tokens densely
 * from 1, and pick the sources the tokens refer to.
 */
module Citations {
  import opened Text
  import opened Wrappers

  /** A piece of an answer: one literal character or one citation token with its digits. */
  datatype Piece = Lit(c: char) | Cite(digits: string)

  predicate AllDigits(d: string) {
    forall i :: 0 <= i < |d| ==> IsDigit(d[i])
  }

  /** The longest prefix of `s` made of digits. */
  function TakeDigits(s: string): (d: string)
    ensures |d| <= |s| && d == s[..|d|] && AllDigits(d)
    ensures |d| == |s| || !IsDigit(s[|d|])
    decreases |s|
  {
    if s == [] || !IsDigit(s[0]) then [] else [s[0]] + TakeDigits(s[1..])
  }

  /** How many characters of `s` a citation token starting at `s[0]` takes, or 0 when none starts there. */
  function TokenLength(s: string): (n: nat)
    ensures n == 0 || (3 <= n <= |s| && s[0] == '[' && s[n - 1] == ']' && AllDigits(s[1..n - 1]))
  {
    if s == [] || s[0] != '[' then 0
    else
      var d := TakeDigits(s[1..]);
      assert s[1..1 + |d|] == d;
      if d != [] && 1 + |d| < |s| && s[1 + |d|] == ']' then 2 + |d| else 0
  }

  /** The regular-expression scan of an answer, as pieces in order. */
  function Scan(s: string): (ps: seq<Piece>)
    ensures forall j :: 0 <= j < |ps| && ps[j].Cite? ==> ps[j].digits != [] && AllDigits(ps[j].digits)
    decreases |s|
  {
    if s == [] then []
    else
      var n := TokenLength(s);
      if n > 0 then [Cite(s[1..n - 1])] + Scan(s[n..])
      else [Lit(s[0])] + Scan(s[1..])
  }

  function RenderPiece(p: Piece): string {
    match p
    case Lit(c) => [c]
    case Cite(d) => "[" + d + "]"
  }

  /** The text the pieces spell. */
  function Render(ps: seq<Piece>): string
    decreases |ps|
  {
    if ps == [] then "" else RenderPiece(ps[0]) + Render(ps[1..])
  }

  lemma {:induction false} RenderConcat(a: seq<Piece>, b: seq<Piece>)
    ensures Render(a + b) == Render(a) + Render(b)
    decreases |a|
  {
    if a == [] {
      assert a + b == b;
    } else {
      assert (a + b)[1..] == a[1..] + b;
      RenderConcat(a[1..], b);
    }
  }

  /** The first piece of a non-empty answer: a citation token at its front, or its first character. */
  function HeadPiece(s: string): Piece
    requires s != []
  {
    var n := TokenLength(s);
    if n > 0 then Cite(s[1..n - 1]) else Lit(s[0])
  }

  /** The length of the first piece of a non-empty answer. */
  function HeadLength(s: string): (k: nat)
    requires s != []
    ensures 1 <= k <= |s|
  {
    var n := TokenLength(s);
    if n > 0 then n else 1
  }

  /** The scan takes the first piece, which spells the front of the answer, and goes on after it. */
  lemma ScanHead(s: string)
    requires s != []
    ensures Scan(s) == [HeadPiece(s)] + Scan(s[HeadLength(s)..])
    ensures RenderPiece(HeadPiece(s)) == s[..HeadLength(s)]
  {
    var n := TokenLength(s);
    if n > 0 {
      Bracketed(s, n);
    } else {
      assert s[..1] == [s[0]];
    }
  }

  /** A token spelt back with its brackets is the front of the answer it was taken from. */
  lemma Bracketed(s: string, n: nat)
    requires 2 <= n <= |s| && s[0] == '[' && s[n - 1] == ']'
    ensures "[" + s[1..n - 1] + "]" == s[..n]
  {
    var t := "[" + s[1..n - 1] + "]";
    assert |t| == n;
    forall i | 0 <= i < n
      ensures t[i] == s[i]
    {
      if 0 < i < n - 1 {
        assert t[i] == s[1..n - 1][i - 1];
      }
    }
  }

  /** A piece spelling the front of `s` followed by pieces spelling the rest spell `s`. */
  lemma RenderCons(p: Piece, ps: seq<Piece>, s: string, k: nat)
    requires k <= |s| && RenderPiece(p) == s[..k] && Render(ps) == s[k..]
    ensures Render([p] + ps) == s
  {
    assert ([p] + ps)[1..] == ps;
    assert s == s[..k] + s[k..];
  }

  /** Scanning loses nothing: the pieces spell the answer again. */
  lemma {:induction false} ScanRender(s: string)
    ensures Render(Scan(s)) == s
    decreases |s|
  {
    if s != [] {
      var k := HeadLength(s);
      ScanHead(s);
      ScanRender(s[k..]);
      RenderCons(HeadPiece(s), Scan(s[k..]), s, k);
    }
  }

  /** The numbers the citation tokens carry, in order, repeats included (`parseInt` of each `\d+`). */
  function CitedNumbers(ps: seq<Piece>): (ns: seq<nat>)
    decreases |ps|
  {
    if ps == [] then []
    else (if ps[0].Cite? then [DigitsValue(ps[0].digits)] else []) + CitedNumbers(ps[1..])
  }

  lemma {:induction false} CitedNumbersMember(ps: seq<Piece>, n: nat)
    ensures n in CitedNumbers(ps) <==> exists j :: 0 <= j < |ps| && ps[j].Cite? && DigitsValue(ps[j].digits) == n
    decreases |ps|
  {
    if ps != [] {
      CitedNumbersMember(ps[1..], n);
      if n in CitedNumbers(ps[1..]) {
        var j :| 1 <= j + 1 < |ps| && ps[1..][j].Cite? && DigitsValue(ps[1..][j].digits) == n;
        assert ps[j + 1] == ps[1..][j];
      }
      forall j | 1 <= j < |ps| && ps[j].Cite? && DigitsValue(ps[j].digits) == n
        ensures n in CitedNumbers(ps[1..])
      {
        assert ps[1..][j - 1] == ps[j];
      }
    }
  }

  predicate StrictlyIncreasing(xs: seq<nat>) {
    forall i, j :: 0 <= i < j < |xs| ==> xs[i] < xs[j]
  }

  /** Inserting into a strictly increasing list, keeping it strictly increasing and without duplicates. */
  function Insert(x: nat, xs: seq<nat>): (r: seq<nat>)
    requires StrictlyIncreasing(xs)
    ensures StrictlyIncreasing(r)
    ensures forall y :: y in r <==> y == x || y in xs
    decreases |xs|
  {
    if xs == [] then [x]
    else if x < xs[0] then [x] + xs
    else if x == xs[0] then xs
    else
      var rest := Insert(x, xs[1..]);
      HeadBelow(xs);
      ConsIncreasing(xs[0], rest);
      assert xs == [xs[0]] + xs[1..];
      [xs[0]] + rest
  }

  /** The head of a strictly increasing list is below everything after it. */
  lemma HeadBelow(xs: seq<nat>)
    requires xs != [] && StrictlyIncreasing(xs)
    ensures forall y :: y in xs[1..] ==> xs[0] < y
  {
    forall y | y in xs[1..]
      ensures xs[0] < y
    {
      var j :| 0 <= j < |xs[1..]| && xs[1..][j] == y;
      assert xs[j + 1] == y;
    }
  }

  /** A number below every element of a strictly increasing list can go in front of it. */
  lemma ConsIncreasing(h: nat, rest: seq<nat>)
    requires StrictlyIncreasing(rest)
    requires forall y :: y in rest ==> h < y
    ensures StrictlyIncreasing([h] + rest)
  {
    var r := [h] + rest;
    forall i, j | 0 <= i < j < |r|
      ensures r[i] < r[j]
    {
      assert r[j] == rest[j - 1];
      if i == 0 {
        assert rest[j - 1] in rest;
      } else {
        assert r[i] == rest[i - 1];
      }
    }
  }

  /** `Array.from(new Set(ns)).sort((a, b) => a - b)`: the distinct numbers, ascending. */
  function SortedDistinct(ns: seq<nat>): (r: seq<nat>)
    ensures StrictlyIncreasing(r)
    ensures forall y :: y in r <==> y in ns
    decreases |ns|
  {
    if ns == [] then [] else Insert(ns[|ns| - 1], SortedDistinct(ns[..|ns| - 1]))
  }

  /**
   * `extractUsedIndices`: exactly the distinct numbers written as `[digits]` in the answer,
   * strictly ascending.
   */
  function ExtractUsedIndices(answer: string): (r: seq<nat>)
    ensures StrictlyIncreasing(r)
    ensures forall n :: n in r <==> n in CitedNumbers(Scan(answer))
  {
    SortedDistinct(CitedNumbers(Scan(answer)))
  }

  /** The map `remapAnswer` builds: each listed number to its 1-based position, a later repeat overwriting. */
  function IndexMap(used: seq<int>): (m: map<int, nat>)
    ensures m.Keys == set i | 0 <= i < |used| :: used[i]
    ensures forall x :: x in m ==> 1 <= m[x] <= |used| && used[m[x] - 1] == x
    decreases |used|
  {
    if used == [] then map[]
    else
      var m := IndexMap(used[..|used| - 1]);
      assert forall i :: 0 <= i < |used| - 1 ==> used[..|used| - 1][i] == used[i];
      m[used[|used| - 1] := |used|]
  }

  /** In a list without repeats, the number at position `i` is mapped to `i + 1`. */
  lemma {:induction false} IndexMapDistinct(used: seq<int>, i: nat)
    requires forall a, b :: 0 <= a < b < |used| ==> used[a] != used[b]
    requires i < |used|
    ensures used[i] in IndexMap(used) && IndexMap(used)[used[i]] == i + 1
  {
    var m := IndexMap(used);
    assert used[i] in m.Keys;
    var k := m[used[i]];
    assert used[k - 1] == used[i];
  }

  /** What the replacement callback does to one piece, given the map. */
  function RemapPiece(p: Piece, m: map<int, nat>): Piece {
    if p.Cite? && DigitsValue(p.digits) in m && m[DigitsValue(p.digits)] != 0 then
      Cite(NatToString(m[DigitsValue(p.digits)]))
    else p
  }

  /** The pieces of the remapped answer. */
  function RemapPieces(ps: seq<Piece>, m: map<int, nat>): (qs: seq<Piece>)
    ensures |qs| == |ps| && forall j :: 0 <= j < |ps| ==> qs[j] == RemapPiece(ps[j], m)
  {
    seq(|ps|, j requires 0 <= j < |ps| => RemapPiece(ps[j], m))
  }

  /** The answer `remapAnswer(answer, used)` returns. */
  function Remapped(answer: string, used: seq<int>): string {
    Render(RemapPieces(Scan(answer), IndexMap(used)))
  }

  /**
   * `remapAnswer`: fills the number-to-position map in one loop, then rewrites the answer token
   * by token; the result is the answer with each token remapped.
   */
  method RemapAnswer(answer: string, used: seq<int>) returns (r: string)
    ensures r == Remapped(answer, used)
  {
    var indexMap := BuildIndexMap(used);
    var ps := Scan(answer);
    r := "";
    for j := 0 to |ps|
      invariant r == Render(RemapPieces(ps[..j], indexMap))
    {
      RemapStep(ps, j, indexMap);
      r := r + RenderPiece(RemapPiece(ps[j], indexMap));
    }
    assert ps[..|ps|] == ps;
  }

  /** The `forEach` that fills the map. */
  method BuildIndexMap(used: seq<int>) returns (indexMap: map<int, nat>)
    ensures indexMap == IndexMap(used)
  {
    indexMap := map[];
    for i := 0 to |used|
      invariant indexMap == IndexMap(used[..i])
    {
      assert used[..i + 1][..i] == used[..i];
      indexMap := indexMap[used[i] := i + 1];
    }
    assert used[..|used|] == used;
  }

  lemma RemapStep(ps: seq<Piece>, j: nat, m: map<int, nat>)
    requires j < |ps|
    ensures Render(RemapPieces(ps[..j + 1], m)) == Render(RemapPieces(ps[..j], m)) + RenderPiece(RemapPiece(ps[j], m))
  {
    var qs := RemapPieces(ps[..j], m);
    assert RemapPieces(ps[..j + 1], m) == qs + [RemapPiece(ps[j], m)];
    RenderConcat(qs, [RemapPiece(ps[j], m)]);
    assert Render([RemapPiece(ps[j], m)]) == RenderPiece(RemapPiece(ps[j], m));
  }

  /**
   * The remapped answer is the answer's own pieces with only citation digits changed: literal text
   * stays, a citation whose number is listed becomes `[k]` for a position `k` holding that number,
   * and any other citation is kept exactly as written, digits included.
   */
  lemma RemappedShape(answer: string, used: seq<int>, j: nat)
    requires j < |Scan(answer)|
    ensures |RemapPieces(Scan(answer), IndexMap(used))| == |Scan(answer)|
    ensures var p := Scan(answer)[j];
      var q := RemapPieces(Scan(answer), IndexMap(used))[j];
      (p.Lit? ==> q == p) &&
      (p.Cite? && DigitsValue(p.digits) !in used ==> q == p) &&
      (p.Cite? && DigitsValue(p.digits) in used ==>
         q.Cite? && 1 <= DigitsValue(q.digits) <= |used| && used[DigitsValue(q.digits) - 1] == DigitsValue(p.digits))
  {
    var p := Scan(answer)[j];
    var m := IndexMap(used);
    if p.Cite? && DigitsValue(p.digits) in used {
      var v := DigitsValue(p.digits);
      var a :| 0 <= a < |used| && used[a] == v;
      assert v in m.Keys;
      NatToStringValue(m[v]);
    }
  }

  /** With repeat-free numbers, the citation of `used[i]` is rewritten to `[i + 1]`. */
  lemma RemapDistinct(answer: string, used: seq<int>, j: nat, i: nat)
    requires forall a, b :: 0 <= a < b < |used| ==> used[a] != used[b]
    requires j < |Scan(answer)| && i < |used|
    requires Scan(answer)[j].Cite? && DigitsValue(Scan(answer)[j].digits) == used[i]
    ensures RemapPieces(Scan(answer), IndexMap(used))[j] == Cite(NatToString(i + 1))
  {
    IndexMapDistinct(used, i);
  }

  /**
   * Renumbering an answer by its own citations: every citation now carries a number in
   * `1..k`, `k` being the number of distinct cited numbers.
   */
  lemma RemapOwnCitations(answer: string, j: nat)
    requires j < |Scan(answer)| && Scan(answer)[j].Cite?
    ensures var used := ExtractUsedIndices(answer);
      var q := RemapPieces(Scan(answer), IndexMap(used))[j];
      q.Cite? && 1 <= DigitsValue(q.digits) <= |used|
  {
    var ps := Scan(answer);
    var used := ExtractUsedIndices(answer);
    var v := DigitsValue(ps[j].digits);
    CitedNumbersMember(ps, v);
    var m := IndexMap(used);
    var a :| 0 <= a < |used| && used[a] == v;
    assert v in m.Keys;
    RemapCite(ps[j], m);
    assert RemapPieces(ps, m)[j] == RemapPiece(ps[j], m);
  }

  /** A citation whose number the map sends to a positive one carries that number afterwards. */
  lemma RemapCite(p: Piece, m: map<int, nat>)
    requires p.Cite? && DigitsValue(p.digits) in m && m[DigitsValue(p.digits)] != 0
    ensures RemapPiece(p, m).Cite? && DigitsValue(RemapPiece(p, m).digits) == m[DigitsValue(p.digits)]
  {
    NatToStringValue(m[DigitsValue(p.digits)]);
  }

  /**
   * `sources[i - 1]` looked up for each used number, in order: `None` where JavaScript's
   * indexing yields `undefined` (a number outside `1..|sources|`).
   */
  function Lookups<T>(sources: seq<T>, used: seq<int>): (l: seq<Option<T>>)
    ensures |l| == |used|
    ensures forall i :: 0 <= i < |l| && l[i].Some? ==> l[i].value in sources
  {
    seq(|used|, i requires 0 <= i < |used| =>
      if 1 <= used[i] <= |sources| then Some(sources[used[i] - 1]) else None)
  }

  /** What `filter(Boolean)` keeps of the looked-up values: the defined ones that are truthy, in order. */
  function KeepTruthy<T>(l: seq<Option<T>>, truthy: T -> bool): (r: seq<T>)
    ensures |r| <= |l|
    ensures forall x :: x in r ==> Some(x) in l && truthy(x)
    ensures (forall i :: 0 <= i < |l| ==> l[i].Some? && truthy(l[i].value)) ==>
      |r| == |l| && forall i :: 0 <= i < |l| ==> r[i] == l[i].value
    decreases |l|
  {
    if l == [] then []
    else
      (if l[0].Some? && truthy(l[0].value) then [l[0].value] else []) + KeepTruthy(l[1..], truthy)
  }

  /**
   * `getUsedSources`: the used numbers mapped to `sources[i - 1]`, then `filter(Boolean)`,
   * which drops a number with no source (`undefined`) and a source that is falsy in
   * JavaScript (`truthy` says which values are not).
   */
  function GetUsedSources<T>(sources: seq<T>, used: seq<int>, truthy: T -> bool): (r: seq<T>)
    ensures |r| <= |used|
    ensures forall x :: x in r ==> x in sources && truthy(x)
    ensures (forall i :: 0 <= i < |used| ==> 1 <= used[i] <= |sources| && truthy(sources[used[i] - 1])) ==>
      |r| == |used| && forall i :: 0 <= i < |used| ==> r[i] == sources[used[i] - 1]
  {
    KeepTruthy(Lookups(sources, used), truthy)
  }

  /**
   * The same selection made in one pass over the used numbers: each contributes its source
   * when it has one and that source is truthy, and nothing otherwise.
   */
  function UsedSourcesRef<T>(sources: seq<T>, used: seq<int>, truthy: T -> bool): seq<T>
    decreases |used|
  {
    if used == [] then []
    else
      (if 1 <= used[0] <= |sources| && truthy(sources[used[0] - 1]) then [sources[used[0] - 1]] else []) +
      UsedSourcesRef(sources, used[1..], truthy)
  }

  /** Mapping then filtering selects exactly what the one-pass reference selects. */
  lemma {:induction false} GetUsedSourcesIsRef<T>(sources: seq<T>, used: seq<int>, truthy: T -> bool)
    ensures GetUsedSources(sources, used, truthy) == UsedSourcesRef(sources, used, truthy)
    decreases |used|
  {
    if used != [] {
      LookupsCons(sources, used);
      GetUsedSourcesIsRef(sources, used[1..], truthy);
    }
  }

  lemma LookupsCons<T>(sources: seq<T>, used: seq<int>)
    requires used != []
    ensures Lookups(sources, used) ==
      [if 1 <= used[0] <= |sources| then Some(sources[used[0] - 1]) else None] + Lookups(sources, used[1..])
  {
    var l := Lookups(sources, used);
    assert l[1..] == Lookups(sources, used[1..]);
    assert l == [l[0]] + l[1..];
  }

  /** `filter(Boolean)` keeps every value exactly when each is defined and truthy. */
  lemma {:induction false} KeepTruthyAll<T>(l: seq<Option<T>>, truthy: T -> bool)
    ensures |KeepTruthy(l, truthy)| == |l| <==> forall i :: 0 <= i < |l| ==> l[i].Some? && truthy(l[i].value)
    decreases |l|
  {
    if l != [] {
      KeepTruthyAll(l[1..], truthy);
      assert forall i :: 1 <= i < |l| ==> l[1..][i - 1] == l[i];
    }
  }

  /** Nothing is dropped exactly when every used number has a source and that source is truthy. */
  lemma GetUsedSourcesDrops<T>(sources: seq<T>, used: seq<int>, truthy: T -> bool)
    ensures |GetUsedSources(sources, used, truthy)| == |used| <==>
      forall i :: 0 <= i < |used| ==> 1 <= used[i] <= |sources| && truthy(sources[used[i] - 1])
  {
    var l := Lookups(sources, used);
    KeepTruthyAll(l, truthy);
    assert forall i :: 0 <= i < |used| ==>
      (l[i].Some? && truthy(l[i].value) <==> 1 <= used[i] <= |sources| && truthy(sources[used[i] - 1]));
  }
}
