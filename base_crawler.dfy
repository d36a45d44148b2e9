/**
 * `scraper/crawlers/base_crawler.py`: what every crawler shares. The browser is abstract: a
 * page visit is given as what the site shows (whether the page opens, whether a "next" control
 * appears after each click, the HTML after a number of clicks), a probe of a URL as the page it
 * lands on or the response it gets. The module also holds the parts of `urllib.parse` the
 * crawlers rely on (the host of a URL and the joining of a reference to the site's origin) and
 * BeautifulSoup's `get_text(strip=True)`.
 */
module BaseCrawler {
  import opened Wrappers
  import opened Text

  /** The suffix every internal host ends with. */
  const Domain := "madewithnestle.ca"

  /** The site's own host. */
  const Host := "www.madewithnestle.ca"

  /** The site's origin, the base every crawler joins its references to. */
  const Origin := "https://" + Host

  // ---------------------------------------------------------------------------------------------
  // Text of a matched element

  /** An element a selector matched, as the text fragments under it in document order. */
  datatype Tag = Tag(fragments: seq<string>)

  /** A link an `a[href]` selector matched: its `href` and its element. */
  datatype Anchor = Anchor(href: string, text: Tag)

  /**
   * `"".join(s.strip() for s in fragments if s.strip())`: the text BeautifulSoup gives with
   * `strip=True`. It has no blank at either end, and it is empty exactly when every fragment is blank.
   */
  function StrippedText(fs: seq<string>): (r: string)
    ensures Trimmed(r, Space)
    ensures r == "" <==> forall i :: 0 <= i < |fs| ==> Strip(fs[i]) == ""
    decreases |fs|
  {
    if fs == [] then ""
    else
      var head, rest := Strip(fs[0]), StrippedText(fs[1..]);
      StripTrimmedResult(fs[0]);
      assert forall i :: 1 <= i < |fs| ==> fs[1..][i - 1] == fs[i];
      TrimmedConcat(head, rest);
      head + rest
  }

  lemma StripTrimmedResult(s: string)
    ensures Trimmed(Strip(s), Space)
  {
    StripClassShape(s, Space);
  }

  /** Two trimmed strings put together stay trimmed; the result is empty only when both are. */
  lemma TrimmedConcat(a: string, b: string)
    requires Trimmed(a, Space) && Trimmed(b, Space)
    ensures Trimmed(a + b, Space) && (a + b == "" <==> a == "" && b == "")
  {
    if a == "" {
      assert a + b == b;
    } else if b == "" {
      assert a + b == a;
    } else {
      assert (a + b)[0] == a[0] && (a + b)[|a + b| - 1] == b[|b| - 1];
    }
  }

  /** `tag.get_text(strip=True)`. */
  function GetText(t: Tag): (r: string)
    ensures Trimmed(r, Space)
  {
    StrippedText(t.fragments)
  }

  /** The text of an element is empty exactly when all its fragments are blank. */
  lemma GetTextEmpty(t: Tag)
    ensures GetText(t) == "" <==> forall i :: 0 <= i < |t.fragments| ==> Strip(t.fragments[i]) == ""
  {
  }

  /** Stripping the text of an element again changes nothing. */
  lemma GetTextStripped(t: Tag)
    ensures Strip(GetText(t)) == GetText(t)
  {
    StripTrimmed(GetText(t), Space);
  }

  /** The texts of the elements a `select` matched, in document order. */
  function Texts(ts: seq<Tag>): (r: seq<string>)
    ensures |r| == |ts| && forall i :: 0 <= i < |ts| ==> r[i] == GetText(ts[i])
  {
    seq(|ts|, i requires 0 <= i < |ts| => GetText(ts[i]))
  }

  /**
   * `_text(soup, selector)`: the stripped text of the first match, `None` when nothing matches
   * (`tag.get_text(strip=True) if tag else None`). An element with blank text gives `""`, not `None`.
   */
  function TextOf(tag: Option<Tag>): (r: Option<string>)
    ensures r.None? <==> tag.None?
    ensures r.Some? ==> Trimmed(r.value, Space) && r.value == StrippedText(tag.value.fragments)
  {
    match tag
    case None => None
    case Some(t) => Some(GetText(t))
  }

  // ---------------------------------------------------------------------------------------------
  // Hosts and references

  predicate IsAlpha(c: char) {
    'a' <= c <= 'z' || 'A' <= c <= 'Z'
  }

  /** The characters `urllib.parse` accepts in a scheme. */
  predicate SchemeChar(c: char) {
    IsAlpha(c) || IsDigit(c) || c == '+' || c == '-' || c == '.'
  }

  /** The characters that end the network location. */
  predicate EndsAuthority(c: char) {
    c == '/' || c == '?' || c == '#'
  }

  /** `s.find(c)`, with `|s|` standing for "not found". */
  function IndexOfChar(s: string, c: char): (i: nat)
    ensures i <= |s| && (i < |s| ==> s[i] == c)
    ensures forall j :: 0 <= j < i ==> s[j] != c
    decreases |s|
  {
    if s == [] then 0
    else if s[0] == c then 0
    else 1 + IndexOfChar(s[1..], c)
  }

  /** The longest prefix of `s` with no `/`, `?` or `#`. */
  function Authority(s: string): (a: string)
    ensures |a| <= |s| && a == s[..|a|]
    ensures forall j :: 0 <= j < |a| ==> !EndsAuthority(a[j])
    ensures |a| == |s| || EndsAuthority(s[|a|])
    decreases |s|
  {
    if s == [] || EndsAuthority(s[0]) then [] else [s[0]] + Authority(s[1..])
  }

  /** Whether `url[..i]` is a scheme in the sense of `urlsplit` (a letter, then scheme characters). */
  predicate HasScheme(url: string, i: nat) {
    0 < i < |url| && IsAlpha(url[0]) && forall j :: 0 <= j < i ==> SchemeChar(url[j])
  }

  /** What follows the scheme and its colon, or the whole reference when it has no scheme. */
  function AfterScheme(url: string): (rest: string)
    ensures |rest| <= |url|
  {
    var i := IndexOfChar(url, ':');
    if HasScheme(url, i) then url[i + 1..] else url
  }

  /** `urlparse(url).netloc`: what follows `//` after the scheme, up to the path, query or fragment; empty otherwise. */
  function Netloc(url: string): (h: string)
    ensures forall j :: 0 <= j < |h| ==> !EndsAuthority(h[j])
  {
    var rest := AfterScheme(url);
    if StartsWith(rest, "//") then Authority(rest[2..]) else ""
  }

  /** `is_internal_url(url)`: a pure suffix test on the host. */
  predicate IsInternalUrl(url: string) {
    EndsWith(Netloc(url), Domain)
  }

  /** The authority of a host followed by a path is the host. */
  lemma AuthorityOfHost(host: string, path: string)
    requires forall j :: 0 <= j < |host| ==> !EndsAuthority(host[j])
    requires path == [] || EndsAuthority(path[0])
    ensures Authority(host + path) == host
  {
    var a, s := Authority(host + path), host + path;
    assert forall j :: 0 <= j < |host| ==> s[j] == host[j];
    assert |s| == |host| || s[|host|] == path[0];
    assert a == s[..|host|] == host;
  }

  /** After the scheme of an `https` URL comes what follows `https:`. */
  lemma AfterHttps(rest: string)
    ensures AfterScheme("https:" + rest) == rest
  {
    var url := "https:" + rest;
    assert url[5] == ':';
    assert IndexOfChar(url, ':') == 5 by {
      forall j | 0 <= j < 5 ensures url[j] != ':' { assert url[j] == "https"[j]; }
    }
    assert HasScheme(url, 5) by {
      forall j | 0 <= j < 5 ensures SchemeChar(url[j]) { assert url[j] == "https"[j]; }
    }
    assert url[6..] == rest;
  }

  /** The host of an `https` URL is what lies between `//` and the path. */
  lemma NetlocOfHttps(host: string, path: string)
    requires forall j :: 0 <= j < |host| ==> !EndsAuthority(host[j])
    requires path == [] || EndsAuthority(path[0])
    ensures Netloc("https://" + host + path) == host
  {
    var url, rest := "https://" + host + path, "//" + host + path;
    assert AfterScheme(url) == rest by {
      assert url == "https:" + rest;
      AfterHttps(rest);
    }
    assert rest[2..] == host + path && StartsWith(rest, "//");
    AuthorityOfHost(host, path);
  }

  /** A host-relative reference (`/path`) has no host, so it is never internal. */
  lemma RelativeNotInternal(url: string)
    requires StartsWith(url, "/") && !StartsWith(url, "//")
    ensures Netloc(url) == "" && !IsInternalUrl(url)
  {
    assert url[0] == '/';
    assert !HasScheme(url, IndexOfChar(url, ':'));
  }

  /** Any host ending with the domain passes, even one that merely ends with the same letters. */
  lemma SuffixHostsPass(host: string, path: string)
    requires forall j :: 0 <= j < |host| ==> !EndsAuthority(host[j])
    requires path == [] || EndsAuthority(path[0])
    ensures IsInternalUrl("https://" + host + Domain + path)
  {
    var h := host + Domain;
    assert forall j :: 0 <= j < |h| ==> h[j] == if j < |host| then host[j] else Domain[j - |host|];
    assert "https://" + host + Domain + path == "https://" + h + path;
    NetlocOfHttps(h, path);
    assert h[|h| - |Domain|..] == Domain;
  }

  /**
   * `urljoin(Origin, ref)` for the references the crawlers meet: one with a scheme is kept, a
   * network-path reference takes the origin's scheme, anything else is put under the origin
   * (whose path is empty).
   */
  function Resolve(ref: string): (r: string)
    ensures AfterScheme(ref) != ref ==> r == ref
    ensures AfterScheme(ref) == ref && StartsWith(ref, "/") && !StartsWith(ref, "//") ==> r == Origin + ref
  {
    if AfterScheme(ref) != ref then ref
    else if StartsWith(ref, "//") then "https:" + ref
    else if ref == "" then Origin
    else if ref[0] == '/' || ref[0] == '?' || ref[0] == '#' then Origin + ref
    else Origin + "/" + ref
  }

  /** The site's own host is in the domain. */
  lemma HostInDomain()
    ensures EndsWith(Host, Domain) && forall j :: 0 <= j < |Host| ==> !EndsAuthority(Host[j])
  {
  }

  /** A site path joined to the origin is an internal URL. */
  lemma ResolvedPathInternal(path: string)
    requires StartsWith(path, "/") && !StartsWith(path, "//")
    ensures Resolve(path) == Origin + path && IsInternalUrl(Resolve(path))
  {
    assert AfterScheme(path) == path by {
      assert path[0] == '/';
      assert !HasScheme(path, IndexOfChar(path, ':'));
    }
    HostInDomain();
    assert Origin + path == "https://" + Host + path;
    NetlocOfHttps(Host, path);
  }

  // ---------------------------------------------------------------------------------------------
  // Probes

  /** What opening a URL gave: the URL the page ended on, or an exception. */
  datatype Landing = Landed(finalUrl: string) | LandingFailed

  /** `is_redirect_to_external(url)`: the page ends on a host outside the domain; a failed probe says no. */
  predicate IsRedirectToExternal(l: Landing)
    ensures IsRedirectToExternal(l) ==> l.Landed?
  {
    match l
    case Landed(u) => !IsInternalUrl(u)
    case LandingFailed => false
  }

  /** What navigating to a URL gave: a response with a status, no response at all, or an exception. */
  datatype Navigation = Responded(status: int) | NoResponse | NavigationFailed

  /** `is_broken_link(url)`: no response, an error status, or a failed probe. */
  predicate IsBrokenLink(n: Navigation)
    ensures !IsBrokenLink(n) ==> n.Responded? && n.status < 400
  {
    match n
    case Responded(status) => status >= 400
    case NoResponse => true
    case NavigationFailed => true
  }

  /** The two probes fail in opposite directions: a failure counts as not redirected but as broken. */
  lemma ProbeFailures()
    ensures !IsRedirectToExternal(LandingFailed) && IsBrokenLink(NavigationFailed) && IsBrokenLink(NoResponse)
  {
  }

  /** A landing on an internal URL is not a redirect; a landing anywhere else is. */
  lemma RedirectIffExternal(u: string)
    ensures IsRedirectToExternal(Landed(u)) <==> !IsInternalUrl(u)
  {
  }

  // ---------------------------------------------------------------------------------------------
  // Loading a page

  /**
   * One visit of a page, as the site behaves: whether the tab opens and the page loads,
   * whether the cookie banner shows, whether the "next" control appears (and takes the click)
   * at the first, second, … wait, and the HTML read back after a number of clicks (`None`
   * when the final wait, reading or closing fails).
   */
  datatype Visit = Visit(opens: bool, cookieBanner: bool, nextControl: seq<bool>, content: nat -> Option<string>)

  /** The number of clicks: the waits before the first one that finds no control. */
  function Clicks(next: seq<bool>): (n: nat)
    requires false in next
    ensures n < |next| && !next[n]
    ensures forall j :: 0 <= j < n ==> next[j]
    decreases |next|
  {
    if !next[0] then 0
    else
      assert false in next[1..] by {
        var k :| 0 <= k < |next| && !next[k];
        assert next[1..][k - 1] == next[k];
      }
      1 + Clicks(next[1..])
  }

  /** What `load_page_content` gives back: the HTML, or the `RuntimeError` of an uninitialised crawler. */
  datatype Loaded = Html(html: string) | NotInitialized

  /** The pagination loop stops, because the control eventually disappears. */
  predicate Paginates(browser: bool, context: bool, clickMore: bool, v: Visit) {
    browser && context && v.opens && clickMore
  }

  /**
   * The outcome of `load_page_content`: without a browser it raises before touching the page;
   * without a context or a page that opens it gives `""`; otherwise the HTML after the clicks,
   * or `""` when reading it fails.
   */
  function Load(browser: bool, context: bool, clickMore: bool, v: Visit): (r: Loaded)
    requires Paginates(browser, context, clickMore, v) ==> false in v.nextControl
    ensures r == NotInitialized <==> !browser
    ensures browser && (!context || !v.opens) ==> r == Html("")
  {
    if !browser then NotInitialized
    else if !context || !v.opens then Html("")
    else Html(v.content(if clickMore then Clicks(v.nextControl) else 0).GetOr(""))
  }

  /** Whether the cookie banner shows makes no difference to the page read. */
  lemma CookieBannerIgnored(browser: bool, context: bool, clickMore: bool, v: Visit, banner: bool)
    requires Paginates(browser, context, clickMore, v) ==> false in v.nextControl
    ensures Load(browser, context, clickMore, v.(cookieBanner := banner)) == Load(browser, context, clickMore, v)
  {
  }

  /** With pagination, the HTML read is the page after exactly as many clicks as the control showed in a row. */
  lemma PaginationClicksUntilAbsent(v: Visit, n: nat)
    requires v.opens && n < |v.nextControl| && !v.nextControl[n]
    requires forall j :: 0 <= j < n ==> v.nextControl[j]
    ensures Load(true, true, true, v) == Html(v.content(n).GetOr(""))
  {
    var c := Clicks(v.nextControl);
  }

  /** The crawler's browser state. */
  class Crawler {
    const headless: bool
    /** `self.browser` is set. */
    var browser: bool
    /** `self.context` is set. */
    var context: bool

    /** `BaseCrawler(headless)`: no browser and no context yet. */
    constructor(headless: bool)
      ensures this.headless == headless && !browser && !context
    {
      this.headless := headless;
      browser := false;
      context := false;
    }

    /** `init_browser()`: launches the browser and opens its context (a launch failure is not modelled). */
    method InitBrowser()
      modifies this
      ensures browser && context
    {
      browser := true;
      context := true;
    }

    /** `load_page_content(url, click_more)` on the visit of that URL. */
    method LoadPageContent(clickMore: bool, v: Visit) returns (r: Loaded)
      requires Paginates(browser, context, clickMore, v) ==> false in v.nextControl
      ensures r == Load(browser, context, clickMore, v)
    {
      if !browser {
        return NotInitialized;
      }
      if !context || !v.opens {
        return Html("");
      }
      var clicks := 0;
      if clickMore {
        while v.nextControl[clicks]
          invariant clicks < |v.nextControl| && false in v.nextControl[clicks..]
          invariant forall j :: 0 <= j < clicks ==> v.nextControl[j]
          decreases |v.nextControl| - clicks
        {
          assert v.nextControl[clicks..] == [v.nextControl[clicks]] + v.nextControl[clicks + 1..];
          clicks := clicks + 1;
        }
        PaginationClicksUntilAbsent(v, clicks);
      }
      r := Html(v.content(clicks).GetOr(""));
    }
  }
}
