/** The addresses a flow hands out, and the relying party of the page it runs on. */
module FlowUrls {
  import opened Wrappers

  const FALLBACK_PAGE := "http://localhost:4200/login"
  const FALLBACK_ORIGIN := "http://localhost"
  const SCHEME_END := "://"
  const NO_TOKEN := "&t="

  /** The text up to the first of `stops`. */
  function UpTo(s: string, stops: set<char>): (r: string)
    ensures r <= s && (forall c | c in r :: c !in stops)
    ensures |r| < |s| ==> s[|r|] in stops
  {
    if s == "" || s[0] in stops then "" else [s[0]] + UpTo(s[1..], stops)
  }

  lemma {:induction false} UpToStop(a: string, b: string, stops: set<char>)
    requires (forall c | c in a :: c !in stops) && (b == "" || b[0] in stops)
    ensures UpTo(a + b, stops) == a
  {
    if a == "" {
      assert a + b == b;
    } else {
      assert a[0] in a && (forall c | c in a[1..] :: c in a);
      assert (a + b)[0] == a[0] && (a + b)[1..] == a[1..] + b;
      UpToStop(a[1..], b, stops);
    }
  }

  /** What follows the first `mark`, if there is one. */
  function Behind(s: string, mark: string): Option<string>
    decreases |s|
  {
    if mark <= s then Some(s[|mark|..]) else if s == "" then None else Behind(s[1..], mark)
  }

  /** What stands before the first `mark`. */
  function Ahead(s: string, mark: string): string
    decreases |s|
  {
    if s == "" || mark <= s then "" else [s[0]] + Ahead(s[1..], mark)
  }

  /** The text without any `mark` at its end. */
  function TrimmedOf(s: string, mark: string): (r: string)
    requires mark != ""
    ensures r <= s && !EndsIn(r, mark)
    decreases |s|
  {
    if EndsIn(s, mark) then TrimmedOf(s[..|s| - |mark|], mark) else s
  }

  predicate EndsIn(s: string, mark: string) {
    |mark| <= |s| && s[|s| - |mark|..] == mark
  }

  // ------------------------------------------------------------- addresses

  /** The page to come back to: the given one, the widget's, or the page it is on, without query and fragment. */
  function ReturnUrl(given: string, redirectUrl: string, location: string): string {
    var page := if given != "" then given else if redirectUrl != "" then redirectUrl else location;
    if page == "" then FALLBACK_PAGE else UpTo(page, {'?', '#'})
  }

  /** A link back into a run: the run and the step that takes the token, and the token last. */
  function LinkUrl(urlEncode: string -> string, base: string, id: string, step: string, token: string): (r: string)
    ensures EndsIn(r, NO_TOKEN + token)
  {
    var start := base + (if '?' in base then "&" else "?") + "descope-login-flow=" + urlEncode(id + "_" + step);
    var r := start + (NO_TOKEN + token);
    assert r[|r| - |NO_TOKEN + token|..] == NO_TOKEN + token;
    r
  }

  /** The same without a token, for whoever adds its own. */
  function BackUrl(urlEncode: string -> string, base: string, id: string, step: string): (r: string)
    ensures !EndsIn(r, NO_TOKEN)
  {
    TrimmedOf(LinkUrl(urlEncode, base, id, step, ""), NO_TOKEN)
  }

  // --------------------------------------------------------- relying party

  /** The host of the page the widget runs on. */
  function RelyingParty(origin: string, location: string): string {
    var page := if origin != "" then origin else if location != "" then location else FALLBACK_ORIGIN;
    var behind := Behind(page, SCHEME_END);
    HostOf(if behind.None? then page else Ahead(behind.value, SCHEME_END))
  }

  /** An authority without path, query, fragment and port. */
  function HostOf(authority: string): string {
    UpTo(UpTo(authority, {'/', '?', '#'}), {':'})
  }

  lemma {:induction false} UpToMore(a: string, b: string, stops: set<char>)
    requires forall c | c in a :: c !in stops
    ensures UpTo(a + b, stops) == a + UpTo(b, stops)
  {
    if a == "" {
      assert a + b == b;
    } else {
      assert a[0] in a && (forall c | c in a[1..] :: c in a);
      assert (a + b)[0] == a[0] && (a + b)[1..] == a[1..] + b;
      UpToMore(a[1..], b, stops);
    }
  }

  lemma {:induction false} BehindScheme(scheme: string, rest: string)
    requires forall c | c in scheme :: c != ':'
    ensures Behind(scheme + SCHEME_END + rest, SCHEME_END) == Some(rest)
  {
    var s := scheme + SCHEME_END + rest;
    if scheme == "" {
      assert s == SCHEME_END + rest;
    } else {
      assert scheme[0] in scheme && (forall c | c in scheme[1..] :: c in scheme);
      assert s[0] == scheme[0] && s[1..] == scheme[1..] + SCHEME_END + rest;
      BehindScheme(scheme[1..], rest);
    }
  }

  lemma {:induction false} AheadOfHost(name: string, rest: string)
    requires forall c | c in name :: c != ':'
    ensures Ahead(name + rest, SCHEME_END) == name + Ahead(rest, SCHEME_END)
    decreases |name|
  {
    if name == "" {
      assert name + rest == rest;
    } else {
      assert name[0] in name && (forall c | c in name[1..] :: c in name);
      assert (name + rest)[0] == name[0] && (name + rest)[1..] == name[1..] + rest;
      AheadOfHost(name[1..], rest);
    }
  }

  /** What may follow a host: a port, a path, a query, a fragment, each with anything behind it. */
  predicate AfterHost(rest: string) {
    rest == "" || rest[0] in {':', '/', '?', '#'}
  }

  lemma HostBefore(name: string, rest: string)
    requires (forall c | c in name :: c !in {':', '/', '?', '#'}) && AfterHost(rest)
    ensures HostOf(name + rest) == name
  {
    UpToMore(name, rest, {'/', '?', '#'});
    UpToStop(name, UpTo(rest, {'/', '?', '#'}), {':'});
  }

  /** A page names its host as the relying party, whatever its scheme, port, path, query and fragment. */
  lemma RelyingPartyIsHost(scheme: string, name: string, rest: string, location: string)
    requires (forall c | c in scheme :: c != ':') && (forall c | c in name :: c !in {':', '/', '?', '#'})
             && AfterHost(rest)
    ensures RelyingParty(scheme + "://" + (name + rest), location) == name
    ensures RelyingParty("", scheme + "://" + (name + rest)) == name
  {
    BehindScheme(scheme, name + rest);
    AheadOfHost(name, rest);
    HostBefore(name, Ahead(rest, SCHEME_END));
    assert scheme + SCHEME_END + (name + rest) != "";
  }

  predicate SchemeFree(page: string) {
    forall i | 0 <= i <= |page| :: !("://" <= page[i..])
  }

  lemma {:induction false} NoMark(s: string)
    requires SchemeFree(s)
    ensures Behind(s, SCHEME_END).None?
  {
    assert s[0..] == s;
    if s != "" {
      forall i | 0 <= i <= |s| - 1 ensures !(SCHEME_END <= s[1..][i..]) {
        assert s[1..][i..] == s[i + 1..];
      }
      NoMark(s[1..]);
    }
  }

  /** So does a page without a scheme. */
  lemma RelyingPartyWithoutScheme(name: string, rest: string, location: string)
    requires (forall c | c in name :: c !in {':', '/', '?', '#'}) && AfterHost(rest)
    requires name + rest != "" && SchemeFree(name + rest)
    ensures RelyingParty(name + rest, location) == name && RelyingParty("", name + rest) == name
  {
    NoMark(name + rest);
    HostBefore(name, rest);
  }

  /** And without any page it is the local host. */
  lemma RelyingPartyWithoutPage()
    ensures RelyingParty("", "") == "localhost"
  {
    var name := "localhost";
    assert FALLBACK_ORIGIN == "http" + "://" + (name + "");
    RelyingPartyIsHost("http", name, "", "");
  }

  // ---------------------------------------------------------------- spelled

  /** The first page given counts, up to its query or fragment; without any it is the local login page. */
  lemma ReturnsToTheFirst(given: string, redirectUrl: string, location: string, kept: string, rest: string)
    requires forall c | c in kept :: c != '?' && c != '#'
    requires rest == "" || rest[0] == '?' || rest[0] == '#'
    requires kept + rest != ""
    requires kept + rest == given || (given == "" && kept + rest == redirectUrl)
             || (given == redirectUrl == "" && kept + rest == location)
    ensures ReturnUrl(given, redirectUrl, location) == kept
    ensures ReturnUrl("", "", "") == "http://localhost:4200/login"
  {
    UpToStop(kept, rest, {'?', '#'});
  }

  /** A link reads: the page, the run and the step, encoded together, and the token; as a query of its own, or added to
      the page's. */
  lemma LinkReads(urlEncode: string -> string, base: string, id: string, step: string, token: string)
    ensures var link := "descope-login-flow=" + urlEncode(id + "_" + step) + "&t=" + token;
            LinkUrl(urlEncode, base, id, step, token)
            == if exists i :: 0 <= i < |base| && base[i] == '?' then base + "&" + link else base + "?" + link
  {
    var q := if '?' in base then "&" else "?";
    var parts := "descope-login-flow=" + urlEncode(id + "_" + step);
    assert base + q + "descope-login-flow=" + urlEncode(id + "_" + step) == base + q + parts;
    assert base + q + parts + (NO_TOKEN + token) == base + q + (parts + "&t=" + token);
  }

  lemma TrimmedOnce(s: string, mark: string)
    requires mark != "" && !EndsIn(s, mark)
    ensures TrimmedOf(s + mark, mark) == s
  {
    assert (s + mark)[..|s|] == s && (s + mark)[|s|..] == mark;
  }

  /** A way back is such a link up to the token, given that the encoding leaves no `&`. */
  lemma BackReads(urlEncode: string -> string, base: string, id: string, step: string)
    requires '&' !in urlEncode(id + "_" + step)
    ensures BackUrl(urlEncode, base, id, step)
            == base + (if '?' in base then "&" else "?") + "descope-login-flow=" + urlEncode(id + "_" + step)
  {
    var code := urlEncode(id + "_" + step);
    var front := base + (if '?' in base then "&" else "?") + "descope-login-flow=";
    var start := front + code;
    var r := LinkUrl(urlEncode, base, id, step, "");
    assert r == start + NO_TOKEN;
    var k := |start| - 3;
    assert start[k] != '&' by {
      if k < |front| {
        assert start[k] == front[k] && |front| - 3 <= k;
        assert front[|front| - 3] == 'o' && front[|front| - 2] == 'w' && front[|front| - 1] == '=';
      } else {
        assert start[k] == code[k - |front|];
      }
    }
    assert start[k..][0] == start[k];
    TrimmedOnce(start, NO_TOKEN);
  }
}
