/**
 * Domain normalisation for discovery (`normalize_domain` and
 * `_extract_domains_from_urls` in discovery.py). The host is taken from the
 * authority component of the URL as section 3.2 of RFC 3986 delimits it, the
 * way Python's `urllib.parse.urlsplit` finds it: the text after `//`, ending at
 * the first `/`, `?` or `#`.
 */
module Domains {

  import opened Wrappers
  import opened Strings

  /** A character that ends the authority component. */
  predicate IsDelimiter(c: char) {
    c == '/' || c == '?' || c == '#'
  }

  /** The characters `urlsplit` deletes from the whole URL before splitting it. */
  predicate IsUnsafe(c: char) {
    c == '\t' || c == '\r' || c == '\n'
  }

  predicate NoDelimiter(s: string) {
    forall i :: 0 <= i < |s| ==> !IsDelimiter(s[i])
  }

  predicate NoUnsafe(s: string) {
    forall i :: 0 <= i < |s| ==> !IsUnsafe(s[i])
  }

  /** The URL with every tab, carriage return and line feed removed. */
  function RemoveUnsafe(s: string): (r: string)
    ensures |r| <= |s|
    ensures NoUnsafe(r)
  {
    if s == [] then []
    else RemoveUnsafe(s[..|s| - 1]) + (if IsUnsafe(s[|s| - 1]) then [] else [s[|s| - 1]])
  }

  lemma {:induction false} RemoveUnsafeAppend(a: string, b: string)
    ensures RemoveUnsafe(a + b) == RemoveUnsafe(a) + RemoveUnsafe(b)
    decreases |b|
  {
    if b == [] {
      assert a + b == a;
    } else {
      assert (a + b)[..|a + b| - 1] == a + b[..|b| - 1];
      RemoveUnsafeAppend(a, b[..|b| - 1]);
    }
  }

  /** Text without tabs and line breaks is kept as it is. */
  lemma {:induction false} RemoveUnsafeKeeps(s: string)
    requires NoUnsafe(s)
    ensures RemoveUnsafe(s) == s
    decreases |s|
  {
    if s != [] {
      RemoveUnsafeKeeps(s[..|s| - 1]);
    }
  }

  /** The index of the first authority delimiter, or `|s|` when there is none. */
  function AuthorityEnd(s: string): (k: nat)
    ensures k <= |s|
    ensures forall j :: 0 <= j < k ==> !IsDelimiter(s[j])
    ensures k < |s| ==> IsDelimiter(s[k])
  {
    if s == [] then 0 else if IsDelimiter(s[0]) then 0 else 1 + AuthorityEnd(s[1..])
  }

  /** The index of the first `?` or `#`, where the path ends. */
  function PathEnd(s: string): (k: nat)
    ensures k <= |s|
    ensures forall j :: 0 <= j < k ==> s[j] != '?' && s[j] != '#'
  {
    if s == [] then 0 else if s[0] == '?' || s[0] == '#' then 0 else 1 + PathEnd(s[1..])
  }

  /** What follows `http://` or `https://`, once a scheme-less URL has had `https://` put in front. */
  function AfterScheme(url: string): string {
    if StartsWith(url, "http://") then url[7..]
    else if StartsWith(url, "https://") then url[8..]
    else url
  }

  /**
   * `normalize_domain(url)`. Since the scheme and `//` never hold a tab or a
   * line break, removing those from the whole URL, as `urlsplit` does, is the
   * same as removing them from what follows the scheme.
   */
  function NormalizeDomain(url: string): Option<string> {
    if url == "" then None else HostOf(RemoveUnsafe(AfterScheme(url)))
  }

  /**
   * `parsed.netloc or parsed.path.split("/")[0]`, cleaned. `None` also stands
   * for the `ValueError` that `urlsplit` raises on an unbalanced `[` or `]` in
   * the authority, which `normalize_domain` catches.
   */
  function HostOf(rest: string): Option<string> {
    var netloc := rest[..AuthorityEnd(rest)];
    if ('[' in netloc) != (']' in netloc) then None
    else
      var tail := rest[AuthorityEnd(rest)..];
      var path := tail[..PathEnd(tail)];
      CleanHost(if netloc != "" then netloc else BeforeFirst(path, '/'))
  }

  /** Lower-cased and stripped, a leading `www.` and a port removed, then validated. */
  function CleanHost(host: string): Option<string> {
    Validated(BeforeFirst(StripWww(Strip(Lower(host))), ':'))
  }

  /** The text without a leading `www.`. */
  function StripWww(s: string): string {
    if StartsWith(s, "www.") then s[4..] else s
  }

  /** The basic validation: a dot and at least four characters. */
  function Validated(domain: string): Option<string> {
    if '.' !in domain || |domain| < 4 then None else Some(domain)
  }

  // ---------------------------------------------------------------------------
  // What a normalised domain looks like
  // ---------------------------------------------------------------------------

  /** The path fallback `parsed.path.split("/")[0]` only ever yields the empty string. */
  lemma PathFallbackIsEmpty(rest: string)
    requires AuthorityEnd(rest) == 0
    ensures BeforeFirst(rest[..PathEnd(rest)], '/') == ""
  {
    if rest != [] && rest[0] == '/' {
      assert rest[..PathEnd(rest)][0] == '/';
    }
  }

  /** Host text: lower case, and no delimiter or line break. */
  predicate HostText(s: string) {
    IsLower(s) && NoDelimiter(s) && NoUnsafe(s)
  }

  /** Lower-casing host text, or text that is host text but for case, gives host text. */
  lemma LowerHostText(s: string)
    requires NoDelimiter(s) && NoUnsafe(s)
    ensures HostText(Lower(s))
  {
  }

  /** Stripping keeps host text host text. */
  lemma StripHostText(s: string)
    requires HostText(s)
    ensures HostText(Strip(s))
  {
    var r := Strip(s);
    var i: int :| OccursAt(s, r, i);
    assert OccursAt(s, r, i);
    assert forall j :: 0 <= j < |r| ==> r[j] == s[i + j];
  }

  /** Any slice of host text is host text. */
  lemma HostTextSlice(s: string, i: int, j: int)
    requires HostText(s) && 0 <= i <= j <= |s|
    ensures HostText(s[i..j])
  {
    assert forall k :: 0 <= k < j - i ==> s[i..j][k] == s[i + k];
  }

  /** A clean domain is host text with a dot, at least four characters and no port. */
  lemma CleanHostShape(host: string)
    requires NoDelimiter(host) && NoUnsafe(host)
    ensures CleanHost(host).Some? ==>
              var d := CleanHost(host).value;
              HostText(d) && '.' in d && |d| >= 4 && ':' !in d
  {
    var lowered := Strip(Lower(host));
    assert HostText(lowered) by {
      LowerHostText(host);
      StripHostText(Lower(host));
    }
    var bare := StripWww(lowered);
    assert HostText(bare) by {
      HostTextSlice(lowered, if StartsWith(lowered, "www.") then 4 else 0, |lowered|);
      assert lowered[0..|lowered|] == lowered;
    }
    var domain := BeforeFirst(bare, ':');
    assert HostText(domain) by {
      HostTextSlice(bare, 0, |domain|);
      assert bare[0..|domain|] == domain;
    }
  }

  /**
   * Every domain returned is lower case, has a dot, is at least four characters
   * long, and holds no port separator, path, query, fragment or line break;
   * the empty URL has none.
   */
  lemma NormalizeDomainShape(url: string)
    ensures url == "" ==> NormalizeDomain(url).None?
    ensures NormalizeDomain(url).Some? ==>
              var d := NormalizeDomain(url).value;
              HostText(d) && '.' in d && |d| >= 4 && ':' !in d
  {
    if url != "" {
      var rest := RemoveUnsafe(AfterScheme(url));
      var netloc := rest[..AuthorityEnd(rest)];
      if netloc == "" {
        PathFallbackIsEmpty(rest[AuthorityEnd(rest)..]);
        CleanHostShape("");
      } else {
        assert NoUnsafe(netloc) by { assert forall j :: 0 <= j < |netloc| ==> netloc[j] == rest[j]; }
        CleanHostShape(netloc);
      }
    }
  }

  // ---------------------------------------------------------------------------
  // Which hosts survive unchanged
  // ---------------------------------------------------------------------------

  /** Text allowed in an authority that is kept whole: host text without brackets. */
  predicate AuthorityText(s: string) {
    HostText(s) && forall i :: 0 <= i < |s| ==> s[i] != '[' && s[i] != ']'
  }

  lemma AuthorityTextAppend(a: string, b: string)
    requires AuthorityText(a) && AuthorityText(b)
    ensures AuthorityText(a + b)
  {
    assert forall i :: 0 <= i < |a| ==> (a + b)[i] == a[i];
    assert forall i :: |a| <= i < |a + b| ==> (a + b)[i] == b[i - |a|];
  }

  /** A host `normalize_domain` gives back unchanged. */
  predicate CanonicalHost(h: string) {
    |h| >= 4 && '.' in h && AuthorityText(h) && !StartsWith(h, "www.")
    && !IsSpace(h[0]) && !IsSpace(h[|h| - 1])
    && forall i :: 0 <= i < |h| ==> h[i] != ':'
  }

  /** A port suffix: empty, or `:` followed by decimal digits. */
  predicate PortSuffix(p: string) {
    p == "" || (p[0] == ':' && forall i :: 1 <= i < |p| ==> IsDigit(p[i]))
  }

  /** Putting `https://` in front is undone by `AfterScheme`. */
  lemma AfterSchemeHttps(url: string)
    ensures AfterScheme("https://" + url) == url
  {
    var full := "https://" + url;
    assert !StartsWith(full, "http://") by { assert full[..7][4] == 's'; }
    assert full[..8] == "https://";
    assert full[8..] == url;
  }

  lemma AfterSchemeHttp(url: string)
    ensures AfterScheme("http://" + url) == url
  {
    var full := "http://" + url;
    assert full[..7] == "http://";
    assert full[7..] == url;
  }

  /** A URL without a scheme is read as an `https` one. */
  lemma NormalizeAddsScheme(url: string)
    requires url != "" && !StartsWith(url, "http://") && !StartsWith(url, "https://")
    ensures NormalizeDomain(url) == NormalizeDomain("https://" + url)
  {
    AfterSchemeHttps(url);
  }

  /** Cutting `a + b` at the first `c` when `c` is absent from `a` and starts `b`. */
  lemma BeforeFirstOfJoin(a: string, b: string, c: char)
    requires forall i :: 0 <= i < |a| ==> a[i] != c
    requires b == "" || b[0] == c
    ensures BeforeFirst(a + b, c) == a
  {
    var s := a + b;
    assert forall j :: 0 <= j < |a| ==> s[j] == a[j];
    if b != "" {
      assert s[|a|] == c;
    }
  }

  /** Lower-case text with no whitespace at either end is its own stripped, lower-cased form. */
  lemma StripLowerKeeps(s: string)
    requires IsLower(s) && s != [] && !IsSpace(s[0]) && !IsSpace(s[|s| - 1])
    ensures Strip(Lower(s)) == s
  {
    LowerIdempotent(s);
    assert TrimStart(s) == s;
    assert TrimEnd(s) == s;
  }

  /** An authority made of an optional `www.`, a canonical host and a port suffix. */
  lemma AuthorityParts(www: string, host: string, port: string)
    requires www == "" || www == "www."
    requires CanonicalHost(host) && PortSuffix(port)
    ensures var auth := www + host + port;
            IsLower(auth) && auth != [] && !IsSpace(auth[0]) && !IsSpace(auth[|auth| - 1])
  {
    var bare := host + port;
    assert AuthorityText(port);
    AuthorityTextAppend(host, port);
    assert AuthorityText(www);
    AuthorityTextAppend(www, bare);
    var auth := www + bare;
    assert auth == www + host + port;
    assert auth[0] == if www == "" then host[0] else 'w';
    assert auth[|auth| - 1] == if port == "" then host[|host| - 1] else port[|port| - 1];
  }

  /** `www.` is cut from the front of an authority that has it, and only then. */
  lemma StripWwwKeeps(www: string, bare: string)
    requires www == "" || www == "www."
    requires |bare| >= 4 && !StartsWith(bare, "www.")
    ensures StripWww(www + bare) == bare
  {
    var auth := www + bare;
    if www == "www." {
      assert auth[..4] == "www.";
      assert auth[4..] == bare;
    } else {
      assert auth == bare;
    }
  }

  /** On lower-case text without whitespace at its ends, cleaning only cuts `www.` and the port. */
  lemma CleanHostOfTrimmed(a: string)
    requires IsLower(a) && a != [] && !IsSpace(a[0]) && !IsSpace(a[|a| - 1])
    ensures CleanHost(a) == Validated(BeforeFirst(StripWww(a), ':'))
  {
    StripLowerKeeps(a);
  }

  /** Only the `www.` in front of the host is cut. */
  lemma AuthorityWithoutWww(www: string, host: string, port: string)
    requires www == "" || www == "www."
    requires CanonicalHost(host) && PortSuffix(port)
    ensures StripWww(www + host + port) == host + port
  {
    assert !StartsWith(host + port, "www.") by {
      assert (host + port)[..4] == host[..4];
    }
    assert www + host + port == www + (host + port);
    StripWwwKeeps(www, host + port);
  }

  /** `www.` and the port are cut from an authority; the host, subdomains included, stays. */
  lemma CleanHostKeeps(www: string, host: string, port: string)
    requires www == "" || www == "www."
    requires CanonicalHost(host) && PortSuffix(port)
    ensures CleanHost(www + host + port) == Some(host)
  {
    var auth := www + host + port;
    AuthorityParts(www, host, port);
    CleanHostOfTrimmed(auth);
    AuthorityCutToHost(www, host, port);
  }

  /** Once trimmed, an authority is cut back to its host and validated as it is. */
  lemma AuthorityCutToHost(www: string, host: string, port: string)
    requires www == "" || www == "www."
    requires CanonicalHost(host) && PortSuffix(port)
    ensures Validated(BeforeFirst(StripWww(www + host + port), ':')) == Some(host)
  {
    AuthorityWithoutWww(www, host, port);
    assert port == "" || port[0] == ':';
    BeforeFirstOfJoin(host, port, ':');
  }

  /** The authority ends where the text that starts with a delimiter begins. */
  lemma {:induction false} AuthorityEndAt(a: string, b: string)
    requires NoDelimiter(a)
    requires b == "" || IsDelimiter(b[0])
    ensures AuthorityEnd(a + b) == |a|
    decreases |a|
  {
    if a == [] {
      assert a + b == b;
    } else {
      assert (a + b)[1..] == a[1..] + b;
      AuthorityEndAt(a[1..], b);
    }
  }

  /** Removing line breaks keeps a leading delimiter in front. */
  lemma RemoveUnsafeKeepsDelimiter(tail: string)
    requires tail == "" || IsDelimiter(tail[0])
    ensures RemoveUnsafe(tail) == "" || IsDelimiter(RemoveUnsafe(tail)[0])
  {
    if tail != "" {
      assert tail == [tail[0]] + tail[1..];
      RemoveUnsafeAppend([tail[0]], tail[1..]);
      RemoveUnsafeKeeps([tail[0]]);
    }
  }

  /** An authority followed by a path, query or fragment: the authority is the host. */
  lemma HostOfAuthority(auth: string, tail: string)
    requires auth != "" && AuthorityText(auth)
    requires tail == "" || IsDelimiter(tail[0])
    ensures HostOf(RemoveUnsafe(auth + tail)) == CleanHost(auth)
  {
    RemoveUnsafeKeeps(auth);
    RemoveUnsafeAppend(auth, tail);
    var rest := auth + RemoveUnsafe(tail);
    RemoveUnsafeKeepsDelimiter(tail);
    AuthorityEndAt(auth, RemoveUnsafe(tail));
    assert rest[..AuthorityEnd(rest)] == auth;
    assert '[' !in auth && ']' !in auth;
  }

  /**
   * The scheme, a leading `www.`, a port, the path, the query and the fragment
   * are dropped; the host itself, subdomains included, is kept.
   */
  lemma NormalizeKeepsHost(scheme: string, www: string, host: string, port: string, tail: string)
    requires scheme == "http://" || scheme == "https://"
    requires www == "" || www == "www."
    requires CanonicalHost(host) && PortSuffix(port)
    requires tail == "" || IsDelimiter(tail[0])
    ensures NormalizeDomain(scheme + www + host + port + tail) == Some(host)
  {
    var auth := www + host + port;
    assert scheme + www + host + port + tail == scheme + (auth + tail);
    NormalizeAfterScheme(scheme, auth + tail);
    AuthorityTextOfParts(www, host, port);
    HostOfAuthority(auth, tail);
    CleanHostKeeps(www, host, port);
  }

  /** What follows an explicit `http://` or `https://` is where the host is looked for. */
  lemma NormalizeAfterScheme(scheme: string, rest: string)
    requires scheme == "http://" || scheme == "https://"
    ensures NormalizeDomain(scheme + rest) == HostOf(RemoveUnsafe(rest))
  {
    if scheme == "http://" {
      AfterSchemeHttp(rest);
    } else {
      AfterSchemeHttps(rest);
    }
  }

  /** An optional `www.`, a canonical host and a port make a non-empty authority. */
  lemma AuthorityTextOfParts(www: string, host: string, port: string)
    requires www == "" || www == "www."
    requires CanonicalHost(host) && PortSuffix(port)
    ensures www + host + port != "" && AuthorityText(www + host + port)
  {
    assert AuthorityText(port);
    AuthorityTextAppend(host, port);
    assert AuthorityText(www);
    AuthorityTextAppend(www, host + port);
    assert www + host + port == www + (host + port);
  }

  /** `NormalizeKeepsHost` for a URL given whole, without a port. */
  lemma NormalizeKeepsHostOf(url: string, scheme: string, www: string, host: string, tail: string)
    requires scheme == "http://" || scheme == "https://"
    requires www == "" || www == "www."
    requires CanonicalHost(host)
    requires tail == "" || IsDelimiter(tail[0])
    requires url == scheme + www + host + "" + tail
    ensures NormalizeDomain(url) == Some(host)
  {
    NormalizeKeepsHost(scheme, www, host, "", tail);
  }

  /** A bare canonical host is its own normalisation. */
  lemma NormalizeBareHost(host: string)
    requires CanonicalHost(host)
    requires !StartsWith(host, "http://") && !StartsWith(host, "https://")
    ensures NormalizeDomain(host) == Some(host)
  {
    var url := "https://" + host;
    assert url == "https://" + "" + host + "" + "";
    NormalizeKeepsHostOf(url, "https://", "", host, "");
    NormalizeAddsScheme(host);
  }

  // ---------------------------------------------------------------------------
  // A page of search results
  // ---------------------------------------------------------------------------

  /** The values of the `Some` entries, in order. */
  function Present<T>(xs: seq<Option<T>>): (r: seq<T>)
    ensures |r| <= |xs|
  {
    if xs == [] then []
    else Present(xs[..|xs| - 1]) + (if xs[|xs| - 1].Some? then [xs[|xs| - 1].value] else [])
  }

  /** A value is present exactly when some entry holds it. */
  lemma {:induction false} PresentExact<T>(xs: seq<Option<T>>)
    ensures forall v :: v in Present(xs) <==> Some(v) in xs
    decreases |xs|
  {
    if xs != [] {
      var init := xs[..|xs| - 1];
      PresentExact(init);
      assert xs == init + [xs[|xs| - 1]];
    }
  }

  /** Keeping the present values of a joined list is joining what each part keeps. */
  lemma {:induction false} PresentAppend<T>(xs: seq<Option<T>>, ys: seq<Option<T>>)
    ensures Present(xs + ys) == Present(xs) + Present(ys)
    decreases |ys|
  {
    if ys == [] {
      assert xs + ys == xs;
    } else {
      var init := ys[..|ys| - 1];
      assert (xs + ys)[..|xs + ys| - 1] == xs + init;
      assert (xs + ys)[|xs + ys| - 1] == ys[|ys| - 1];
      PresentAppend(xs, init);
    }
  }

  /** The normalisation of every URL. */
  function NormalizeAll(urls: seq<string>): (r: seq<Option<string>>)
    ensures |r| == |urls|
    ensures forall i :: 0 <= i < |urls| ==> r[i] == NormalizeDomain(urls[i])
  {
    seq(|urls|, i requires 0 <= i < |urls| => NormalizeDomain(urls[i]))
  }

  /** `_extract_domains_from_urls(urls)`: the normalised domain of every URL that has one, in order. */
  function ExtractDomains(urls: seq<string>): seq<string> {
    Present(NormalizeAll(urls))
  }

  /** The loop of `_extract_domains_from_urls`. */
  method ExtractDomainsFromUrls(urls: seq<string>) returns (domains: seq<string>)
    ensures domains == ExtractDomains(urls)
  {
    domains := [];
    ghost var all := NormalizeAll(urls);
    for i := 0 to |urls|
      invariant domains == Present(all[..i])
    {
      assert all[..i + 1][..i] == all[..i];
      var d := NormalizeDomain(urls[i]);
      if d.Some? {
        domains := domains + [d.value];
      }
    }
    assert all[..|urls|] == all;
  }

  /**
   * The domains of a joined URL list are those of the first part, then those
   * of the second: extraction keeps the URLs' order and handles each URL alone.
   */
  lemma ExtractDomainsAppend(a: seq<string>, b: seq<string>)
    ensures ExtractDomains(a + b) == ExtractDomains(a) + ExtractDomains(b)
    ensures ExtractDomains([]) == []
    ensures forall u :: ExtractDomains([u]) == if NormalizeDomain(u).Some? then [NormalizeDomain(u).value] else []
  {
    assert NormalizeAll(a + b) == NormalizeAll(a) + NormalizeAll(b);
    PresentAppend(NormalizeAll(a), NormalizeAll(b));
    forall u ensures ExtractDomains([u]) == if NormalizeDomain(u).Some? then [NormalizeDomain(u).value] else [] {
      assert NormalizeAll([u]) == [NormalizeDomain(u)];
      assert NormalizeAll([u])[..0] == [];
    }
  }

  /**
   * Every domain extracted is the normalisation of one of the URLs, and every
   * URL that normalises contributes its domain.
   */
  lemma ExtractDomainsExact(urls: seq<string>)
    ensures forall d :: d in ExtractDomains(urls) ==> exists i :: 0 <= i < |urls| && NormalizeDomain(urls[i]) == Some(d)
    ensures forall i :: 0 <= i < |urls| && NormalizeDomain(urls[i]).Some? ==> NormalizeDomain(urls[i]).value in ExtractDomains(urls)
  {
    var all := NormalizeAll(urls);
    PresentExact(all);
    forall d | d in ExtractDomains(urls) ensures exists i :: 0 <= i < |urls| && NormalizeDomain(urls[i]) == Some(d) {
      var i :| 0 <= i < |all| && all[i] == Some(d);
    }
    forall i | 0 <= i < |urls| && NormalizeDomain(urls[i]).Some? ensures NormalizeDomain(urls[i]).value in ExtractDomains(urls) {
      assert all[i] in all;
    }
  }
}
