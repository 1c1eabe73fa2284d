/**
 * The dork queries (`generate_dork_queries` in discovery.py): every template
 * filled in with every search suffix of every enabled country, in the order
 * country, suffix, template.
 */
module Queries {

  import opened Strings
  import opened Config

  /** `s.lstrip(".")`. */
  function LStripDots(s: string): string {
    if s != [] && s[0] == '.' then LStripDots(s[1..]) else s
  }

  /** Stripping removes the leading dots and only them: what is left is a tail of `s` that does not start with a dot. */
  lemma {:induction false} LStripDotsShape(s: string)
    ensures var r := LStripDots(s);
      (r == [] || r[0] != '.') && |r| <= |s| && r == s[|s| - |r|..] &&
      forall i :: 0 <= i < |s| - |r| ==> s[i] == '.'
    decreases |s|
  {
    if s != [] && s[0] == '.' {
      LStripDotsShape(s[1..]);
      var r := LStripDots(s);
      assert s[1..][|s| - 1 - |r|..] == s[|s| - |r|..];
      forall i | 0 <= i < |s| - |r| ensures s[i] == '.' {
        if i > 0 {
          assert s[i] == s[1..][i - 1];
        }
      }
    }
  }

  /**
   * `tmpl.format(tld=tld)`, read left to right: each `{tld}` becomes `tld`
   * and every other character is kept.
   */
  function Format(tmpl: string, tld: string): string
    decreases |tmpl|
  {
    if tmpl == [] then []
    else if PlaceholderAhead(tmpl) then tld + Format(tmpl[5..], tld)
    else [tmpl[0]] + Format(tmpl[1..], tld)
  }

  /** The text starts with `{tld}`, read character by character. */
  predicate PlaceholderAhead(s: string) {
    |s| >= 5 && s[0] == '{' && s[1] == 't' && s[2] == 'l' && s[3] == 'd' && s[4] == '}'
  }

  lemma PlaceholderAheadMeans(s: string, i: int)
    requires 0 <= i <= |s|
    ensures PlaceholderAhead(s[i..]) <==> OccursAt(s, TldPlaceholder, i)
  {
    if OccursAt(s, TldPlaceholder, i) {
      assert s[i..][..5] == TldPlaceholder;
    }
    if PlaceholderAhead(s[i..]) {
      assert s[i..i + 5] == TldPlaceholder;
    }
  }

  /** Every `{` of the template opens a `{tld}` placeholder. */
  predicate BracesArePlaceholders(tmpl: string) {
    forall i :: 0 <= i < |tmpl| && tmpl[i] == '{' ==> OccursAt(tmpl, TldPlaceholder, i)
  }

  /** Text without braces comes through formatting unchanged, and so does what follows it. */
  lemma {:induction false} FormatPlainPrefix(a: string, b: string, tld: string)
    requires '{' !in a
    ensures Format(a + b, tld) == a + Format(b, tld)
    decreases |a|
  {
    if a != [] {
      var s := a + b;
      assert s[0] == a[0] != '{';
      assert Format(s, tld) == [a[0]] + Format(s[1..], tld);
      assert s[1..] == a[1..] + b;
      FormatPlainPrefix(a[1..], b, tld);
      assert [a[0]] + (a[1..] + Format(b, tld)) == ([a[0]] + a[1..]) + Format(b, tld);
      assert a == [a[0]] + a[1..];
    } else {
      assert a + b == b;
    }
  }

  /** A placeholder at the front is filled in. */
  lemma FormatPlaceholderPrefix(b: string, tld: string)
    ensures Format(TldPlaceholder + b, tld) == tld + Format(b, tld)
  {
    var s := TldPlaceholder + b;
    assert s[0] == '{' && s[1] == 't' && s[2] == 'l' && s[3] == 'd' && s[4] == '}';
    assert s[5..] == b;
  }

  /**
   * Formatting leaves no brace behind when the template's braces are all
   * placeholders and the suffix has none: no `{tld}` survives into a query.
   */
  lemma {:induction false} FormatLeavesNoBrace(tmpl: string, tld: string)
    requires BracesArePlaceholders(tmpl)
    requires '{' !in tld
    ensures '{' !in Format(tmpl, tld)
    decreases |tmpl|
  {
    if tmpl != [] {
      if PlaceholderAhead(tmpl) {
        BracesShift(tmpl, 5);
        FormatLeavesNoBrace(tmpl[5..], tld);
      } else {
        assert tmpl[0] == '{' ==> OccursAt(tmpl, TldPlaceholder, 0);
        PlaceholderAheadMeans(tmpl, 0);
        assert tmpl[0..] == tmpl;
        BracesShift(tmpl, 1);
        FormatLeavesNoBrace(tmpl[1..], tld);
      }
    }
  }

  /** Dropping a prefix keeps every remaining brace the start of a placeholder. */
  lemma BracesShift(tmpl: string, k: nat)
    requires BracesArePlaceholders(tmpl) && k <= |tmpl|
    ensures BracesArePlaceholders(tmpl[k..])
  {
    var rest := tmpl[k..];
    forall i | 0 <= i < |rest| && rest[i] == '{' ensures OccursAt(rest, TldPlaceholder, i) {
      assert tmpl[i + k] == '{';
      assert OccursAt(tmpl, TldPlaceholder, i + k);
      assert rest[i..i + |TldPlaceholder|] == tmpl[i + k..i + k + |TldPlaceholder|];
    }
  }

  // ---------------------------------------------------------------------------
  // The shape of the shipped templates
  // ---------------------------------------------------------------------------

  /** A template of the shipped shape: `site:{tld} ` and then text without braces. */
  predicate SiteTemplate(tmpl: string) {
    |tmpl| >= 11 && tmpl[..11] == SitePrefix + TldPlaceholder + " " && '{' !in tmpl[11..]
  }

  /** Search terms without braces make a template of the shipped shape. */
  lemma SiteQueryShape(terms: string)
    requires '{' !in terms
    ensures SiteTemplate(SiteQuery(terms))
  {
    var t := SiteQuery(terms);
    assert t[..11] == SitePrefix + TldPlaceholder + " ";
    assert t[11..] == terms;
  }

  /** A template of the shipped shape carries the placeholder, and it is its only brace. */
  lemma SiteTemplateBraces(tmpl: string)
    requires SiteTemplate(tmpl)
    ensures OccursAt(tmpl, TldPlaceholder, 5) && Contains(tmpl, TldPlaceholder)
    ensures BracesArePlaceholders(tmpl)
  {
    var head := SitePrefix + TldPlaceholder + " ";
    assert head[5..10] == TldPlaceholder;
    assert tmpl[5..10] == head[5..10];
    assert OccursAt(tmpl, TldPlaceholder, 5);
    forall i | 11 <= i < |tmpl| ensures tmpl[i] != '{' {
      assert tmpl[i] == tmpl[11..][i - 11];
    }
    forall i | 0 <= i < 11 ensures tmpl[i] == head[i] {
    }
    assert forall i :: 0 <= i < 11 && head[i] == '{' ==> i == 5;
  }

  /** A template of the shipped shape becomes `site:<suffix> ` and its search terms. */
  lemma FormatSiteTemplate(tmpl: string, tld: string)
    requires SiteTemplate(tmpl)
    ensures Format(tmpl, tld) == SitePrefix + tld + " " + tmpl[11..]
  {
    var rest := tmpl[11..];
    assert tmpl == SitePrefix + (TldPlaceholder + (" " + rest));
    FormatPlainPrefix(SitePrefix, TldPlaceholder + (" " + rest), tld);
    FormatPlaceholderPrefix(" " + rest, tld);
    FormatPlainPrefix(" " + rest, [], tld);
    assert (" " + rest) + [] == " " + rest;
  }

  /** Every base template is of the shipped shape. */
  lemma BaseTemplatesShape()
    ensures forall t :: t in DorkQueryTemplates ==> SiteTemplate(t)
  {
    SiteQueryShape("\"powered by shopify\"");
    SiteQueryShape("\"cdn.shopify.com\"");
    SiteQueryShape("inurl:myshopify");
    SiteQueryShape("\"shopify\" \"add to cart\"");
    SiteQueryShape("\"checkout\" \"shopify\"");
  }

  /** The first five niche templates are of the shipped shape. */
  lemma NicheTemplatesShapeA()
    ensures forall i :: 0 <= i < 5 ==> SiteTemplate(NicheDorkTemplates[i])
  {
    SiteQueryShape("\"powered by shopify\" \"fashion\"");
    SiteQueryShape("\"powered by shopify\" \"beauty\"");
    SiteQueryShape("\"powered by shopify\" \"electronics\"");
    SiteQueryShape("\"powered by shopify\" \"food\"");
    SiteQueryShape("\"powered by shopify\" \"home\"");
  }

  /** The last five niche templates are of the shipped shape. */
  lemma NicheTemplatesShapeB()
    ensures forall i :: 5 <= i < 10 ==> SiteTemplate(NicheDorkTemplates[i])
  {
    var jewellery := "\"powered by shopify\" \"jewellery\" OR \"jewelry\"";
    assert jewellery == "\"powered by shopify\" \"jewellery\"" + " OR \"jewelry\"";
    SiteQueryShape(jewellery);
    SiteQueryShape("\"powered by shopify\" \"clothing\"");
    SiteQueryShape("\"powered by shopify\" \"health\"");
    SiteQueryShape("\"powered by shopify\" \"pet\"");
    SiteQueryShape("\"powered by shopify\" \"sport\"");
  }

  /** Every base and niche template carries `{tld}`, and no other brace. */
  lemma ShippedTemplates()
    ensures forall t :: t in DorkQueryTemplates + NicheDorkTemplates ==> SiteTemplate(t)
    ensures forall t :: t in DorkQueryTemplates + NicheDorkTemplates ==> Contains(t, TldPlaceholder) && BracesArePlaceholders(t)
  {
    BaseTemplatesShape();
    NicheTemplatesShapeA();
    NicheTemplatesShapeB();
    forall t | t in DorkQueryTemplates + NicheDorkTemplates ensures SiteTemplate(t) {
      if t !in DorkQueryTemplates {
        var i :| 0 <= i < |NicheDorkTemplates| && NicheDorkTemplates[i] == t;
      }
    }
    forall t | t in DorkQueryTemplates + NicheDorkTemplates ensures Contains(t, TldPlaceholder) && BracesArePlaceholders(t) {
      SiteTemplateBraces(t);
    }
  }

  // ---------------------------------------------------------------------------
  // The product
  // ---------------------------------------------------------------------------

  /** The base templates, then the niche ones when they are wanted. */
  function Templates(includeNiche: bool): (r: seq<string>)
    ensures |r| == |DorkQueryTemplates| + (if includeNiche then |NicheDorkTemplates| else 0)
  {
    DorkQueryTemplates + (if includeNiche then NicheDorkTemplates else [])
  }

  /** The queries for one search suffix: every template, in order. */
  function ForTld(tld: string, templates: seq<string>): (r: seq<string>)
    ensures |r| == |templates|
  {
    seq(|templates|, j requires 0 <= j < |templates| => Format(templates[j], LStripDots(tld)))
  }

  /** The queries for a list of suffixes, suffix by suffix. */
  function ForTlds(tlds: seq<string>, templates: seq<string>): seq<string> {
    if tlds == [] then []
    else ForTlds(tlds[..|tlds| - 1], templates) + ForTld(tlds[|tlds| - 1], templates)
  }

  /** The queries for a list of countries, country by country. */
  function ForCountries(cs: seq<CountryConfig>, templates: seq<string>): seq<string> {
    if cs == [] then []
    else ForCountries(cs[..|cs| - 1], templates) + ForTlds(cs[|cs| - 1].tlds, templates)
  }

  /** `generate_dork_queries(include_niche)`. */
  function DorkQueries(includeNiche: bool): seq<string> {
    ForCountries(EnabledCountries(), Templates(includeNiche))
  }

  /** The number of search suffixes over a list of countries. */
  function TldCount(cs: seq<CountryConfig>): nat {
    if cs == [] then 0 else TldCount(cs[..|cs| - 1]) + |cs[|cs| - 1].tlds|
  }

  /** One query per suffix and template. */
  lemma {:induction false} ForTldsLength(tlds: seq<string>, templates: seq<string>)
    ensures |ForTlds(tlds, templates)| == |tlds| * |templates|
    decreases |tlds|
  {
    if tlds != [] {
      ForTldsLength(tlds[..|tlds| - 1], templates);
      assert |tlds| * |templates| == (|tlds| - 1) * |templates| + |templates|;
    }
  }

  /**
   * The `k`-th suffix's queries sit together, in template order: query
   * `k * |templates| + j` is template `j` filled with suffix `k`, dots stripped.
   */
  lemma {:induction false} ForTldsIndex(tlds: seq<string>, templates: seq<string>, k: nat, j: nat)
    requires k < |tlds| && j < |templates|
    ensures k * |templates| + j < |ForTlds(tlds, templates)|
    ensures ForTlds(tlds, templates)[k * |templates| + j] == Format(templates[j], LStripDots(tlds[k]))
    decreases |tlds|
  {
    var n := |templates|;
    var m := |tlds| - 1;
    var init := tlds[..m];
    ForTldsLength(init, templates);
    var front := ForTlds(init, templates);
    assert ForTlds(tlds, templates) == front + ForTld(tlds[m], templates);
    if k < m {
      ForTldsIndex(init, templates, k, j);
      assert tlds[k] == init[k];
    } else {
      assert k * n == |front|;
    }
  }

  /** The product has one query per suffix and template. */
  lemma {:induction false} ForCountriesLength(cs: seq<CountryConfig>, templates: seq<string>)
    ensures |ForCountries(cs, templates)| == TldCount(cs) * |templates|
    decreases |cs|
  {
    if cs != [] {
      var init := cs[..|cs| - 1];
      ForCountriesLength(init, templates);
      ForTldsLength(cs[|cs| - 1].tlds, templates);
      assert (TldCount(init) + |cs[|cs| - 1].tlds|) * |templates|
          == TldCount(init) * |templates| + |cs[|cs| - 1].tlds| * |templates|;
    }
  }

  /** Every query for a list of suffixes is some template filled with one of them. */
  lemma {:induction false} ForTldsSource(tlds: seq<string>, templates: seq<string>)
    ensures forall q :: q in ForTlds(tlds, templates) ==>
      exists tld, t :: tld in tlds && t in templates && q == Format(t, LStripDots(tld))
    decreases |tlds|
  {
    if tlds != [] {
      var init := tlds[..|tlds| - 1];
      var last := tlds[|tlds| - 1];
      ForTldsSource(init, templates);
      forall q | q in ForTlds(tlds, templates)
        ensures exists tld, t :: tld in tlds && t in templates && q == Format(t, LStripDots(tld))
      {
        if q in ForTlds(init, templates) {
          var tld, t :| tld in init && t in templates && q == Format(t, LStripDots(tld));
          assert tld in tlds;
        } else {
          var r := ForTld(last, templates);
          assert q in r;
          var j :| 0 <= j < |r| && r[j] == q;
          assert templates[j] in templates;
        }
      }
    }
  }

  /** Every query is some template filled with some suffix of some country, dots stripped. */
  lemma {:induction false} ForCountriesSource(cs: seq<CountryConfig>, templates: seq<string>)
    ensures forall q :: q in ForCountries(cs, templates) ==>
      exists c, tld, t :: c in cs && tld in c.tlds && t in templates && q == Format(t, LStripDots(tld))
    decreases |cs|
  {
    if cs != [] {
      var init := cs[..|cs| - 1];
      var last := cs[|cs| - 1];
      ForCountriesSource(init, templates);
      ForTldsSource(last.tlds, templates);
      assert ForCountries(cs, templates) == ForCountries(init, templates) + ForTlds(last.tlds, templates);
      forall q | q in ForCountries(cs, templates)
        ensures exists c, tld, t :: c in cs && tld in c.tlds && t in templates && q == Format(t, LStripDots(tld))
      {
        if q in ForCountries(init, templates) {
          var c, tld, t :| c in init && tld in c.tlds && t in templates && q == Format(t, LStripDots(tld));
          assert c in cs;
        } else {
          assert q in ForTlds(last.tlds, templates);
          var tld, t :| tld in last.tlds && t in templates && q == Format(t, LStripDots(tld));
          assert last in cs;
        }
      }
      assert forall q :: q in ForCountries(cs, templates) ==>
        exists c, tld, t :: c in cs && tld in c.tlds && t in templates && q == Format(t, LStripDots(tld));
    }
  }

  /** One filled-in template keeps no brace when its braces are placeholders and the suffix has none. */
  lemma QueryHasNoBrace(tmpl: string, tld: string)
    requires BracesArePlaceholders(tmpl)
    requires '{' !in tld
    ensures '{' !in Format(tmpl, LStripDots(tld))
    ensures !Contains(Format(tmpl, LStripDots(tld)), TldPlaceholder)
  {
    var stripped := LStripDots(tld);
    LStripDotsShape(tld);
    assert '{' !in stripped by {
      forall i | 0 <= i < |stripped| ensures stripped[i] != '{' {
        assert stripped[i] == tld[|tld| - |stripped| + i];
      }
    }
    FormatLeavesNoBrace(tmpl, stripped);
    var q := Format(tmpl, stripped);
    assert TldPlaceholder[0] == '{';
    forall i | 0 <= i <= |q| - 5 ensures q[i..i + 5][0] == q[i] {
    }
  }

  /** No query keeps a brace, and so none keeps `{tld}`, when the templates and suffixes are well formed. */
  lemma NoPlaceholderLeft(cs: seq<CountryConfig>, templates: seq<string>)
    requires forall t :: t in templates ==> BracesArePlaceholders(t)
    requires forall c, tld :: c in cs && tld in c.tlds ==> '{' !in tld
    ensures forall q :: q in ForCountries(cs, templates) ==> '{' !in q && !Contains(q, TldPlaceholder)
  {
    ForCountriesSource(cs, templates);
    forall q | q in ForCountries(cs, templates) ensures '{' !in q && !Contains(q, TldPlaceholder) {
      var c, tld, t :| c in cs && tld in c.tlds && t in templates && q == Format(t, LStripDots(tld));
      QueryHasNoBrace(t, tld);
    }
  }

  /** The innermost loop of `generate_dork_queries`: one suffix, every template. */
  method AppendForTld(queries: seq<string>, tld: string, templates: seq<string>) returns (r: seq<string>)
    ensures r == queries + ForTld(tld, templates)
  {
    var tldClean := LStripDots(tld);
    r := queries;
    for j := 0 to |templates|
      invariant r == queries + ForTld(tld, templates)[..j]
    {
      r := r + [Format(templates[j], tldClean)];
      assert ForTld(tld, templates)[..j + 1] == ForTld(tld, templates)[..j] + [Format(templates[j], tldClean)];
    }
    assert ForTld(tld, templates)[..|templates|] == ForTld(tld, templates);
  }

  /** The two outer loops of `generate_dork_queries`: every country, every suffix. */
  method Product(countries: seq<CountryConfig>, templates: seq<string>) returns (queries: seq<string>)
    ensures queries == ForCountries(countries, templates)
  {
    queries := [];
    for i := 0 to |countries|
      invariant queries == ForCountries(countries[..i], templates)
    {
      assert countries[..i + 1][..i] == countries[..i];
      var tlds := countries[i].tlds;
      ghost var before := queries;
      for k := 0 to |tlds|
        invariant queries == before + ForTlds(tlds[..k], templates)
      {
        assert tlds[..k + 1][..k] == tlds[..k];
        queries := AppendForTld(queries, tlds[k], templates);
      }
      assert tlds[..|tlds|] == tlds;
    }
    assert countries[..|countries|] == countries;
  }

  /** `generate_dork_queries(include_niche)`. */
  method GenerateDorkQueries(includeNiche: bool) returns (queries: seq<string>)
    ensures queries == DorkQueries(includeNiche)
  {
    var templates := DorkQueryTemplates;
    if includeNiche {
      templates := templates + NicheDorkTemplates;
    }
    assert templates == Templates(includeNiche);
    queries := Product(EnabledCountries(), templates);
  }

  // ---------------------------------------------------------------------------
  // The queries as shipped
  // ---------------------------------------------------------------------------

  /** No search suffix in the country table has a brace. */
  lemma CountryTldsHaveNoBrace()
    ensures forall c, tld :: c in Countries && tld in c.tlds ==> '{' !in tld
  {
  }

  /**
   * With South Africa the only country, there are 30 queries with the niche
   * templates and 10 without, and none keeps its placeholder.
   */
  lemma ShippedQueries(includeNiche: bool)
    ensures |DorkQueries(includeNiche)| == (if includeNiche then 30 else 10)
    ensures forall q :: q in DorkQueries(includeNiche) ==> !Contains(q, TldPlaceholder)
  {
    EnabledCountriesIsSouthAfrica();
    var cs := EnabledCountries();
    var templates := Templates(includeNiche);
    assert cs[..0] == [];
    assert TldCount(cs) == 2;
    ForCountriesLength(cs, templates);
    ShippedTemplates();
    forall t | t in templates ensures BracesArePlaceholders(t) {
      assert t in DorkQueryTemplates + NicheDorkTemplates;
    }
    CountryTldsHaveNoBrace();
    NoPlaceholderLeft(cs, templates);
  }

  /** The shipped suffixes with their dots stripped. */
  lemma ShippedSuffixes()
    ensures LStripDots(".co.za") == "co.za" && LStripDots(".za") == "za"
  {
    assert ".co.za"[1..] == "co.za";
    assert ".za"[1..] == "za";
  }

  /**
   * The shipped queries in order: first every template for `co.za`, then
   * every template for `za`, each as `site:<suffix> ` and its search terms.
   */
  lemma ShippedQueryOrder(includeNiche: bool, k: nat, j: nat)
    requires k < 2 && j < |Templates(includeNiche)|
    ensures var templates := Templates(includeNiche);
      k * |templates| + j < |DorkQueries(includeNiche)| && SiteTemplate(templates[j]) &&
      DorkQueries(includeNiche)[k * |templates| + j]
        == SitePrefix + (if k == 0 then "co.za" else "za") + " " + templates[j][11..]
  {
    var templates := Templates(includeNiche);
    EnabledCountriesIsSouthAfrica();
    var za := Countries[0];
    assert DorkQueries(includeNiche) == ForTlds(za.tlds, templates) by {
      assert EnabledCountries()[..0] == [];
    }
    ForTldsIndex(za.tlds, templates, k, j);
    ShippedSuffixes();
    ShippedTemplates();
    assert templates[j] in DorkQueryTemplates + NicheDorkTemplates;
    FormatSiteTemplate(templates[j], LStripDots(za.tlds[k]));
  }
}
