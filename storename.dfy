/**
 * The store name (`_extract_store_name` in scraper.py): the page's
 * `og:site_name` when it has one, otherwise its title without the platform's
 * stock suffixes. Finding the tag and the title in the markup is the HTML
 * parser's job and is given to the model as two functions of the page.
 */
module StoreNames {

  import opened Wrappers
  import opened Strings

  /** What the HTML parser reads out of a page. */
  datatype Parsers = Parsers(
    /** The address candidates the email pattern finds, in page order. */
    findEmails: string -> seq<string>,
    /** The `content` of the `og:site_name` meta tag, if the tag is there. */
    siteName: string -> Option<string>,
    /** The text of the `<title>` element, if there is one. */
    title: string -> Option<string>)

  /** The suffixes removed from a title, in the order they are tried. */
  const TitleSuffixes: seq<string> := [
    " – Powered by Shopify",
    " - Powered by Shopify",
    " | Powered by Shopify",
    " – Home",
    " - Home"
  ]

  /** `title[:-len(suffix)]` when the title ends with `suffix`. */
  function RemoveSuffix(title: string, suffix: string): (r: string)
    ensures EndsWith(title, suffix) ==> r + suffix == title
    ensures !EndsWith(title, suffix) ==> r == title
  {
    if EndsWith(title, suffix) then title[..|title| - |suffix|] else title
  }

  /** Each suffix of `suffixes` tried once, in order, on what the earlier ones left. */
  function RemoveSuffixes(title: string, suffixes: seq<string>): string {
    if suffixes == [] then title
    else RemoveSuffix(RemoveSuffixes(title, suffixes[..|suffixes| - 1]), suffixes[|suffixes| - 1])
  }

  /** The suffix loop of `_extract_store_name`. */
  method StripTitleSuffixes(title: string) returns (t: string)
    ensures t == RemoveSuffixes(title, TitleSuffixes)
  {
    t := title;
    for i := 0 to |TitleSuffixes|
      invariant t == RemoveSuffixes(title, TitleSuffixes[..i])
    {
      assert TitleSuffixes[..i + 1][..i] == TitleSuffixes[..i];
      var suffix := TitleSuffixes[i];
      if EndsWith(t, suffix) {
        t := t[..|t| - |suffix|];
      }
    }
    assert TitleSuffixes[..|TitleSuffixes|] == TitleSuffixes;
  }

  /** Removing suffixes only ever cuts text off the end. */
  lemma {:induction false} RemoveSuffixesIsPrefix(title: string, suffixes: seq<string>)
    ensures StartsWith(title, RemoveSuffixes(title, suffixes))
  {
    if suffixes != [] {
      var before := RemoveSuffixes(title, suffixes[..|suffixes| - 1]);
      RemoveSuffixesIsPrefix(title, suffixes[..|suffixes| - 1]);
      var after := RemoveSuffix(before, suffixes[|suffixes| - 1]);
      assert before[..|after|] == after;
      assert title[..|after|] == before[..|after|];
    }
  }

  /** A title that ends with none of the suffixes is kept whole. */
  lemma {:induction false} NoSuffixKeepsTitle(title: string, suffixes: seq<string>)
    requires forall k :: 0 <= k < |suffixes| ==> !EndsWith(title, suffixes[k])
    ensures RemoveSuffixes(title, suffixes) == title
  {
    if suffixes != [] {
      NoSuffixKeepsTitle(title, suffixes[..|suffixes| - 1]);
    }
  }

  /** The name shown for a store whose page has the given site name and title. */
  function StoreName(html: string, parsers: Parsers): string {
    var site := parsers.siteName(html);
    var title := parsers.title(html);
    if site.Some? && site.value != "" then Strip(site.value)
    else if title.Some? && title.value != "" then Strip(RemoveSuffixes(Strip(title.value), TitleSuffixes))
    else ""
  }

  /** `_extract_store_name`. */
  method ExtractStoreName(html: string, parsers: Parsers) returns (name: string)
    ensures name == StoreName(html, parsers)
  {
    var site := parsers.siteName(html);
    if site.Some? && site.value != "" {
      return Strip(site.value);
    }
    var title := parsers.title(html);
    if title.Some? && title.value != "" {
      var t := Strip(title.value);
      t := StripTitleSuffixes(t);
      return Strip(t);
    }
    return "";
  }

  /**
   * The site name wins over the title; the name is always a piece of the text it
   * came from, and without either source the name is empty.
   */
  lemma StoreNameSource(html: string, parsers: Parsers)
    ensures parsers.siteName(html).Some? && parsers.siteName(html).value != ""
            ==> Contains(parsers.siteName(html).value, StoreName(html, parsers))
    ensures !(parsers.siteName(html).Some? && parsers.siteName(html).value != "")
            && parsers.title(html).Some? && parsers.title(html).value != ""
            ==> Contains(parsers.title(html).value, StoreName(html, parsers))
    ensures (parsers.siteName(html).None? || parsers.siteName(html).value == "")
            && (parsers.title(html).None? || parsers.title(html).value == "")
            ==> StoreName(html, parsers) == ""
  {
    var title := parsers.title(html);
    if !(parsers.siteName(html).Some? && parsers.siteName(html).value != "") && title.Some? && title.value != "" {
      var s := Strip(title.value);
      var t := RemoveSuffixes(s, TitleSuffixes);
      RemoveSuffixesIsPrefix(s, TitleSuffixes);
      PrefixContained(s, t);
      ContainsTransitive(title.value, s, t);
      ContainsTransitive(title.value, t, Strip(t));
    }
  }

  /** Trying the suffixes up to `i` is trying those before `i`, then suffix `i`. */
  lemma RemoveSuffixesStep(title: string, suffixes: seq<string>, i: nat)
    requires i < |suffixes|
    ensures RemoveSuffixes(title, suffixes[..i + 1]) == RemoveSuffix(RemoveSuffixes(title, suffixes[..i]), suffixes[i])
  {
    assert suffixes[..i + 1][..i] == suffixes[..i];
  }

  /** A title built as `text + suffix` loses exactly the suffix. */
  lemma RemoveAppendedSuffix(text: string, suffix: string)
    ensures RemoveSuffix(text + suffix, suffix) == text
  {
    assert (text + suffix)[|text|..] == suffix;
  }

  /** A title whose last character differs from the suffix's does not end with it. */
  lemma LastCharRulesOut(title: string, suffix: string)
    requires title != [] && suffix != [] && title[|title| - 1] != suffix[|suffix| - 1]
    ensures !EndsWith(title, suffix)
  {
  }

  /** "Name – Home – Powered by Shopify" loses both stock suffixes. */
  lemma StackedSuffixesRemoved(name: string)
    requires forall k :: 0 <= k < |TitleSuffixes| ==> !EndsWith(name, TitleSuffixes[k])
    ensures RemoveSuffixes(name + TitleSuffixes[3] + TitleSuffixes[0], TitleSuffixes) == name
  {
    var home := name + TitleSuffixes[3];
    var full := home + TitleSuffixes[0];
    RemoveAppendedSuffix(home, TitleSuffixes[0]);
    RemoveAppendedSuffix(name, TitleSuffixes[3]);
    assert home[|home| - 1] == 'e';
    LastCharRulesOut(home, TitleSuffixes[1]);
    LastCharRulesOut(home, TitleSuffixes[2]);
    assert RemoveSuffixes(full, TitleSuffixes[..0]) == full;
    RemoveSuffixesStep(full, TitleSuffixes, 0);
    RemoveSuffixesStep(full, TitleSuffixes, 1);
    RemoveSuffixesStep(full, TitleSuffixes, 2);
    RemoveSuffixesStep(full, TitleSuffixes, 3);
    RemoveSuffixesStep(full, TitleSuffixes, 4);
    assert TitleSuffixes[..5] == TitleSuffixes;
  }

  /** "Name – Home" loses its suffix and nothing else. */
  lemma HomeSuffixRemoved(name: string)
    requires forall k :: 0 <= k < |TitleSuffixes| ==> !EndsWith(name, TitleSuffixes[k])
    ensures RemoveSuffixes(name + TitleSuffixes[3], TitleSuffixes) == name
  {
    var home := name + TitleSuffixes[3];
    assert home[|home| - 1] == 'e';
    RemoveAppendedSuffix(name, TitleSuffixes[3]);
    LastCharRulesOut(home, TitleSuffixes[0]);
    LastCharRulesOut(home, TitleSuffixes[1]);
    LastCharRulesOut(home, TitleSuffixes[2]);
    assert RemoveSuffixes(home, TitleSuffixes[..0]) == home;
    RemoveSuffixesStep(home, TitleSuffixes, 0);
    assert RemoveSuffixes(home, TitleSuffixes[..1]) == home;
    RemoveSuffixesStep(home, TitleSuffixes, 1);
    assert RemoveSuffixes(home, TitleSuffixes[..2]) == home;
    RemoveSuffixesStep(home, TitleSuffixes, 2);
    assert RemoveSuffixes(home, TitleSuffixes[..3]) == home;
    RemoveSuffixesStep(home, TitleSuffixes, 3);
    assert RemoveSuffixes(home, TitleSuffixes[..4]) == name;
    RemoveSuffixesStep(home, TitleSuffixes, 4);
    assert !EndsWith(name, TitleSuffixes[4]);
    assert TitleSuffixes[..5] == TitleSuffixes;
  }

  /** Without a site name, the name comes from the title alone. */
  lemma StoreNameFromTitle(html: string, parsers: Parsers, title: string)
    requires parsers.siteName(html).None? || parsers.siteName(html).value == ""
    requires parsers.title(html) == Some(title) && title != ""
    ensures StoreName(html, parsers) == Strip(RemoveSuffixes(Strip(title), TitleSuffixes))
  {
  }

  /** "Name – Home" followed by whitespace strips to "Name – Home". */
  lemma HomeTitleStrips(name: string, ws: string)
    requires name != [] && !IsSpace(name[0])
    requires forall i :: 0 <= i < |ws| ==> IsSpace(ws[i])
    ensures Strip(name + TitleSuffixes[3] + ws) == name + TitleSuffixes[3]
  {
    var home := name + TitleSuffixes[3];
    assert home[0] == name[0] && home[|home| - 1] == 'e';
    StripDropsTrailingSpaces(home, ws);
  }

  /**
   * A title "Name – Home" followed by any whitespace, the no-break space
   * included, names the store "Name" when the page has no site name.
   */
  lemma HomeTitleWithTrailingSpace(html: string, parsers: Parsers, name: string, ws: string)
    requires parsers.siteName(html).None? || parsers.siteName(html).value == ""
    requires parsers.title(html) == Some(name + TitleSuffixes[3] + ws)
    requires name != [] && !IsSpace(name[0]) && !IsSpace(name[|name| - 1])
    requires forall k :: 0 <= k < |TitleSuffixes| ==> !EndsWith(name, TitleSuffixes[k])
    requires forall i :: 0 <= i < |ws| ==> IsSpace(ws[i])
    ensures StoreName(html, parsers) == name
  {
    StoreNameFromTitle(html, parsers, name + TitleSuffixes[3] + ws);
    HomeTitleStrips(name, ws);
    HomeSuffixRemoved(name);
    StripDropsTrailingSpaces(name, []);
    assert name + [] == name;
  }
}
