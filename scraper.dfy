/**
 * Scraping one store and a list of stores (`scrape_store` and
 * `scrape_stores_batch` in scraper.py). A store is fetched over plain HTTP
 * (homepage with retries, then the contact pages), checked for being a live
 * Shopify storefront, mined for emails and WhatsApp, and, when no email turned
 * up, rendered in a headless browser. The two page sources are scripted
 * `PageSource` objects; `ScrapeSpec` says what a scrape returns and requests
 * for given scripts, and the methods are proved to do exactly that.
 */
module Scraper {

  import opened Wrappers
  import opened Strings
  import opened Config
  import opened Emails
  import opened WhatsApp
  import opened Fetching
  import opened StoreNames
  import Domains

  datatype ScrapeStatus = Pending | Success | Failed | Skipped {
    function Name(): string {
      match this
      case Pending => "pending"
      case Success => "success"
      case Failed => "failed"
      case Skipped => "skipped"
    }
  }

  /** The record `scrape_store` returns for one domain. */
  datatype ScrapeResult = ScrapeResult(
    domain: string,
    storeName: string,
    email: Option<string>,
    emailPriority: int,
    emailIsFreeProvider: bool,
    hasWhatsApp: bool,
    whatsAppConfidence: Confidence,
    whatsAppPhone: Option<string>,
    status: ScrapeStatus,
    error: string,
    scrapedAt: string)

  /** The priority a result without an email carries. */
  const NoEmailPriority: int := 99

  /** A new record: every field at its default, stamped with the time `now`. */
  function NewResult(domain: string, now: string): ScrapeResult {
    ScrapeResult(domain, "", None, NoEmailPriority, false, false, NoSignal, None, Pending, "", now)
  }

  const ShopifyIndicators: seq<string> := [
    "cdn.shopify.com", "shopify.com/s/", "Shopify.theme", "myshopify.com", "shopify-section"
  ]

  const PasswordIndicators: seq<string> := [
    "password-page", "storefront-password", "opening soon", "store is not available"
  ]

  /** `_is_shopify_store`: an indicator occurs, ignoring case on both sides. */
  predicate IsShopifyStore(html: string) {
    MentionsAny(html, ShopifyIndicators)
  }

  /** `_is_password_protected`: an indicator, as written, occurs in the lower-cased page. */
  predicate IsPasswordProtected(html: string) {
    exists k | 0 <= k < |PasswordIndicators| :: Contains(Lower(html), PasswordIndicators[k])
  }

  /** Both checks read the page without regard to case. */
  lemma StoreChecksIgnoreCase(html: string)
    ensures IsShopifyStore(Lower(html)) == IsShopifyStore(html)
    ensures IsPasswordProtected(Lower(html)) == IsPasswordProtected(html)
  {
    LowerIdempotent(Lower(html));
  }

  // ---------------------------------------------------------------------------
  // The requests a scrape makes
  // ---------------------------------------------------------------------------

  /** `https://{domain}`. */
  function BaseUrl(domain: string): string {
    "https://" + domain
  }

  /**
   * The scheme and authority `urlsplit` reads out of `https://{domain}`: tabs
   * and line breaks are removed and the authority ends at the first `/`, `?`
   * or `#`. For a plain host this is the base URL itself.
   */
  function Origin(domain: string): (o: string)
    ensures StartsWith(o, "https://")
    ensures Domains.NoDelimiter(o[8..]) && Domains.NoUnsafe(o[8..])
    ensures Domains.NoUnsafe(domain) && Domains.NoDelimiter(domain) ==> o == BaseUrl(domain)
  {
    var rest := Domains.RemoveUnsafe(domain);
    if Domains.NoUnsafe(domain) && Domains.NoDelimiter(domain) then
      Domains.RemoveUnsafeKeeps(domain);
      assert Domains.AuthorityEnd(rest) == |rest|;
      "https://" + rest
    else
      "https://" + rest[..Domains.AuthorityEnd(rest)]
  }

  /**
   * `urljoin(base_url, path)` for the absolute paths without `.` or `..`
   * segments that the scraper joins: the base's scheme and authority, then the path.
   */
  function JoinUrl(domain: string, path: string): string {
    Origin(domain) + path
  }

  /**
   * The contact page URLs, in the order they are requested: one per contact
   * path, each the store's origin followed by its path, no two alike.
   */
  function ContactUrls(domain: string): (r: seq<string>)
    ensures |r| == |ContactPagePaths|
    ensures forall j :: 0 <= j < |r| ==> StartsWith(r[j], Origin(domain)) && EndsWith(r[j], ContactPagePaths[j])
    ensures forall i, j :: 0 <= i < j < |r| ==> r[i] != r[j]
    ensures Domains.NoUnsafe(domain) && Domains.NoDelimiter(domain)
            ==> forall j :: 0 <= j < |r| ==> r[j] == BaseUrl(domain) + ContactPagePaths[j]
  {
    var r := seq(|ContactPagePaths|, j requires 0 <= j < |ContactPagePaths| => JoinUrl(domain, ContactPagePaths[j]));
    forall i, j | 0 <= i < j < |r| ensures r[i] != r[j] {
      ContactPathsDistinct();
      assert r[i][|Origin(domain)|..] == ContactPagePaths[i];
      assert r[j][|Origin(domain)|..] == ContactPagePaths[j];
    }
    r
  }

  /**
   * A domain with a path, query or fragment after its host is joined at the
   * host: "shop.co.za/" gives contact pages under "https://shop.co.za".
   */
  lemma OriginStopsAtDelimiter(host: string, tail: string)
    requires Domains.NoUnsafe(host) && Domains.NoDelimiter(host)
    requires Domains.NoUnsafe(tail) && tail != "" && Domains.IsDelimiter(tail[0])
    ensures Origin(host + tail) == BaseUrl(host)
    ensures ContactUrls(host + tail)[0] == BaseUrl(host) + ContactPagePaths[0]
  {
    Domains.RemoveUnsafeKeeps(host + tail);
    Domains.AuthorityEndAt(host, tail);
    assert (host + tail)[..|host|] == host;
    assert !Domains.NoDelimiter(host + tail) by {
      assert (host + tail)[|host|] == tail[0];
    }
  }

  /** The pages the browser renders: the homepage, then the first contact page. */
  function RenderUrls(domain: string): seq<string> {
    [BaseUrl(domain)] + (if |ContactPagePaths| > 0 then [JoinUrl(domain, ContactPagePaths[0])] else [])
  }

  /** The index of the first usable answer from `i` on, or `limit` when none before it is. */
  function FirstUsableFrom(answers: seq<Option<string>>, i: nat, limit: nat): nat
    decreases limit - i
  {
    if i >= limit then limit
    else if Usable(At(answers, i)) then i
    else FirstUsableFrom(answers, i + 1, limit)
  }

  lemma {:induction false} FirstUsableFromMeaning(answers: seq<Option<string>>, i: nat, limit: nat)
    requires i <= limit
    ensures i <= FirstUsableFrom(answers, i, limit) <= limit
    ensures forall j :: i <= j < FirstUsableFrom(answers, i, limit) ==> !Usable(At(answers, j))
    ensures FirstUsableFrom(answers, i, limit) < limit ==> Usable(At(answers, FirstUsableFrom(answers, i, limit)))
    decreases limit - i
  {
    if i < limit && !Usable(At(answers, i)) {
      FirstUsableFromMeaning(answers, i + 1, limit);
    }
  }

  /** The attempt (counting from 0) that first fetched the homepage; `ScrapeMaxRetries` if none did. */
  function HomeIndex(answers: seq<Option<string>>): nat {
    FirstUsableFrom(answers, 0, ScrapeMaxRetries)
  }

  /** How many homepage requests are made. */
  function HomeFetches(answers: seq<Option<string>>): nat {
    if HomeIndex(answers) < ScrapeMaxRetries then HomeIndex(answers) + 1 else ScrapeMaxRetries
  }

  /** The non-empty pages among the first `n` answers, in order. */
  function UsablePages(answers: seq<Option<string>>, n: nat): (r: seq<string>)
    ensures |r| <= n
    ensures forall p :: p in r ==> p != ""
  {
    if n == 0 then []
    else UsablePages(answers, n - 1) + (if Usable(At(answers, n - 1)) then [At(answers, n - 1).value] else [])
  }

  /** The per-page analyses a scrape applies, as functions of the page text. */
  datatype Analysis = Analysis(
    emails: string -> seq<EmailResult>,
    whatsApp: string -> WhatsAppResult,
    storeName: string -> string,
    isShopify: string -> bool,
    isPasswordProtected: string -> bool)

  /** `extract_emails(html)`: the ranked addresses of the candidates the pattern finds in a page. */
  function PageEmails(parsers: Parsers, html: string): seq<EmailResult> {
    RankEmails(parsers.findEmails(html))
  }

  /** The analyses of scraper.py: `extract_emails`, `detect_whatsapp`, `_extract_store_name` and the two checks. */
  function ScraperAnalysis(parsers: Parsers): Analysis {
    Analysis(
      html => PageEmails(parsers, html),
      html => DetectWhatsApp(html),
      html => StoreName(html, parsers),
      html => IsShopifyStore(html),
      html => IsPasswordProtected(html))
  }

  /** What the browser fallback ends with: emails, WhatsApp result and pages rendered. */
  datatype Fallback = Fallback(emails: seq<EmailResult>, whatsApp: WhatsAppResult, renders: nat)

  /** A WhatsApp result from a rendered page replaces one that found nothing. */
  function RenderedWhatsApp(current: WhatsAppResult, detected: WhatsAppResult): WhatsAppResult {
    if !current.found && detected.found then detected else current
  }

  /**
   * The browser loop from URL `i` on: the first rendered page with an email
   * ends it; a page without one may still supply a WhatsApp result.
   */
  function FallbackFrom(answers: seq<Option<string>>, urls: seq<string>, i: nat,
                        emails: seq<EmailResult>, wa: WhatsAppResult, an: Analysis): (fb: Fallback)
    requires i <= |urls|
    ensures i <= fb.renders <= |urls|
    decreases |urls| - i
  {
    if i == |urls| then Fallback(emails, wa, i)
    else
      var page := At(answers, i);
      if Usable(page) then
        var found := an.emails(page.value);
        if found != [] then Fallback(found, wa, i + 1)
        else FallbackFrom(answers, urls, i + 1, emails, RenderedWhatsApp(wa, an.whatsApp(page.value)), an)
      else FallbackFrom(answers, urls, i + 1, emails, wa, an)
  }

  /** The finished record of a store that passed the checks. */
  function Build(r: ScrapeResult, emails: seq<EmailResult>, wa: WhatsAppResult): ScrapeResult {
    var withEmail :=
      if emails != [] then
        r.(email := Some(emails[0].email), emailPriority := emails[0].priority,
           emailIsFreeProvider := emails[0].isFreeProvider)
      else r;
    withEmail.(hasWhatsApp := wa.found, whatsAppConfidence := wa.confidence,
               whatsAppPhone := wa.phone, status := Success)
  }

  /** The homepage, once one of the attempts fetched it. */
  function Homepage(fetchAnswers: seq<Option<string>>): string
    requires HomeIndex(fetchAnswers) < ScrapeMaxRetries
  {
    FirstUsableFromMeaning(fetchAnswers, 0, ScrapeMaxRetries);
    At(fetchAnswers, HomeIndex(fetchAnswers)).value
  }

  /** The text mined on a store that passed the checks: homepage and contact pages joined. */
  function CombinedPage(fetchAnswers: seq<Option<string>>): string
    requires HomeIndex(fetchAnswers) < ScrapeMaxRetries
  {
    Join([Homepage(fetchAnswers)] + UsablePages(Drop(fetchAnswers, HomeFetches(fetchAnswers)), |ContactPagePaths|), "\n")
  }

  /**
   * Steps 6 and 7: the emails and WhatsApp result of the combined page and,
   * when it has no email and the fallback is on, of the rendered pages.
   */
  function Mined(domain: string, combined: string, renderAnswers: seq<Option<string>>,
                 an: Analysis, useFallback: bool): (fb: Fallback)
    ensures fb.renders <= |RenderUrls(domain)|
  {
    var emails := an.emails(combined);
    var wa := an.whatsApp(combined);
    if emails == [] && useFallback && PlaywrightEnabled then
      FallbackFrom(renderAnswers, RenderUrls(domain), 0, emails, wa, an)
    else Fallback(emails, wa, 0)
  }

  /** A scrape: the record, and the URLs requested from each page source, in order. */
  datatype Scrape = Scrape(result: ScrapeResult, fetched: seq<string>, rendered: seq<string>)

  /** What `scrape_store` does, given the answers its two page sources will give. */
  function ScrapeSpec(domain: string, fetchAnswers: seq<Option<string>>, renderAnswers: seq<Option<string>>,
                      an: Analysis, useFallback: bool, now: string): Scrape
  {
    var homeUrls := Repeat(BaseUrl(domain), HomeFetches(fetchAnswers));
    if HomeIndex(fetchAnswers) >= ScrapeMaxRetries then
      Scrape(NewResult(domain, now).(status := Failed, error := "homepage_unreachable"), homeUrls, [])
    else
      var open := OpenStoreSpec(domain, Homepage(fetchAnswers), Drop(fetchAnswers, HomeFetches(fetchAnswers)),
                                renderAnswers, an, useFallback, now);
      Scrape(open.result, homeUrls + open.fetched, open.rendered)
  }

  /** The steps after the homepage arrived: the two checks, then the name, the contact pages and the mining. */
  function OpenStoreSpec(domain: string, home: string, contactAnswers: seq<Option<string>>,
                         renderAnswers: seq<Option<string>>, an: Analysis, useFallback: bool, now: string): Scrape
  {
    var blank := NewResult(domain, now);
    if !an.isShopify(home) then
      Scrape(blank.(status := Skipped, error := "not_shopify"), [], [])
    else if an.isPasswordProtected(home) then
      Scrape(blank.(status := Skipped, error := "password_protected"), [], [])
    else
      var combined := Join([home] + UsablePages(contactAnswers, |ContactPagePaths|), "\n");
      var fb := Mined(domain, combined, renderAnswers, an, useFallback);
      var named := blank.(storeName := an.storeName(home));
      Scrape(Build(named, fb.emails, fb.whatsApp), ContactUrls(domain), RenderUrls(domain)[..fb.renders])
  }


  // ---------------------------------------------------------------------------
  // The scraper, step by step
  // ---------------------------------------------------------------------------

  /** Step 1: up to `ScrapeMaxRetries` requests for the homepage, stopping at the first page. */
  method FetchHomepage(base: string, fetcher: PageSource) returns (home: Option<string>)
    modifies fetcher
    ensures home.Some? <==> HomeIndex(old(fetcher.answers)) < ScrapeMaxRetries
    ensures home.Some? ==> home.value == Homepage(old(fetcher.answers))
    ensures fetcher.answers == Drop(old(fetcher.answers), HomeFetches(old(fetcher.answers)))
    ensures fetcher.requested == old(fetcher.requested) + Repeat(base, HomeFetches(old(fetcher.answers)))
  {
    ghost var answers0 := fetcher.answers;
    ghost var requested0 := fetcher.requested;
    home := None;
    var attempt := 0;
    while attempt < ScrapeMaxRetries && home.None?
      invariant 0 <= attempt <= ScrapeMaxRetries
      invariant fetcher.answers == Drop(answers0, attempt)
      invariant fetcher.requested == requested0 + Repeat(base, attempt)
      invariant home.None? ==> FirstUsableFrom(answers0, attempt, ScrapeMaxRetries) == HomeIndex(answers0)
      invariant home.Some? ==> attempt >= 1 && HomeIndex(answers0) == attempt - 1 && home == At(answers0, attempt - 1)
    {
      var page := fetcher.Fetch(base);
      DropDrop(answers0, attempt, 1);
      if Usable(page) {
        home := page;
      }
      attempt := attempt + 1;
    }
  }

  /** Step 5: one request per contact page; the non-empty answers are kept in order. */
  method FetchContactPages(domain: string, fetcher: PageSource) returns (pages: seq<string>)
    modifies fetcher
    ensures pages == UsablePages(old(fetcher.answers), |ContactPagePaths|)
    ensures fetcher.answers == Drop(old(fetcher.answers), |ContactPagePaths|)
    ensures fetcher.requested == old(fetcher.requested) + ContactUrls(domain)
  {
    ghost var answers0 := fetcher.answers;
    ghost var requested0 := fetcher.requested;
    var urls := ContactUrls(domain);
    pages := [];
    for j := 0 to |ContactPagePaths|
      invariant pages == UsablePages(answers0, j)
      invariant fetcher.answers == Drop(answers0, j)
      invariant fetcher.requested == requested0 + urls[..j]
    {
      LogStep(requested0, urls, j);
      var page := fetcher.Fetch(urls[j]);
      DropDrop(answers0, j, 1);
      if Usable(page) {
        pages := pages + [page.value];
      }
    }
    assert urls[..|ContactPagePaths|] == urls;
  }

  /** Step 7: render the fallback URLs until a page yields an email. */
  method RenderFallback(urls: seq<string>, emails0: seq<EmailResult>, wa0: WhatsAppResult,
                        parsers: Parsers, renderer: PageSource)
    returns (fb: Fallback)
    modifies renderer
    ensures fb == FallbackFrom(old(renderer.answers), urls, 0, emails0, wa0, ScraperAnalysis(parsers))
    ensures renderer.answers == Drop(old(renderer.answers), fb.renders)
    ensures renderer.requested == old(renderer.requested) + urls[..fb.renders]
  {
    ghost var an := ScraperAnalysis(parsers);
    ghost var answers0 := renderer.answers;
    ghost var requested0 := renderer.requested;
    ghost var target := FallbackFrom(answers0, urls, 0, emails0, wa0, an);
    var emails, wa := emails0, wa0;
    var i := 0;
    var done := false;
    while i < |urls| && !done
      invariant 0 <= i <= |urls|
      invariant renderer.answers == Drop(answers0, i)
      invariant renderer.requested == requested0 + urls[..i]
      invariant !done ==> emails == emails0 && FallbackFrom(answers0, urls, i, emails0, wa, an) == target
      invariant done ==> target == Fallback(emails, wa, i)
      decreases |urls| - i
    {
      var page := renderer.Fetch(urls[i]);
      DropDrop(answers0, i, 1);
      assert urls[..i + 1] == urls[..i] + [urls[i]];
      if Usable(page) {
        var found := ExtractEmails(parsers.findEmails(page.value));
        assert found == an.emails(page.value);
        if found != [] {
          emails := found;
          done := true;
        } else {
          wa := RenderedWhatsApp(wa, DetectWhatsApp(page.value));
        }
      }
      i := i + 1;
    }
    fb := Fallback(emails, wa, i);
  }

  /** Steps 6 and 7 on the combined page text. */
  method MineStore(domain: string, combined: string, useFallback: bool, parsers: Parsers, renderer: PageSource)
    returns (fb: Fallback)
    modifies renderer
    ensures fb == Mined(domain, combined, old(renderer.answers), ScraperAnalysis(parsers), useFallback)
    ensures renderer.answers == Drop(old(renderer.answers), fb.renders)
    ensures renderer.requested == old(renderer.requested) + RenderUrls(domain)[..fb.renders]
  {
    var emails := ExtractEmails(parsers.findEmails(combined));
    var wa := DetectWhatsApp(combined);
    if emails == [] && useFallback && PlaywrightEnabled {
      fb := RenderFallback(RenderUrls(domain), emails, wa, parsers, renderer);
    } else {
      fb := Fallback(emails, wa, 0);
      assert RenderUrls(domain)[..0] == [];
    }
  }

  /** `scrape_store(domain, use_playwright_fallback)`, stamped with the time `now`. */
  method ScrapeStore(domain: string, useFallback: bool, now: string, parsers: Parsers,
                     fetcher: PageSource, renderer: PageSource) returns (result: ScrapeResult)
    requires fetcher != renderer
    modifies fetcher, renderer
    ensures var s := ScrapeSpec(domain, old(fetcher.answers), old(renderer.answers), ScraperAnalysis(parsers), useFallback, now);
            result == s.result
            && fetcher.requested == old(fetcher.requested) + s.fetched
            && fetcher.answers == Drop(old(fetcher.answers), |s.fetched|)
            && renderer.requested == old(renderer.requested) + s.rendered
            && renderer.answers == Drop(old(renderer.answers), |s.rendered|)
  {
    ghost var fa := fetcher.answers;
    ghost var requested0 := fetcher.requested;
    var base := BaseUrl(domain);
    var home := FetchHomepage(base, fetcher);
    if home.None? {
      result := NewResult(domain, now).(status := Failed, error := "homepage_unreachable");
      assert renderer.answers == Drop(renderer.answers, 0);
      return;
    }
    ghost var open := OpenStoreSpec(domain, home.value, fetcher.answers, renderer.answers,
                                    ScraperAnalysis(parsers), useFallback, now);
    ghost var requested1 := fetcher.requested;
    result := ScrapeOpenStore(domain, home.value, useFallback, now, parsers, fetcher, renderer);
    DropDrop(fa, HomeFetches(fa), |open.fetched|);
    AppendAssociative(requested0, Repeat(base, HomeFetches(fa)), open.fetched);
  }

  /** `scrape_store` once the homepage arrived. */
  method ScrapeOpenStore(domain: string, home: string, useFallback: bool, now: string, parsers: Parsers,
                         fetcher: PageSource, renderer: PageSource) returns (result: ScrapeResult)
    requires fetcher != renderer
    modifies fetcher, renderer
    ensures var s := OpenStoreSpec(domain, home, old(fetcher.answers), old(renderer.answers),
                                   ScraperAnalysis(parsers), useFallback, now);
            result == s.result
            && fetcher.requested == old(fetcher.requested) + s.fetched
            && fetcher.answers == Drop(old(fetcher.answers), |s.fetched|)
            && renderer.requested == old(renderer.requested) + s.rendered
            && renderer.answers == Drop(old(renderer.answers), |s.rendered|)
  {
    result := NewResult(domain, now);
    if !IsShopifyStore(home) {
      result := result.(status := Skipped, error := "not_shopify");
      assert Drop(fetcher.answers, 0) == fetcher.answers && Drop(renderer.answers, 0) == renderer.answers;
      return;
    }
    if IsPasswordProtected(home) {
      result := result.(status := Skipped, error := "password_protected");
      assert Drop(fetcher.answers, 0) == fetcher.answers && Drop(renderer.answers, 0) == renderer.answers;
      return;
    }

    var name := ExtractStoreName(home, parsers);
    result := result.(storeName := name);

    var pages := FetchContactPages(domain, fetcher);
    var combined := Join([home] + pages, "\n");

    var fb := MineStore(domain, combined, useFallback, parsers, renderer);
    result := Build(result, fb.emails, fb.whatsApp);
  }


  // ---------------------------------------------------------------------------
  // What a scrape promises, for any page analysis
  // ---------------------------------------------------------------------------

  /**
   * A store fails exactly when none of the `ScrapeMaxRetries` homepage requests
   * returned a page; the homepage is then requested that many times and nothing
   * else is.
   */
  lemma FailedMeansUnreachable(domain: string, fa: seq<Option<string>>, ra: seq<Option<string>>,
                               an: Analysis, useFallback: bool, now: string)
    ensures var s := ScrapeSpec(domain, fa, ra, an, useFallback, now);
            (s.result.status == Failed <==> forall j :: 0 <= j < ScrapeMaxRetries ==> !Usable(At(fa, j)))
            && (s.result.status == Failed ==>
                  s.result.error == "homepage_unreachable" && s.fetched == Repeat(BaseUrl(domain), ScrapeMaxRetries)
                  && s.rendered == [])
  {
    FirstUsableFromMeaning(fa, 0, ScrapeMaxRetries);
  }

  /**
   * A store is skipped exactly when its homepage arrived but does not look like
   * a Shopify storefront or is behind a password; nothing but the homepage is
   * requested.
   */
  lemma SkippedMeansNotOpen(domain: string, fa: seq<Option<string>>, ra: seq<Option<string>>,
                            an: Analysis, useFallback: bool, now: string)
    ensures var s := ScrapeSpec(domain, fa, ra, an, useFallback, now);
            s.result.status == Skipped <==>
              HomeIndex(fa) < ScrapeMaxRetries
              && (!an.isShopify(Homepage(fa)) || an.isPasswordProtected(Homepage(fa)))
    ensures var s := ScrapeSpec(domain, fa, ra, an, useFallback, now);
            s.result.status == Skipped ==>
              (s.result.error == "not_shopify" <==> !an.isShopify(Homepage(fa)))
              && (s.result.error == "not_shopify" || s.result.error == "password_protected")
              && |s.fetched| <= ScrapeMaxRetries && s.rendered == []
  {
    FirstUsableFromMeaning(fa, 0, ScrapeMaxRetries);
  }

  /** A store that is not scraped successfully keeps every default: no name, no email, no WhatsApp. */
  lemma UnsuccessfulKeepsDefaults(domain: string, fa: seq<Option<string>>, ra: seq<Option<string>>,
                                  an: Analysis, useFallback: bool, now: string)
    ensures var r := ScrapeSpec(domain, fa, ra, an, useFallback, now).result;
            r.domain == domain && r.scrapedAt == now && r.status != Pending
            && (r.status != Success ==>
                  r.storeName == "" && r.email.None? && r.emailPriority == NoEmailPriority
                  && !r.hasWhatsApp && r.whatsAppConfidence == NoSignal && r.whatsAppPhone.None?)
  {
    if HomeIndex(fa) < ScrapeMaxRetries {
      OpenStoreKeepsDefaults(domain, Homepage(fa), Drop(fa, HomeFetches(fa)), ra, an, useFallback, now);
    }
  }

  /** The part of `UnsuccessfulKeepsDefaults` after the homepage arrived. */
  lemma OpenStoreKeepsDefaults(domain: string, home: string, ca: seq<Option<string>>, ra: seq<Option<string>>,
                               an: Analysis, useFallback: bool, now: string)
    ensures var r := OpenStoreSpec(domain, home, ca, ra, an, useFallback, now).result;
            r.domain == domain && r.scrapedAt == now && r.status != Pending
            && (r.status != Success ==>
                  r.storeName == "" && r.email.None? && r.emailPriority == NoEmailPriority
                  && !r.hasWhatsApp && r.whatsAppConfidence == NoSignal && r.whatsAppPhone.None?)
  {
  }

  /** Emails the browser loop reports are the emails of the last page it rendered. */
  lemma {:induction false} FallbackEmailsFromPage(answers: seq<Option<string>>, urls: seq<string>, i: nat,
                                                  emails: seq<EmailResult>, wa: WhatsAppResult, an: Analysis)
    requires i <= |urls|
    ensures var fb := FallbackFrom(answers, urls, i, emails, wa, an);
            (fb.emails == emails && fb.renders == |urls|)
            || (i < fb.renders && Usable(At(answers, fb.renders - 1)) && fb.emails != []
                && fb.emails == an.emails(At(answers, fb.renders - 1).value))
    decreases |urls| - i
  {
    if i < |urls| {
      var page := At(answers, i);
      if Usable(page) {
        if an.emails(page.value) == [] {
          FallbackEmailsFromPage(answers, urls, i + 1, emails, RenderedWhatsApp(wa, an.whatsApp(page.value)), an);
        }
      } else {
        FallbackEmailsFromPage(answers, urls, i + 1, emails, wa, an);
      }
    }
  }

  /** The browser loop only ever replaces a WhatsApp result that found nothing, and never by a weaker one. */
  lemma {:induction false} FallbackWhatsAppKept(answers: seq<Option<string>>, urls: seq<string>, i: nat,
                                                emails: seq<EmailResult>, wa: WhatsAppResult, an: Analysis)
    requires i <= |urls|
    requires wa.found <==> wa.confidence != NoSignal
    requires forall h :: an.whatsApp(h).found <==> an.whatsApp(h).confidence != NoSignal
    ensures var fb := FallbackFrom(answers, urls, i, emails, wa, an);
            fb.whatsApp.confidence.Rank() >= wa.confidence.Rank()
            && (fb.whatsApp.found <==> fb.whatsApp.confidence != NoSignal)
            && (wa.found ==> fb.whatsApp == wa)
    decreases |urls| - i
  {
    if i < |urls| {
      var page := At(answers, i);
      if Usable(page) {
        if an.emails(page.value) == [] {
          FallbackWhatsAppKept(answers, urls, i + 1, emails, RenderedWhatsApp(wa, an.whatsApp(page.value)), an);
        }
      } else {
        FallbackWhatsAppKept(answers, urls, i + 1, emails, wa, an);
      }
    }
  }

  /**
   * On success the email kept is the first of the plain pages' list when that
   * list is not empty, and nothing is rendered then; otherwise it is the first
   * of the list of the one rendered page that had any, or there is none.
   */
  lemma SuccessEmailChosen(domain: string, fa: seq<Option<string>>, ra: seq<Option<string>>,
                           an: Analysis, useFallback: bool, now: string)
    requires ScrapeSpec(domain, fa, ra, an, useFallback, now).result.status == Success
    ensures HomeIndex(fa) < ScrapeMaxRetries
    ensures var s := ScrapeSpec(domain, fa, ra, an, useFallback, now);
            var plain := an.emails(CombinedPage(fa));
            && (plain != [] ==> s.result.email == Some(plain[0].email) && s.result.emailPriority == plain[0].priority
                                && s.result.emailIsFreeProvider == plain[0].isFreeProvider && s.rendered == [])
            && (plain == [] && !useFallback ==> s.result.email.None? && s.rendered == [])
            && (plain == [] && s.result.email.Some? ==>
                  exists j :: 0 <= j < |s.rendered| && Usable(At(ra, j)) && an.emails(At(ra, j).value) != []
                              && s.result.email == Some(an.emails(At(ra, j).value)[0].email)
                              && s.result.emailPriority == an.emails(At(ra, j).value)[0].priority
                              && s.result.emailIsFreeProvider == an.emails(At(ra, j).value)[0].isFreeProvider)
  {
    if HomeIndex(fa) < ScrapeMaxRetries {
      var plain := an.emails(CombinedPage(fa));
      if plain == [] && useFallback {
        var urls := RenderUrls(domain);
        FallbackEmailsFromPage(ra, urls, 0, plain, an.whatsApp(CombinedPage(fa)), an);
        var fb := FallbackFrom(ra, urls, 0, plain, an.whatsApp(CombinedPage(fa)), an);
        if fb.emails != [] {
          assert 0 <= fb.renders - 1 < |urls[..fb.renders]|;
        }
      }
    }
  }

  /**
   * The WhatsApp verdict is never weaker than what the plain pages showed: a
   * signal found there is kept as it was.
   */
  lemma WhatsAppNeverDowngraded(domain: string, fa: seq<Option<string>>, ra: seq<Option<string>>,
                                an: Analysis, useFallback: bool, now: string)
    requires ScrapeSpec(domain, fa, ra, an, useFallback, now).result.status == Success
    requires forall h :: an.whatsApp(h).found <==> an.whatsApp(h).confidence != NoSignal
    ensures HomeIndex(fa) < ScrapeMaxRetries
    ensures var r := ScrapeSpec(domain, fa, ra, an, useFallback, now).result;
            var plain := an.whatsApp(CombinedPage(fa));
            (plain.found ==> r.hasWhatsApp && r.whatsAppConfidence == plain.confidence && r.whatsAppPhone == plain.phone)
            && r.whatsAppConfidence.Rank() >= plain.confidence.Rank()
            && r.hasWhatsApp == (r.whatsAppConfidence != NoSignal)
  {
    if HomeIndex(fa) < ScrapeMaxRetries {
      var combined := CombinedPage(fa);
      if an.emails(combined) == [] && useFallback {
        FallbackWhatsAppKept(ra, RenderUrls(domain), 0, an.emails(combined), an.whatsApp(combined), an);
      }
    }
  }

  /**
   * Request counts: at most `ScrapeMaxRetries` homepage requests, every contact
   * page once after the checks pass, and at most two rendered pages, only after
   * the plain pages gave no email.
   */
  lemma RequestBudget(domain: string, fa: seq<Option<string>>, ra: seq<Option<string>>,
                      an: Analysis, useFallback: bool, now: string)
    ensures var s := ScrapeSpec(domain, fa, ra, an, useFallback, now);
            1 <= |s.fetched| <= ScrapeMaxRetries + |ContactPagePaths|
            && (s.result.status == Success ==> |s.fetched| == HomeFetches(fa) + |ContactPagePaths|)
            && |s.rendered| <= 2
            && (s.rendered != [] ==> s.result.status == Success && useFallback && an.emails(CombinedPage(fa)) == [])
  {
  }

  // ---------------------------------------------------------------------------
  // What a scrape promises with the scraper's own analysis
  // ---------------------------------------------------------------------------

  /**
   * On success the email kept is lower case, not junk, and carries its own
   * priority (between 1 and 7) and free-provider flag; when the plain pages had
   * addresses, it is the best-ranked of them.
   */
  lemma SuccessEmailIsBestRanked(domain: string, fa: seq<Option<string>>, ra: seq<Option<string>>,
                                 parsers: Parsers, useFallback: bool, now: string)
    requires ScrapeSpec(domain, fa, ra, ScraperAnalysis(parsers), useFallback, now).result.status == Success
    ensures HomeIndex(fa) < ScrapeMaxRetries
    ensures var r := ScrapeSpec(domain, fa, ra, ScraperAnalysis(parsers), useFallback, now).result;
            r.email.Some? ==>
              IsLower(r.email.value) && !IsJunk(r.email.value)
              && r.emailPriority == Priority(r.email.value) && 1 <= r.emailPriority <= 7
              && r.emailIsFreeProvider == IsFreeProvider(r.email.value)
    ensures var r := ScrapeSpec(domain, fa, ra, ScraperAnalysis(parsers), useFallback, now).result;
            var plain := PageEmails(parsers, CombinedPage(fa));
            plain != [] ==> r.email == Some(plain[0].email) && forall e :: e in plain ==> KeyLe(plain[0], e)
  {
    var an := ScraperAnalysis(parsers);
    SuccessEmailChosen(domain, fa, ra, an, useFallback, now);
    var r := ScrapeSpec(domain, fa, ra, an, useFallback, now).result;
    var s := ScrapeSpec(domain, fa, ra, an, useFallback, now);
    var plain := an.emails(CombinedPage(fa));
    assert plain == PageEmails(parsers, CombinedPage(fa));
    if plain != [] {
      BestEmailIsTop(parsers.findEmails(CombinedPage(fa)));
    } else if r.email.Some? {
      var j :| 0 <= j < |s.rendered| && Usable(At(ra, j)) && an.emails(At(ra, j).value) != []
               && r.email == Some(an.emails(At(ra, j).value)[0].email)
               && r.emailPriority == an.emails(At(ra, j).value)[0].priority
               && r.emailIsFreeProvider == an.emails(At(ra, j).value)[0].isFreeProvider;
      assert an.emails(At(ra, j).value) == PageEmails(parsers, At(ra, j).value);
      BestEmailIsTop(parsers.findEmails(At(ra, j).value));
    }
  }

  /** The first address of a non-empty ranked list is well formed and has the best key. */
  lemma BestEmailIsTop(raw: seq<string>)
    ensures RankEmails(raw) != [] ==>
              var top := RankEmails(raw)[0];
              IsLower(top.email) && !IsJunk(top.email) && top.priority == Priority(top.email)
              && 1 <= top.priority <= 7 && top.isFreeProvider == IsFreeProvider(top.email)
              && forall e :: e in RankEmails(raw) ==> KeyLe(top, e)
  {
    if RankEmails(raw) != [] {
      var top := RankEmails(raw)[0];
      RankEmailsWellFormed(raw);
      assert top in RankEmails(raw);
      PriorityInRange(top.email);
      BestEmailFirst(raw);
    }
  }

  /** The homepage's own WhatsApp evidence survives joining it with the contact pages. */
  lemma CombinedRatesAtLeastHomepage(fa: seq<Option<string>>)
    requires HomeIndex(fa) < ScrapeMaxRetries
    ensures DetectWhatsApp(CombinedPage(fa)).confidence.Rank() >= DetectWhatsApp(Homepage(fa)).confidence.Rank()
  {
    var home := Homepage(fa);
    var rest := UsablePages(Drop(fa, HomeFetches(fa)), |ContactPagePaths|);
    if rest == [] {
      assert [home] + rest == [home];
    } else {
      assert ([home] + rest)[1..] == rest;
      assert CombinedPage(fa) == home + ("\n" + Join(rest, "\n"));
      ConfidenceMonotone(home, "\n" + Join(rest, "\n"));
    }
  }

  /** The scraper's WhatsApp analysis reports a find exactly when it has a confidence level. */
  lemma ScraperWhatsAppConsistent(parsers: Parsers)
    ensures forall h :: ScraperAnalysis(parsers).whatsApp(h).found <==> ScraperAnalysis(parsers).whatsApp(h).confidence != NoSignal
  {
  }

  // ---------------------------------------------------------------------------
  // A list of stores
  // ---------------------------------------------------------------------------

  /** What `scrape_stores_batch` returns: each store scraped in turn, the sources shared. */
  function BatchSpec(domains: seq<string>, fa: seq<Option<string>>, ra: seq<Option<string>>,
                     an: Analysis, useFallback: bool, now: seq<string>): (r: seq<ScrapeResult>)
    requires |now| == |domains|
    ensures |r| == |domains|
  {
    if domains == [] then []
    else
      var s := ScrapeSpec(domains[0], fa, ra, an, useFallback, now[0]);
      [s.result] + BatchSpec(domains[1..], Drop(fa, |s.fetched|), Drop(ra, |s.rendered|), an, useFallback, now[1..])
  }

  /** The URLs a batch requests from each page source, in order. */
  datatype Logs = Logs(fetched: seq<string>, rendered: seq<string>)

  /** The requests of the whole batch: each store's requests, store after store. */
  function BatchLogs(domains: seq<string>, fa: seq<Option<string>>, ra: seq<Option<string>>,
                     an: Analysis, useFallback: bool, now: seq<string>): Logs
    requires |now| == |domains|
  {
    if domains == [] then Logs([], [])
    else
      var s := ScrapeSpec(domains[0], fa, ra, an, useFallback, now[0]);
      var rest := BatchLogs(domains[1..], Drop(fa, |s.fetched|), Drop(ra, |s.rendered|), an, useFallback, now[1..]);
      Logs(s.fetched + rest.fetched, s.rendered + rest.rendered)
  }

  /**
   * A batch makes at most `ScrapeMaxRetries + |ContactPagePaths|` plain requests
   * and at most two renders per store, and every store gets at least one request.
   */
  lemma {:induction false} BatchBudget(domains: seq<string>, fa: seq<Option<string>>, ra: seq<Option<string>>,
                                       an: Analysis, useFallback: bool, now: seq<string>)
    requires |now| == |domains|
    ensures var logs := BatchLogs(domains, fa, ra, an, useFallback, now);
            |domains| <= |logs.fetched| <= (ScrapeMaxRetries + |ContactPagePaths|) * |domains|
            && |logs.rendered| <= 2 * |domains|
  {
    if domains != [] {
      var s := ScrapeSpec(domains[0], fa, ra, an, useFallback, now[0]);
      RequestBudget(domains[0], fa, ra, an, useFallback, now[0]);
      var rest := BatchLogs(domains[1..], Drop(fa, |s.fetched|), Drop(ra, |s.rendered|), an, useFallback, now[1..]);
      BatchBudget(domains[1..], Drop(fa, |s.fetched|), Drop(ra, |s.rendered|), an, useFallback, now[1..]);
      var perStore := ScrapeMaxRetries + |ContactPagePaths|;
      assert perStore * |domains| == perStore * |domains[1..]| + perStore;
      assert BatchLogs(domains, fa, ra, an, useFallback, now) == Logs(s.fetched + rest.fetched, s.rendered + rest.rendered);
    }
  }

  /** Record `i` is the one for domain `i`, and no record is left pending. */
  predicate Settled(r: seq<ScrapeResult>, domains: seq<string>)
  {
    |r| == |domains| && forall i :: 0 <= i < |domains| ==> r[i].domain == domains[i] && r[i].status != Pending
  }

  lemma SettledCons(head: ScrapeResult, rest: seq<ScrapeResult>, domains: seq<string>)
    requires domains != [] && head.domain == domains[0] && head.status != Pending
    requires Settled(rest, domains[1..])
    ensures Settled([head] + rest, domains)
  {
    var r := [head] + rest;
    forall i | 0 <= i < |domains| ensures r[i].domain == domains[i] && r[i].status != Pending {
      if i > 0 {
        assert r[i] == rest[i - 1];
      }
    }
  }

  /** The batch returns one record per domain, in order, and none is left pending. */
  lemma {:induction false} BatchResultsShape(domains: seq<string>, fa: seq<Option<string>>, ra: seq<Option<string>>,
                                             an: Analysis, useFallback: bool, now: seq<string>)
    requires |now| == |domains|
    ensures Settled(BatchSpec(domains, fa, ra, an, useFallback, now), domains)
  {
    if domains != [] {
      var s := ScrapeSpec(domains[0], fa, ra, an, useFallback, now[0]);
      UnsuccessfulKeepsDefaults(domains[0], fa, ra, an, useFallback, now[0]);
      BatchResultsShape(domains[1..], Drop(fa, |s.fetched|), Drop(ra, |s.rendered|), an, useFallback, now[1..]);
      SettledCons(s.result, BatchSpec(domains[1..], Drop(fa, |s.fetched|), Drop(ra, |s.rendered|), an, useFallback, now[1..]), domains);
    }
  }

  /** One step of the batch: the first store is scraped, the rest see the answers it left. */
  lemma BatchSpecStep(domains: seq<string>, i: nat, fa: seq<Option<string>>, ra: seq<Option<string>>,
                      an: Analysis, useFallback: bool, now: seq<string>)
    requires |now| == |domains| && i < |domains|
    ensures var s := ScrapeSpec(domains[i], fa, ra, an, useFallback, now[i]);
            BatchSpec(domains[i..], fa, ra, an, useFallback, now[i..])
            == [s.result] + BatchSpec(domains[i + 1..], Drop(fa, |s.fetched|), Drop(ra, |s.rendered|), an, useFallback, now[i + 1..])
  {
    assert domains[i..][1..] == domains[i + 1..] && now[i..][1..] == now[i + 1..];
    assert domains[i..][0] == domains[i] && now[i..][0] == now[i];
  }

  /** A source that served one store's requests is that much further along the batch's requests. */
  lemma LogAdvance(log0: seq<string>, log1: seq<string>, answers0: seq<Option<string>>, answers1: seq<Option<string>>,
                   mine: seq<string>, later: seq<string>)
    requires log1 == log0 + mine && answers1 == Drop(answers0, |mine|)
    ensures log1 + later == log0 + (mine + later)
    ensures Drop(answers1, |later|) == Drop(answers0, |mine + later|)
  {
    AppendAssociative(log0, mine, later);
    DropDrop(answers0, |mine|, |later|);
  }

  /** One step of the batch's requests: the store's own, then those of the stores after it. */
  lemma BatchLogsStep(domains: seq<string>, i: nat, fa: seq<Option<string>>, ra: seq<Option<string>>,
                      an: Analysis, useFallback: bool, now: seq<string>)
    requires |now| == |domains| && i < |domains|
    ensures var s := ScrapeSpec(domains[i], fa, ra, an, useFallback, now[i]);
            var rest := BatchLogs(domains[i + 1..], Drop(fa, |s.fetched|), Drop(ra, |s.rendered|), an, useFallback, now[i + 1..]);
            BatchLogs(domains[i..], fa, ra, an, useFallback, now[i..]) == Logs(s.fetched + rest.fetched, s.rendered + rest.rendered)
  {
    assert domains[i..][1..] == domains[i + 1..] && now[i..][1..] == now[i + 1..];
    assert domains[i..][0] == domains[i] && now[i..][0] == now[i];
  }

  /** What the two page sources have been asked so far and have still to answer. */
  datatype Sources = Sources(fetched: seq<string>, fetchAnswers: seq<Option<string>>,
                             rendered: seq<string>, renderAnswers: seq<Option<string>>)

  function Snapshot(fetcher: PageSource, renderer: PageSource): Sources
    reads fetcher, renderer
  {
    Sources(fetcher.requested, fetcher.answers, renderer.requested, renderer.answers)
  }

  /**
   * Part way through a batch, at store `i`: the records so far followed by
   * those still due are the batch's records, and the requests made so far
   * followed by those still due are the batch's requests.
   */
  ghost predicate OnTrack(domains: seq<string>, now: seq<string>, an: Analysis, useFallback: bool, i: nat,
                          results: seq<ScrapeResult>, cur: Sources, start: Sources)
  {
    && |now| == |domains| && i <= |domains|
    && var left := BatchLogs(domains[i..], cur.fetchAnswers, cur.renderAnswers, an, useFallback, now[i..]);
       var logs := BatchLogs(domains, start.fetchAnswers, start.renderAnswers, an, useFallback, now);
       && results + BatchSpec(domains[i..], cur.fetchAnswers, cur.renderAnswers, an, useFallback, now[i..])
          == BatchSpec(domains, start.fetchAnswers, start.renderAnswers, an, useFallback, now)
       && cur.fetched + left.fetched == start.fetched + logs.fetched
       && cur.rendered + left.rendered == start.rendered + logs.rendered
       && Drop(cur.fetchAnswers, |left.fetched|) == Drop(start.fetchAnswers, |logs.fetched|)
       && Drop(cur.renderAnswers, |left.rendered|) == Drop(start.renderAnswers, |logs.rendered|)
  }

  /** Before the first store nothing is done and everything is due. */
  lemma OnTrackStart(domains: seq<string>, now: seq<string>, an: Analysis, useFallback: bool, start: Sources)
    requires |now| == |domains|
    ensures OnTrack(domains, now, an, useFallback, 0, [], start, start)
  {
    assert domains[0..] == domains && now[0..] == now;
    assert [] + BatchSpec(domains, start.fetchAnswers, start.renderAnswers, an, useFallback, now)
           == BatchSpec(domains, start.fetchAnswers, start.renderAnswers, an, useFallback, now);
  }

  /** After the last store the records are the batch's and the sources have served exactly its requests. */
  lemma OnTrackDone(domains: seq<string>, now: seq<string>, an: Analysis, useFallback: bool,
                    results: seq<ScrapeResult>, cur: Sources, start: Sources)
    requires OnTrack(domains, now, an, useFallback, |domains|, results, cur, start)
    ensures results == BatchSpec(domains, start.fetchAnswers, start.renderAnswers, an, useFallback, now)
    ensures var logs := BatchLogs(domains, start.fetchAnswers, start.renderAnswers, an, useFallback, now);
            cur.fetched == start.fetched + logs.fetched
            && cur.fetchAnswers == Drop(start.fetchAnswers, |logs.fetched|)
            && cur.rendered == start.rendered + logs.rendered
            && cur.renderAnswers == Drop(start.renderAnswers, |logs.rendered|)
  {
    assert domains[|domains|..] == [] && now[|domains|..] == [];
    assert results + [] == results;
    assert cur.fetched + [] == cur.fetched && cur.rendered + [] == cur.rendered;
  }

  /**
   * The body of the batch loop: store `i` is scraped with the answers the
   * earlier stores left, its record is the next of the batch's, and its
   * requests are the next the batch makes.
   */
  method ScrapeNext(domains: seq<string>, i: nat, useFallback: bool, now: seq<string>, parsers: Parsers,
                    fetcher: PageSource, renderer: PageSource, results: seq<ScrapeResult>, ghost start: Sources)
    returns (result: ScrapeResult)
    requires fetcher != renderer
    requires i < |domains|
    requires OnTrack(domains, now, ScraperAnalysis(parsers), useFallback, i, results, Snapshot(fetcher, renderer), start)
    modifies fetcher, renderer
    ensures OnTrack(domains, now, ScraperAnalysis(parsers), useFallback, i + 1, results + [result], Snapshot(fetcher, renderer), start)
  {
    ghost var an := ScraperAnalysis(parsers);
    ghost var cur := Snapshot(fetcher, renderer);
    ghost var fa, ra := cur.fetchAnswers, cur.renderAnswers;
    ghost var s := ScrapeSpec(domains[i], fa, ra, an, useFallback, now[i]);
    ghost var restLogs := BatchLogs(domains[i + 1..], Drop(fa, |s.fetched|), Drop(ra, |s.rendered|), an, useFallback, now[i + 1..]);
    ghost var rest := BatchSpec(domains[i + 1..], Drop(fa, |s.fetched|), Drop(ra, |s.rendered|), an, useFallback, now[i + 1..]);
    BatchSpecStep(domains, i, fa, ra, an, useFallback, now);
    BatchLogsStep(domains, i, fa, ra, an, useFallback, now);
    result := ScrapeStore(domains[i], useFallback, now[i], parsers, fetcher, renderer);
    AppendAssociative(results, [result], rest);
    LogAdvance(cur.fetched, fetcher.requested, fa, fetcher.answers, s.fetched, restLogs.fetched);
    LogAdvance(cur.rendered, renderer.requested, ra, renderer.answers, s.rendered, restLogs.rendered);
  }

  /** `scrape_stores_batch(domains, use_playwright_fallback)`; `now[i]` is the time store `i` is stamped with. */
  method ScrapeStoresBatch(domains: seq<string>, useFallback: bool, now: seq<string>, parsers: Parsers,
                           fetcher: PageSource, renderer: PageSource) returns (results: seq<ScrapeResult>)
    requires fetcher != renderer
    requires |now| == |domains|
    modifies fetcher, renderer
    ensures results == BatchSpec(domains, old(fetcher.answers), old(renderer.answers), ScraperAnalysis(parsers), useFallback, now)
    ensures var logs := BatchLogs(domains, old(fetcher.answers), old(renderer.answers), ScraperAnalysis(parsers), useFallback, now);
            fetcher.requested == old(fetcher.requested) + logs.fetched
            && fetcher.answers == Drop(old(fetcher.answers), |logs.fetched|)
            && renderer.requested == old(renderer.requested) + logs.rendered
            && renderer.answers == Drop(old(renderer.answers), |logs.rendered|)
  {
    ghost var an := ScraperAnalysis(parsers);
    ghost var start := Snapshot(fetcher, renderer);
    OnTrackStart(domains, now, an, useFallback, start);
    results := [];
    for i := 0 to |domains|
      invariant OnTrack(domains, now, an, useFallback, i, results, Snapshot(fetcher, renderer), start)
    {
      var result := ScrapeNext(domains, i, useFallback, now, parsers, fetcher, renderer, results, start);
      results := results + [result];
    }
    OnTrackDone(domains, now, an, useFallback, results, Snapshot(fetcher, renderer), start);
  }

}
