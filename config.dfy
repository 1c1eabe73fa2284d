/**
 * The constant tables that parameterise discovery, scraping and ranking
 * (config.py), and the one computation over them, `get_enabled_countries`.
 */
module Config {

  import opened Strings

  /** One target country: its search suffixes and whether it is searched at all. */
  datatype CountryConfig = CountryConfig(
    code: string,
    name: string,
    tlds: seq<string>,
    whatsappPenetration: string,
    enabled: bool)

  /** The country table in its declaration order (a Python dict keeps insertion order). */
  const Countries: seq<CountryConfig> := [
    CountryConfig("ZA", "South Africa", [".co.za", ".za"], "high", true),
    CountryConfig("BR", "Brazil", [".com.br", ".br"], "very_high", false),
    CountryConfig("DE", "Germany", [".de"], "high", false),
    CountryConfig("NG", "Nigeria", [".ng", ".com.ng"], "high", false),
    CountryConfig("ID", "Indonesia", [".id", ".co.id"], "very_high", false),
    CountryConfig("MX", "Mexico", [".mx", ".com.mx"], "very_high", false)
  ]

  /** The countries of `cs` that are enabled, in the order of `cs`. */
  function EnabledOf(cs: seq<CountryConfig>): (r: seq<CountryConfig>)
    ensures |r| <= |cs|
    ensures forall c :: c in r <==> c in cs && c.enabled
  {
    if cs == [] then []
    else (if cs[0].enabled then [cs[0]] else []) + EnabledOf(cs[1..])
  }

  /** Filtering a joined table is joining the filtered parts: the table order is kept. */
  lemma {:induction false} EnabledOfAppend(a: seq<CountryConfig>, b: seq<CountryConfig>)
    ensures EnabledOf(a + b) == EnabledOf(a) + EnabledOf(b)
  {
    if a != [] {
      assert (a + b)[0] == a[0];
      assert (a + b)[1..] == a[1..] + b;
      EnabledOfAppend(a[1..], b);
    } else {
      assert a + b == b;
    }
  }

  /** A single country is kept exactly when it is enabled. */
  lemma EnabledOfOne(c: CountryConfig)
    ensures EnabledOf([c]) == if c.enabled then [c] else []
  {
    assert [c][1..] == [];
  }

  /** `get_enabled_countries()`. */
  function EnabledCountries(): seq<CountryConfig> {
    EnabledOf(Countries)
  }

  /** With the table as shipped, South Africa is the only country searched. */
  lemma EnabledCountriesIsSouthAfrica()
    ensures EnabledCountries() == [Countries[0]]
    ensures EnabledCountries()[0].code == "ZA"
  {
    assert EnabledOf(Countries[6..]) == [];
    assert EnabledOf(Countries[5..]) == [];
    assert EnabledOf(Countries[4..]) == [];
    assert EnabledOf(Countries[3..]) == [];
    assert EnabledOf(Countries[2..]) == [];
    assert EnabledOf(Countries[1..]) == [];
  }

  /** Every search suffix of every country starts with a dot. */
  lemma CountryTldsStartWithDot()
    ensures forall c, t :: c in Countries && t in c.tlds ==> StartsWith(t, ".")
  {
  }

  /** The placeholder a template carries for the search suffix. */
  const TldPlaceholder: string := "{tld}"

  const SitePrefix: string := "site:"

  /**
   * A dork template: the site restriction with its placeholder, a space, then
   * the search terms. Every template in the tables below is written this way.
   */
  function SiteQuery(terms: string): string {
    SitePrefix + TldPlaceholder + " " + terms
  }

  const DorkQueryTemplates: seq<string> := [
    SiteQuery("\"powered by shopify\""),
    SiteQuery("\"cdn.shopify.com\""),
    SiteQuery("inurl:myshopify"),
    SiteQuery("\"shopify\" \"add to cart\""),
    SiteQuery("\"checkout\" \"shopify\"")
  ]

  const NicheDorkTemplates: seq<string> := [
    SiteQuery("\"powered by shopify\" \"fashion\""),
    SiteQuery("\"powered by shopify\" \"beauty\""),
    SiteQuery("\"powered by shopify\" \"electronics\""),
    SiteQuery("\"powered by shopify\" \"food\""),
    SiteQuery("\"powered by shopify\" \"home\""),
    SiteQuery("\"powered by shopify\" \"jewellery\" OR \"jewelry\""),
    SiteQuery("\"powered by shopify\" \"clothing\""),
    SiteQuery("\"powered by shopify\" \"health\""),
    SiteQuery("\"powered by shopify\" \"pet\""),
    SiteQuery("\"powered by shopify\" \"sport\"")
  ]

  const DorkBatchSize: int := 10
  const DorkResultsPerQuery: int := 50

  const ContactPagePaths: seq<string> := [
    "/pages/contact",
    "/pages/contact-us",
    "/pages/about",
    "/pages/about-us",
    "/pages/kontak",
    "/pages/oor-ons",
    "/pages/get-in-touch",
    "/pages/support"
  ]

  /** No contact path is listed twice, so no contact page is requested twice. */
  lemma ContactPathsDistinct()
    ensures forall i, j :: 0 <= i < j < |ContactPagePaths| ==> ContactPagePaths[i] != ContactPagePaths[j]
  {
    forall i, j | 0 <= i < j < |ContactPagePaths| ensures ContactPagePaths[i] != ContactPagePaths[j] {
      assert |ContactPagePaths[i]| != |ContactPagePaths[j]| || ContactPagePaths[i][7] != ContactPagePaths[j][7]
             || ContactPagePaths[i][8] != ContactPagePaths[j][8];
    }
  }

  const ScrapeMaxRetries: nat := 3
  const PlaywrightEnabled: bool := true

  const JunkEmailPatterns: seq<string> := [
    "noreply@",
    "no-reply@",
    "support@shopify.com",
    "help@shopify.com",
    "@sentry.io",
    "@tally.so",
    "@bento.me",
    "@example.com",
    "@wixpress.com",
    "@wix.com",
    "@shopify.com",
    "@klaviyo.com",
    "@mailchimp.com",
    "@hubspot.com",
    "@zendesk.com"
  ]

  const FreeEmailProviders: seq<string> := [
    "gmail.com",
    "yahoo.com",
    "hotmail.com",
    "outlook.com",
    "aol.com",
    "icloud.com",
    "protonmail.com"
  ]

  /** Keyword to priority (lower is better), in the table's declaration order. */
  const EmailPriority: seq<(string, int)> := [
    ("owner", 1),
    ("founder", 1),
    ("ceo", 1),
    ("hello", 2),
    ("hi", 2),
    ("contact", 3),
    ("info", 4),
    ("enquiries", 4),
    ("enquiry", 4),
    ("sales", 5),
    ("support", 6),
    ("admin", 7)
  ]

  const DefaultEmailPriority: int := 3

  /** Priorities never decrease along a table. */
  predicate NonDecreasing(table: seq<(string, int)>) {
    forall i, j :: 0 <= i < j < |table| ==> table[i].1 <= table[j].1
  }

  /** The priority table runs from 1 to 7 without ever going down. */
  lemma EmailPriorityOrdered()
    ensures NonDecreasing(EmailPriority)
    ensures EmailPriority[0] == ("owner", 1) && EmailPriority[|EmailPriority| - 1] == ("admin", 7)
    ensures forall k :: 0 <= k < |EmailPriority| ==> 1 <= EmailPriority[k].1 <= 7
  {
  }

  /** The default priority lies strictly inside the table's range. */
  lemma DefaultPriorityWithinTable()
    ensures EmailPriority[0].1 < DefaultEmailPriority < EmailPriority[|EmailPriority| - 1].1
  {
  }

  const WhatsAppDefinitivePatterns: seq<string> := [
    "wa.me/",
    "api.whatsapp.com/send",
    "web.whatsapp.com/send"
  ]

  const WhatsAppWidgetPatterns: seq<string> := [
    "wa-chat-box",
    "whatsapp-widget",
    "elfsight.com/whatsapp",
    "whatsapp-chat-widget",
    "wa-automate",
    "wati.io"
  ]

  const WhatsAppWeakPatterns: seq<string> := [
    "whatsapp",
    "WhatsApp"
  ]

  /** All three tiers have patterns, and the deep links are definitive. */
  lemma WhatsAppTiersPopulated()
    ensures |WhatsAppDefinitivePatterns| > 0 && |WhatsAppWidgetPatterns| > 0 && |WhatsAppWeakPatterns| > 0
    ensures "wa.me/" in WhatsAppDefinitivePatterns && "api.whatsapp.com/send" in WhatsAppDefinitivePatterns
  {
  }
}
