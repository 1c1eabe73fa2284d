# Shopify store scraper — a verified model of its core

This project models, in Dafny, the decision logic of a lead-generation pipeline for small online shops. The pipeline has four stages:

- **Discovery.** Search-engine "dork" queries are built for each enabled country. Their result URLs are normalised to bare domains. Domains never met before are recorded in a persistent ledger. A persistent cursor lets each run resume where the previous one stopped.
- **Scraping.** Each store is scraped with a bounded homepage retry, then a storefront check and a password check. Contact pages are collected next. The best email address and a WhatsApp signal are mined from the combined text. A browser-render fallback runs only when no email was found.
- **Verification.** Each email is checked against a Reacher service, with a bounded retry loop and a health check before a batch.
- **Output.** Scrape rows are joined with verification results, filtered to successful scrapes and sorted by a six-tier lead key. The lead file can be read back, and a summary counts the leads.

The outside world enters the model as scripted values. Each source below is a small class whose method hands out the next scripted answer and logs the request, so contracts can state exactly which requests were made:
- page fetches and browser renders (`Fetching.PageSource`);
- search results (`Discovery.SearchEngine`);
- the Reacher transport and its health check (`Verifier.Reacher`).

The email regex scan and the HTML parser are parameters (`Scraper.Parsers`). The persisted JSON files are values (`Ledger.LedgerFile`, `Cursor.StateFile`). Timestamps are parameters. Sleeps are counted rather than performed.

Modules, following the source files:

| module | file | models |
|---|---|---|
| `Config` | config.dfy | config.py: country table, templates, keyword and pattern tables, constants |
| `Emails` | emails.dfy | scraper.py: `_is_junk_email`, `_is_free_provider`, `_get_email_priority`, `extract_emails` |
| `WhatsApp` | whatsapp.dfy | scraper.py: `detect_whatsapp` and the `wa.me/` phone pattern |
| `StoreNames` | storename.dfy | scraper.py: `_extract_store_name` (title-suffix loop) |
| `Fetching` | fetching.dfy | scraper.py: `_fetch_page_requests` / `_fetch_page_playwright` as scripted page sources |
| `Scraper` | scraper.dfy | scraper.py: `_is_shopify_store`, `_is_password_protected`, `scrape_store`, `scrape_stores_batch` |
| `Domains` | domains.dfy | discovery.py: `normalize_domain`, `_extract_domains_from_urls` |
| `Ledger` | ledger.dfy | discovery.py: `SeenDomains` |
| `Cursor` | cursor.dfy | discovery.py: `DorkState` |
| `Queries` | queries.dfy | discovery.py: `generate_dork_queries` |
| `Discovery` | discovery.dfy | discovery.py: `discover_stores` |
| `Verifier` | verifier.dfy | verifier.py: `_parse_reacher_response`, `verify_email`, `verify_emails_batch` |
| `Leads` | leads.dfy | output.py: `merge_results`, `_lead_sort_key`, `sort_leads`, `generate_csv`, `load_csv`, `print_summary` |
| `StableSort` | sorting.dfy | Python's stable `sorted` / `list.sort`, as used by scraper.py and output.py |
| `Strings`, `Wrappers` | strings.dfy, wrappers.dfy | `str.lower`, `str.strip`, `in`, `int()`, string order; `Option` |

Where the code and its documentation disagree, the model follows the code:
- The docstring of `_extract_domains_from_urls` (discovery.py:256-260) says myshopify subdomains are filtered out. No code does this, so the model keeps them.
- `normalize_domain` strips `www.` once. A host `www.www.shop.co.za` therefore normalises to `www.shop.co.za`, and `Domains.NormalizeDomainShape` does not claim that no result starts with `www.`.

## Model

| member | source | states |
|---|---|---|
| Config.EnabledOf | config.py:72-74 | the enabled countries are exactly the table's countries with `enabled` set, and no more than the table holds |
| Config.EnabledOfAppend | config.py:72-74 | filtering a joined table is joining the filtered parts, so the enabled countries keep the table's order |
| Config.EnabledOfOne | config.py:74 | a single country is kept exactly when its `enabled` flag is set |
| Config.EnabledCountriesIsSouthAfrica | config.py:26-74 | with the shipped table, `get_enabled_countries()` is the single country ZA |
| Config.CountryTldsStartWithDot | config.py:26-69 | every search suffix of every country starts with `.` |
| Config.EmailPriorityOrdered | config.py:185-198 | priorities never decrease in table order; they run from owner=1 to admin=7 |
| Config.DefaultPriorityWithinTable | config.py:185-199 | the default priority 3 lies strictly between the table's first and last priorities |
| Config.WhatsAppTiersPopulated | config.py:207-227 | all three WhatsApp tiers are non-empty; `wa.me/` and `api.whatsapp.com/send` are definitive |
| Config.ContactPathsDistinct | config.py:126-135 | no contact path is listed twice |
| Strings.Lower | scraper.py:95 | `str.lower` maps every ASCII capital to its small letter and keeps every other character and the length |
| Strings.Strip | scraper.py:298 | `str.strip` keeps the middle of its input unchanged and cuts off only the characters `str.isspace` accepts (Unicode spaces such as U+00A0 included) at both ends; the result neither starts nor ends with one |
| Strings.TrimStartCutsSpaces | scraper.py:298 | what the leading strip cuts off is whitespace, and nothing else |
| Strings.TrimEndCutsSpaces | scraper.py:298 | what the trailing strip cuts off is whitespace, and nothing else |
| Strings.StripDropsOuterSpaces | scraper.py:294-304 | whitespace put before and after a text without outer whitespace is stripped off again, and the text is kept whole |
| Strings.TrimStartDropsSpaces | scraper.py:298 | whitespace put in front of a text that starts with a non-space is exactly what the leading strip removes |
| Strings.StripDropsTrailingSpaces | scraper.py:298 | any whitespace appended to a text without outer whitespace is stripped off again, and nothing else is |
| Strings.ParseInt | output.py:111 | `int(s)` succeeds exactly on stripped text of digits with an optional sign, and reads plain digits as their decimal value |
| Emails.FirstMatchIsBestMatch | scraper.py:124-134 | on a non-decreasing table, the first matching keyword gives the smallest priority of all matches; the default applies only when nothing matches |
| Emails.IsJunk | scraper.py:93-115 | `_is_junk_email`, on the lower-cased address; `RankEmailsSound`, `RankEmailsComplete` and `NoEmailIffAllJunk` state what it filters |
| Emails.IsFreeProvider | scraper.py:118-121 | `_is_free_provider`: the part after the last `@` is a listed free provider; `RankEmailsWellFormed` and `RankEmailsOrder` state its use |
| Emails.Priority | scraper.py:124-134 | `_get_email_priority`; `FirstMatchIsBestMatch`, `PriorityInRange` and `SubstringKeywordMatch` state its properties |
| Emails.PriorityInRange | scraper.py:124-134 | every address gets a priority between 1 and 7 |
| Emails.SubstringKeywordMatch | scraper.py:130-133 | keywords match as substrings: local part `shipping` contains `hi` and ranks 2 |
| Emails.KeyLeIsTotalPreorder | scraper.py:171-172 | the `(priority, is_free_provider)` tuple comparison is total and transitive |
| Emails.ExtractEmails | scraper.py:137-174 | the method returns the deduplicated, junk-filtered, ranked and stably sorted list of the candidates |
| Emails.DedupLoop | scraper.py:149-156 | the `seen`-set loop keeps the first spelling of each lower-cased address, in order |
| Emails.RankLoop | scraper.py:158-169 | the filter loop ranks every non-junk address, in order |
| Emails.RankedIsStable | scraper.py:93-121 | a ranked address is lower case; junk, priority and provider tests give the same answer on it as on the original |
| Emails.DedupDistinct | scraper.py:149-156 | the kept spellings are pairwise distinct ignoring case |
| Emails.DedupCoversLower | scraper.py:149-156 | deduplication loses no lower-cased address |
| Emails.DedupSubset | scraper.py:149-156 | every kept spelling is one of the candidates |
| Emails.DedupKeepsFirst | scraper.py:149-156 | each kept spelling is the first candidate with its lower-cased form |
| Emails.SurvivorsAreRankedNonJunk | scraper.py:158-169 | a result survives exactly when it is the ranking of a non-junk deduplicated address |
| Emails.SurvivorsDistinct | scraper.py:158-169 | addresses distinct ignoring case give results with distinct addresses |
| Emails.RankEmailsWellFormed | scraper.py:158-174 | every returned address is lower case, not junk, and carries its own priority and free-provider flag |
| Emails.RankEmails | scraper.py:137-174 | the specification of `extract_emails`; `RankEmailsSound`, `RankEmailsComplete`, `RankEmailsDistinct` and `RankEmailsOrder` state what it returns |
| Emails.RankEmailsDistinct | scraper.py:149-174 | no address is returned twice |
| Emails.RankEmailsSound | scraper.py:147-174 | every returned address is the lower-cased form of a non-junk candidate |
| Emails.RankEmailsComplete | scraper.py:149-169 | every non-junk candidate is returned, lower-cased |
| Emails.RankEmailsOrder | scraper.py:171-172 | output sorted by `(priority, is_free_provider)`; non-free first at equal priority; equal keys keep first-seen order |
| Emails.RankEmailsEmpty | scraper.py:147-174 | no candidates give an empty list |
| Emails.BestEmailFirst | scraper.py:171-172 | the first returned address has a key no worse than any other returned |
| Emails.NoEmailIffAllJunk | scraper.py:158-169 | the list is empty exactly when every candidate is junk |
| WhatsApp.PhoneAtShape | scraper.py:196-198 | a match captures `+`? and 7–15 digits, and the page holds `wa.me/` followed by it at the match position |
| WhatsApp.FindPhoneFromIsLeftmost | scraper.py:197 | `re.search` finds a phone exactly when some position matches, and returns the capture at the leftmost one |
| WhatsApp.FindPhone | scraper.py:196-198 | the phone of `detect_whatsapp`: the search from the start of the page; `FindPhoneFromIsLeftmost` and `PhoneAtShape` state what it finds |
| WhatsApp.DetectWhatsApp | scraper.py:181-214 | `found` holds exactly when the confidence is not `none`; a phone only comes with `definitive` |
| WhatsApp.ConfidenceMeansTier | scraper.py:191-214 | strict precedence: each confidence means its tier matches and no stronger one does; `none` means no tier matches |
| WhatsApp.FoundPhoneComesFromLink | scraper.py:196-198 | a number the search finds is well formed and appears right after `wa.me/` in the page |
| WhatsApp.PhoneComesFromLink | scraper.py:193-200 | a reported phone is a well-formed number from a `wa.me/` link of the page |
| WhatsApp.ConfidenceMonotone | scraper.py:191-214 | appending text never lowers the confidence |
| WhatsApp.EmptyPageNotDetected | scraper.py:208-214 | an empty page gives `found = false`, confidence `none`, no phone |
| WhatsApp.WeakTierIsOneWord | config.py:224-227 | the two weak patterns lower-case to the same word `whatsapp` |
| StoreNames.RemoveSuffix | scraper.py:302-303 | a title ending with the suffix loses exactly it; any other title is unchanged |
| StoreNames.StripTitleSuffixes | scraper.py:300-303 | the loop tries each stock suffix once, in order, on what the earlier ones left |
| StoreNames.RemoveSuffixesIsPrefix | scraper.py:300-303 | suffix removal only cuts text off the end |
| StoreNames.NoSuffixKeepsTitle | scraper.py:300-303 | a title ending with none of the suffixes is kept whole |
| StoreNames.ExtractStoreName | scraper.py:287-306 | the method computes the site name if present, else the stripped title without suffixes, else empty |
| StoreNames.StoreName | scraper.py:287-306 | the specification of `_extract_store_name`; `StoreNameSource` and `HomeTitleWithTrailingSpace` state its properties |
| StoreNames.HomeTitleWithTrailingSpace | scraper.py:298-304 | without a site name, a title `Name – Home` followed by any whitespace, U+00A0 included, gives the name `Name` |
| StoreNames.StoreNameSource | scraper.py:287-306 | the site name wins over the title; the name is a piece of its source; with neither source it is empty |
| StoreNames.StackedSuffixesRemoved | scraper.py:300-304 | `Name – Home – Powered by Shopify` loses both suffixes, because the list order allows it |
| Fetching.PageSource.Fetch | scraper.py:232-253 | a fetch returns the next scripted answer, or none once the script is used up, and logs the URL |
| Scraper.StoreChecksIgnoreCase | scraper.py:313-335 | the storefront and password checks give the same answer on the lower-cased page |
| Scraper.IsShopifyStore | scraper.py:313-323 | `_is_shopify_store`; `StoreChecksIgnoreCase` and `SkippedMeansNotOpen` state its properties |
| Scraper.IsPasswordProtected | scraper.py:326-335 | `_is_password_protected`; `StoreChecksIgnoreCase` and `SkippedMeansNotOpen` state its properties |
| Scraper.Origin | scraper.py:409 | the scheme and authority `urljoin` keeps of `https://{domain}`: the base URL itself for a plain host |
| Scraper.OriginStopsAtDelimiter | scraper.py:409 | a domain followed by `/`, `?` or `#` is joined at its host: `shop.co.za/` gives `https://shop.co.za/pages/contact` |
| Scraper.ContactUrls | scraper.py:408-409 | one URL per contact path, in table order, each the store's origin followed by its path; no URL twice; `base_url + path` for a plain host |
| Scraper.FirstUsableFromMeaning | scraper.py:376-381 | the retry loop stops at the first non-empty page; every earlier attempt failed |
| Scraper.UsablePages | scraper.py:408-413 | the kept contact pages are non-empty and at most one per request |
| Scraper.FallbackFrom | scraper.py:433-446 | the browser loop renders at most the given URLs, never fewer than it started from |
| Scraper.Mined | scraper.py:418-446 | at most the two fallback URLs are rendered |
| Scraper.FetchHomepage | scraper.py:375-381 | the homepage arrives exactly when one of the first 3 answers is non-empty; the URL is requested once per attempt |
| Scraper.FetchContactPages | scraper.py:407-416 | every contact URL is requested once, in order; the non-empty answers are kept in order |
| Scraper.RenderFallback | scraper.py:428-446 | the browser loop's emails, WhatsApp result and rendered URLs match its specification |
| Scraper.MineStore | scraper.py:418-446 | steps 6–7 on the combined page match their specification, and only the fallback URLs are rendered |
| Scraper.ScrapeStore | scraper.py:342-466 | `scrape_store` returns the specified record and makes exactly the specified fetch and render requests |
| Scraper.ScrapeSpec | scraper.py:342-466 | the specification of `scrape_store`; `ScrapeStore` meets it, and `FailedMeansUnreachable`, `SkippedMeansNotOpen`, `RequestBudget` and `SuccessEmailIsBestRanked` state its properties |
| Scraper.ScrapeOpenStore | scraper.py:389-466 | the steps after the homepage arrived return the specified record and requests |
| Scraper.FailedMeansUnreachable | scraper.py:375-387 | `failed` exactly when all 3 homepage attempts fail; then error `homepage_unreachable`, 3 homepage requests, nothing else |
| Scraper.SkippedMeansNotOpen | scraper.py:389-401 | `skipped` exactly when the homepage arrived and is not a storefront or is password protected; `not_shopify` takes precedence; only the homepage is fetched |
| Scraper.UnsuccessfulKeepsDefaults | scraper.py:362-401 | every record has its domain and time and is never pending; an unsuccessful one keeps every default |
| Scraper.FallbackEmailsFromPage | scraper.py:433-440 | the browser loop's emails are unchanged after rendering every URL, or are the non-empty list of the last page it rendered |
| Scraper.FallbackWhatsAppKept | scraper.py:442-446 | a rendered page replaces only a WhatsApp result that found nothing; the confidence never drops |
| Scraper.SuccessEmailChosen | scraper.py:421-453 | plain-page emails win and then nothing is rendered; otherwise the email is the top of a rendered page's list, or absent |
| Scraper.WhatsAppNeverDowngraded | scraper.py:422-457 | a WhatsApp signal on the plain pages is kept as is; the final confidence is never weaker |
| Scraper.RequestBudget | scraper.py:375-434 | at least one fetch and at most 3 + 8, all 8 contact pages on success, at most 2 renders and only after no plain email |
| Scraper.SuccessEmailIsBestRanked | scraper.py:419-453 | the kept email is lower case, non-junk, priority 1–7 with its own flags, and the best-ranked plain address when there is one |
| Scraper.BestEmailIsTop | scraper.py:449-453 | the head of a non-empty ranked list is well formed and has the best key |
| Scraper.CombinedRatesAtLeastHomepage | scraper.py:405-422 | the joined pages rate at least as high for WhatsApp as the homepage alone |
| Scraper.BatchSpec | scraper.py:473-490 | the batch gives one record per domain |
| Scraper.BatchResultsShape | scraper.py:486-490 | record `i` is for domain `i`, and no record is left pending |
| Scraper.BatchLogs | scraper.py:486-490 | the requests of a batch: each store's fetches and renders, store after store; `BatchBudget` bounds them |
| Scraper.BatchBudget | scraper.py:486-490 | a batch makes between 1 and 3 + 8 fetches per store and at most 2 renders per store |
| Scraper.ScrapeNext | scraper.py:486-490 | one loop turn scrapes store `i` with the answers the earlier stores left; its record and requests are the next ones of the batch |
| Scraper.ScrapeStoresBatch | scraper.py:473-496 | the method returns the batch specification, each store in turn sharing the two page sources; each source has served exactly the batch's requests, in order |
| StableSort.SortSorted | scraper.py:172 | the sort output is in non-decreasing key order (and, by its own contract, a permutation) |
| StableSort.SortStable | output.py:133 | within each class of equal keys, the input order is kept |
| StableSort.SortKeepsInjective | scraper.py:172 | sorting neither duplicates nor merges elements |
| Domains.NormalizeDomainShape | discovery.py:48-87 | empty input gives none; a result is lower case, has a dot, is ≥ 4 characters, and holds no port, path, query or line break |
| Domains.NormalizeDomain | discovery.py:48-87 | the specification of `normalize_domain`; `NormalizeDomainShape`, `NormalizeKeepsHost`, `NormalizeAddsScheme` and `NormalizeBareHost` state its properties |
| Domains.NormalizeAddsScheme | discovery.py:65-67 | a URL without `http://`/`https://` is read as `https://` + URL |
| Domains.NormalizeAfterScheme | discovery.py:66-71 | after an explicit scheme, the host is read from what follows it |
| Domains.PathFallbackIsEmpty | discovery.py:71 | the `parsed.path.split("/")[0]` fallback only ever yields the empty string |
| Domains.HostOfAuthority | discovery.py:70-71 | an authority followed by a path, query or fragment is the host that gets cleaned |
| Domains.CleanHostShape | discovery.py:72-85 | a cleaned host is lower-case host text with a dot, ≥ 4 characters and no `:` |
| Domains.CleanHostKeeps | discovery.py:72-79 | only a leading `www.` and the port are cut; the host, subdomains included, stays |
| Domains.NormalizeKeepsHost | discovery.py:48-87 | scheme, `www.`, port, path, query and fragment are dropped; the host is kept |
| Domains.NormalizeKeepsHostOf | discovery.py:48-87 | `NormalizeKeepsHost` for a URL given whole, without a port |
| Domains.NormalizeBareHost | discovery.py:62-87 | a canonical host without a scheme normalises to itself |
| Domains.ExtractDomainsAppend | discovery.py:262-265 | the domains of joined URL lists are those of the first, then those of the second; one URL gives its domain or nothing |
| Domains.ExtractDomainsFromUrls | discovery.py:255-266 | the loop keeps the domain of every URL that normalises, in order |
| Domains.ExtractDomainsExact | discovery.py:255-266 | every extracted domain is the normalisation of one URL, and every normalisable URL contributes |
| Ledger.LoadedDomainsSize | discovery.py:110 | `set(domains)` holds no more domains than the list, and exactly as many when the list has no repeats |
| Ledger.LoadedDomainsJoin | discovery.py:110 | loading a list in two parts gives the union of the parts; their order does not matter |
| Ledger.SortedListUnique | discovery.py:118-121 | two sorted lists without repeats holding the same strings are equal |
| Ledger.SeenDomains.constructor | discovery.py:100-116 | the ledger starts as its file left it |
| Ledger.SeenDomains.IsNew | discovery.py:124-126 | `is_new` holds exactly when the domain is not in the ledger |
| Ledger.SeenDomains.Add | discovery.py:128-129 | `add` puts the domain in and changes nothing else, so re-adding leaves the size unchanged |
| Ledger.SeenDomains.Len | discovery.py:131-132 | `len` is the number of domains |
| Ledger.SeenDomains.Has | discovery.py:134-135 | `in` holds exactly when the domain is in the ledger |
| Ledger.SeenDomains.Save | discovery.py:118-122 | the file holds the domains sorted, each once, with `count` equal to `len`; reloading gives the same set |
| Ledger.ListOf | discovery.py:121 | the set's members are listed each once |
| Ledger.SortDistinct | discovery.py:121 | sorting a list without repeats gives a sorted list without repeats of the same domains |
| Ledger.SaveDeterministic | discovery.py:118-121 | two saves of the same set write the same list |
| Cursor.EmptyFileIsFresh | discovery.py:154-164 | a file with none of the keys starts where a missing or corrupt file does: position 0, no last run, count 0 |
| Cursor.LoadRecorded | discovery.py:154-164 | a file holding all three keys loads to the position it records; a missing key resets only its own field |
| Cursor.DorkState.constructor | discovery.py:147-164 | the cursor starts at the position its file records |
| Cursor.DorkState.Advance | discovery.py:175-176 | `advance(n)` adds exactly `n` to `query_index`; nothing else changes |
| Cursor.DorkState.Reset | discovery.py:178-180 | `reset` zeroes `query_index` and `total_discovered` and keeps `last_run` |
| Cursor.DorkState.Save | discovery.py:166-173 | the saved file reloads to the same cursor and count, with the time of saving |
| Queries.LStripDotsShape | discovery.py:201-202 | `lstrip(".")` removes the leading dots and only them |
| Queries.FormatLeavesNoBrace | discovery.py:203-204 | formatting leaves no brace when the template's braces are placeholders and the suffix has none |
| Queries.FormatSiteTemplate | discovery.py:203-204 | a shipped-shape template formats to `site:<suffix> ` and its search terms |
| Queries.SiteTemplateBraces | config.py:82-102 | a shipped-shape template carries `{tld}` at position 5, and that is its only brace |
| Queries.BaseTemplatesShape | config.py:82-88 | every base template has the shipped shape |
| Queries.NicheTemplatesShapeA | config.py:91-96 | the first five niche templates have the shipped shape |
| Queries.NicheTemplatesShapeB | config.py:97-102 | the last five niche templates have the shipped shape |
| Queries.ShippedTemplates | config.py:82-102 | every base and niche template carries `{tld}` and no other brace |
| Queries.Templates | discovery.py:194-196 | base templates, plus the niche ones when requested |
| Queries.ForTld | discovery.py:203-204 | one query per template for a suffix |
| Queries.ForTldsLength | discovery.py:199-204 | queries for a list of suffixes number suffixes × templates |
| Queries.ForTldsIndex | discovery.py:199-204 | query `k·T + j` is template `j` filled with suffix `k`, dots stripped: suffix-major, template order |
| Queries.ForCountriesLength | discovery.py:198-204 | the product has (number of suffixes over the countries) × templates queries |
| Queries.ForTldsSource | discovery.py:200-204 | every query is some template filled with one of the suffixes, dots stripped |
| Queries.ForCountriesSource | discovery.py:198-204 | every query is some template filled with some country's suffix, dots stripped |
| Queries.QueryHasNoBrace | discovery.py:202-204 | one filled-in template keeps no brace and no `{tld}` |
| Queries.NoPlaceholderLeft | discovery.py:198-204 | no query keeps `{tld}` when templates and suffixes are well formed |
| Queries.AppendForTld | discovery.py:203-204 | the inner loop appends one query per template |
| Queries.Product | discovery.py:198-204 | the nested loops produce the country × suffix × template product |
| Queries.GenerateDorkQueries | discovery.py:187-207 | the function returns the product over the enabled countries and the selected templates |
| Queries.DorkQueries | discovery.py:187-207 | the specification of `generate_dork_queries`; `GenerateDorkQueries` meets it, and `ForCountriesSource`, `NoPlaceholderLeft` and `ShippedQueries` state its properties |
| Queries.CountryTldsHaveNoBrace | config.py:26-69 | no country suffix contains a brace |
| Queries.ShippedQueries | discovery.py:187-207 | with the shipped tables: 30 queries with niche templates, 10 without, none keeps `{tld}` |
| Queries.ShippedSuffixes | discovery.py:202 | `.co.za` and `.za` become `co.za` and `za` |
| Queries.ShippedQueryOrder | discovery.py:198-204 | shipped queries: every template for `co.za`, then every template for `za`, each `site:<suffix> <terms>` |
| Discovery.WindowAdvances | discovery.py:304-307 | from a cursor inside the list, the batch is the next `min(size, total - start)` queries, and `batch_end` lies past the start |
| Discovery.BatchSize | discovery.py:289 | `max_queries or DORK_BATCH_SIZE`; `DiscoverStores` uses it for the window |
| Discovery.PositionAfterRuns | discovery.py:299-306 | after `k` batches the cursor is at `min(k·size, total)`; an exhausted cursor stays put |
| Discovery.RunsCoverQueries | discovery.py:299-307 | the first `k` batches run the first `min(k·size, total)` queries, each once and in order |
| Discovery.FreshExact | discovery.py:327-330 | the new domains are exactly the domains met that the ledger lacked, each once |
| Discovery.Fresh | discovery.py:327-330 | the new domains of a result list; `FreshExact`, `FreshAppend` and `RerunFindsNothing` state its properties |
| Discovery.FreshAppend | discovery.py:321-333 | the new domains of two result lists are those of the first, then those of the second not yet met |
| Discovery.RerunFindsNothing | discovery.py:327-333 | when the ledger holds every domain met, nothing is new |
| Discovery.RecordDomains | discovery.py:327-333 | the `is_new`/`add` loop grows the ledger by the domains and reports the new ones in order |
| Discovery.SearchEngine.Search | discovery.py:214-253 | a search returns the next scripted result list, or `[]` once the script is used up, and logs the query |
| Discovery.RunQuery | discovery.py:321-333 | one search turn: extract the domains of the answer, record them, report the new ones |
| Discovery.RunNext | discovery.py:321-340 | turn `i` keeps the ledger and reported domains equal to those of the first `i + 1` answers |
| Discovery.RunQueries | discovery.py:319-340 | every batch query is searched once in order; new domains are those of all answers that the starting ledger lacked |
| Discovery.RunBatch | discovery.py:319-345 | after the searches, the cursor is at `batch_end`, the count grows by the new domains, and both files are saved |
| Discovery.DiscoverStores | discovery.py:289-354 | an exhausted cursor or a dry run changes nothing and returns `[]`; otherwise it searches the window and returns the fresh domains, then advances the cursor, grows the count and saves both files |
| Discovery.BatchReportsNewDomains | discovery.py:327-333 | reported domains are pairwise distinct, and a domain is reported exactly when it was met and not seen before |
| Discovery.BatchThenRerun | discovery.py:327-333 | rerunning over the same results with the updated ledger reports nothing |
| Verifier.ParseStatus | verifier.py:133-166 | status `safe`/`risky`/`invalid` exactly when `is_reachable` says so in a well-shaped answer, otherwise `unknown`; an error exactly on a malformed answer |
| Verifier.ParseReacherResponse | verifier.py:120-172 | `_parse_reacher_response`; `ParseStatus` and `ParseDefaults` state its properties |
| Verifier.VerifyFrom | verifier.py:75-117 | the specification of `verify_email`'s retry loop; `VerifyEmail` meets it, and `AttemptsBounded`, `FirstSuccessReturns`, `ConnectionErrorAborts` and `RetriesExhausted` state its properties |
| Verifier.ParseDefaults | verifier.py:150-161 | missing `misc`, `mx` or `smtp` leave their flags false; `{}` gives the default result |
| Verifier.SkipRetried | verifier.py:77-113 | attempts that are retried do not affect the outcome |
| Verifier.AttemptsBounded | verifier.py:75-117 | at least one more request while attempts remain, never more than 3 in all; the result is for the address asked about and has one of the four statuses |
| Verifier.FirstSuccessReturns | verifier.py:86-93 | the first 200 with a JSON body is parsed and returned; no later request is made |
| Verifier.ConnectionErrorAborts | verifier.py:97-103 | a connection error stops at once with `unknown` / `reacher_unavailable` |
| Verifier.RetriesExhausted | verifier.py:105-117 | when all three attempts fail otherwise: three requests, `unknown` / `max_retries_exceeded` |
| Verifier.Reacher.Post | verifier.py:79-84 | a request returns the next scripted outcome and logs the address |
| Verifier.Reacher.CheckHealth | verifier.py:189 | the health check reports the service state and is counted |
| Verifier.VerifyEmail | verifier.py:65-117 | the method returns the retry loop's result, posts once per attempt, and waits once per retried attempt |
| Verifier.AllUnavailable | verifier.py:189-192 | one `unknown` / `reacher_unavailable` result per address, in order |
| Verifier.VerifyAllShape | verifier.py:194-198 | one result per address, in order, each with a known status |
| Verifier.PostedBudget | verifier.py:194-207 | a batch posts every address at least once and at most 3 times, and only its own addresses |
| Verifier.VerifyNext | verifier.py:194-207 | one loop turn verifies address `i` against the outcomes the earlier ones left; its result and posts are the next ones of the batch |
| Verifier.VerifyEmailsBatch | verifier.py:175-207 | `[]` for `[]`; otherwise one health check, then all unavailable with nothing posted, or all verified in turn with exactly the batch's posts made and outcomes used, with `n - 1` delays and `(n - 1) / 20` pauses |
| Leads.LastMatchNone | output.py:52-56 | there is no match exactly when no address lower-cases to the key |
| Leads.LastMatchIs | output.py:52-56 | the match is the last result whose address lower-cases to the key |
| Leads.VerifyMapIsLastMatch | output.py:52-56 | the map holds, under each key, exactly the last result matching it |
| Leads.BuildVerifyMap | output.py:52-56 | the loop builds the lower-cased-address map, later results overwriting earlier ones |
| Leads.MergedRowFields | output.py:58-83 | one row per scrape result in order; domain, name, WhatsApp fields and status copied; email fields empty without an email |
| Leads.MergedRowVerified | output.py:76-79 | `email_verified` is the status of the last case-insensitive match, and empty without an email or a match |
| Leads.MergeRow | output.py:58-83 | one merged row; `MergedRowFields` and `MergedRowVerified` state its fields |
| Leads.MergeResults | output.py:40-83 | the method returns the map and then one merged row per scrape result |
| Leads.TierStructure | output.py:115-126 | the six tiers in order: WA+email+safe, WA+email, WA, email+safe, email, none; tier < 3 exactly with WhatsApp |
| Leads.Tier | output.py:104-126 | the tier of `_lead_sort_key`; `TierStructure` states it |
| Leads.PriorityOf | output.py:107-113 | the priority of `_lead_sort_key`; `PriorityCoercion` states it |
| Leads.PriorityCoercion | output.py:107-113 | text `int()` rejects, including the empty text, ranks 99; accepted text ranks as its value |
| Leads.RowLeIsTotalPreorder | output.py:128-133 | the `(tier, priority, domain)` comparison is total and transitive |
| Leads.SortLeadsCorrect | output.py:131-133 | `sort_leads` returns a permutation, sorted by the key, stable on equal keys |
| Leads.SortedLeadOrder | output.py:90-133 | in the sorted list tiers never decrease, WhatsApp leads come first, and priority never decreases within a tier |
| Leads.SetCountry | output.py:159-161 | the loop sets the country on every row |
| Leads.SuccessfulCounts | output.py:163-164 | the filter keeps each successful row as often as it occurs and drops the rest |
| Leads.GenerateLeads | output.py:156-167 | the method returns the merged, country-stamped, success-only rows in lead order |
| Leads.LeadListCorrect | output.py:156-167 | the lead list is sorted, carries the country, and holds exactly the rows of successful scrapes |
| Leads.IntToStringRoundTrip | output.py:107-113 | `int(str(n)) == n` |
| Leads.LoadCsv | output.py:216-228 | one row per record; each flag is read back with `value.lower() == "true"` when non-empty |
| Leads.FlagRoundTrip | output.py:222-226 | a `True`/`False` flag reads back as the same bool; an empty cell stays empty |
| Leads.PriorityRoundTrip | output.py:107-113 | a written priority reads back as the same number in the sort key |
| Leads.WriteLoadRoundTrip | output.py:216-228 | a written and reloaded row equals the original except that the priority becomes text; its sort key is unchanged |
| Leads.CountIf | output.py:193-198 | a count never exceeds the number of rows |
| Leads.SummaryConsistent | output.py:190-198 | `with_both` ≤ `with_email`, `with_wa`; `with_email + with_wa ≤ total + with_both`; `tier_0` ≤ `with_both`, `verified_safe`, and is exactly the count of sort-tier-0 leads |
| Leads.SummaryOfSorted | output.py:190-198 | sorting the leads does not change the summary |
| Leads.SummaryAfterReload | output.py:190-198 | a lead file read back has the same summary as the list written |

## Left out

- Network transport is not modelled. This covers `_fetch_page_requests`, `_fetch_page_playwright`, `_search_google` (SerpAPI or googlesearch, environment variables), the Reacher HTTP calls and `_check_reacher_health`. They are scripted sources instead. A page fetch's transport error or non-200 status is a `None` answer. A Reacher answer is an `Outcome`.
- The regex engine behind `EMAIL_REGEX` is not modelled (scraper.py:147). The candidate list is a parameter (`Parsers.findEmails`). The junk sub-patterns of scraper.py:104 and the `wa.me/` phone pattern are written out by hand, with digits read as ASCII digits.
- BeautifulSoup parsing (scraper.py:289-297) is a parameter (`Parsers.siteName` and `Parsers.title`). Only the suffix loop and the stripping are modelled.
- Strings.Lower: `str.lower` is modelled for ASCII letters only; every other character is kept. Unicode case mapping is out of scope.
- `urlparse` is replaced by authority extraction: the text after the scheme, up to `/`, `?` or `#`, with tabs and line breaks removed. IPv6 brackets and userinfo (`user@host`) are not interpreted.
- WhatsApp.FindPhoneFromIsLeftmost: `\d` in a `str` pattern also matches non-ASCII decimal digits (Arabic-Indic, Devanagari and the like); the model reads only `0`-`9`, so a link such as `wa.me/` followed by Arabic-Indic digits gives no phone here where the source finds one.
- WhatsApp.FindPhone: the same ASCII-digit reading of `\d` applies.
- Domains.NormalizeDomain: `urlparse` raises `ValueError` in three cases, and the source then returns `None` through its `except`. An unmatched `[` or `]` in the netloc is modelled: `Domains.HostOf` gives `None` for it. A non-ASCII netloc whose NFKC form adds a `/`, `?`, `#`, `@` or `:` is not modelled; the model has no NFKC table and gives the extracted host instead. Balanced brackets around a host that is not a valid IPv6 or IPvFuture address (the bracketed-netloc check, e.g. `https://[abc].com`) are not modelled either; the model gives `Some("[abc].com")` where the source gives `None`.
- Scraper.Origin: `urljoin`'s `ValueError` cases (unmatched brackets, balanced brackets around an invalid IPv6 or IPvFuture host, NFKC-changing netlocs) are not modelled, and neither are relative paths or dot segments; every contact path is absolute and plain.
- Domains.NormalizeDomainShape: does not claim that no result starts with `www.`. The code strips the prefix only once.
- `_extract_domains_from_urls`: the myshopify filter its docstring mentions is not modelled, because no code implements it.
- `str.format` brace escapes (`{{`, `}}`) and other fields are not modelled. The shipped templates contain neither, as `Queries.ShippedTemplates` shows.
- JSON and CSV files are values. Directory creation, file naming, CSV quoting and `_save_discovered_stores` are left out.
- Ledger.LoadedDomains: a ledger file whose top level is an object without a `"domains"` key loads as the empty set in the source (discovery.py:110 falls back to `[]`); the model expresses that file as `Some([])`. A ledger file whose top level is not an object makes `data.get` raise in the source; that case is not modelled, and a file is either a list of domains or corrupt.
- Cursor.Load: only missing or absent keys are modelled. A state file whose top level is not an object is not.
- The `parse_error: …` text of `_parse_reacher_response` names the part of the answer that was malformed, not Python's exception message.
- Verifier.VerifyEmail: a 200 answer whose body is not JSON is retried, as a `RequestException` from `resp.json()` would be. A `ConnectTimeout` counts as a connection error, as `requests` classes it.
- Verifier.VerifyEmailsBatch: delays and pauses are counted, not slept.
- Sleeps, random delays, user-agent rotation, `datetime.now` and logging are not modelled. Timestamps are parameters.
- Strings.ParseInt: accepts ASCII digits with an optional sign and surrounding whitespace. Underscores and non-ASCII digits, which `int()` accepts, are not.
- Leads.PriorityOf: inherits the ASCII-only reading of `int()` from `Strings.ParseInt`.
- Leads.MergeResults: `verify_results=None` is modelled as the empty list; both give an empty map.
- Leads.SetCountry: `generate_csv` sets `country` on the dicts in place. The model builds new rows, so aliasing with the caller's list is not modelled.
- Leads.LoadCsv: records are rows of text, as `csv.DictReader` gives them. Missing columns are not modelled.
- `print_summary` printing is left out. Only the counts are modelled (`Leads.Summarize`).
- Discovery.DiscoverStores: a negative `max_queries` is modelled through Python slice semantics (`PySlice`). No property beyond the resulting window is claimed for it.
- main.py, the CLI blocks and Playwright's `ImportError` handling are not part of this model.
