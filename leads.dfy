/**
 * The lead list (output.py): merging scrape results with verification
 * results into flat rows, ordering the rows by lead value, building the
 * list a CSV file receives, reading such a file back, and the summary
 * counts. Rows are values; the CSV file is the sequence of rows written to
 * or read from it.
 */
module Leads {

  import opened Wrappers
  import opened Strings
  import StableSort
  import Scraper
  import Verifier

  /** A value held in a row: text, an integer or a Python bool. */
  datatype Cell = Text(s: string) | Number(n: int) | Flag(b: bool)

  /** Python truthiness of a cell. */
  predicate Truthy(c: Cell) {
    match c
    case Text(s) => s != ""
    case Number(n) => n != 0
    case Flag(b) => b
  }

  /** One lead: the columns of `CSV_COLUMNS`, in order. */
  datatype LeadRow = LeadRow(
    domain: string,
    storeName: string,
    country: string,
    email: string,
    emailPriority: Cell,
    emailIsFreeProvider: Cell,
    hasWhatsApp: Cell,
    whatsAppConfidence: string,
    whatsAppPhone: string,
    emailVerified: string,
    scrapeStatus: string,
    discoveredAt: string,
    scrapedAt: string)

  // ---------------------------------------------------------------------------
  // merge_results
  // ---------------------------------------------------------------------------

  /** `verify_map`: verification results keyed by the lower-cased address. */
  type VerifyMap = map<string, Verifier.VerifyResult>

  /** The map the loop builds: each result stored under its lower-cased address, a later one replacing an earlier. */
  function VerifyMapOf(vs: seq<Verifier.VerifyResult>): VerifyMap {
    if vs == [] then map[]
    else VerifyMapOf(vs[..|vs| - 1])[Lower(vs[|vs| - 1].email) := vs[|vs| - 1]]
  }

  /** The last result whose address lower-cases to `key`, searched from the end. */
  function LastMatch(vs: seq<Verifier.VerifyResult>, key: string): Option<Verifier.VerifyResult> {
    if vs == [] then None
    else if Lower(vs[|vs| - 1].email) == key then Some(vs[|vs| - 1])
    else LastMatch(vs[..|vs| - 1], key)
  }

  /** There is no match exactly when no address lower-cases to the key. */
  lemma {:induction false} LastMatchNone(vs: seq<Verifier.VerifyResult>, key: string)
    ensures LastMatch(vs, key).None? <==> forall i :: 0 <= i < |vs| ==> Lower(vs[i].email) != key
  {
    if vs != [] && Lower(vs[|vs| - 1].email) != key {
      var init := vs[..|vs| - 1];
      LastMatchNone(init, key);
      assert forall i :: 0 <= i < |init| ==> vs[i] == init[i];
    }
  }

  /** The match is the result at `i` when its address lower-cases to the key and no later one's does. */
  lemma {:induction false} LastMatchIs(vs: seq<Verifier.VerifyResult>, key: string, i: nat)
    requires i < |vs| && Lower(vs[i].email) == key
    requires forall j :: i < j < |vs| ==> Lower(vs[j].email) != key
    ensures LastMatch(vs, key) == Some(vs[i])
  {
    var last := |vs| - 1;
    if i < last {
      assert Lower(vs[last].email) != key;
      var init := vs[..last];
      assert init[i] == vs[i];
      forall j | i < j < |init| ensures Lower(init[j].email) != key {
        assert init[j] == vs[j];
      }
      LastMatchIs(init, key, i);
    }
  }

  /** The map holds, under each key, exactly the last result that matches it. */
  lemma {:induction false} VerifyMapIsLastMatch(vs: seq<Verifier.VerifyResult>, key: string)
    ensures key in VerifyMapOf(vs) <==> LastMatch(vs, key).Some?
    ensures key in VerifyMapOf(vs) ==> VerifyMapOf(vs)[key] == LastMatch(vs, key).value
  {
    if vs != [] {
      VerifyMapIsLastMatch(vs[..|vs| - 1], key);
    }
  }

  /** The first loop of `merge_results`. An absent or empty list gives the empty map. */
  method BuildVerifyMap(vs: seq<Verifier.VerifyResult>) returns (m: VerifyMap)
    ensures m == VerifyMapOf(vs)
  {
    m := map[];
    for i := 0 to |vs|
      invariant m == VerifyMapOf(vs[..i])
    {
      assert vs[..i + 1][..i] == vs[..i];
      m := m[Lower(vs[i].email) := vs[i]];
    }
    assert vs[..|vs|] == vs;
  }

  /** The row built for one scrape result. */
  function MergeRow(sr: Scraper.ScrapeResult, m: VerifyMap): LeadRow {
    var email := sr.email.GetOr("");
    var hasEmail := email != "";
    LeadRow(
      sr.domain,
      sr.storeName,
      "",
      email,
      if hasEmail then Number(sr.emailPriority) else Text(""),
      if hasEmail then Flag(sr.emailIsFreeProvider) else Text(""),
      Flag(sr.hasWhatsApp),
      sr.whatsAppConfidence.Name(),
      sr.whatsAppPhone.GetOr(""),
      if hasEmail && Lower(email) in m then m[Lower(email)].status else "",
      sr.status.Name(),
      "",
      sr.scrapedAt)
  }

  /** `merge_results(scrape_results, verify_results)`. */
  function Merged(srs: seq<Scraper.ScrapeResult>, vs: seq<Verifier.VerifyResult>): seq<LeadRow> {
    var m := VerifyMapOf(vs);
    seq(|srs|, k requires 0 <= k < |srs| => MergeRow(srs[k], m))
  }

  /**
   * Row `k` describes scrape result `k`: its domain, store, WhatsApp fields
   * and status are copied, and its email fields are filled only when it has
   * an email.
   */
  lemma MergedRowFields(srs: seq<Scraper.ScrapeResult>, vs: seq<Verifier.VerifyResult>, k: nat)
    requires k < |srs|
    ensures |Merged(srs, vs)| == |srs|
    ensures var row := Merged(srs, vs)[k]; var sr := srs[k];
      row.domain == sr.domain && row.storeName == sr.storeName && row.country == "" &&
      row.hasWhatsApp == Flag(sr.hasWhatsApp) && row.whatsAppConfidence == sr.whatsAppConfidence.Name() &&
      row.scrapeStatus == sr.status.Name() && row.scrapedAt == sr.scrapedAt &&
      (sr.email.Some? ==> row.email == sr.email.value) && (sr.email.None? ==> row.email == "") &&
      (row.email != "" ==> row.emailPriority == Number(sr.emailPriority) && row.emailIsFreeProvider == Flag(sr.emailIsFreeProvider)) &&
      (row.email == "" ==> row.emailPriority == Text("") && row.emailIsFreeProvider == Text(""))
  {
  }

  /**
   * `email_verified` of a merged row is the status of the last verification
   * result whose address equals the row's email ignoring case, and empty
   * when the row has no email or none matches.
   */
  lemma MergedRowVerified(sr: Scraper.ScrapeResult, vs: seq<Verifier.VerifyResult>)
    ensures var row := MergeRow(sr, VerifyMapOf(vs)); var found := LastMatch(vs, Lower(row.email));
      row.emailVerified == if row.email != "" && found.Some? then found.value.status else ""
  {
    VerifyMapIsLastMatch(vs, Lower(sr.email.GetOr("")));
  }

  /** `merge_results`: the map, then one row per scrape result, in order. */
  method MergeResults(srs: seq<Scraper.ScrapeResult>, vs: seq<Verifier.VerifyResult>) returns (merged: seq<LeadRow>)
    ensures merged == Merged(srs, vs)
  {
    var m := BuildVerifyMap(vs);
    merged := [];
    for i := 0 to |srs|
      invariant |merged| == i
      invariant forall k :: 0 <= k < i ==> merged[k] == MergeRow(srs[k], m)
    {
      merged := merged + [MergeRow(srs[i], m)];
    }
  }

  // ---------------------------------------------------------------------------
  // _lead_sort_key and sort_leads
  // ---------------------------------------------------------------------------

  predicate HasEmail(row: LeadRow) { row.email != "" }
  predicate HasWhatsApp(row: LeadRow) { Truthy(row.hasWhatsApp) }
  predicate VerifiedSafe(row: LeadRow) { row.emailVerified == "safe" }

  /** The tier of a lead, 0 (WhatsApp and a verified-safe email) to 5 (neither channel). */
  function Tier(row: LeadRow): nat {
    var wa := HasWhatsApp(row);
    var email := HasEmail(row);
    var verified := VerifiedSafe(row);
    if wa && email && verified then 0
    else if wa && email then 1
    else if wa then 2
    else if email && verified then 3
    else if email then 4
    else 5
  }

  /**
   * The tiers are the product of three rankings, WhatsApp first: a lead with
   * WhatsApp sits in 0 to 2 and one without in 3 to 5; within each half a
   * safe email comes first, then any email, then none.
   */
  lemma TierStructure(row: LeadRow)
    ensures Tier(row) ==
      (if HasWhatsApp(row) then 0 else 3) +
      (if !HasEmail(row) then 2 else if VerifiedSafe(row) then 0 else 1)
    ensures Tier(row) < 3 <==> HasWhatsApp(row)
  {
  }

  /** `email_priority` as the key reads it: text becomes `int(text)`, and empty or non-numeric text 99. */
  function PriorityOf(c: Cell): int {
    match c
    case Number(n) => n
    case Flag(b) => if b then 1 else 0
    case Text(s) => if s == "" then 99 else ParseInt(s).GetOr(99)
  }

  /**
   * Text that `int()` rejects, the empty text included, ranks as 99; text it
   * accepts ranks as its value.
   */
  lemma PriorityCoercion(s: string)
    ensures !IsIntLiteral(Strip(s)) ==> PriorityOf(Text(s)) == 99
    ensures IsIntLiteral(Strip(s)) ==> s != "" && PriorityOf(Text(s)) == ParseInt(s).value
    ensures AllDigits(Strip(s)) ==> PriorityOf(Text(s)) == DigitsValue(Strip(s))
  {
    if s == "" {
      assert Strip(s) == "";
      assert !AllDigits(Strip(s)) && !IsIntLiteral(Strip(s));
    } else {
      var r := ParseInt(s);
      assert PriorityOf(Text(s)) == r.GetOr(99);
      assert r.Some? <==> IsIntLiteral(Strip(s));
    }
  }

  /** `_lead_sort_key(row)`: `(tier, email_priority, domain)`. */
  datatype SortKey = SortKey(tier: nat, priority: int, domain: string)

  function KeyOf(row: LeadRow): SortKey {
    SortKey(Tier(row), PriorityOf(row.emailPriority), row.domain)
  }

  /** Python's tuple order on keys: `key(a) <= key(b)`. */
  predicate KeyLe(a: SortKey, b: SortKey) {
    a.tier < b.tier ||
    (a.tier == b.tier && (a.priority < b.priority || (a.priority == b.priority && LexLe(a.domain, b.domain))))
  }

  predicate RowLe(a: LeadRow, b: LeadRow) {
    KeyLe(KeyOf(a), KeyOf(b))
  }

  lemma RowLeIsTotalPreorder()
    ensures StableSort.TotalPreorder(RowLe)
  {
    forall a, b ensures RowLe(a, b) || RowLe(b, a) {
      LexLeTotal(a.domain, b.domain);
    }
    forall a, b, c | RowLe(a, b) && RowLe(b, c) ensures RowLe(a, c) {
      if Tier(a) == Tier(b) == Tier(c) && PriorityOf(a.emailPriority) == PriorityOf(b.emailPriority) == PriorityOf(c.emailPriority) {
        LexLeTransitive(a.domain, b.domain, c.domain);
      }
    }
  }

  /** `sort_leads(rows)`: Python's stable `sorted` by the key. */
  function SortLeads(rows: seq<LeadRow>): seq<LeadRow> {
    StableSort.Sort(rows, RowLe)
  }

  /** The sorted list is the same leads in key order, and leads with equal keys keep their order. */
  lemma SortLeadsCorrect(rows: seq<LeadRow>)
    ensures multiset(SortLeads(rows)) == multiset(rows)
    ensures StableSort.Sorted(SortLeads(rows), RowLe)
    ensures forall x :: StableSort.ClassOf(SortLeads(rows), RowLe, x) == StableSort.ClassOf(rows, RowLe, x)
  {
    RowLeIsTotalPreorder();
    StableSort.SortSorted(rows, RowLe);
    forall x ensures StableSort.ClassOf(SortLeads(rows), RowLe, x) == StableSort.ClassOf(rows, RowLe, x) {
      StableSort.SortStable(rows, RowLe, x);
    }
  }

  /**
   * In the sorted list tiers never decrease; so every WhatsApp lead comes
   * before every lead without WhatsApp, and within a tier the email
   * priority never decreases.
   */
  lemma SortedLeadOrder(rows: seq<LeadRow>, i: nat, j: nat)
    requires i < j < |SortLeads(rows)|
    ensures var s := SortLeads(rows);
      Tier(s[i]) <= Tier(s[j]) &&
      (HasWhatsApp(s[j]) ==> HasWhatsApp(s[i])) &&
      (Tier(s[i]) == Tier(s[j]) ==> PriorityOf(s[i].emailPriority) <= PriorityOf(s[j].emailPriority))
  {
    SortLeadsCorrect(rows);
    var s := SortLeads(rows);
    assert RowLe(s[i], s[j]);
    TierStructure(s[i]);
    TierStructure(s[j]);
  }

  // ---------------------------------------------------------------------------
  // generate_csv
  // ---------------------------------------------------------------------------

  /** Every row with its `country` set. */
  function WithCountry(rows: seq<LeadRow>, country: string): seq<LeadRow> {
    seq(|rows|, k requires 0 <= k < |rows| => rows[k].(country := country))
  }

  /** The loop that stamps the country on every row. */
  method SetCountry(rows: seq<LeadRow>, country: string) returns (out: seq<LeadRow>)
    ensures out == WithCountry(rows, country)
  {
    out := [];
    for i := 0 to |rows|
      invariant |out| == i
      invariant forall k :: 0 <= k < i ==> out[k] == rows[k].(country := country)
    {
      out := out + [rows[i].(country := country)];
    }
  }

  /** `[r for r in rows if r["scrape_status"] == "success"]`. */
  function Successful(rows: seq<LeadRow>): seq<LeadRow> {
    if rows == [] then []
    else (if rows[0].scrapeStatus == "success" then [rows[0]] else []) + Successful(rows[1..])
  }

  /** The filter keeps every successful row as often as it occurs and drops every other row. */
  lemma {:induction false} SuccessfulCounts(rows: seq<LeadRow>)
    ensures forall x :: multiset(Successful(rows))[x] == if x.scrapeStatus == "success" then multiset(rows)[x] else 0
  {
    if rows != [] {
      SuccessfulCounts(rows[1..]);
      assert rows == [rows[0]] + rows[1..];
    }
  }

  /** What `generate_csv` writes: merged rows of successful scrapes, stamped with the country, in lead order. */
  function LeadList(srs: seq<Scraper.ScrapeResult>, vs: seq<Verifier.VerifyResult>, country: string): seq<LeadRow> {
    SortLeads(Successful(WithCountry(Merged(srs, vs), country)))
  }

  /** `generate_csv` up to the file write. */
  method GenerateLeads(srs: seq<Scraper.ScrapeResult>, vs: seq<Verifier.VerifyResult>, country: string)
    returns (rows: seq<LeadRow>)
    ensures rows == LeadList(srs, vs, country)
  {
    var merged := MergeResults(srs, vs);
    var located := SetCountry(merged, country);
    rows := SortLeads(Successful(located));
  }

  /** A status reads `success` only for a successful scrape. */
  lemma SuccessName(s: Scraper.ScrapeStatus)
    ensures s.Name() == "success" <==> s == Scraper.Success
  {
  }

  /**
   * The lead list is in lead order, carries the country on every row, and
   * holds exactly the rows of the successful scrapes, each once per
   * occurrence.
   */
  lemma LeadListCorrect(srs: seq<Scraper.ScrapeResult>, vs: seq<Verifier.VerifyResult>, country: string)
    ensures var leads := LeadList(srs, vs, country);
      StableSort.Sorted(leads, RowLe) &&
      multiset(leads) == multiset(Successful(WithCountry(Merged(srs, vs), country))) &&
      (forall row :: row in leads ==> row.country == country && row.scrapeStatus == "success")
    ensures var leads := LeadList(srs, vs, country);
      forall k :: 0 <= k < |srs| && srs[k].status == Scraper.Success ==>
        Merged(srs, vs)[k].(country := country) in leads
    ensures var leads := LeadList(srs, vs, country);
      forall row :: row in leads ==>
        exists k :: 0 <= k < |srs| && srs[k].status == Scraper.Success && row == Merged(srs, vs)[k].(country := country)
  {
    var located := WithCountry(Merged(srs, vs), country);
    var leads := LeadList(srs, vs, country);
    SortLeadsCorrect(Successful(located));
    SuccessfulCounts(located);
    forall row | row in leads
      ensures row.country == country && row.scrapeStatus == "success"
      ensures exists k :: 0 <= k < |srs| && srs[k].status == Scraper.Success && row == Merged(srs, vs)[k].(country := country)
    {
      assert row in multiset(leads);
      assert row in located;
      var k :| 0 <= k < |located| && located[k] == row;
      MergedRowFields(srs, vs, k);
      SuccessName(srs[k].status);
    }
    forall k | 0 <= k < |srs| && srs[k].status == Scraper.Success
      ensures Merged(srs, vs)[k].(country := country) in leads
    {
      MergedRowFields(srs, vs, k);
      var row := located[k];
      assert row in multiset(located);
      assert row in multiset(leads);
    }
  }

  // ---------------------------------------------------------------------------
  // Writing and reading a lead file
  // ---------------------------------------------------------------------------

  function DigitChar(d: nat): char
    requires d < 10
  {
    ('0' as int + d) as char
  }

  /** `str(n)` for a natural number. */
  function NatToString(n: nat): (s: string)
    ensures s != []
  {
    if n < 10 then [DigitChar(n)] else NatToString(n / 10) + [DigitChar(n % 10)]
  }

  /** `str(n)`. */
  function IntToString(n: int): string {
    if n < 0 then "-" + NatToString(-n) else NatToString(n)
  }

  lemma {:induction false} NatToStringDigits(n: nat)
    ensures AllDigits(NatToString(n)) && DigitsValue(NatToString(n)) == n
  {
    var s := NatToString(n);
    if n >= 10 {
      NatToStringDigits(n / 10);
      var t := NatToString(n / 10);
      assert s[..|s| - 1] == t;
    }
  }

  /** `int(str(n)) == n`: the priority a file holds reads back as the number written. */
  lemma IntToStringRoundTrip(n: int)
    ensures ParseInt(IntToString(n)) == Some(n)
  {
    var s := IntToString(n);
    if n < 0 {
      NatToStringDigits(-n);
      assert s[1..] == NatToString(-n);
    } else {
      NatToStringDigits(n);
    }
    StripUnspaced(s);
  }

  lemma StripUnspaced(s: string)
    requires s != [] && !IsSpace(s[0]) && !IsSpace(s[|s| - 1])
    ensures Strip(s) == s
  {
  }

  /** The text the CSV writer puts in a cell: `str(value)`. */
  function CellText(c: Cell): string {
    match c
    case Text(s) => s
    case Number(n) => IntToString(n)
    case Flag(b) => if b then "True" else "False"
  }

  /** A row as the CSV file holds it: every value as text. */
  function WriteRow(row: LeadRow): LeadRow {
    row.(emailPriority := Text(CellText(row.emailPriority)),
         emailIsFreeProvider := Text(CellText(row.emailIsFreeProvider)),
         hasWhatsApp := Text(CellText(row.hasWhatsApp)))
  }

  /** A row as a CSV reader yields it: every value is text. */
  predicate AllText(row: LeadRow) {
    row.emailPriority.Text? && row.emailIsFreeProvider.Text? && row.hasWhatsApp.Text?
  }

  /** A non-empty text flag becomes `value.lower() == "true"`; an empty one stays as it is. */
  function LoadFlag(c: Cell): Cell
    requires c.Text?
  {
    if c.s != "" then Flag(Lower(c.s) == "true") else c
  }

  /** One row of `load_csv`. */
  function LoadRow(row: LeadRow): LeadRow
    requires AllText(row)
  {
    row.(emailIsFreeProvider := LoadFlag(row.emailIsFreeProvider), hasWhatsApp := LoadFlag(row.hasWhatsApp))
  }

  /** `load_csv`: the rows of the file, each with its flags read back. */
  method LoadCsv(records: seq<LeadRow>) returns (rows: seq<LeadRow>)
    requires forall k :: 0 <= k < |records| ==> AllText(records[k])
    ensures |rows| == |records|
    ensures forall k :: 0 <= k < |records| ==> rows[k] == LoadRow(records[k])
  {
    rows := [];
    for i := 0 to |records|
      invariant |rows| == i
      invariant forall k :: 0 <= k < i ==> rows[k] == LoadRow(records[k])
    {
      rows := rows + [LoadRow(records[i])];
    }
  }

  /** The value types `merge_results` puts in a row. */
  predicate Typed(row: LeadRow) {
    row.hasWhatsApp.Flag? &&
    (row.emailIsFreeProvider.Flag? || row.emailIsFreeProvider == Text("")) &&
    (row.emailPriority.Number? || row.emailPriority == Text(""))
  }

  lemma MergedRowsTyped(srs: seq<Scraper.ScrapeResult>, vs: seq<Verifier.VerifyResult>, country: string)
    ensures forall row :: row in WithCountry(Merged(srs, vs), country) ==> Typed(row)
  {
  }

  /** A flag written as `True`/`False` reads back as the same bool, and an empty cell stays empty. */
  lemma FlagRoundTrip(c: Cell)
    requires c.Flag? || c == Text("")
    ensures LoadFlag(Text(CellText(c))) == c
  {
    if c == Flag(true) {
      assert Lower("True") == "true";
    }
  }

  /** A priority written as text reads back as the same number. */
  lemma PriorityRoundTrip(c: Cell)
    requires c.Number? || c == Text("")
    ensures PriorityOf(Text(CellText(c))) == PriorityOf(c)
  {
    if c.Number? {
      IntToStringRoundTrip(c.n);
    }
  }

  /**
   * Writing a merged row and reading it back gives the same row, except that
   * the priority is now text; the flags come back as bools and the sort key
   * is unchanged, so a reloaded file sorts as the list it was written from.
   */
  lemma WriteLoadRoundTrip(row: LeadRow)
    requires Typed(row)
    ensures LoadRow(WriteRow(row)) == row.(emailPriority := Text(CellText(row.emailPriority)))
    ensures KeyOf(LoadRow(WriteRow(row))) == KeyOf(row)
  {
    FlagRoundTrip(row.hasWhatsApp);
    FlagRoundTrip(row.emailIsFreeProvider);
    PriorityRoundTrip(row.emailPriority);
  }

  // ---------------------------------------------------------------------------
  // print_summary
  // ---------------------------------------------------------------------------

  /** `sum(1 for r in rows if p(r))`. */
  function CountIf(rows: seq<LeadRow>, p: LeadRow -> bool): (n: nat)
    ensures n <= |rows|
  {
    if rows == [] then 0 else (if p(rows[0]) then 1 else 0) + CountIf(rows[1..], p)
  }

  predicate WithBoth(row: LeadRow) { HasEmail(row) && HasWhatsApp(row) }
  predicate TopTier(row: LeadRow) { HasWhatsApp(row) && HasEmail(row) && VerifiedSafe(row) }

  /** The six numbers `print_summary` prints. */
  datatype Summary = Summary(total: nat, withEmail: nat, withWhatsApp: nat, withBoth: nat, verifiedSafe: nat, topTier: nat)

  function Summarize(rows: seq<LeadRow>): Summary {
    Summary(|rows|, CountIf(rows, HasEmail), CountIf(rows, HasWhatsApp), CountIf(rows, WithBoth),
            CountIf(rows, VerifiedSafe), CountIf(rows, TopTier))
  }

  lemma {:induction false} CountIfImplies(rows: seq<LeadRow>, p: LeadRow -> bool, q: LeadRow -> bool)
    requires forall r :: p(r) ==> q(r)
    ensures CountIf(rows, p) <= CountIf(rows, q)
  {
    if rows != [] {
      CountIfImplies(rows[1..], p, q);
    }
  }

  lemma {:induction false} CountIfBoth(rows: seq<LeadRow>, p: LeadRow -> bool, q: LeadRow -> bool, both: LeadRow -> bool)
    requires forall r :: both(r) <==> p(r) && q(r)
    ensures CountIf(rows, p) + CountIf(rows, q) <= |rows| + CountIf(rows, both)
  {
    if rows != [] {
      CountIfBoth(rows[1..], p, q, both);
    }
  }

  /**
   * The counts are consistent: a lead with both channels is counted among
   * those with an email and those with WhatsApp, at most every lead has one
   * of the two, and the top tier is the leads of sort tier 0.
   */
  lemma SummaryConsistent(rows: seq<LeadRow>)
    ensures var s := Summarize(rows);
      s.withBoth <= s.withEmail && s.withBoth <= s.withWhatsApp &&
      s.withEmail + s.withWhatsApp <= s.total + s.withBoth &&
      s.topTier <= s.withBoth && s.topTier <= s.verifiedSafe &&
      s.topTier == CountIf(rows, r => Tier(r) == 0)
  {
    CountIfImplies(rows, WithBoth, HasEmail);
    CountIfImplies(rows, WithBoth, HasWhatsApp);
    CountIfBoth(rows, HasEmail, HasWhatsApp, WithBoth);
    CountIfImplies(rows, TopTier, WithBoth);
    CountIfImplies(rows, TopTier, VerifiedSafe);
    var tier0 := (r: LeadRow) => Tier(r) == 0;
    CountIfImplies(rows, TopTier, tier0);
    CountIfImplies(rows, tier0, TopTier);
  }

  lemma {:induction false} CountIfAppend(a: seq<LeadRow>, b: seq<LeadRow>, p: LeadRow -> bool)
    ensures CountIf(a + b, p) == CountIf(a, p) + CountIf(b, p)
  {
    if a == [] {
      assert a + b == b;
    } else {
      CountIfAppend(a[1..], b, p);
      assert (a + b)[1..] == a[1..] + b;
    }
  }

  /** Taking one row out of a list removes one occurrence of it. */
  lemma RemoveAtMultiset(b: seq<LeadRow>, j: nat)
    requires j < |b|
    ensures multiset(b[..j] + b[j + 1..]) == multiset(b) - multiset{b[j]}
  {
    assert b == b[..j] + [b[j]] + b[j + 1..];
  }

  /** Taking one row out of a list removes its share of a count. */
  lemma RemoveAtCount(b: seq<LeadRow>, j: nat, p: LeadRow -> bool)
    requires j < |b|
    ensures CountIf(b, p) == (if p(b[j]) then 1 else 0) + CountIf(b[..j] + b[j + 1..], p)
  {
    var pre, tail, post := b[..j], b[j..], b[j + 1..];
    assert tail[0] == b[j] && tail[1..] == post;
    assert pre + tail == b;
    CountIfAppend(pre, tail, p);
    CountIfAppend(pre, post, p);
  }

  /** A count does not depend on the order of the rows. */
  lemma {:induction false} CountIfPermutation(a: seq<LeadRow>, b: seq<LeadRow>, p: LeadRow -> bool)
    requires multiset(a) == multiset(b)
    ensures CountIf(a, p) == CountIf(b, p)
    decreases |a|
  {
    if a == [] {
      assert |b| == |multiset(b)| == 0;
    } else {
      var x := a[0];
      assert x in multiset(b);
      var j :| 0 <= j < |b| && b[j] == x;
      RemoveAtMultiset(b, j);
      RemoveAtCount(b, j, p);
      assert a == [x] + a[1..];
      assert multiset(a[1..]) == multiset(a) - multiset{x};
      CountIfPermutation(a[1..], b[..j] + b[j + 1..], p);
    }
  }

  /** Sorting the leads does not change the summary. */
  lemma SummaryOfSorted(rows: seq<LeadRow>)
    ensures Summarize(SortLeads(rows)) == Summarize(rows)
  {
    var s := SortLeads(rows);
    SortLeadsCorrect(rows);
    CountIfPermutation(s, rows, HasEmail);
    CountIfPermutation(s, rows, HasWhatsApp);
    CountIfPermutation(s, rows, WithBoth);
    CountIfPermutation(s, rows, VerifiedSafe);
    CountIfPermutation(s, rows, TopTier);
  }

  lemma {:induction false} CountIfPointwise(a: seq<LeadRow>, b: seq<LeadRow>, p: LeadRow -> bool)
    requires |a| == |b|
    requires forall k :: 0 <= k < |a| ==> p(a[k]) == p(b[k])
    ensures CountIf(a, p) == CountIf(b, p)
  {
    if a != [] {
      CountIfPointwise(a[1..], b[1..], p);
    }
  }

  /** The summary of a lead file read back is the summary of the list written to it. */
  lemma SummaryAfterReload(rows: seq<LeadRow>)
    requires forall k :: 0 <= k < |rows| ==> Typed(rows[k])
    ensures Summarize(seq(|rows|, k requires 0 <= k < |rows| => LoadRow(WriteRow(rows[k])))) == Summarize(rows)
  {
    var back := seq(|rows|, k requires 0 <= k < |rows| => LoadRow(WriteRow(rows[k])));
    forall k | 0 <= k < |rows|
      ensures HasEmail(back[k]) == HasEmail(rows[k]) && HasWhatsApp(back[k]) == HasWhatsApp(rows[k])
      ensures VerifiedSafe(back[k]) == VerifiedSafe(rows[k])
    {
      WriteLoadRoundTrip(rows[k]);
    }
    CountIfPointwise(back, rows, HasEmail);
    CountIfPointwise(back, rows, HasWhatsApp);
    CountIfPointwise(back, rows, WithBoth);
    CountIfPointwise(back, rows, VerifiedSafe);
    CountIfPointwise(back, rows, TopTier);
  }
}
