/**
 * The email extraction and ranking engine of scraper.py: junk filtering,
 * free-provider flagging, keyword priorities and the ranked, deduplicated list.
 * The regular-expression scan that finds candidate addresses in a page is not
 * modelled: the engine starts from the list of candidates that scan returns.
 */
module Emails {

  import opened Strings
  import opened Config
  import StableSort

  /** One ranked candidate: the lower-cased address, its priority and the free-provider flag. */
  datatype EmailResult = EmailResult(email: string, priority: int, isFreeProvider: bool)

  /** File endings that mark an asset name the address pattern matched by accident. */
  const AssetExtensions: seq<string> := [".png", ".jpg", ".jpeg", ".webp", ".gif", ".svg", ".css", ".js"]

  /** Placeholder addresses that templates ship with. */
  const PlaceholderEmails: seq<string> := [
    "xxx@xxx.xxx", "name@email.com", "monique@email.com",
    "admin@example.com", "email@example.com", "your@email.com"
  ]

  /** `s[i..j]` is a non-empty run of decimal digits. */
  predicate DigitRun(s: string, i: int, j: int)
    requires 0 <= i <= j <= |s|
  {
    i < j && forall k :: i <= k < j ==> IsDigit(s[k])
  }

  /** `re.search(r'_\d+x@', s)`: an image-width suffix right before the `@`. */
  predicate HasWidthBeforeAt(s: string) {
    exists i, j | 0 <= i < j && j + 1 < |s| ::
      s[i] == '_' && DigitRun(s, i + 1, j) && s[j] == 'x' && s[j + 1] == '@'
  }

  /** `re.search(r'_\d+x\d*\.', s)`: an image-size suffix right before a dot. */
  predicate HasSizeBeforeDot(s: string) {
    exists i, j, k | 0 <= i < j < k < |s| ::
      s[i] == '_' && DigitRun(s, i + 1, j) && s[j] == 'x'
      && (forall m :: j < m < k ==> IsDigit(s[m])) && s[k] == '.'
  }

  /** `_is_junk_email`: every test is made on the lower-cased address. */
  predicate IsJunk(email: string) {
    JunkLowered(Lower(email))
  }

  /** The junk tests applied to an address already in lower case. */
  predicate JunkLowered(l: string) {
    || (exists k | 0 <= k < |AssetExtensions| :: EndsWith(l, AssetExtensions[k]))
    || Contains(l, "@2x.")
    || HasWidthBeforeAt(l)
    || HasSizeBeforeDot(l)
    || l in PlaceholderEmails
    || (exists k | 0 <= k < |JunkEmailPatterns| :: Contains(l, Lower(JunkEmailPatterns[k])))
  }

  /** The local part: `email.lower().split("@")[0]`. */
  function LocalPart(email: string): string {
    BeforeFirst(Lower(email), '@')
  }

  /** The domain part: `email.lower().split("@")[-1]`. */
  function DomainPart(email: string): string {
    AfterLast(Lower(email), '@')
  }

  /** `_is_free_provider`. */
  predicate IsFreeProvider(email: string) {
    DomainPart(email) in FreeEmailProviders
  }

  /** The value of the first keyword of `table` (in table order) that occurs in `local`. */
  function PriorityIn(local: string, table: seq<(string, int)>, default: int): int {
    if table == [] then default
    else if Contains(local, table[0].0) then table[0].1
    else PriorityIn(local, table[1..], default)
  }

  /** `_get_email_priority`. */
  function Priority(email: string): int {
    PriorityIn(LocalPart(email), EmailPriority, DefaultEmailPriority)
  }

  /**
   * On a table whose priorities never decrease, the first match is a best match:
   * no matching keyword has a smaller number, the result is the number of some
   * matching keyword, and only when nothing matches is it the default.
   */
  lemma {:induction false} FirstMatchIsBestMatch(local: string, table: seq<(string, int)>, default: int)
    requires NonDecreasing(table)
    ensures forall k :: 0 <= k < |table| && Contains(local, table[k].0) ==> PriorityIn(local, table, default) <= table[k].1
    ensures (exists k :: 0 <= k < |table| && Contains(local, table[k].0))
            ==> exists k :: 0 <= k < |table| && Contains(local, table[k].0) && PriorityIn(local, table, default) == table[k].1
    ensures (forall k :: 0 <= k < |table| ==> !Contains(local, table[k].0)) ==> PriorityIn(local, table, default) == default
  {
    if table != [] {
      assert NonDecreasing(table[1..]) by {
        forall i, j | 0 <= i < j < |table[1..]| ensures table[1..][i].1 <= table[1..][j].1 {
          assert table[1..][i] == table[i + 1] && table[1..][j] == table[j + 1];
        }
      }
      FirstMatchIsBestMatch(local, table[1..], default);
      forall k | 0 < k < |table| && Contains(local, table[k].0)
        ensures PriorityIn(local, table, default) <= table[k].1
      {
        assert table[1..][k - 1] == table[k];
      }
      if !Contains(local, table[0].0) && exists k :: 0 <= k < |table| && Contains(local, table[k].0) {
        var k :| 0 <= k < |table| && Contains(local, table[k].0);
        assert table[1..][k - 1] == table[k];
        var k' :| 0 <= k' < |table[1..]| && Contains(local, table[1..][k'].0)
                  && PriorityIn(local, table[1..], default) == table[1..][k'].1;
        assert table[k' + 1] == table[1..][k'];
      }
    }
  }

  /** Every candidate gets a priority between 1 and 7. */
  lemma PriorityInRange(email: string)
    ensures 1 <= Priority(email) <= 7
  {
    EmailPriorityOrdered();
    FirstMatchIsBestMatch(LocalPart(email), EmailPriority, DefaultEmailPriority);
  }

  /** Keywords are matched as substrings: a local part "shipping" contains "hi" and so ranks 2. */
  lemma SubstringKeywordMatch()
    ensures PriorityIn("shipping", EmailPriority, DefaultEmailPriority) == 2
  {
    var local := "shipping";
    MissingCharNotContained(local, "owner", 0);
    MissingCharNotContained(local, "founder", 0);
    MissingCharNotContained(local, "ceo", 0);
    MissingCharNotContained(local, "hello", 1);
    assert OccursAt(local, "hi", 1);
    assert PriorityIn(local, EmailPriority[4..], DefaultEmailPriority) == 2;
    assert PriorityIn(local, EmailPriority[3..], DefaultEmailPriority) == 2;
    assert PriorityIn(local, EmailPriority[2..], DefaultEmailPriority) == 2;
    assert PriorityIn(local, EmailPriority[1..], DefaultEmailPriority) == 2;
  }

  /** The candidate as `extract_emails` records it. */
  function Ranked(email: string): (r: EmailResult) {
    EmailResult(Lower(email), Priority(email), IsFreeProvider(email))
  }

  /** Sort key comparison: `(priority, is_free_provider)` as a Python tuple (False < True). */
  predicate KeyLe(a: EmailResult, b: EmailResult) {
    a.priority < b.priority || (a.priority == b.priority && (!a.isFreeProvider || b.isFreeProvider))
  }

  lemma KeyLeIsTotalPreorder()
    ensures StableSort.TotalPreorder(KeyLe)
  {
  }

  /** The lower-cased forms of the strings in `s`. */
  function LowerSet(s: seq<string>): set<string> {
    set x | x in s :: Lower(x)
  }

  /** Case-insensitive deduplication that keeps the first spelling seen (the first loop). */
  function Dedup(raw: seq<string>): seq<string> {
    if raw == [] then []
    else
      var prev := Dedup(raw[..|raw| - 1]);
      if Lower(raw[|raw| - 1]) in LowerSet(prev) then prev else prev + [raw[|raw| - 1]]
  }

  /** The non-junk addresses of `unique`, ranked, in their order (the second loop). */
  function Survivors(unique: seq<string>): seq<EmailResult> {
    if unique == [] then []
    else
      var last := unique[|unique| - 1];
      Survivors(unique[..|unique| - 1]) + (if IsJunk(last) then [] else [Ranked(last)])
  }

  /** What `extract_emails` returns for the candidates its scan found. */
  function RankEmails(raw: seq<string>): seq<EmailResult> {
    StableSort.Sort(Survivors(Dedup(raw)), KeyLe)
  }

  /** `extract_emails`: deduplicate, drop junk, rank, then sort stably by key. */
  method ExtractEmails(raw: seq<string>) returns (results: seq<EmailResult>)
    ensures results == RankEmails(raw)
  {
    var unique := DedupLoop(raw);
    var ranked := RankLoop(unique);
    results := StableSort.Sort(ranked, KeyLe);
  }

  /** The first loop of `extract_emails`: keep the first spelling of each lower-cased address. */
  method DedupLoop(raw: seq<string>) returns (unique: seq<string>)
    ensures unique == Dedup(raw)
  {
    var seen: set<string> := {};
    unique := [];
    for i := 0 to |raw|
      invariant unique == Dedup(raw[..i])
      invariant seen == LowerSet(unique)
    {
      assert raw[..i + 1][..i] == raw[..i];
      var lower := Lower(raw[i]);
      if lower !in seen {
        seen := seen + {lower};
        unique := unique + [raw[i]];
      }
    }
    assert raw[..|raw|] == raw;
  }

  /** The second loop of `extract_emails`: rank every address that is not junk. */
  method RankLoop(unique: seq<string>) returns (ranked: seq<EmailResult>)
    ensures ranked == Survivors(unique)
  {
    ranked := [];
    for k := 0 to |unique|
      invariant ranked == Survivors(unique[..k])
    {
      assert unique[..k + 1][..k] == unique[..k];
      if !IsJunk(unique[k]) {
        ranked := ranked + [Ranked(unique[k])];
      }
    }
    assert unique[..|unique|] == unique;
  }

  // ---------------------------------------------------------------------------
  // What the ranked list promises
  // ---------------------------------------------------------------------------

  /** Lower-casing twice is lower-casing once, so every test gives the same answer on the result. */
  lemma RankedIsStable(email: string)
    ensures IsLower(Ranked(email).email)
    ensures IsJunk(Ranked(email).email) == IsJunk(email)
    ensures Ranked(Ranked(email).email) == Ranked(email)
  {
    var l := Lower(email);
    LowerIdempotent(l);
    assert Lower(l) == l;
    assert LocalPart(l) == LocalPart(email);
    assert DomainPart(l) == DomainPart(email);
  }

  /** No two strings of `s` are equal ignoring case. */
  predicate DistinctIgnoringCase(s: seq<string>) {
    forall i, j :: 0 <= i < j < |s| ==> Lower(s[i]) != Lower(s[j])
  }

  function EmailOf(r: EmailResult): string {
    r.email
  }

  /** Deduplication keeps spellings that are pairwise different ignoring case. */
  lemma {:induction false} DedupDistinct(raw: seq<string>)
    ensures DistinctIgnoringCase(Dedup(raw))
  {
    if raw != [] {
      var init := raw[..|raw| - 1];
      var last := raw[|raw| - 1];
      DedupDistinct(init);
      var p := Dedup(init);
      if Lower(last) !in LowerSet(p) {
        var d := p + [last];
        forall i, j | 0 <= i < j < |d| ensures Lower(d[i]) != Lower(d[j]) {
          if j < |p| {
            assert d[i] == p[i] && d[j] == p[j];
          } else {
            assert d[i] == p[i] && p[i] in p;
          }
        }
      }
    }
  }

  /** Deduplication loses no lower-cased form. */
  lemma {:induction false} DedupCoversLower(raw: seq<string>)
    ensures LowerSet(Dedup(raw)) == LowerSet(raw)
  {
    if raw != [] {
      var init := raw[..|raw| - 1];
      var last := raw[|raw| - 1];
      DedupCoversLower(init);
      assert raw == init + [last];
      assert LowerSet(raw) == LowerSet(init) + {Lower(last)};
      if Lower(last) !in LowerSet(Dedup(init)) {
        assert LowerSet(Dedup(init) + [last]) == LowerSet(Dedup(init)) + {Lower(last)};
      }
    }
  }

  /** Every kept spelling is one of the candidates. */
  lemma {:induction false} DedupSubset(raw: seq<string>)
    ensures forall u :: u in Dedup(raw) ==> u in raw
  {
    if raw != [] {
      DedupSubset(raw[..|raw| - 1]);
    }
  }

  /** No candidate before position `k` has the lower-cased form of `raw[k]`. */
  predicate FirstSpelling(raw: seq<string>, k: int)
    requires 0 <= k < |raw|
  {
    forall m :: 0 <= m < k ==> Lower(raw[m]) != Lower(raw[k])
  }

  /** Each kept spelling is the first candidate with its lower-cased form. */
  lemma {:induction false} DedupKeepsFirst(raw: seq<string>)
    ensures forall u :: u in Dedup(raw) ==> exists k :: 0 <= k < |raw| && raw[k] == u && FirstSpelling(raw, k)
  {
    if raw != [] {
      var init := raw[..|raw| - 1];
      var last := raw[|raw| - 1];
      DedupKeepsFirst(init);
      DedupCoversLower(init);
      forall u | u in Dedup(raw)
        ensures exists k :: 0 <= k < |raw| && raw[k] == u && FirstSpelling(raw, k)
      {
        if u in Dedup(init) {
          var k :| 0 <= k < |init| && init[k] == u && FirstSpelling(init, k);
          assert raw[k] == u;
          assert FirstSpelling(raw, k) by {
            forall m | 0 <= m < k ensures Lower(raw[m]) != Lower(raw[k]) {
              assert raw[m] == init[m];
            }
          }
        } else {
          var k := |raw| - 1;
          assert u == last && Lower(last) !in LowerSet(init);
          assert FirstSpelling(raw, k) by {
            forall m | 0 <= m < k ensures Lower(raw[m]) != Lower(raw[k]) {
              assert raw[m] == init[m];
              assert init[m] in init;
            }
          }
        }
      }
    }
  }

  /** Each survivor is a ranked, non-junk deduplicated candidate, and every non-junk one survives. */
  lemma {:induction false} SurvivorsAreRankedNonJunk(unique: seq<string>)
    ensures forall r :: r in Survivors(unique) <==> exists u :: u in unique && !IsJunk(u) && r == Ranked(u)
  {
    if unique != [] {
      var init := unique[..|unique| - 1];
      SurvivorsAreRankedNonJunk(init);
      assert unique == init + [unique[|unique| - 1]];
    }
  }

  /** Addresses that differ ignoring case give survivors with different addresses. */
  lemma {:induction false} SurvivorsDistinct(unique: seq<string>)
    requires DistinctIgnoringCase(unique)
    ensures StableSort.InjectiveOn(Survivors(unique), EmailOf)
  {
    if unique != [] {
      var init := unique[..|unique| - 1];
      var last := unique[|unique| - 1];
      assert DistinctIgnoringCase(init) by {
        forall i, j | 0 <= i < j < |init| ensures Lower(init[i]) != Lower(init[j]) {
          assert init[i] == unique[i] && init[j] == unique[j];
        }
      }
      SurvivorsDistinct(init);
      SurvivorsAreRankedNonJunk(init);
      var s := Survivors(unique);
      var p := Survivors(init);
      forall r | r in p ensures r.email != Lower(last) {
        var u :| u in init && !IsJunk(u) && r == Ranked(u);
        var i :| 0 <= i < |init| && init[i] == u;
        assert unique[i] == u;
      }
      if !IsJunk(last) {
        AppendKeepsInjective(p, Ranked(last));
      }
    }
  }

  /** Appending an address that is not yet in the list keeps the addresses distinct. */
  lemma AppendKeepsInjective(p: seq<EmailResult>, x: EmailResult)
    requires StableSort.InjectiveOn(p, EmailOf)
    requires forall r :: r in p ==> r.email != x.email
    ensures StableSort.InjectiveOn(p + [x], EmailOf)
  {
    var s := p + [x];
    forall i, j | 0 <= i < j < |s| ensures EmailOf(s[i]) != EmailOf(s[j]) {
      if j < |p| {
        assert s[i] == p[i] && s[j] == p[j];
      } else {
        assert s[i] == p[i] && s[i] in p;
      }
    }
  }

  /** Every address `extract_emails` returns is lower case, not junk, and ranked by the tables. */
  lemma RankEmailsWellFormed(raw: seq<string>)
    ensures forall r :: r in RankEmails(raw) ==> IsLower(r.email) && !IsJunk(r.email) && r == Ranked(r.email)
  {
    var surv := Survivors(Dedup(raw));
    SurvivorsAreRankedNonJunk(Dedup(raw));
    forall r | r in RankEmails(raw) ensures IsLower(r.email) && !IsJunk(r.email) && r == Ranked(r.email) {
      assert r in multiset(RankEmails(raw));
      assert r in surv;
      var u :| u in Dedup(raw) && !IsJunk(u) && r == Ranked(u);
      RankedIsStable(u);
    }
  }

  /** No address appears twice in what `extract_emails` returns. */
  lemma RankEmailsDistinct(raw: seq<string>)
    ensures StableSort.InjectiveOn(RankEmails(raw), EmailOf)
  {
    DedupDistinct(raw);
    SurvivorsDistinct(Dedup(raw));
    StableSort.SortKeepsInjective(Survivors(Dedup(raw)), KeyLe, EmailOf);
  }

  /** Every address `extract_emails` returns is a lower-cased non-junk candidate. */
  lemma RankEmailsSound(raw: seq<string>, r: EmailResult)
    requires r in RankEmails(raw)
    ensures exists c :: c in raw && !IsJunk(c) && Lower(c) == r.email
  {
    var unique := Dedup(raw);
    DedupSubset(raw);
    SurvivorsAreRankedNonJunk(unique);
    assert r in multiset(RankEmails(raw));
    assert r in Survivors(unique);
    var u :| u in unique && !IsJunk(u) && r == Ranked(u);
    assert u in raw;
  }

  /** Every non-junk candidate comes back, lower-cased. */
  lemma RankEmailsComplete(raw: seq<string>, c: string)
    requires c in raw && !IsJunk(c)
    ensures exists r :: r in RankEmails(raw) && r.email == Lower(c)
  {
    var unique := Dedup(raw);
    DedupCoversLower(raw);
    SurvivorsAreRankedNonJunk(unique);
    assert Lower(c) in LowerSet(raw);
    assert Lower(c) in LowerSet(unique);
    var u :| u in unique && Lower(u) == Lower(c);
    assert IsJunk(u) == IsJunk(c);
    assert Ranked(u) in Survivors(unique);
    assert Ranked(u) in multiset(RankEmails(raw));
  }

  /**
   * `extract_emails` orders by `(priority, is_free_provider)`: numbers never go
   * down, a non-free address comes before a free one of equal priority, and
   * addresses with equal keys keep the order in which they were first seen.
   */
  lemma RankEmailsOrder(raw: seq<string>)
    ensures StableSort.Sorted(RankEmails(raw), KeyLe)
    ensures forall i, j :: 0 <= i < j < |RankEmails(raw)| ==>
              RankEmails(raw)[i].priority < RankEmails(raw)[j].priority
              || (RankEmails(raw)[i].priority == RankEmails(raw)[j].priority
                  && (!RankEmails(raw)[i].isFreeProvider || RankEmails(raw)[j].isFreeProvider))
    ensures forall x :: StableSort.ClassOf(RankEmails(raw), KeyLe, x) == StableSort.ClassOf(Survivors(Dedup(raw)), KeyLe, x)
  {
    KeyLeIsTotalPreorder();
    StableSort.SortSorted(Survivors(Dedup(raw)), KeyLe);
    forall x ensures StableSort.ClassOf(RankEmails(raw), KeyLe, x) == StableSort.ClassOf(Survivors(Dedup(raw)), KeyLe, x) {
      StableSort.SortStable(Survivors(Dedup(raw)), KeyLe, x);
    }
  }

  /** No candidates, no result (an empty page gives an empty list). */
  lemma RankEmailsEmpty()
    ensures RankEmails([]) == []
  {
  }

  /** The first address returned has the best key of all: it is the one the scraper keeps. */
  lemma BestEmailFirst(raw: seq<string>)
    requires RankEmails(raw) != []
    ensures forall r :: r in RankEmails(raw) ==> KeyLe(RankEmails(raw)[0], r)
  {
    RankEmailsOrder(raw);
  }

  /** Nothing comes back exactly when every candidate is junk. */
  lemma NoEmailIffAllJunk(raw: seq<string>)
    ensures RankEmails(raw) == [] <==> forall c :: c in raw ==> IsJunk(c)
  {
    if RankEmails(raw) != [] {
      RankEmailsSound(raw, RankEmails(raw)[0]);
    }
    forall c | c in raw && !IsJunk(c) ensures RankEmails(raw) != [] {
      RankEmailsComplete(raw, c);
    }
  }
}
