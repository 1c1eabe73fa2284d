/**
 * One discovery batch (`discover_stores` in discovery.py): pick the next
 * window of dork queries from the cursor, run each through the search
 * engine, keep the domains never seen before, then move the cursor to the
 * end of the window and save the cursor and the ledger.
 */
module Discovery {

  import opened Wrappers
  import opened Config
  import opened Domains
  import opened Queries
  import opened Ledger
  import opened Cursor
  import opened Fetching

  // ---------------------------------------------------------------------------
  // The batch window
  // ---------------------------------------------------------------------------

  /** `max_queries or DORK_BATCH_SIZE`: no override, or an override of 0, gives the configured size. */
  function BatchSize(maxQueries: Option<int>): int {
    if maxQueries.None? || maxQueries.value == 0 then DorkBatchSize else maxQueries.value
  }

  /** `batch_end = min(batch_start + batch_size, total_queries)`. */
  function BatchEnd(start: int, size: int, total: int): int {
    if start + size < total then start + size else total
  }

  /** Where Python puts a slice bound `i` of a list of `n` items: negative bounds count from the end, and both are clamped. */
  function SliceBound(i: int, n: nat): (r: nat)
    ensures r <= n
  {
    if i < 0 then (if i + n < 0 then 0 else i + n) else if i > n then n else i
  }

  /** Python's `xs[i:j]`. */
  function PySlice<T>(xs: seq<T>, i: int, j: int): seq<T> {
    var a := SliceBound(i, |xs|);
    var b := SliceBound(j, |xs|);
    if a < b then xs[a..b] else []
  }

  /** The queries a batch runs: `all_queries[batch_start:batch_end]`. */
  function Window(queries: seq<string>, start: int, size: int): seq<string> {
    PySlice(queries, start, BatchEnd(start, size, |queries|))
  }

  /**
   * From a cursor inside the list and a positive batch size, the window is the
   * next `min(size, total - start)` queries and the cursor moves past them.
   */
  lemma WindowAdvances(queries: seq<string>, start: int, size: int)
    requires 0 <= start < |queries| && size > 0
    ensures start < BatchEnd(start, size, |queries|) <= |queries|
    ensures BatchEnd(start, size, |queries|) <= start + size
    ensures Window(queries, start, size) == queries[start..BatchEnd(start, size, |queries|)]
  {
  }

  /**
   * The cursor after `k` batches from the start with batch size `size` over
   * `total` queries, when no batch is a dry run: an exhausted cursor stays put.
   */
  function RunPosition(k: nat, size: int, total: nat): int {
    if k == 0 then 0
    else
      var p := RunPosition(k - 1, size, total);
      if p >= total then p else BatchEnd(p, size, total)
  }

  /** After `k` batches the cursor is at `min(k * size, total)`: runs resume where the last one stopped. */
  lemma {:induction false} PositionAfterRuns(k: nat, size: int, total: nat)
    requires size > 0
    ensures RunPosition(k, size, total) == if k * size < total then k * size else total
  {
    if k > 0 {
      PositionAfterRuns(k - 1, size, total);
      assert (k - 1) * size + size == k * size;
      if (k - 1) * size >= total {
        assert k * size >= total;
      }
    }
  }

  /** The queries the first `k` batches run, in order. */
  function QueriesRun(queries: seq<string>, k: nat, size: int): seq<string> {
    if k == 0 then []
    else
      var p := RunPosition(k - 1, size, |queries|);
      QueriesRun(queries, k - 1, size) + (if p >= |queries| then [] else Window(queries, p, size))
  }

  /**
   * The first `k` batches run the first `min(k * size, total)` queries, each
   * once and in order: nothing is skipped or repeated across runs.
   */
  lemma {:induction false} RunsCoverQueries(queries: seq<string>, k: nat, size: int)
    requires size > 0
    ensures 0 <= RunPosition(k, size, |queries|) <= |queries|
    ensures QueriesRun(queries, k, size) == queries[..RunPosition(k, size, |queries|)]
  {
    if k > 0 {
      RunsCoverQueries(queries, k - 1, size);
      var p := RunPosition(k - 1, size, |queries|);
      if p < |queries| {
        WindowAdvances(queries, p, size);
        var e := BatchEnd(p, size, |queries|);
        assert queries[..p] + queries[p..e] == queries[..e];
      }
    }
  }

  // ---------------------------------------------------------------------------
  // New domains
  // ---------------------------------------------------------------------------

  /**
   * The domains of `ds` that are new against `seen`, in order of first
   * appearance: a domain is kept the first time it appears, unless `seen`
   * already holds it.
   */
  function Fresh(seen: set<string>, ds: seq<string>): seq<string> {
    if ds == [] then []
    else
      var init := Fresh(seen, ds[..|ds| - 1]);
      var last := ds[|ds| - 1];
      if last in seen || last in Elems(ds[..|ds| - 1]) then init else init + [last]
  }

  /** The new domains are exactly the domains met that `seen` lacks, each once. */
  lemma {:induction false} FreshExact(seen: set<string>, ds: seq<string>)
    ensures Elems(Fresh(seen, ds)) == Elems(ds) - seen
    ensures forall i, j :: 0 <= i < j < |Fresh(seen, ds)| ==> Fresh(seen, ds)[i] != Fresh(seen, ds)[j]
    decreases |ds|
  {
    if ds != [] {
      var front := ds[..|ds| - 1];
      var last := ds[|ds| - 1];
      FreshExact(seen, front);
      assert ds == front + [last];
      assert Elems(ds) == Elems(front) + {last};
      var init := Fresh(seen, front);
      if !(last in seen || last in Elems(front)) {
        var r := init + [last];
        assert Elems(r) == Elems(init) + {last};
        forall i, j | 0 <= i < j < |r| ensures r[i] != r[j] {
          if j == |init| {
            assert r[i] == init[i] && r[i] in Elems(init);
          }
        }
      }
    }
  }

  /** Meeting `a` and then `b` finds the new domains of `a`, then those of `b` that neither `seen` nor `a` holds. */
  lemma {:induction false} FreshAppend(seen: set<string>, a: seq<string>, b: seq<string>)
    ensures Fresh(seen, a + b) == Fresh(seen, a) + Fresh(seen + Elems(a), b)
    decreases |b|
  {
    if b == [] {
      assert a + b == a;
    } else {
      var front := b[..|b| - 1];
      var last := b[|b| - 1];
      FreshAppend(seen, a, front);
      assert (a + b)[..|a + b| - 1] == a + front;
      assert (a + b)[|a + b| - 1] == last;
      assert Elems(a + front) == Elems(a) + Elems(front);
    }
  }

  /** Once every domain met is in the ledger, the same domains yield nothing new: a second run returns `[]`. */
  lemma {:induction false} RerunFindsNothing(seen: set<string>, ds: seq<string>)
    requires Elems(ds) <= seen
    ensures Fresh(seen, ds) == []
    decreases |ds|
  {
    if ds != [] {
      var front := ds[..|ds| - 1];
      assert ds[|ds| - 1] in Elems(ds);
      assert Elems(front) <= Elems(ds) by {
        forall d | d in Elems(front) ensures d in Elems(ds) {
          var i :| 0 <= i < |front| && front[i] == d;
          assert ds[i] == d;
        }
      }
      RerunFindsNothing(seen, front);
    }
  }

  /** The `is_new`/`add` loop over one query's domains: the ledger grows by them and the new ones are reported, in order. */
  method RecordDomains(seen: SeenDomains, domains: seq<string>) returns (added: seq<string>)
    modifies seen
    ensures added == Fresh(old(seen.domains), domains)
    ensures seen.domains == old(seen.domains) + Elems(domains)
  {
    added := [];
    for i := 0 to |domains|
      invariant added == Fresh(old(seen.domains), domains[..i])
      invariant seen.domains == old(seen.domains) + Elems(domains[..i])
    {
      assert domains[..i + 1][..i] == domains[..i];
      assert Elems(domains[..i + 1]) == Elems(domains[..i]) + {domains[i]};
      var isNew := seen.IsNew(domains[i]);
      if isNew {
        seen.Add(domains[i]);
        added := added + [domains[i]];
      }
    }
    assert domains[..|domains|] == domains;
  }

  // ---------------------------------------------------------------------------
  // The search engine
  // ---------------------------------------------------------------------------

  /** The `i`-th scripted answer; once the script runs out, every search finds nothing. */
  function Answer(answers: seq<seq<string>>, i: nat): seq<string> {
    if i < |answers| then answers[i] else []
  }

  /** The answers still to come after `n` searches. */
  function DropAnswers(answers: seq<seq<string>>, n: nat): seq<seq<string>> {
    if n <= |answers| then answers[n..] else []
  }

  /** `_search_google`: each query answers with a list of result URLs, empty when the search fails. */
  class SearchEngine {
    /** The answers the next searches will receive, in order. */
    var answers: seq<seq<string>>
    /** Every query searched so far, in order. */
    var queried: seq<string>

    constructor(answers: seq<seq<string>>)
      ensures this.answers == answers && queried == []
    {
      this.answers := answers;
      queried := [];
    }

    method Search(query: string) returns (urls: seq<string>)
      modifies this
      ensures urls == Answer(old(answers), 0)
      ensures answers == DropAnswers(old(answers), 1)
      ensures queried == old(queried) + [query]
    {
      urls := Answer(answers, 0);
      answers := DropAnswers(answers, 1);
      queried := queried + [query];
    }
  }

  /** The domains the first `n` answers yield, in order. */
  function Harvest(answers: seq<seq<string>>, n: nat): seq<string> {
    if n == 0 then [] else Harvest(answers, n - 1) + ExtractDomains(Answer(answers, n - 1))
  }

  // ---------------------------------------------------------------------------
  // One batch
  // ---------------------------------------------------------------------------

  /** What a completed batch writes: the state file and the ledger file. */
  datatype Saved = Saved(state: StateFile, ledger: LedgerFile)

  /** A batch does nothing when the cursor is past the last query, or when it is a dry run. */
  predicate Idle(start: int, total: int, dryRun: bool) {
    start >= total || dryRun
  }

  /** One turn of the search loop: search, reduce the URLs to domains, record the new ones. */
  method RunQuery(query: string, seen: SeenDomains, engine: SearchEngine) returns (domains: seq<string>, added: seq<string>)
    modifies seen, engine
    ensures domains == ExtractDomains(Answer(old(engine.answers), 0))
    ensures added == Fresh(old(seen.domains), domains)
    ensures seen.domains == old(seen.domains) + Elems(domains)
    ensures engine.answers == DropAnswers(old(engine.answers), 1)
    ensures engine.queried == old(engine.queried) + [query]
  {
    var urls := engine.Search(query);
    domains := ExtractDomainsFromUrls(urls);
    added := RecordDomains(seen, domains);
  }

  /** Two turns of the script are one longer turn. */
  lemma DropAnswersTwice(answers: seq<seq<string>>, i: nat)
    ensures DropAnswers(DropAnswers(answers, i), 1) == DropAnswers(answers, i + 1)
    ensures Answer(DropAnswers(answers, i), 0) == Answer(answers, i)
  {
  }

  /** The bookkeeping of one turn: the domains met and the new ones grow together. */
  lemma HarvestStep(seen0: set<string>, answers: seq<seq<string>>, i: nat, domains: seq<string>)
    requires domains == ExtractDomains(Answer(answers, i))
    ensures Harvest(answers, i + 1) == Harvest(answers, i) + domains
    ensures Fresh(seen0, Harvest(answers, i + 1)) == Fresh(seen0, Harvest(answers, i)) + Fresh(seen0 + Elems(Harvest(answers, i)), domains)
    ensures Elems(Harvest(answers, i + 1)) == Elems(Harvest(answers, i)) + Elems(domains)
  {
    FreshAppend(seen0, Harvest(answers, i), domains);
  }

  /** Turn `i` of the search loop, stated against the script and the ledger the batch started from. */
  method RunNext(query: string, i: nat, seen: SeenDomains, engine: SearchEngine,
                 ghost seen0: set<string>, ghost answers0: seq<seq<string>>) returns (added: seq<string>)
    requires engine.answers == DropAnswers(answers0, i)
    requires seen.domains == seen0 + Elems(Harvest(answers0, i))
    modifies seen, engine
    ensures engine.answers == DropAnswers(answers0, i + 1)
    ensures engine.queried == old(engine.queried) + [query]
    ensures Fresh(seen0, Harvest(answers0, i)) + added == Fresh(seen0, Harvest(answers0, i + 1))
    ensures seen.domains == seen0 + Elems(Harvest(answers0, i + 1))
  {
    DropAnswersTwice(answers0, i);
    var domains;
    domains, added := RunQuery(query, seen, engine);
    HarvestStep(seen0, answers0, i, domains);
  }

  /**
   * The search loop of `discover_stores`: every query of the batch in turn,
   * its URLs reduced to domains and the new ones recorded.
   */
  method RunQueries(batch: seq<string>, seen: SeenDomains, engine: SearchEngine) returns (newDomains: seq<string>)
    modifies seen, engine
    ensures engine.queried == old(engine.queried) + batch
    ensures engine.answers == DropAnswers(old(engine.answers), |batch|)
    ensures newDomains == Fresh(old(seen.domains), Harvest(old(engine.answers), |batch|))
    ensures seen.domains == old(seen.domains) + Elems(Harvest(old(engine.answers), |batch|))
  {
    ghost var seen0 := seen.domains;
    ghost var answers0 := engine.answers;
    ghost var queried0 := engine.queried;
    newDomains := [];
    assert Elems(Harvest(answers0, 0)) == {};
    for i := 0 to |batch|
      invariant engine.queried == queried0 + batch[..i]
      invariant engine.answers == DropAnswers(answers0, i)
      invariant newDomains == Fresh(seen0, Harvest(answers0, i))
      invariant seen.domains == seen0 + Elems(Harvest(answers0, i))
    {
      LogStep(queried0, batch, i);
      var added := RunNext(batch[i], i, seen, engine, seen0, answers0);
      newDomains := newDomains + added;
    }
    assert batch[..|batch|] == batch;
  }

  /**
   * `discover_stores(max_queries, include_niche, dry_run)` over a loaded
   * cursor and ledger. An exhausted cursor or a dry run returns `[]` and
   * changes nothing. Otherwise the window's queries are searched, the cursor
   * moves to the window's end, the count grows by the number of new domains,
   * and both files are saved.
   */
  method DiscoverStores(state: DorkState, seen: SeenDomains, engine: SearchEngine,
                        maxQueries: Option<int>, includeNiche: bool, dryRun: bool, now: string)
    returns (newDomains: seq<string>, saved: Option<Saved>)
    modifies state, seen, engine
    ensures var total := |DorkQueries(includeNiche)|;
      Idle(old(state.queryIndex), total, dryRun) ==>
        newDomains == [] && saved.None? &&
        state.Current() == old(state.Current()) && seen.domains == old(seen.domains) &&
        engine.answers == old(engine.answers) && engine.queried == old(engine.queried)
    ensures var queries := DorkQueries(includeNiche);
      var start := old(state.queryIndex);
      var size := BatchSize(maxQueries);
      var batch := Window(queries, start, size);
      var met := Harvest(old(engine.answers), |batch|);
      !Idle(start, |queries|, dryRun) ==>
        engine.queried == old(engine.queried) + batch &&
        engine.answers == DropAnswers(old(engine.answers), |batch|) &&
        newDomains == Fresh(old(seen.domains), met) &&
        seen.domains == old(seen.domains) + Elems(met) &&
        state.Current() == Position(BatchEnd(start, size, |queries|), old(state.lastRun),
                                    old(state.totalDiscovered) + |newDomains|) &&
        saved.Some? &&
        saved.value.state == StateFile(Some(state.queryIndex), Some(now), Some(state.totalDiscovered)) &&
        StrictlySorted(saved.value.ledger.domains) &&
        Elems(saved.value.ledger.domains) == seen.domains &&
        saved.value.ledger.count == |seen.domains|
  {
    var batchSize := BatchSize(maxQueries);
    var allQueries := GenerateDorkQueries(includeNiche);
    var totalQueries := |allQueries|;
    if state.queryIndex >= totalQueries {
      return [], None;
    }
    var batchStart := state.queryIndex;
    var batchEnd := BatchEnd(batchStart, batchSize, totalQueries);
    var batchQueries := PySlice(allQueries, batchStart, batchEnd);
    if dryRun {
      return [], None;
    }
    newDomains, saved := RunBatch(batchQueries, batchEnd, state, seen, engine, now);
  }

  /** The part of `discover_stores` after the checks: search the batch, move the cursor, save both files. */
  method RunBatch(batch: seq<string>, batchEnd: int, state: DorkState, seen: SeenDomains, engine: SearchEngine, now: string)
    returns (newDomains: seq<string>, saved: Option<Saved>)
    modifies state, seen, engine
    ensures var met := Harvest(old(engine.answers), |batch|);
      engine.queried == old(engine.queried) + batch &&
      engine.answers == DropAnswers(old(engine.answers), |batch|) &&
      newDomains == Fresh(old(seen.domains), met) &&
      seen.domains == old(seen.domains) + Elems(met)
    ensures state.Current() == Position(batchEnd, old(state.lastRun), old(state.totalDiscovered) + |newDomains|)
    ensures saved.Some? &&
      saved.value.state == StateFile(Some(state.queryIndex), Some(now), Some(state.totalDiscovered)) &&
      StrictlySorted(saved.value.ledger.domains) &&
      Elems(saved.value.ledger.domains) == seen.domains &&
      saved.value.ledger.count == |seen.domains|
  {
    newDomains := RunQueries(batch, seen, engine);
    state.queryIndex := batchEnd;
    state.totalDiscovered := state.totalDiscovered + |newDomains|;
    var stateFile := state.Save(now);
    var ledgerFile := seen.Save();
    saved := Some(Saved(stateFile, ledgerFile));
  }

  /**
   * What one batch reports is new against the ledger it started from: the
   * domains are pairwise distinct, none was seen before, each came from a
   * search result, and every domain met that was not seen is reported.
   */
  lemma BatchReportsNewDomains(seen0: set<string>, met: seq<string>)
    ensures forall i, j :: 0 <= i < j < |Fresh(seen0, met)| ==> Fresh(seen0, met)[i] != Fresh(seen0, met)[j]
    ensures forall d :: d in Fresh(seen0, met) <==> d in met && d !in seen0
  {
    FreshExact(seen0, met);
  }

  /** A batch leaves every domain it met in the ledger, so the same results again report nothing. */
  lemma BatchThenRerun(seen0: set<string>, met: seq<string>)
    ensures Fresh(seen0 + Elems(met), met) == []
  {
    RerunFindsNothing(seen0 + Elems(met), met);
  }
}
