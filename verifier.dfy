/**
 * Email verification against a Reacher server (verifier.py): reading one
 * Reacher answer into a result, the bounded retry loop for one address, and
 * the batch that verifies a list of addresses after one health check.
 *
 * The HTTP transport is a scripted `Reacher` object: each request receives
 * the next scripted outcome, and once the script is used up every request
 * fails to connect. Waiting (`time.sleep`) is counted, not performed.
 */
module Verifier {

  import opened Wrappers
  import opened Fetching

  // ---------------------------------------------------------------------------
  // Reacher's answer
  // ---------------------------------------------------------------------------

  /** A decoded JSON value (numbers are integers here; nothing below reads one). */
  datatype Json =
    | JNull
    | JBool(b: bool)
    | JNum(n: int)
    | JStr(s: string)
    | JArr(items: seq<Json>)
    | JObj(fields: map<string, Json>)

  /** `VerifyResult`. The Reacher fields keep whatever value the answer held, as Python assigns them unchecked. */
  datatype VerifyResult = VerifyResult(
    email: string,
    status: string,
    isReachable: Json,
    isDisposable: Json,
    isRoleAccount: Json,
    mxFound: Json,
    smtpSuccess: Json,
    error: string)

  /** `VerifyResult(email=email)`: every field at its default. */
  function NewResult(email: string): VerifyResult {
    VerifyResult(email, "unknown", JStr("unknown"), JBool(false), JBool(false), JBool(false), JBool(false), "")
  }

  /** `d.get(key, default)`. */
  function Get(fields: map<string, Json>, key: string, default: Json): Json {
    if key in fields then fields[key] else default
  }

  /** The statuses a result can carry. */
  predicate KnownStatus(s: string) {
    s == "safe" || s == "risky" || s == "invalid" || s == "unknown"
  }

  /** The status `is_reachable` maps to. */
  function StatusOf(reachable: Json): string {
    if reachable == JStr("safe") then "safe"
    else if reachable == JStr("risky") then "risky"
    else if reachable == JStr("invalid") then "invalid"
    else "unknown"
  }

  /**
   * The `except` branch: a part of the answer that should be an object is
   * not, so `.get` fails. The fields set so far stay; the status becomes
   * `unknown`. The error names the part instead of Python's exception text.
   */
  function ParseFailed(r: VerifyResult, part: string): VerifyResult {
    r.(status := "unknown", error := "parse_error: " + part)
  }

  /** An answer whose parts are all objects, or absent. */
  predicate WellShaped(data: Json) {
    data.JObj? &&
    Get(data.fields, "misc", JObj(map[])).JObj? &&
    Get(data.fields, "mx", JObj(map[])).JObj? &&
    Get(data.fields, "smtp", JObj(map[])).JObj?
  }

  /** `_parse_reacher_response(email, data)`, read in the order its statements run. */
  function ParseReacherResponse(email: string, data: Json): VerifyResult
  {
    var r0 := NewResult(email);
    if !data.JObj? then ParseFailed(r0, "response")
    else
      var reachable := Get(data.fields, "is_reachable", JStr("unknown"));
      var r1 := r0.(isReachable := reachable, status := StatusOf(reachable));
      var misc := Get(data.fields, "misc", JObj(map[]));
      if !misc.JObj? then ParseFailed(r1, "misc")
      else
        var r2 := r1.(isDisposable := Get(misc.fields, "is_disposable", JBool(false)),
                      isRoleAccount := Get(misc.fields, "is_role_account", JBool(false)));
        var mx := Get(data.fields, "mx", JObj(map[]));
        if !mx.JObj? then ParseFailed(r2, "mx")
        else
          var r3 := r2.(mxFound := Get(mx.fields, "accepts_mail", JBool(false)));
          var smtp := Get(data.fields, "smtp", JObj(map[]));
          if !smtp.JObj? then ParseFailed(r3, "smtp")
          else r3.(smtpSuccess := Get(smtp.fields, "is_deliverable", JBool(false)))
  }

  /**
   * The status is one of the four, and it is `safe`, `risky` or `invalid`
   * exactly when `is_reachable` says so in a well-shaped answer; anything
   * else gives `unknown`. A parse error happens exactly when the answer is
   * not well shaped.
   */
  lemma ParseStatus(email: string, data: Json)
    ensures var r := ParseReacherResponse(email, data);
      r.email == email && KnownStatus(r.status) &&
      (r.status != "unknown" <==>
         WellShaped(data) && Get(data.fields, "is_reachable", JStr("unknown")) in {JStr("safe"), JStr("risky"), JStr("invalid")}) &&
      (r.status != "unknown" ==> r.isReachable == JStr(r.status)) &&
      (r.error == "" <==> WellShaped(data))
  {
  }

  /** Missing `misc`, `mx` or `smtp` parts leave their flags false, and the empty answer gives the default result. */
  lemma ParseDefaults(email: string, data: Json)
    requires data.JObj?
    ensures var r := ParseReacherResponse(email, data);
      ("misc" !in data.fields ==> r.isDisposable == JBool(false) && r.isRoleAccount == JBool(false)) &&
      ("mx" !in data.fields ==> r.mxFound == JBool(false)) &&
      ("smtp" !in data.fields ==> r.smtpSuccess == JBool(false))
    ensures data == JObj(map[]) ==> ParseReacherResponse(email, data) == NewResult(email)
  {
  }

  // ---------------------------------------------------------------------------
  // One address
  // ---------------------------------------------------------------------------

  const VerifyMaxRetries: nat := 2
  /** `range(VERIFY_MAX_RETRIES + 1)`. */
  const VerifyAttempts: nat := VerifyMaxRetries + 1
  const VerifyBatchSize: nat := 20

  /** How one `requests.post` ends. */
  datatype Outcome =
    | Http(statusCode: int, body: Option<Json>)  // a response; `None` when its body is not JSON
    | ConnectionFailure                           // `requests.ConnectionError`, a connect timeout included
    | ReadTimeout                                 // `requests.Timeout` other than a connect timeout
    | OtherRequestError                           // any other `requests.RequestException`

  /** The `i`-th scripted outcome; past the script, the server cannot be reached. */
  function OutcomeAt(outcomes: seq<Outcome>, i: nat): Outcome {
    if i < |outcomes| then outcomes[i] else ConnectionFailure
  }

  /** The outcomes still to come after `n` requests. */
  function DropOutcomes(outcomes: seq<Outcome>, n: nat): seq<Outcome> {
    if n <= |outcomes| then outcomes[n..] else []
  }

  /** After `n` requests the next outcome is the `n`-th, and one more request leaves what `n + 1` requests leave. */
  lemma DropOutcomesStep(outcomes: seq<Outcome>, n: nat)
    ensures OutcomeAt(DropOutcomes(outcomes, n), 0) == OutcomeAt(outcomes, n)
    ensures DropOutcomes(DropOutcomes(outcomes, n), 1) == DropOutcomes(outcomes, n + 1)
  {
  }

  lemma DropOutcomesTwice(outcomes: seq<Outcome>, m: nat, n: nat)
    ensures DropOutcomes(DropOutcomes(outcomes, m), n) == DropOutcomes(outcomes, m + n)
  {
  }

  /** An outcome that ends the retry loop: a 200 with a JSON body, or no connection. */
  predicate Final(o: Outcome) {
    (o.Http? && o.statusCode == 200 && o.body.Some?) || o.ConnectionFailure?
  }

  /** What one attempt decides: a result ends the loop, `None` retries. */
  function Step(email: string, o: Outcome): Option<VerifyResult> {
    if o.Http? && o.statusCode == 200 && o.body.Some? then Some(ParseReacherResponse(email, o.body.value))
    else if o.ConnectionFailure? then Some(NewResult(email).(error := "reacher_unavailable"))
    else None
  }

  /** The result of one address, and how many requests it took. */
  datatype Verified = Verified(result: VerifyResult, attempts: nat)

  /** `verify_email(email)` from attempt `attempt` on, against the scripted outcomes. */
  function VerifyFrom(email: string, outcomes: seq<Outcome>, attempt: nat): Verified
    decreases VerifyAttempts - attempt
  {
    if attempt >= VerifyAttempts then
      Verified(NewResult(email).(status := "unknown", error := "max_retries_exceeded"), attempt)
    else
      match Step(email, OutcomeAt(outcomes, attempt))
      case Some(r) => Verified(r, attempt + 1)
      case None => VerifyFrom(email, outcomes, attempt + 1)
  }

  /** Retried attempts change nothing: from `j`, the loop ends as it would from `k` when nothing between them was final. */
  lemma {:induction false} SkipRetried(email: string, outcomes: seq<Outcome>, j: nat, k: nat)
    requires j <= k <= VerifyAttempts
    requires forall i :: j <= i < k ==> !Final(OutcomeAt(outcomes, i))
    ensures VerifyFrom(email, outcomes, j) == VerifyFrom(email, outcomes, k)
    decreases k - j
  {
    if j < k {
      SkipRetried(email, outcomes, j + 1, k);
    }
  }

  /** At least one and at most `VERIFY_MAX_RETRIES + 1` requests, and the result is for the address asked about. */
  lemma {:induction false} AttemptsBounded(email: string, outcomes: seq<Outcome>, attempt: nat)
    requires attempt <= VerifyAttempts
    ensures var v := VerifyFrom(email, outcomes, attempt);
      v.result.email == email && KnownStatus(v.result.status) &&
      (attempt < VerifyAttempts ==> attempt < v.attempts) && v.attempts <= VerifyAttempts
    decreases VerifyAttempts - attempt
  {
    if attempt < VerifyAttempts {
      var o := OutcomeAt(outcomes, attempt);
      if o.Http? && o.statusCode == 200 && o.body.Some? {
        ParseStatus(email, o.body.value);
      } else if !o.ConnectionFailure? {
        AttemptsBounded(email, outcomes, attempt + 1);
      }
    }
  }

  /** The first 200 with a JSON body is parsed and returned; no further request is made. */
  lemma FirstSuccessReturns(email: string, outcomes: seq<Outcome>, k: nat, data: Json)
    requires k < VerifyAttempts
    requires forall i :: 0 <= i < k ==> !Final(OutcomeAt(outcomes, i))
    requires OutcomeAt(outcomes, k) == Http(200, Some(data))
    ensures VerifyFrom(email, outcomes, 0) == Verified(ParseReacherResponse(email, data), k + 1)
  {
    SkipRetried(email, outcomes, 0, k);
  }

  /** A connection error stops the loop at once: `unknown`, `reacher_unavailable`. */
  lemma ConnectionErrorAborts(email: string, outcomes: seq<Outcome>, k: nat)
    requires k < VerifyAttempts
    requires forall i :: 0 <= i < k ==> !Final(OutcomeAt(outcomes, i))
    requires OutcomeAt(outcomes, k) == ConnectionFailure
    ensures VerifyFrom(email, outcomes, 0).attempts == k + 1
    ensures VerifyFrom(email, outcomes, 0).result.status == "unknown"
    ensures VerifyFrom(email, outcomes, 0).result.error == "reacher_unavailable"
  {
    SkipRetried(email, outcomes, 0, k);
  }

  /** When every attempt times out, errs, or answers other than a JSON 200: three requests, `unknown`, `max_retries_exceeded`. */
  lemma RetriesExhausted(email: string, outcomes: seq<Outcome>)
    requires forall i :: 0 <= i < VerifyAttempts ==> !Final(OutcomeAt(outcomes, i))
    ensures VerifyFrom(email, outcomes, 0).attempts == VerifyAttempts
    ensures VerifyFrom(email, outcomes, 0).result.status == "unknown"
    ensures VerifyFrom(email, outcomes, 0).result.error == "max_retries_exceeded"
  {
    SkipRetried(email, outcomes, 0, VerifyAttempts);
  }

  /** The self-hosted Reacher server as the verifier sees it. */
  class Reacher {
    /** The outcomes the next `check_email` requests will have, in order. */
    var outcomes: seq<Outcome>
    /** Every address posted so far, in order. */
    var posted: seq<string>
    /** What the health check reports. */
    var healthy: bool
    /** How many health checks were made. */
    var healthChecks: nat

    constructor(outcomes: seq<Outcome>, healthy: bool)
      ensures this.outcomes == outcomes && this.healthy == healthy
      ensures posted == [] && healthChecks == 0
    {
      this.outcomes := outcomes;
      this.healthy := healthy;
      posted := [];
      healthChecks := 0;
    }

    /** `requests.post(REACHER_ENDPOINT, json={"to_email": email})`. */
    method Post(email: string) returns (o: Outcome)
      modifies this
      ensures o == OutcomeAt(old(outcomes), 0)
      ensures outcomes == DropOutcomes(old(outcomes), 1)
      ensures posted == old(posted) + [email]
      ensures healthy == old(healthy) && healthChecks == old(healthChecks)
    {
      o := OutcomeAt(outcomes, 0);
      outcomes := DropOutcomes(outcomes, 1);
      posted := posted + [email];
    }

    /** `_check_reacher_health()`. */
    method CheckHealth() returns (ok: bool)
      modifies this
      ensures ok == healthy
      ensures healthChecks == old(healthChecks) + 1
      ensures outcomes == old(outcomes) && posted == old(posted) && healthy == old(healthy)
    {
      ok := healthy;
      healthChecks := healthChecks + 1;
    }
  }

  /**
   * `verify_email(email)`: the result of the retry loop, the requests it
   * made, and the number of two-second waits (one after each attempt that
   * is retried).
   */
  method VerifyEmail(email: string, reacher: Reacher) returns (result: VerifyResult, waits: nat)
    modifies reacher
    ensures var v := VerifyFrom(email, old(reacher.outcomes), 0);
      result == v.result && 1 <= v.attempts &&
      reacher.posted == old(reacher.posted) + Repeat(email, v.attempts) &&
      reacher.outcomes == DropOutcomes(old(reacher.outcomes), v.attempts) &&
      waits == v.attempts - 1
    ensures reacher.healthy == old(reacher.healthy) && reacher.healthChecks == old(reacher.healthChecks)
  {
    ghost var outcomes0 := reacher.outcomes;
    ghost var posted0 := reacher.posted;
    result := NewResult(email);
    waits := 0;
    var attempt := 0;
    while attempt < VerifyAttempts
      invariant 0 <= attempt <= VerifyAttempts
      invariant VerifyFrom(email, outcomes0, attempt) == VerifyFrom(email, outcomes0, 0)
      invariant reacher.outcomes == DropOutcomes(outcomes0, attempt)
      invariant reacher.posted == posted0 + Repeat(email, attempt)
      invariant reacher.healthy == old(reacher.healthy) && reacher.healthChecks == old(reacher.healthChecks)
      invariant result == NewResult(email)
      invariant waits == if attempt <= VerifyMaxRetries then attempt else VerifyMaxRetries
      decreases VerifyAttempts - attempt
    {
      DropOutcomesStep(outcomes0, attempt);
      RepeatStep(email, attempt);
      var o := reacher.Post(email);
      var step := Step(email, o);
      if step.Some? {
        result := step.value;
        return;
      }
      if attempt < VerifyMaxRetries {
        waits := waits + 1;
      }
      attempt := attempt + 1;
    }
    result := result.(status := "unknown", error := "max_retries_exceeded");
  }

  // ---------------------------------------------------------------------------
  // A batch of addresses
  // ---------------------------------------------------------------------------

  /** The results of verifying `emails` one after another against the scripted outcomes. */
  function VerifyAll(emails: seq<string>, outcomes: seq<Outcome>): seq<VerifyResult>
    decreases |emails|
  {
    if emails == [] then []
    else
      var v := VerifyFrom(emails[0], outcomes, 0);
      [v.result] + VerifyAll(emails[1..], DropOutcomes(outcomes, v.attempts))
  }

  /** What the batch posts, in order: each address once per attempt its verification took. */
  function PostedAll(emails: seq<string>, outcomes: seq<Outcome>): seq<string>
    decreases |emails|
  {
    if emails == [] then []
    else
      var v := VerifyFrom(emails[0], outcomes, 0);
      Repeat(emails[0], v.attempts) + PostedAll(emails[1..], DropOutcomes(outcomes, v.attempts))
  }

  /**
   * A batch posts every address at least once and at most `VERIFY_MAX_RETRIES + 1`
   * times, and posts nothing but the batch's own addresses.
   */
  lemma {:induction false} PostedBudget(emails: seq<string>, outcomes: seq<Outcome>)
    ensures |emails| <= |PostedAll(emails, outcomes)| <= VerifyAttempts * |emails|
    ensures forall p :: p in PostedAll(emails, outcomes) ==> p in emails
    decreases |emails|
  {
    if emails != [] {
      var v := VerifyFrom(emails[0], outcomes, 0);
      AttemptsBounded(emails[0], outcomes, 0);
      PostedBudget(emails[1..], DropOutcomes(outcomes, v.attempts));
      forall p | p in PostedAll(emails, outcomes) ensures p in emails {
        if p !in Repeat(emails[0], v.attempts) {
          assert p in PostedAll(emails[1..], DropOutcomes(outcomes, v.attempts));
        }
      }
    }
  }

  /** What the batch returns when the health check fails. */
  function AllUnavailable(emails: seq<string>): (r: seq<VerifyResult>)
    ensures |r| == |emails|
    ensures forall i :: 0 <= i < |emails| ==>
      r[i].email == emails[i] && r[i].status == "unknown" && r[i].error == "reacher_unavailable"
  {
    seq(|emails|, i requires 0 <= i < |emails| => NewResult(emails[i]).(status := "unknown", error := "reacher_unavailable"))
  }

  /** One result per address, in order, each with a known status. */
  lemma {:induction false} VerifyAllShape(emails: seq<string>, outcomes: seq<Outcome>)
    ensures |VerifyAll(emails, outcomes)| == |emails|
    ensures forall i :: 0 <= i < |emails| ==>
      VerifyAll(emails, outcomes)[i].email == emails[i] && KnownStatus(VerifyAll(emails, outcomes)[i].status)
    decreases |emails|
  {
    if emails != [] {
      var v := VerifyFrom(emails[0], outcomes, 0);
      AttemptsBounded(emails[0], outcomes, 0);
      VerifyAllShape(emails[1..], DropOutcomes(outcomes, v.attempts));
    }
  }

  /** Pauses after the `m`-th address, for `m` from 1 to `n`, when `m` is a multiple of the batch size. */
  lemma PauseCountStep(n: nat)
    ensures (n + 1) / VerifyBatchSize == n / VerifyBatchSize + (if (n + 1) % VerifyBatchSize == 0 then 1 else 0)
  {
  }

  /**
   * Part way through a batch, at address `i`: the results so far followed by
   * those still due are the batch's results, and the addresses posted so far
   * followed by those still due are the batch's posts.
   */
  ghost predicate VerifyOnTrack(emails: seq<string>, i: nat, results: seq<VerifyResult>,
                                posted: seq<string>, outcomes: seq<Outcome>,
                                posted0: seq<string>, outcomes0: seq<Outcome>)
  {
    && i <= |emails|
    && results + VerifyAll(emails[i..], outcomes) == VerifyAll(emails, outcomes0)
    && posted + PostedAll(emails[i..], outcomes) == posted0 + PostedAll(emails, outcomes0)
    && DropOutcomes(outcomes, |PostedAll(emails[i..], outcomes)|) == DropOutcomes(outcomes0, |PostedAll(emails, outcomes0)|)
  }

  /** One step of the batch loop: address `i` is verified against the outcomes the earlier ones left. */
  method VerifyNext(emails: seq<string>, i: nat, reacher: Reacher, results: seq<VerifyResult>,
                    ghost posted0: seq<string>, ghost outcomes0: seq<Outcome>)
    returns (result: VerifyResult)
    requires i < |emails|
    requires VerifyOnTrack(emails, i, results, reacher.posted, reacher.outcomes, posted0, outcomes0)
    modifies reacher
    ensures VerifyOnTrack(emails, i + 1, results + [result], reacher.posted, reacher.outcomes, posted0, outcomes0)
    ensures reacher.healthy == old(reacher.healthy) && reacher.healthChecks == old(reacher.healthChecks)
  {
    assert emails[i..][1..] == emails[i + 1..];
    ghost var outcomes1 := reacher.outcomes;
    ghost var posted1 := reacher.posted;
    ghost var v := VerifyFrom(emails[i], outcomes1, 0);
    ghost var later := PostedAll(emails[i + 1..], DropOutcomes(outcomes1, v.attempts));
    ghost var rest := VerifyAll(emails[i + 1..], DropOutcomes(outcomes1, v.attempts));
    assert PostedAll(emails[i..], outcomes1) == Repeat(emails[i], v.attempts) + later;
    assert VerifyAll(emails[i..], outcomes1) == [v.result] + rest;
    var waits;
    result, waits := VerifyEmail(emails[i], reacher);
    AppendAssociative(results, [result], rest);
    AppendAssociative(posted1, Repeat(emails[i], v.attempts), later);
    DropOutcomesTwice(outcomes1, v.attempts, |later|);
  }

  /**
   * `verify_emails_batch(emails)`: nothing for no addresses; otherwise one
   * health check, and then either every address reported unavailable or
   * every address verified in turn. Between addresses there is one regular
   * delay, plus a batch pause after every 20th address except the last.
   */
  method VerifyEmailsBatch(emails: seq<string>, reacher: Reacher)
    returns (results: seq<VerifyResult>, delays: nat, pauses: nat)
    modifies reacher
    ensures emails == [] ==> results == [] && reacher.healthChecks == old(reacher.healthChecks)
    ensures emails == [] || !old(reacher.healthy) ==>
      reacher.outcomes == old(reacher.outcomes) && reacher.posted == old(reacher.posted) && delays == 0 && pauses == 0
    ensures emails != [] ==> reacher.healthChecks == old(reacher.healthChecks) + 1
    ensures emails != [] && !old(reacher.healthy) ==> results == AllUnavailable(emails)
    ensures emails != [] && old(reacher.healthy) ==>
      results == VerifyAll(emails, old(reacher.outcomes)) &&
      delays == |emails| - 1 && pauses == (|emails| - 1) / VerifyBatchSize
    ensures emails != [] && old(reacher.healthy) ==>
      reacher.posted == old(reacher.posted) + PostedAll(emails, old(reacher.outcomes)) &&
      reacher.outcomes == DropOutcomes(old(reacher.outcomes), |PostedAll(emails, old(reacher.outcomes))|)
  {
    results := [];
    delays, pauses := 0, 0;
    var total := |emails|;
    if emails == [] {
      return;
    }
    var ok := reacher.CheckHealth();
    if !ok {
      results := AllUnavailable(emails);
      return;
    }
    ghost var outcomes0 := reacher.outcomes;
    ghost var posted0 := reacher.posted;
    assert emails[0..] == emails;
    assert [] + VerifyAll(emails, outcomes0) == VerifyAll(emails, outcomes0);
    for i := 0 to total
      invariant VerifyOnTrack(emails, i, results, reacher.posted, reacher.outcomes, posted0, outcomes0)
      invariant reacher.healthy == old(reacher.healthy) && reacher.healthChecks == old(reacher.healthChecks) + 1
      invariant delays == if i < total then i else total - 1
      invariant pauses == (if i < total then i else total - 1) / VerifyBatchSize
    {
      var result := VerifyNext(emails, i, reacher, results, posted0, outcomes0);
      results := results + [result];
      if i < total - 1 {
        delays := delays + 1;
      }
      PauseCountStep(i);
      if (i + 1) % VerifyBatchSize == 0 && i < total - 1 {
        pauses := pauses + 1;
      }
    }
    assert emails[total..] == [];
    assert results + [] == results && reacher.posted + [] == reacher.posted;
  }
}
