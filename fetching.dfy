/**
 * Page fetching as the scraper sees it: a source of pages that answers each
 * request with the page text or with nothing (a non-200 status, a network
 * error, a browser failure). The answers are scripted in advance, so a proof
 * can follow which request received which answer; the requests made are logged.
 */
module Fetching {

  import opened Wrappers

  /** Python truthiness of a fetch result: a page that is present and not empty. */
  predicate Usable(page: Option<string>) {
    page.Some? && page.value != ""
  }

  /** The `i`-th scripted answer; once the script runs out, every request fails. */
  function At(answers: seq<Option<string>>, i: nat): Option<string> {
    if i < |answers| then answers[i] else None
  }

  /** The answers still to come after `n` requests. */
  function Drop(answers: seq<Option<string>>, n: nat): (r: seq<Option<string>>)
    ensures forall i: nat :: At(r, i) == At(answers, n + i)
  {
    if n <= |answers| then answers[n..] else []
  }

  lemma DropDrop(answers: seq<Option<string>>, m: nat, n: nat)
    ensures Drop(Drop(answers, m), n) == Drop(answers, m + n)
  {
  }

  /** Appending to a log in two steps is appending the two parts at once. */
  lemma AppendAssociative<T>(a: seq<T>, b: seq<T>, c: seq<T>)
    ensures (a + b) + c == a + (b + c)
  {
  }

  /** A log after one more entry of `xs`: the entries before `j`, then entry `j`. */
  lemma LogStep<T>(log0: seq<T>, xs: seq<T>, j: nat)
    requires j < |xs|
    ensures log0 + xs[..j] + [xs[j]] == log0 + xs[..j + 1]
  {
    assert xs[..j + 1] == xs[..j] + [xs[j]];
  }

  /** `n` requests for the same URL (or, to the verification service, for the same address). */
  function Repeat(url: string, n: nat): (r: seq<string>)
    ensures |r| == n && forall i :: 0 <= i < n ==> r[i] == url
  {
    seq(n, _ => url)
  }

  /** One more request for the same URL. */
  lemma RepeatStep(url: string, n: nat)
    ensures Repeat(url, n) + [url] == Repeat(url, n + 1)
  {
  }

  /** A fetcher (`_fetch_page_requests`) or a headless browser (`_fetch_page_playwright`). */
  class PageSource {
    /** The answers the next requests will receive, in order. */
    var answers: seq<Option<string>>
    /** Every URL requested so far, in order. */
    var requested: seq<string>

    constructor(answers: seq<Option<string>>)
      ensures this.answers == answers && requested == []
    {
      this.answers := answers;
      requested := [];
    }

    /** Requests `url`: the next scripted answer, or nothing once the script is used up. */
    method Fetch(url: string) returns (page: Option<string>)
      modifies this
      ensures page == At(old(answers), 0)
      ensures answers == Drop(old(answers), 1)
      ensures requested == old(requested) + [url]
    {
      page := At(answers, 0);
      answers := Drop(answers, 1);
      requested := requested + [url];
    }
  }
}
