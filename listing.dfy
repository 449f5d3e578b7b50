/** One folder's listing in `appendFolders`: the `do … while` loop that pages
    through the remote listing and retries on rate limiting. The remote is a
    script of replies, one per call. */
module Listing {
  import opened Options

  /** The error code on which the crawler waits and repeats the same request. */
  const RateLimitCode := 403

  /** The mime type that marks an entry as a folder. */
  const FolderMimeType := "application/vnd.google-apps.folder"

  /** One listed entry, with the three fields the crawler reads. */
  datatype Entry = Entry(id: string, name: string, mimeType: string)

  predicate IsFolder(e: Entry) {
    e.mimeType == FolderMimeType
  }

  /** What one call of the listing API gives back: a page of entries with the
      token of the next page, or an error with its code. */
  datatype Reply =
    | Page(entries: seq<Entry>, nextPageToken: Option<string>)
    | Failure(code: int)

  /** A reply after which the loop stops: a page with no next token, or an
      error other than the rate limit. */
  predicate Final(r: Reply) {
    (r.Page? && r.nextPageToken.None?) || (r.Failure? && r.code != RateLimitCode)
  }

  predicate IsRateLimit(r: Reply) {
    r.Failure? && r.code == RateLimitCode
  }

  /** Some call from the `k`-th on gives a final reply, so the loop ends. */
  ghost predicate ExitsFrom(script: seq<Reply>, k: nat) {
    exists j :: k <= j < |script| && Final(script[j])
  }

  /** The index of the first final reply from the `k`-th call on. */
  ghost function FirstFinal(script: seq<Reply>, k: nat): (n: nat)
    requires ExitsFrom(script, k)
    ensures k <= n < |script| && Final(script[n])
    ensures forall j | k <= j < n :: !Final(script[j])
    decreases |script| - k
  {
    if Final(script[k]) then k else ExitsLater(script, k); FirstFinal(script, k + 1)
  }

  lemma ExitsLater(script: seq<Reply>, k: nat)
    requires ExitsFrom(script, k) && k < |script| && !Final(script[k])
    ensures ExitsFrom(script, k + 1)
  {
    var j :| k <= j < |script| && Final(script[j]);
    assert j != k;
  }

  /** The loop variables `next_page`, `num_tries`, `retry` and `response`. */
  datatype LoopState = LoopState(nextPage: Option<string>, numTries: nat, retry: bool, response: Option<seq<Entry>>)

  const Start := LoopState(None, 0, false, None)

  /** The outcome of one pass through the loop body. */
  datatype StepResult = Return(code: int) | Continue(state: LoopState)

  /** One pass through the loop body for the reply of its call. */
  function Step(st: LoopState, reply: Reply): StepResult {
    match reply
    case Failure(code) =>
      if code != RateLimitCode then Return(code)
      else Continue(st.(numTries := st.numTries + 1, retry := true))
    case Page(entries, token) =>
      Continue(st.(nextPage := token, retry := false, response := Some(entries)))
  }

  /** The loop condition `retry || next_page != null`. */
  predicate Looping(st: LoopState) {
    st.retry || st.nextPage.Some?
  }

  /** How a folder's listing ended: with the entries of the last response, or
      by the early `return` on an error that is not the rate limit. Both carry
      the page token of every call made and the final `num_tries`. */
  datatype Listing =
    | Listed(entries: seq<Entry>, requests: seq<Option<string>>, numTries: nat)
    | Aborted(code: int, requests: seq<Option<string>>, numTries: nat)

  /** The loop run from the `k`-th call in state `st`, having sent `requests`. */
  function RunFrom(script: seq<Reply>, k: nat, st: LoopState, requests: seq<Option<string>>): Listing
    requires ExitsFrom(script, k)
    decreases |script| - k
  {
    var sent := requests + [st.nextPage];
    match Step(st, script[k])
    case Return(code) => Aborted(code, sent, st.numTries)
    case Continue(st') =>
      if Looping(st') then ExitsLater(script, k); RunFrom(script, k + 1, st', sent)
      else Listed(st'.response.value, sent, st'.numTries)
  }

  /** The whole loop, from `next_page` undefined, `num_tries = 0`, `retry = false`. */
  function Run(script: seq<Reply>): Listing
    requires ExitsFrom(script, 0)
  {
    RunFrom(script, 0, Start, [])
  }

  /** The page token sent on call `j`: none on the first call; after a rate
      limit the same token again; after a page, the token that page returned. */
  function Requested(script: seq<Reply>, j: nat): Option<string>
    requires j <= |script|
  {
    if j == 0 then None
    else if script[j - 1].Failure? then Requested(script, j - 1)
    else script[j - 1].nextPageToken
  }

  /** The number of rate-limit replies in `replies`. */
  function RateLimits(replies: seq<Reply>): nat {
    if replies == [] then 0
    else RateLimits(replies[..|replies| - 1]) + (if IsRateLimit(replies[|replies| - 1]) then 1 else 0)
  }

  /** What the loop leaves behind after its first `k` calls. */
  ghost predicate After(script: seq<Reply>, k: nat, st: LoopState, requests: seq<Option<string>>)
    requires k <= |script|
  {
    && |requests| == k
    && (forall j | 0 <= j < k :: requests[j] == Requested(script, j))
    && st.nextPage == Requested(script, k)
    && st.numTries == RateLimits(script[..k])
  }

  lemma {:induction false} RunFromTrace(script: seq<Reply>, k: nat, st: LoopState, requests: seq<Option<string>>)
    requires ExitsFrom(script, k) && After(script, k, st, requests)
    ensures var r := RunFrom(script, k, st, requests); var n := FirstFinal(script, k);
      && |r.requests| == n + 1
      && (forall j | 0 <= j <= n :: r.requests[j] == Requested(script, j))
      && r.numTries == RateLimits(script[..n + 1])
      && (r.Listed? <==> script[n].Page?)
      && (r.Listed? ==> r.entries == script[n].entries)
      && (r.Aborted? ==> r.code == script[n].code)
    decreases |script| - k
  {
    var sent := requests + [st.nextPage];
    assert script[..k + 1][..k] == script[..k];
    match Step(st, script[k])
    case Return(code) =>
    case Continue(st') =>
      if Looping(st') {
        ExitsLater(script, k);
        RunFromTrace(script, k + 1, st', sent);
      }
  }

  /** The loop stops at the first final reply and at no other: it returns
      early exactly when that reply is an error other than the rate limit,
      and otherwise keeps the entries of that last page alone, the earlier
      pages being dropped. `num_tries` counts the rate-limit replies met. */
  lemma RunStopsAtFirstFinal(script: seq<Reply>)
    requires ExitsFrom(script, 0)
    ensures var r := Run(script); var n := FirstFinal(script, 0);
      && |r.requests| == n + 1
      && (r.Aborted? <==> script[n].Failure?)
      && (r.Aborted? ==> r.code == script[n].code && r.code != RateLimitCode)
      && (r.Listed? ==> r.entries == script[n].entries && script[n].nextPageToken.None?)
      && r.numTries == RateLimits(script[..n + 1])
  {
    RunFromTrace(script, 0, Start, []);
  }

  /** Each call sends the token chosen by the previous reply: a rate limit
      repeats the same token, a page moves on to the token it returned. */
  lemma RunRequests(script: seq<Reply>)
    requires ExitsFrom(script, 0)
    ensures var rs := Run(script).requests;
      && 0 < |rs| <= |script|
      && rs[0] == None
      && (forall j | 0 <= j < |rs| - 1 :: !Final(script[j]))
      && forall j | 0 <= j < |rs| - 1 ::
           rs[j + 1] == (if IsRateLimit(script[j]) then rs[j] else script[j].nextPageToken)
  {
    RunFromTrace(script, 0, Start, []);
    var n := FirstFinal(script, 0);
    forall j | 0 <= j < n
      ensures Run(script).requests[j + 1]
           == (if IsRateLimit(script[j]) then Run(script).requests[j] else script[j].nextPageToken)
    {
      assert !Final(script[j]);
    }
  }

  /** `ListFolder` pages through the remote for one folder as the `do … while`
      loop does, and ends as `Run` says. */
  method ListFolder(script: seq<Reply>) returns (listing: Listing)
    requires ExitsFrom(script, 0)
    ensures listing == Run(script)
  {
    var nextPage: Option<string> := None;
    var numTries: nat := 0;
    var retry := false;
    var response: Option<seq<Entry>> := None;
    var requests: seq<Option<string>> := [];
    var calls := 0;
    var looping := true;
    while looping
      invariant calls <= |script|
      invariant looping ==> ExitsFrom(script, calls)
      invariant looping ==> Run(script) == RunFrom(script, calls, LoopState(nextPage, numTries, retry, response), requests)
      invariant !looping ==> response.Some? && Run(script) == Listed(response.value, requests, numTries)
      decreases |script| - calls, looping
    {
      ghost var before := LoopState(nextPage, numTries, retry, response);
      requests := requests + [nextPage];
      var reply := script[calls];
      match reply {
        case Failure(code) =>
          if code != RateLimitCode {
            return Aborted(code, requests, numTries);
          }
          numTries := numTries + 1;
          retry := true;
        case Page(entries, token) =>
          response := Some(entries);
          nextPage := token;
          retry := false;
      }
      assert Step(before, reply) == Continue(LoopState(nextPage, numTries, retry, response));
      if Looping(LoopState(nextPage, numTries, retry, response)) {
        ExitsLater(script, calls);
      }
      calls := calls + 1;
      looping := retry || nextPage.Some?;
    }
    listing := Listed(response.value, requests, numTries);
  }
}
