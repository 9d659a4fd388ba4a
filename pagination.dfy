/** The paginated fetch-with-retry loop that fetch_tickets (script1_tickets.py),
    fetch_resources (fetch_resources.py), fetch_contacts (contacts_migration.py)
    and fetch_contacts (fetch_atera_contacts.py) each spell out.

    The server is a finite trace: the k-th request made gets the k-th
    response. A response is a page (its items and the link to the next page),
    a timeout, or any other request failure. The loop only ends when the
    server stops sending links; here it also ends when the trace runs out,
    which bounds it without claiming that it terminates. */
module Pagination {
  import opened Wrappers

  /** max_retries: the timeouts one fetch tolerates, counted over all its pages. */
  const MaxRetries: nat := 3

  /** The backoff after the k-th timeout is k times this many seconds. */
  const BackoffSeconds: nat := 10

  /** The query-string parameters of a GET: the `search` filter
      `{"filter":[{"op":"eq","field":field,"value":value}]}`, or none. */
  datatype Params = SearchFilter(field: string, value: int) | NoParams

  datatype Request = Request(url: string, params: Params)

  datatype Response<T> =
    | Page(items: seq<T>, next: Option<string>)  // a 2xx JSON body; `next` absent or null is None
    | Timeout                                    // requests.exceptions.Timeout
    | RequestFailure                             // any other RequestException (HTTP 4xx/5xx, connection, bad JSON)

  /** Why a fetch stopped. */
  datatype Ending =
    | LastPage          // a page without a truthy next link
    | RetriesExhausted  // the MaxRetries-th timeout
    | RequestFailed     // any other request failure
    | TraceExhausted    // no more responses in the trace

  /** The accumulated items, every request made, every sleep taken (seconds), and the ending. */
  datatype Fetched<T> = Fetched(items: seq<T>, requests: seq<Request>, sleeps: seq<nat>, ending: Ending)

  /** `url = next_page_url if next_page_url else BASE_URL` together with
      `params = {'search': ...} if not next_page_url else {}`: the first
      request until a page has given a truthy link, then that link without
      parameters. */
  function RequestFor(first: Request, next: Option<string>): (r: Request)
    ensures TruthyString(next) ==> r == Request(next.value, NoParams)
    ensures !TruthyString(next) ==> r == first
  {
    if TruthyString(next) then Request(next.value, NoParams) else first
  }

  /** What the loop has done so far, followed by what it does from here on. */
  function Glue<T>(items: seq<T>, requests: seq<Request>, sleeps: seq<nat>, rest: Fetched<T>): Fetched<T> {
    Fetched(items + rest.items, requests + rest.requests, sleeps + rest.sleeps, rest.ending)
  }

  /** The loop from the k-th response on, with the current link and timeout count. */
  function FetchFrom<T>(first: Request, trace: seq<Response<T>>, k: nat, next: Option<string>, retries: nat): (f: Fetched<T>)
    requires k <= |trace|
    ensures k + |f.requests| <= |trace|
    ensures k < |trace| <==> |f.requests| > 0
    decreases |trace| - k
  {
    if k == |trace| then Fetched([], [], [], TraceExhausted)
    else
      var request := RequestFor(first, next);
      match trace[k]
      case Page(items, link) =>
        if TruthyString(link) then Glue(items, [request], [], FetchFrom(first, trace, k + 1, link, retries))
        else Fetched(items, [request], [], LastPage)
      case Timeout =>
        if retries + 1 >= MaxRetries then Fetched([], [request], [], RetriesExhausted)
        else Glue([], [request], [BackoffSeconds * (retries + 1)], FetchFrom(first, trace, k + 1, next, retries + 1))
      case RequestFailure => Fetched([], [request], [], RequestFailed)
  }

  /** A whole fetch: no link yet, no timeout yet. */
  function Fetch<T>(first: Request, trace: seq<Response<T>>): Fetched<T> {
    FetchFrom(first, trace, 0, None, 0)
  }

  /** The loop, as the scripts write it. */
  method FetchPages<T>(first: Request, trace: seq<Response<T>>) returns (f: Fetched<T>)
    ensures f == Fetch(first, trace)
  {
    var items: seq<T> := [];
    var requests: seq<Request> := [];
    var sleeps: seq<nat> := [];
    var next: Option<string> := None;
    var retries: nat := 0;
    var k: nat := 0;
    while k < |trace|
      invariant k <= |trace|
      invariant Fetch(first, trace) == Glue(items, requests, sleeps, FetchFrom(first, trace, k, next, retries))
      decreases |trace| - k
    {
      var request := RequestFor(first, next);
      match trace[k] {
        case Page(pageItems, link) =>
          if !TruthyString(link) {
            StopAt(first, trace, k, next, retries, items, requests, sleeps);
            return Fetched(items + pageItems, requests + [request], sleeps, LastPage);
          }
          ResumeAfterPage(first, trace, k, next, retries, items, requests, sleeps);
          items := items + pageItems;
          next := link;
        case Timeout =>
          if retries + 1 >= MaxRetries {
            StopAt(first, trace, k, next, retries, items, requests, sleeps);
            return Fetched(items, requests + [request], sleeps, RetriesExhausted);
          }
          ResumeAfterTimeout(first, trace, k, next, retries, items, requests, sleeps);
          retries := retries + 1;
          sleeps := sleeps + [BackoffSeconds * retries];
        case RequestFailure =>
          StopAt(first, trace, k, next, retries, items, requests, sleeps);
          return Fetched(items, requests + [request], sleeps, RequestFailed);
      }
      requests := requests + [request];
      k := k + 1;
    }
    return Fetched(items, requests, sleeps, TraceExhausted);
  }

  /** One step of the loop, for loops that do more per page than FetchPages
      (and so are better off not unfolding FetchFrom themselves): after a
      page with a truthy link, the loop resumes at the next response. */
  lemma ResumeAfterPage<T>(first: Request, trace: seq<Response<T>>, k: nat, next: Option<string>, retries: nat,
                           items: seq<T>, requests: seq<Request>, sleeps: seq<nat>)
    requires k < |trace| && trace[k].Page? && TruthyString(trace[k].next)
    requires Fetch(first, trace) == Glue(items, requests, sleeps, FetchFrom(first, trace, k, next, retries))
    ensures Fetch(first, trace) == Glue(items + trace[k].items, requests + [RequestFor(first, next)], sleeps,
                                        FetchFrom(first, trace, k + 1, trace[k].next, retries))
  {
    var rest := FetchFrom(first, trace, k + 1, trace[k].next, retries);
    assert FetchFrom(first, trace, k, next, retries) == Glue(trace[k].items, [RequestFor(first, next)], [], rest);
    assert items + (trace[k].items + rest.items) == (items + trace[k].items) + rest.items;
    assert requests + ([RequestFor(first, next)] + rest.requests) == (requests + [RequestFor(first, next)]) + rest.requests;
  }

  /** After a timeout that is not the last one tolerated, the loop sleeps and
      resumes at the next response with the same link. */
  lemma ResumeAfterTimeout<T>(first: Request, trace: seq<Response<T>>, k: nat, next: Option<string>, retries: nat,
                              items: seq<T>, requests: seq<Request>, sleeps: seq<nat>)
    requires k < |trace| && trace[k].Timeout? && retries + 1 < MaxRetries
    requires Fetch(first, trace) == Glue(items, requests, sleeps, FetchFrom(first, trace, k, next, retries))
    ensures Fetch(first, trace) == Glue(items, requests + [RequestFor(first, next)], sleeps + [BackoffSeconds * (retries + 1)],
                                        FetchFrom(first, trace, k + 1, next, retries + 1))
  {
    var rest := FetchFrom(first, trace, k + 1, next, retries + 1);
    assert FetchFrom(first, trace, k, next, retries) == Glue([], [RequestFor(first, next)], [BackoffSeconds * (retries + 1)], rest);
    assert requests + ([RequestFor(first, next)] + rest.requests) == (requests + [RequestFor(first, next)]) + rest.requests;
    assert sleeps + ([BackoffSeconds * (retries + 1)] + rest.sleeps) == (sleeps + [BackoffSeconds * (retries + 1)]) + rest.sleeps;
  }

  /** A fetch that stops at the k-th response: what was gathered so far,
      plus the page's own items when that response is a last page, one more
      request, and the ending that response gives. */
  lemma StopAt<T>(first: Request, trace: seq<Response<T>>, k: nat, next: Option<string>, retries: nat,
                  items: seq<T>, requests: seq<Request>, sleeps: seq<nat>)
    requires k < |trace| && (!Continues(trace[k]) || (trace[k].Timeout? && retries + 1 >= MaxRetries))
    requires Fetch(first, trace) == Glue(items, requests, sleeps, FetchFrom(first, trace, k, next, retries))
    ensures Fetch(first, trace) == Fetched(items + (if trace[k].Page? then trace[k].items else []),
                                           requests + [RequestFor(first, next)], sleeps,
                                           match trace[k]
                                           case Page(_, _) => LastPage
                                           case Timeout => RetriesExhausted
                                           case RequestFailure => RequestFailed)
  {
    assert sleeps + [] == sleeps;
    if !trace[k].Page? {
      assert items + [] == items;
    }
  }

  // ---------------------------------------------------------------------
  // What a fetch returns, in terms of the responses it consumed

  /** The items of the pages among the responses trace[lo..hi], in order. */
  function PageItems<T>(trace: seq<Response<T>>, lo: nat, hi: nat): seq<T>
    requires lo <= hi <= |trace|
    decreases hi - lo
  {
    if lo == hi then []
    else (if trace[lo].Page? then trace[lo].items else []) + PageItems(trace, lo + 1, hi)
  }

  /** The number of timeouts among the responses trace[lo..hi]. */
  function Timeouts<T>(trace: seq<Response<T>>, lo: nat, hi: nat): nat
    requires lo <= hi <= |trace|
    decreases hi - lo
  {
    if lo == hi then 0
    else (if trace[lo].Timeout? then 1 else 0) + Timeouts(trace, lo + 1, hi)
  }

  /** One response per request; the result is the items of the pages among
      the consumed responses, in page order. */
  lemma {:induction false} ItemsOfConsumedPages<T>(first: Request, trace: seq<Response<T>>, k: nat,
                                                   next: Option<string>, retries: nat)
    requires k <= |trace|
    ensures var f := FetchFrom(first, trace, k, next, retries);
            f.items == PageItems(trace, k, k + |f.requests|)
    decreases |trace| - k
  {
    if k < |trace| {
      var f := FetchFrom(first, trace, k, next, retries);
      match trace[k]
      case Page(items, link) =>
        if TruthyString(link) {
          var rest := FetchFrom(first, trace, k + 1, link, retries);
          ItemsOfConsumedPages(first, trace, k + 1, link, retries);
          assert f.items == items + rest.items;
          assert |f.requests| == 1 + |rest.requests|;
        } else {
          assert f.items == items && f.ending == LastPage && |f.requests| == 1;
        }
      case Timeout =>
        if retries + 1 < MaxRetries {
          var rest := FetchFrom(first, trace, k + 1, next, retries + 1);
          ItemsOfConsumedPages(first, trace, k + 1, next, retries + 1);
          assert f.items == rest.items;
          assert |f.requests| == 1 + |rest.requests|;
        } else {
          assert f.items == [] && |f.requests| == 1;
        }
      case RequestFailure =>
        assert f.items == [] && |f.requests| == 1;
    }
  }

  /** Timeouts are counted over the whole fetch and never reset: at most
      MaxRetries of them are consumed, and the fetch gives up exactly when the
      MaxRetries-th one arrives. */
  lemma {:induction false} TimeoutBudget<T>(first: Request, trace: seq<Response<T>>, k: nat,
                                            next: Option<string>, retries: nat)
    requires k <= |trace| && retries < MaxRetries
    ensures var f := FetchFrom(first, trace, k, next, retries);
            var timeouts := Timeouts(trace, k, k + |f.requests|);
            && retries + timeouts <= MaxRetries
            && (f.ending == RetriesExhausted <==> retries + timeouts == MaxRetries)
    decreases |trace| - k
  {
    if k < |trace| {
      var f := FetchFrom(first, trace, k, next, retries);
      match trace[k]
      case Page(items, link) =>
        if TruthyString(link) {
          var rest := FetchFrom(first, trace, k + 1, link, retries);
          TimeoutBudget(first, trace, k + 1, link, retries);
          assert f.ending == rest.ending;
          assert |f.requests| == 1 + |rest.requests|;
        } else {
          assert f.items == items && f.ending == LastPage && |f.requests| == 1;
        }
      case Timeout =>
        if retries + 1 < MaxRetries {
          var rest := FetchFrom(first, trace, k + 1, next, retries + 1);
          TimeoutBudget(first, trace, k + 1, next, retries + 1);
          assert f.ending == rest.ending;
          assert |f.requests| == 1 + |rest.requests|;
        } else {
          assert f.ending == RetriesExhausted && |f.requests| == 1;
        }
      case RequestFailure =>
        assert f.ending == RequestFailed && |f.requests| == 1;
    }
  }

  /** The k-th timeout of the fetch sleeps k times BackoffSeconds before
      the retry; the fetch sleeps fewer than MaxRetries times. */
  lemma {:induction false} SleepSchedule<T>(first: Request, trace: seq<Response<T>>, k: nat,
                                            next: Option<string>, retries: nat)
    requires k <= |trace| && retries < MaxRetries
    ensures var f := FetchFrom(first, trace, k, next, retries);
            && retries + |f.sleeps| < MaxRetries
            && forall j | 0 <= j < |f.sleeps| :: f.sleeps[j] == BackoffSeconds * (retries + j + 1)
    decreases |trace| - k
  {
    if k < |trace| {
      match trace[k]
      case Page(items, link) =>
        if TruthyString(link) {
          SleepSchedule(first, trace, k + 1, link, retries);
        }
      case Timeout =>
        if retries + 1 < MaxRetries {
          SleepSchedule(first, trace, k + 1, next, retries + 1);
          var f := FetchFrom(first, trace, k, next, retries);
          var rest := FetchFrom(first, trace, k + 1, next, retries + 1);
          assert f.sleeps == [BackoffSeconds * (retries + 1)] + rest.sleeps;
        }
      case RequestFailure =>
    }
  }

  /** Every consumed timeout sleeps, except the one that ends the fetch. */
  lemma {:induction false} SleepPerTimeout<T>(first: Request, trace: seq<Response<T>>, k: nat,
                                             next: Option<string>, retries: nat)
    requires k <= |trace|
    ensures var f := FetchFrom(first, trace, k, next, retries);
            |f.sleeps| + (if f.ending == RetriesExhausted then 1 else 0) == Timeouts(trace, k, k + |f.requests|)
    decreases |trace| - k
  {
    if k < |trace| {
      var f := FetchFrom(first, trace, k, next, retries);
      match trace[k]
      case Page(items, link) =>
        if TruthyString(link) {
          var rest := FetchFrom(first, trace, k + 1, link, retries);
          SleepPerTimeout(first, trace, k + 1, link, retries);
          assert f.sleeps == rest.sleeps && f.ending == rest.ending;
          assert |f.requests| == 1 + |rest.requests|;
        } else {
          assert f.sleeps == [] && |f.requests| == 1;
        }
      case Timeout =>
        if retries + 1 < MaxRetries {
          var rest := FetchFrom(first, trace, k + 1, next, retries + 1);
          SleepPerTimeout(first, trace, k + 1, next, retries + 1);
          assert |f.sleeps| == 1 + |rest.sleeps| && f.ending == rest.ending;
          assert |f.requests| == 1 + |rest.requests|;
        } else {
          assert f.sleeps == [] && f.ending == RetriesExhausted && |f.requests| == 1;
        }
      case RequestFailure =>
        assert f.sleeps == [] && |f.requests| == 1;
    }
  }

  /** A response that does not end the loop: a page with a truthy link, or a
      timeout (when it is not the last one the fetch tolerates). */
  predicate Continues<T>(r: Response<T>) {
    r.Timeout? || (r.Page? && TruthyString(r.next))
  }

  /** The request that follows `current` once response `r` has come back:
      the same one after a timeout, the page's link without parameters after a page. */
  function Follow<T>(current: Request, r: Response<T>): Request {
    if r.Page? && TruthyString(r.next) then Request(r.next.value, NoParams) else current
  }

  /** Each request after the first follows the response to the one before
      it, and that response did not end the loop; `requests` were answered
      by the responses from `trace[k]` on. */
  ghost predicate Chained<T>(requests: seq<Request>, trace: seq<Response<T>>, k: nat) {
    forall j | 0 < j < |requests| :: ChainStep(requests, trace, k, j)
  }

  /** Request j follows the response to request j - 1. */
  ghost predicate ChainStep<T>(requests: seq<Request>, trace: seq<Response<T>>, k: nat, j: nat)
    requires 0 < j < |requests|
  {
    k + j - 1 < |trace| && Continues(trace[k + j - 1]) && requests[j] == Follow(requests[j - 1], trace[k + j - 1])
  }

  /** Prepending the request whose response continues the fetch keeps the chain. */
  lemma ChainedCons<T>(request: Request, rest: seq<Request>, trace: seq<Response<T>>, k: nat)
    requires k < |trace| && Continues(trace[k])
    requires |rest| > 0 ==> rest[0] == Follow(request, trace[k])
    requires Chained(rest, trace, k + 1)
    ensures Chained([request] + rest, trace, k)
  {
    var requests := [request] + rest;
    forall j | 0 < j < |requests|
      ensures ChainStep(requests, trace, k, j)
    {
      if j > 1 {
        assert ChainStep(rest, trace, k + 1, j - 1);
        assert requests[j] == rest[j - 1] && requests[j - 1] == rest[j - 2];
      }
    }
  }

  /** The request sequence: the first request follows the current link (the
      first request when there is none yet), each later request follows the
      response to the one before it, and only the last consumed response can
      end the fetch. */
  lemma {:induction false} RequestChain<T>(first: Request, trace: seq<Response<T>>, k: nat,
                                           next: Option<string>, retries: nat)
    requires k <= |trace|
    ensures var f := FetchFrom(first, trace, k, next, retries);
            && (|f.requests| > 0 ==> f.requests[0] == RequestFor(first, next))
            && Chained(f.requests, trace, k)
    decreases |trace| - k
  {
    var f := FetchFrom(first, trace, k, next, retries);
    if k < |trace| {
      var request := RequestFor(first, next);
      match trace[k]
      case Page(items, link) =>
        if TruthyString(link) {
          RequestChain(first, trace, k + 1, link, retries);
          var rest := FetchFrom(first, trace, k + 1, link, retries);
          assert f.requests == [request] + rest.requests;
          ChainedCons(request, rest.requests, trace, k);
        }
      case Timeout =>
        if retries + 1 < MaxRetries {
          RequestChain(first, trace, k + 1, next, retries + 1);
          var rest := FetchFrom(first, trace, k + 1, next, retries + 1);
          assert f.requests == [request] + rest.requests;
          ChainedCons(request, rest.requests, trace, k);
        }
      case RequestFailure =>
    }
  }

  /** The last consumed response says why the fetch ended: a page without a
      truthy link, the MaxRetries-th timeout, or a request failure; the trace
      only runs out when every response was consumed. */
  lemma {:induction false} EndingOfFetch<T>(first: Request, trace: seq<Response<T>>, k: nat,
                                            next: Option<string>, retries: nat)
    requires k <= |trace|
    ensures var f := FetchFrom(first, trace, k, next, retries);
            var n := |f.requests|;
            && (f.ending == TraceExhausted ==> k + n == |trace| && (n == 0 || Continues(trace[k + n - 1])))
            && (f.ending == LastPage <==> n > 0 && trace[k + n - 1].Page? && !TruthyString(trace[k + n - 1].next))
            && (f.ending == RequestFailed <==> n > 0 && trace[k + n - 1].RequestFailure?)
            && (f.ending == RetriesExhausted ==> n > 0 && trace[k + n - 1].Timeout?)
    decreases |trace| - k
  {
    var f := FetchFrom(first, trace, k, next, retries);
    if k < |trace| {
      match trace[k]
      case Page(items, link) =>
        if TruthyString(link) {
          EndingOfFetch(first, trace, k + 1, link, retries);
          var rest := FetchFrom(first, trace, k + 1, link, retries);
          assert |f.requests| == 1 + |rest.requests| && f.ending == rest.ending;
          if rest.requests == [] {
            assert k + |f.requests| - 1 == k;
          } else {
            assert k + |f.requests| - 1 == (k + 1) + |rest.requests| - 1;
          }
        }
      case Timeout =>
        if retries + 1 < MaxRetries {
          EndingOfFetch(first, trace, k + 1, next, retries + 1);
          var rest := FetchFrom(first, trace, k + 1, next, retries + 1);
          assert |f.requests| == 1 + |rest.requests| && f.ending == rest.ending;
          if rest.requests == [] {
            assert k + |f.requests| - 1 == k;
          } else {
            assert k + |f.requests| - 1 == (k + 1) + |rest.requests| - 1;
          }
        }
      case RequestFailure =>
    }
  }

  /** Three timeouts in a row from the start: three identical first requests,
      sleeps of 10 and 20 seconds, nothing returned. */
  lemma ThreeTimeoutsStop<T>(first: Request, trace: seq<Response<T>>)
    requires |trace| >= 3 && trace[0] == Timeout && trace[1] == Timeout && trace[2] == Timeout
    ensures Fetch(first, trace) == Fetched([], [first, first, first], [10, 20], RetriesExhausted)
  {
    assert FetchFrom(first, trace, 2, None, 2) == Fetched([], [first], [], RetriesExhausted);
    assert FetchFrom(first, trace, 1, None, 1) == Fetched([], [first, first], [20], RetriesExhausted);
  }

  // ---------------------------------------------------------------------
  // The handlers: one fetch per filter value, results concatenated

  /** The results of one fetch per filter value, in the order of `values`;
      `server(v)` is the trace the fetch for value v sees. */
  function FetchEach<T>(query: int -> Request, server: int -> seq<Response<T>>, values: seq<int>): (r: seq<T>)
    ensures values == [] ==> r == []
    ensures |values| == 1 ==> r == Fetch(query(values[0]), server(values[0])).items
    decreases |values|
  {
    if values == [] then []
    else FetchEach(query, server, values[..|values| - 1])
         + Fetch(query(values[|values| - 1]), server(values[|values| - 1])).items
  }

  /** One more value appends its own fetch. */
  lemma FetchEachSnoc<T>(query: int -> Request, server: int -> seq<Response<T>>, values: seq<int>, v: int)
    ensures FetchEach(query, server, values + [v]) == FetchEach(query, server, values) + Fetch(query(v), server(v)).items
  {
    var more := values + [v];
    assert more[..|more| - 1] == values;
    assert more[|more| - 1] == v;
  }

  /** Concatenating per-value results distributes over the list of values. */
  lemma {:induction false} FetchEachAppend<T>(query: int -> Request, server: int -> seq<Response<T>>,
                                              a: seq<int>, b: seq<int>)
    ensures FetchEach(query, server, a + b) == FetchEach(query, server, a) + FetchEach(query, server, b)
    decreases |b|
  {
    if b == [] {
      assert a + b == a;
    } else {
      var init, last := b[..|b| - 1], b[|b| - 1];
      var items := Fetch(query(last), server(last)).items;
      assert b == init + [last];
      assert a + b == (a + init) + [last];
      FetchEachAppend(query, server, a, init);
      FetchEachSnoc(query, server, a + init, last);
      FetchEachSnoc(query, server, init, last);
      assert FetchEach(query, server, a + b) == (FetchEach(query, server, a) + FetchEach(query, server, init)) + items;
      assert FetchEach(query, server, a) + FetchEach(query, server, b) == FetchEach(query, server, a) + (FetchEach(query, server, init) + items);
    }
  }
}
