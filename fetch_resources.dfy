/** fetch_resources and handler of fetch_resources.py: the resources with
    isActive 0 and then 1, fetched page by page and concatenated. */
module FetchResources {
  import opened Wrappers
  import opened Pagination

  const ResourcesQueryUrl := "https://webservices14.autotask.net/ATServicesRest/V1.0/Resources/query"

  /** The first request of fetch_resources(is_active): the query URL with the isActive filter. */
  function ResourcesQuery(isActive: int): Request {
    Request(ResourcesQueryUrl, SearchFilter("isActive", isActive))
  }

  /** fetch_resources: the resources with one isActive value; `trace` is what the server answers. */
  method FetchResources<T>(isActive: int, trace: seq<Response<T>>) returns (resources: seq<T>)
    ensures resources == Fetch(ResourcesQuery(isActive), trace).items
  {
    var fetched := FetchPages(ResourcesQuery(isActive), trace);
    resources := fetched.items;
  }

  /** At most three timeouts per fetch in total: once the third arrives no
      further request is made, and before it each timeout retries the same
      request after 10 and then 20 seconds. */
  lemma ResourceTimeouts<T>(isActive: int, trace: seq<Response<T>>)
    ensures var f := Fetch(ResourcesQuery(isActive), trace);
            && Timeouts(trace, 0, |f.requests|) <= MaxRetries
            && (f.ending == RetriesExhausted <==> Timeouts(trace, 0, |f.requests|) == MaxRetries)
            && forall j | 0 <= j < |f.sleeps| :: f.sleeps[j] == 10 * (j + 1)
  {
    var f := Fetch(ResourcesQuery(isActive), trace);
    TimeoutBudget(ResourcesQuery(isActive), trace, 0, None, 0);
    SleepSchedule(ResourcesQuery(isActive), trace, 0, None, 0);
  }

  /** handler: the resources with isActive 0 and then 1; `server(v)` is what
      the server answers to the fetch for isActive v. */
  method Handler<T>(server: int -> seq<Response<T>>) returns (all: seq<T>)
    ensures all == Fetch(ResourcesQuery(0), server(0)).items + Fetch(ResourcesQuery(1), server(1)).items
  {
    all := [];
    var values := [0, 1];
    for i := 0 to |values|
      invariant all == FetchEach(ResourcesQuery, server, values[..i])
    {
      var resources := FetchResources(values[i], server(values[i]));
      assert values[..i + 1] == values[..i] + [values[i]];
      all := all + resources;
    }
    assert values[..2] == [0, 1] && [0, 1][..1] == [0] && [0][..0] == [];
  }
}
