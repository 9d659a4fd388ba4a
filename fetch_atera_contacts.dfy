/** fetch_contacts and handler of fetch_atera_contacts.py: every Atera
    contact, following `nextLink` from the contacts endpoint, saved only when
    there is at least one. */
module FetchAteraContacts {
  import opened Wrappers
  import opened Pagination

  const AteraContactsUrl := "https://app.atera.com/api/v3/contacts"

  /** `next_page_url = BASE_URL`: the first request has no query parameters. */
  function FirstRequest(): Request {
    Request(AteraContactsUrl, NoParams)
  }

  /** fetch_contacts: `while next_page_url` with the same retry handling as
      the other fetches; `trace` is what the server answers. */
  method FetchContacts<T>(trace: seq<Response<T>>) returns (contacts: seq<T>)
    ensures contacts == Fetch(FirstRequest(), trace).items
  {
    var fetched := FetchPages(FirstRequest(), trace);
    contacts := fetched.items;
  }

  /** Every request has no parameters: the first goes to the contacts
      endpoint, each later one to the previous page's nextLink (or repeats
      after a timeout). */
  lemma {:induction false} AteraRequestsHaveNoParams<T>(trace: seq<Response<T>>)
    ensures var f := Fetch(FirstRequest(), trace);
            && (|f.requests| > 0 ==> f.requests[0] == Request(AteraContactsUrl, NoParams))
            && forall j | 0 <= j < |f.requests| :: f.requests[j].params == NoParams
  {
    var f := Fetch(FirstRequest(), trace);
    RequestChain(FirstRequest(), trace, 0, None, 0);
    NoParamsFrom(f.requests, trace, |f.requests|);
  }

  /** Helper for AteraRequestsHaveNoParams: induction along the chain of requests. */
  lemma {:induction false} NoParamsFrom<T>(requests: seq<Request>, trace: seq<Response<T>>, n: nat)
    requires n <= |requests| && Chained(requests, trace, 0)
    requires |requests| > 0 ==> requests[0].params == NoParams
    ensures forall j | 0 <= j < n :: requests[j].params == NoParams
    decreases n
  {
    if n > 1 {
      NoParamsFrom(requests, trace, n - 1);
      assert ChainStep(requests, trace, 0, n - 1);
    }
  }

  /** handler: the contacts are saved only when the list is not empty
      (None: nothing written, only the warning logged). */
  method Handler<T>(trace: seq<Response<T>>) returns (saved: Option<seq<T>>)
    ensures var contacts := Fetch(FirstRequest(), trace).items;
            && (saved.Some? <==> contacts != [])
            && (saved.Some? ==> saved.value == contacts)
  {
    var contacts := FetchContacts(trace);
    if contacts != [] {
      saved := Some(contacts);
    } else {
      saved := None;
    }
  }
}
