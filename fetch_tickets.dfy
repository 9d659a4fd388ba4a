/** fetch_tickets and handler of script1_tickets.py: the tickets of each
    priority 1..4, fetched page by page and concatenated. */
module FetchTickets {
  import opened Wrappers
  import opened Pagination

  const TicketsQueryUrl := "https://webservices14.autotask.net/ATServicesRest/V1.0/Tickets/query"

  /** The first request of fetch_tickets(priority): the query URL with the priority filter. */
  function TicketsQuery(priority: int): Request {
    Request(TicketsQueryUrl, SearchFilter("priority", priority))
  }

  /** fetch_tickets: the tickets of one priority; `trace` is what the server answers. */
  method FetchTickets<T>(priority: int, trace: seq<Response<T>>) returns (tickets: seq<T>)
    ensures tickets == Fetch(TicketsQuery(priority), trace).items
  {
    var fetched := FetchPages(TicketsQuery(priority), trace);
    tickets := fetched.items;
  }

  /** The first request carries the priority filter; any later request goes
      to a page's link with no parameters. */
  lemma TicketRequests<T>(priority: int, trace: seq<Response<T>>)
    ensures var f := Fetch(TicketsQuery(priority), trace);
            && (|trace| > 0 ==> f.requests[0] == Request(TicketsQueryUrl, SearchFilter("priority", priority)))
            && forall j | 0 < j < |f.requests| ::
                 f.requests[j] == f.requests[j - 1] || f.requests[j].params == NoParams
  {
    var f := Fetch(TicketsQuery(priority), trace);
    RequestChain(TicketsQuery(priority), trace, 0, None, 0);
    forall j | 0 < j < |f.requests|
      ensures f.requests[j] == f.requests[j - 1] || f.requests[j].params == NoParams
    {
      assert ChainStep(f.requests, trace, 0, j);
    }
  }

  /** handler: the tickets of priorities 1, 2, 3 and 4, in that order;
      `server(p)` is what the server answers to the fetch for priority p. */
  method Handler<T>(server: int -> seq<Response<T>>) returns (all: seq<T>)
    ensures all == Fetch(TicketsQuery(1), server(1)).items + Fetch(TicketsQuery(2), server(2)).items
                   + Fetch(TicketsQuery(3), server(3)).items + Fetch(TicketsQuery(4), server(4)).items
  {
    all := [];
    for priority := 1 to 5
      invariant all == FetchEach(TicketsQuery, server, Priorities()[..priority - 1])
    {
      var tickets := FetchTickets(priority, server(priority));
      assert Priorities()[..priority] == Priorities()[..priority - 1] + [priority];
      all := all + tickets;
    }
    assert Priorities()[..4] == [1, 2, 3, 4];
    assert [1, 2, 3, 4][..3] == [1, 2, 3] && [1, 2, 3][..2] == [1, 2] && [1, 2][..1] == [1] && [1][..0] == [];
  }

  /** range(1, 5) */
  function Priorities(): seq<int> {
    [1, 2, 3, 4]
  }
}
