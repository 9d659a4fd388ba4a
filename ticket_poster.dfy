/** The ticket poster of script4_tickets.py: every transformed ticket is
    posted to the Atera tickets endpoint with up to RetryLimit attempts, and
    after a successful post its comments are posted to the ticket's comments
    endpoint. The two endpoints are oracles: `TicketServer(t, a)` is what the
    a-th attempt for the t-th ticket gets back, `CommentServer(t, k)` what the
    k-th comment of the t-th ticket gets back. What the script does is
    recorded as a sequence of effects (requests, sleeps, the give-up log). */
module TicketPoster {
  import opened Wrappers
  import opened TicketPayloads

  const RetryLimit: nat := 3
  const DelaySeconds: nat := 5

  /** What one POST to the tickets endpoint produces. */
  datatype TicketResponse =
    | TicketRequestError               // requests raised a RequestException
    | TicketAccepted(id: Option<int>)  // 2xx; the body's "id", None when absent or null

  /** What one POST to a ticket's comments endpoint produces. */
  datatype CommentResponse = CommentRequestError | CommentAccepted

  /** post_ticket returns a truthy id, returns None, or lets a ValueError escape. */
  datatype PostTicketResult = Created(id: int) | NotCreated | Raised

  /** post_comment returns normally (posted or logged failure) or lets an exception escape. */
  datatype PostCommentResult = CommentPosted | CommentFailed | CommentRaised

  type TicketServer = (nat, nat) -> TicketResponse
  type CommentServer = (nat, nat) -> CommentResponse
  type CommentPoster = CommentResponse -> PostCommentResult

  datatype Effect =
    | TicketRequest(ticket: nat, attempt: nat)  // one call of post_ticket
    | Sleep(seconds: nat)
    | CommentRequest(ticketId: int, comment: Comment, result: PostCommentResult)
    | GaveUp(ticket: nat)                       // "Failed to post ticket after 3 attempts"

  /** The effects of a run, and whether an escaping exception ended it early
      (the outer `except Exception` of post_tickets_from_json). */
  datatype Run = Run(effects: seq<Effect>, abandoned: bool)

  /** The effects of the retry loop of one ticket and how it ended. */
  datatype Attempts = Attempts(effects: seq<Effect>, result: PostTicketResult)

  /** post_ticket over the abstract response. */
  function PostTicket(response: TicketResponse): (r: PostTicketResult)
    ensures r.Created? <==> response.TicketAccepted? && TruthyInt(response.id)
    ensures r.Created? ==> response.id == Some(r.id) && r.id != 0
    ensures r.NotCreated? <==> response.TicketRequestError?
  {
    match response
    case TicketRequestError => NotCreated
    case TicketAccepted(id) => if TruthyInt(id) then Created(id.value) else Raised
  }

  /** post_comment as written: after a 2xx response it logs comment['Text'],
      a key the comments built by the transformer never have (they carry
      CommentText), so the KeyError escapes. */
  function PostCommentAsWritten(response: CommentResponse): (r: PostCommentResult)
    ensures r.CommentRaised? <==> response.CommentAccepted?
    ensures r.CommentFailed? <==> response.CommentRequestError?
  {
    match response
    case CommentRequestError => CommentFailed
    case CommentAccepted => CommentRaised
  }

  /** post_comment with its success log reading the key the comments have:
      it never lets an exception escape. */
  function PostComment(response: CommentResponse): (r: PostCommentResult)
    ensures !r.CommentRaised?
    ensures r.CommentPosted? <==> response.CommentAccepted?
  {
    match response
    case CommentRequestError => CommentFailed
    case CommentAccepted => CommentPosted
  }

  // ---------------------------------------------------------------------
  // The state machine, as functions

  /** The `while retries < RETRY_LIMIT and not success` loop from `retries` on. */
  function RetryFrom(server: TicketServer, t: nat, retries: nat): (a: Attempts)
    requires retries <= RetryLimit
    ensures retries < RetryLimit ==> |a.effects| > 0 && a.effects[0] == TicketRequest(t, retries)
    ensures |a.effects| <= 2 * (RetryLimit - retries)
    ensures a.result.Created? ==> a.result.id != 0
    decreases RetryLimit - retries
  {
    if retries == RetryLimit then Attempts([], NotCreated)
    else
      var request := TicketRequest(t, retries);
      match PostTicket(server(t, retries))
      case Created(id) => Attempts([request], Created(id))
      case Raised => Attempts([request], Raised)
      case NotCreated =>
        var rest := RetryFrom(server, t, retries + 1);
        Attempts([request, Sleep(DelaySeconds)] + rest.effects, rest.result)
  }

  /** The comments loop from the k-th comment on. */
  function CommentsFrom(server: CommentServer, post: CommentPoster, t: nat, id: int,
                        comments: seq<Comment>, k: nat): (r: Run)
    requires k <= |comments|
    ensures r.abandoned <==> exists j | k <= j < |comments| :: post(server(t, j)).CommentRaised?
    ensures !r.abandoned ==> |r.effects| == |comments| - k
    ensures |r.effects| <= |comments| - k
    decreases |comments| - k
  {
    if k == |comments| then Run([], false)
    else
      var result := post(server(t, k));
      var request := CommentRequest(id, comments[k], result);
      if result.CommentRaised? then Run([request], true)
      else
        var rest := CommentsFrom(server, post, t, id, comments, k + 1);
        Run([request] + rest.effects, rest.abandoned)
  }

  /** One iteration of the tickets loop: retries, then comments or the give-up log. */
  function PostOne(tickets: TicketServer, comments: CommentServer, post: CommentPoster,
                   t: nat, ticket: TicketPayload): (r: Run)
    ensures |r.effects| > 0 && r.effects[0] == TicketRequest(t, 0)
  {
    var a := RetryFrom(tickets, t, 0);
    match a.result
    case Created(id) =>
      var c := CommentsFrom(comments, post, t, id, ticket.comments, 0);
      Run(a.effects + c.effects, c.abandoned)
    case NotCreated => Run(a.effects + [GaveUp(t)], false)
    case Raised => Run(a.effects, true)
  }

  /** The first n iterations of the tickets loop; an abandoned run stops. */
  function PostAll(tickets: TicketServer, comments: CommentServer, post: CommentPoster,
                   payloads: seq<TicketPayload>, n: nat): (r: Run)
    requires n <= |payloads|
    ensures n > 0 ==> |r.effects| > 0 && r.effects[0] == TicketRequest(0, 0)
  {
    if n == 0 then Run([], false)
    else
      var before := PostAll(tickets, comments, post, payloads, n - 1);
      if before.abandoned then before
      else
        var r := PostOne(tickets, comments, post, n - 1, payloads[n - 1]);
        Run(before.effects + r.effects, r.abandoned)
  }

  // ---------------------------------------------------------------------
  // The retry loop

  /** The first attempt from `from` on whose response is not a RequestException
      (RetryLimit when there is none). */
  function FirstDecisive(server: TicketServer, t: nat, from: nat): (m: nat)
    requires from <= RetryLimit
    ensures from <= m <= RetryLimit
    ensures forall a | from <= a < m :: PostTicket(server(t, a)).NotCreated?
    ensures m < RetryLimit ==> !PostTicket(server(t, m)).NotCreated?
    decreases RetryLimit - from
  {
    if from == RetryLimit || !PostTicket(server(t, from)).NotCreated? then from
    else FirstDecisive(server, t, from + 1)
  }

  /** Failed attempts `from` .. `to`-1: each a request followed by a sleep. */
  function Failures(t: nat, from: nat, to: nat): seq<Effect>
    decreases to - from
  {
    if to <= from then [] else [TicketRequest(t, from), Sleep(DelaySeconds)] + Failures(t, from + 1, to)
  }

  /** The retry loop makes a request and sleeps for every failed attempt, and
      stops at the first attempt that creates the ticket or raises; after
      RetryLimit failures it stops with nothing created. */
  lemma {:induction false} RetryShape(server: TicketServer, t: nat, from: nat)
    requires from <= RetryLimit
    ensures var m := FirstDecisive(server, t, from);
            && RetryFrom(server, t, from).effects
               == Failures(t, from, m) + (if m < RetryLimit then [TicketRequest(t, m)] else [])
            && RetryFrom(server, t, from).result
               == (if m < RetryLimit then PostTicket(server(t, m)) else NotCreated)
    decreases RetryLimit - from
  {
    if from < RetryLimit && PostTicket(server(t, from)).NotCreated? {
      RetryShape(server, t, from + 1);
    }
  }

  /** A ticket that always fails gets exactly RetryLimit attempts and sleeps,
      then the give-up log, and no comment is posted. */
  lemma AlwaysFailingTicket(tickets: TicketServer, comments: CommentServer, post: CommentPoster,
                            t: nat, ticket: TicketPayload)
    requires forall a | 0 <= a < RetryLimit :: tickets(t, a) == TicketRequestError
    ensures PostOne(tickets, comments, post, t, ticket)
            == Run([TicketRequest(t, 0), Sleep(DelaySeconds), TicketRequest(t, 1), Sleep(DelaySeconds),
                    TicketRequest(t, 2), Sleep(DelaySeconds), GaveUp(t)], false)
  {
    RetryShape(tickets, t, 0);
    assert FirstDecisive(tickets, t, 0) == RetryLimit;
    assert Failures(t, 3, 3) == [];
  }

  // ---------------------------------------------------------------------
  // The comments loop

  /** The requests posting comments[k..] in order with the ticket id. */
  function CommentRequests(server: CommentServer, t: nat, id: int, comments: seq<Comment>, k: nat): seq<Effect>
    requires k <= |comments|
    decreases |comments| - k
  {
    if k == |comments| then []
    else [CommentRequest(id, comments[k], PostComment(server(t, k)))] + CommentRequests(server, t, id, comments, k + 1)
  }

  /** Every comment is posted, in order, with the created id; a failed comment
      post does not stop the later ones and nothing escapes. */
  lemma {:induction false} AllCommentsPosted(server: CommentServer, t: nat, id: int, comments: seq<Comment>, k: nat)
    requires k <= |comments|
    ensures CommentsFrom(server, PostComment, t, id, comments, k) == Run(CommentRequests(server, t, id, comments, k), false)
    ensures |CommentRequests(server, t, id, comments, k)| == |comments| - k
    ensures forall j | 0 <= j < |comments| - k ::
      CommentRequests(server, t, id, comments, k)[j] == CommentRequest(id, comments[k + j], PostComment(server(t, k + j)))
    decreases |comments| - k
  {
    if k < |comments| {
      AllCommentsPosted(server, t, id, comments, k + 1);
    }
  }

  /** Two failures and then a truthy id: three attempts, two sleeps, then every comment. */
  lemma FailsTwiceThenSucceeds(tickets: TicketServer, comments: CommentServer, t: nat,
                               ticket: TicketPayload, id: int)
    requires tickets(t, 0) == TicketRequestError && tickets(t, 1) == TicketRequestError
    requires tickets(t, 2) == TicketAccepted(Some(id)) && id != 0
    ensures PostOne(tickets, comments, PostComment, t, ticket)
            == Run([TicketRequest(t, 0), Sleep(DelaySeconds), TicketRequest(t, 1), Sleep(DelaySeconds),
                    TicketRequest(t, 2)] + CommentRequests(comments, t, id, ticket.comments, 0), false)
  {
    RetryShape(tickets, t, 0);
    assert FirstDecisive(tickets, t, 0) == 2;
    AllCommentsPosted(comments, t, id, ticket.comments, 0);
  }

  // ---------------------------------------------------------------------
  // The tickets loop

  /** An abandoned run stays as it is: every remaining ticket is skipped. */
  lemma {:induction false} AbandonedRunIsFinal(tickets: TicketServer, comments: CommentServer, post: CommentPoster,
                                               payloads: seq<TicketPayload>, n: nat, m: nat)
    requires n <= m <= |payloads|
    requires PostAll(tickets, comments, post, payloads, n).abandoned
    ensures PostAll(tickets, comments, post, payloads, m) == PostAll(tickets, comments, post, payloads, n)
    decreases m
  {
    if n < m {
      AbandonedRunIsFinal(tickets, comments, post, payloads, n, m - 1);
    }
  }

  /** Tickets are processed in file order: a run over fewer tickets is a prefix of a run over more. */
  lemma RunsExtend(tickets: TicketServer, comments: CommentServer, post: CommentPoster,
                    payloads: seq<TicketPayload>, n: nat, m: nat)
    requires n <= m <= |payloads|
    ensures PostAll(tickets, comments, post, payloads, n).effects
            <= PostAll(tickets, comments, post, payloads, m).effects
  {
    var k := n;
    while k < m
      invariant n <= k <= m
      invariant PostAll(tickets, comments, post, payloads, n).effects
                <= PostAll(tickets, comments, post, payloads, k).effects
    {
      OneMoreTicket(tickets, comments, post, payloads, k);
      PrefixOfPrefix(PostAll(tickets, comments, post, payloads, n).effects,
                     PostAll(tickets, comments, post, payloads, k).effects,
                     PostAll(tickets, comments, post, payloads, k + 1).effects);
      k := k + 1;
    }
  }

  /** Helper for RunsExtend: one more iteration only appends. */
  lemma OneMoreTicket(tickets: TicketServer, comments: CommentServer, post: CommentPoster,
                      payloads: seq<TicketPayload>, n: nat)
    requires n < |payloads|
    ensures PostAll(tickets, comments, post, payloads, n).effects
            <= PostAll(tickets, comments, post, payloads, n + 1).effects
  {
    var before := PostAll(tickets, comments, post, payloads, n);
    if !before.abandoned {
      var one := PostOne(tickets, comments, post, n, payloads[n]);
      assert PostAll(tickets, comments, post, payloads, n + 1).effects == before.effects + one.effects;
    }
  }

  /** Helper for RunsExtend: a prefix of a prefix is a prefix. */
  lemma PrefixOfPrefix(a: seq<Effect>, b: seq<Effect>, c: seq<Effect>)
    requires a <= b && b <= c
    ensures a <= c
  {
    assert forall i | 0 <= i < |a| :: a[i] == b[i] == c[i];
  }

  /** One more iteration of a run that is not abandoned yet, unfolded. */
  lemma PostAllStep(tickets: TicketServer, comments: CommentServer, post: CommentPoster,
                    payloads: seq<TicketPayload>, n: nat)
    requires 0 < n <= |payloads|
    requires !PostAll(tickets, comments, post, payloads, n - 1).abandoned
    ensures var one := PostOne(tickets, comments, post, n - 1, payloads[n - 1]);
            && PostAll(tickets, comments, post, payloads, n).effects
               == PostAll(tickets, comments, post, payloads, n - 1).effects + one.effects
            && PostAll(tickets, comments, post, payloads, n).abandoned == one.abandoned
  {
  }

  /** Without a ValueError from post_ticket, the corrected run is never
      abandoned: a failing ticket or comment never skips the next ticket, and
      every ticket gets its first attempt. */
  lemma {:induction false} EveryTicketAttempted(tickets: TicketServer, comments: CommentServer,
                                                payloads: seq<TicketPayload>, n: nat)
    requires n <= |payloads|
    requires forall t: nat, a: nat | t < n && a < RetryLimit :: !PostTicket(tickets(t, a)).Raised?
    ensures !PostAll(tickets, comments, PostComment, payloads, n).abandoned
    ensures forall t | 0 <= t < n :: TicketRequest(t, 0) in PostAll(tickets, comments, PostComment, payloads, n).effects
    decreases n
  {
    if n > 0 {
      var t := n - 1;
      EveryTicketAttempted(tickets, comments, payloads, t);
      forall a | 0 <= a < RetryLimit
        ensures !PostTicket(tickets(t, a)).Raised?
      {
      }
      NextTicketAttempted(tickets, comments, payloads, t);
      AttemptedSoFar(PostAll(tickets, comments, PostComment, payloads, t).effects,
                     PostAll(tickets, comments, PostComment, payloads, n).effects, t);
    }
  }

  /** Helper for EveryTicketAttempted: a run that extends one attempting
      every ticket before t, and attempts t, attempts every ticket up to t. */
  lemma AttemptedSoFar(before: seq<Effect>, run: seq<Effect>, t: nat)
    requires forall u | 0 <= u < t :: TicketRequest(u, 0) in before
    requires before <= run && TicketRequest(t, 0) in run
    ensures forall u | 0 <= u <= t :: TicketRequest(u, 0) in run
  {
    forall u | 0 <= u < t
      ensures TicketRequest(u, 0) in run
    {
      var i :| 0 <= i < |before| && before[i] == TicketRequest(u, 0);
      assert run[i] == before[i];
    }
  }

  /** Helper for EveryTicketAttempted: the next ticket of a run that is not
      abandoned, when none of its attempts raises, keeps the run going,
      extends it and is attempted. */
  lemma NextTicketAttempted(tickets: TicketServer, comments: CommentServer,
                            payloads: seq<TicketPayload>, t: nat)
    requires t < |payloads|
    requires !PostAll(tickets, comments, PostComment, payloads, t).abandoned
    requires forall a | 0 <= a < RetryLimit :: !PostTicket(tickets(t, a)).Raised?
    ensures var before := PostAll(tickets, comments, PostComment, payloads, t);
            var run := PostAll(tickets, comments, PostComment, payloads, t + 1);
            && !run.abandoned && before.effects <= run.effects
            && TicketRequest(t, 0) in run.effects
  {
    var before := PostAll(tickets, comments, PostComment, payloads, t);
    var one := PostOne(tickets, comments, PostComment, t, payloads[t]);
    FirstAttemptOpensTicket(tickets, comments, t, payloads[t]);
    PostAllStep(tickets, comments, PostComment, payloads, t + 1);
    assert (before.effects + one.effects)[|before.effects|] == TicketRequest(t, 0);
  }

  /** Helper for EveryTicketAttempted: one ticket whose attempts never raise
      starts with its first attempt and, with the corrected comment post, is
      never abandoned. */
  lemma FirstAttemptOpensTicket(tickets: TicketServer, comments: CommentServer, t: nat, ticket: TicketPayload)
    requires forall a | 0 <= a < RetryLimit :: !PostTicket(tickets(t, a)).Raised?
    ensures var one := PostOne(tickets, comments, PostComment, t, ticket);
            !one.abandoned && |one.effects| > 0 && one.effects[0] == TicketRequest(t, 0)
  {
    RetryShape(tickets, t, 0);
    var a := RetryFrom(tickets, t, 0);
    assert a.effects[0] == TicketRequest(t, 0);
    if a.result.Created? {
      AllCommentsPosted(comments, t, a.result.id, ticket.comments, 0);
    }
  }

  /** The run as written abandons the remaining tickets as soon as one comment
      post is accepted; the corrected run goes on to the next ticket. */
  lemma AcceptedCommentAbandonsRun(tickets: TicketServer, comments: CommentServer,
                                   first: TicketPayload, second: TicketPayload, c: Comment, id: int)
    requires tickets(0, 0) == TicketAccepted(Some(id)) && id != 0
    requires first.comments == [c] && comments(0, 0) == CommentAccepted
    ensures PostAll(tickets, comments, PostCommentAsWritten, [first, second], 2)
            == Run([TicketRequest(0, 0), CommentRequest(id, c, CommentRaised)], true)
    ensures TicketRequest(1, 0) in PostAll(tickets, comments, PostComment, [first, second], 2).effects
  {
    var payloads := [first, second];
    assert RetryFrom(tickets, 0, 0) == Attempts([TicketRequest(0, 0)], Created(id));
    assert CommentsFrom(comments, PostCommentAsWritten, 0, id, [c], 0)
           == Run([CommentRequest(id, c, CommentRaised)], true);
    assert PostAll(tickets, comments, PostCommentAsWritten, payloads, 1)
           == Run([TicketRequest(0, 0), CommentRequest(id, c, CommentRaised)], true);
    assert CommentsFrom(comments, PostComment, 0, id, [c], 1) == Run([], false);
    assert !PostAll(tickets, comments, PostComment, payloads, 1).abandoned;
    RetryShape(tickets, 1, 0);
    var a := RetryFrom(tickets, 1, 0);
    assert a.effects[0] == TicketRequest(1, 0);
  }

  // ---------------------------------------------------------------------
  // The loop itself

  /** One attempt of the retry loop, unfolded. */
  lemma RetryStep(server: TicketServer, t: nat, retries: nat)
    requires retries < RetryLimit
    ensures var request := TicketRequest(t, retries);
            var rest := RetryFrom(server, t, retries + 1);
            match PostTicket(server(t, retries))
            case NotCreated => RetryFrom(server, t, retries) == Attempts([request, Sleep(DelaySeconds)] + rest.effects, rest.result)
            case posted => RetryFrom(server, t, retries) == Attempts([request], posted)
  {
  }

  /** The retry loop of one ticket: `while retries < RETRY_LIMIT and not success`. */
  method PostWithRetries(tickets: TicketServer, t: nat) returns (attempts: seq<Effect>, result: PostTicketResult)
    ensures RetryFrom(tickets, t, 0) == Attempts(attempts, result)
  {
    var success := false;
    var retries: nat := 0;
    attempts := [];
    result := NotCreated;
    ghost var todo := RetryFrom(tickets, t, 0);
    while retries < RetryLimit && !success
      invariant retries <= RetryLimit
      invariant success ==> result.Created? && RetryFrom(tickets, t, 0) == Attempts(attempts + [TicketRequest(t, retries)], result)
      invariant !success ==> result.NotCreated? && todo == RetryFrom(tickets, t, retries)
      invariant !success ==> RetryFrom(tickets, t, 0) == Attempts(attempts + todo.effects, todo.result)
      decreases RetryLimit - retries, if success then 0 else 1
    {
      var posted := PostTicket(tickets(t, retries));
      RetryStep(tickets, t, retries);
      match posted
      case Raised =>
        // the ValueError escapes post_ticket
        return attempts + [TicketRequest(t, retries)], Raised;
      case Created(id) =>
        result := Created(id);
        success := true;
      case NotCreated =>
        var step := [TicketRequest(t, retries), Sleep(DelaySeconds)];
        todo := RetryFrom(tickets, t, retries + 1);
        assert attempts + (step + todo.effects) == (attempts + step) + todo.effects;
        attempts := attempts + step;
        retries := retries + 1;
    }
    if success {
      attempts := attempts + [TicketRequest(t, retries)];
    } else {
      assert todo == Attempts([], NotCreated);
      assert attempts + [] == attempts;
    }
  }

  /** The comments loop of a created ticket, with `post` standing for
      post_comment: an exception it raises ends the loop and abandons the run. */
  method PostComments(comments: CommentServer, post: CommentPoster, t: nat, id: int,
                      ticketComments: seq<Comment>)
    returns (posts: seq<Effect>, abandoned: bool)
    ensures CommentsFrom(comments, post, t, id, ticketComments, 0) == Run(posts, abandoned)
  {
    posts := [];
    for k := 0 to |ticketComments|
      invariant CommentsFrom(comments, post, t, id, ticketComments, 0)
                == Run(posts + CommentsFrom(comments, post, t, id, ticketComments, k).effects,
                       CommentsFrom(comments, post, t, id, ticketComments, k).abandoned)
    {
      var result := post(comments(t, k));
      posts := posts + [CommentRequest(id, ticketComments[k], result)];
      if result.CommentRaised? {
        return posts, true;
      }
    }
    assert posts + [] == posts;
    abandoned := false;
  }

  /** One iteration of the tickets loop: the retry loop, then the comments
      loop for a created ticket or the give-up log line for one that was not. */
  method PostOneTicket(tickets: TicketServer, comments: CommentServer, post: CommentPoster,
                       t: nat, ticket: TicketPayload)
    returns (effects: seq<Effect>, abandoned: bool)
    ensures PostOne(tickets, comments, post, t, ticket) == Run(effects, abandoned)
  {
    var attempts, result := PostWithRetries(tickets, t);
    match result
    case Raised =>
      // the ValueError leaves the iteration for the outer handler
      return attempts, true;
    case Created(id) =>
      var posts, raised := PostComments(comments, post, t, id, ticket.comments);
      return attempts + posts, raised;
    case NotCreated =>
      return attempts + [GaveUp(t)], false;
  }

  /** post_tickets_from_json over the tickets of the result file, with `post`
      standing for post_comment (PostCommentAsWritten for the script as it is). */
  method PostTicketsFromJson(payloads: seq<TicketPayload>, tickets: TicketServer, comments: CommentServer,
                             post: CommentPoster)
    returns (run: Run)
    ensures run == PostAll(tickets, comments, post, payloads, |payloads|)
  {
    var effects: seq<Effect> := [];
    for i := 0 to |payloads|
      invariant PostAll(tickets, comments, post, payloads, i) == Run(effects, false)
    {
      var one, abandoned := PostOneTicket(tickets, comments, post, i, payloads[i]);
      effects := effects + one;
      if abandoned {
        // the outer handler catches the exception: every remaining ticket is skipped
        AbandonedRunIsFinal(tickets, comments, post, payloads, i + 1, |payloads|);
        return Run(effects, true);
      }
    }
    run := Run(effects, false);
  }
}
