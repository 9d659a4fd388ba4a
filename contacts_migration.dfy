/** contacts_migration.py: fetch the source system's contacts (isActive 0,
    then 1) page by page and upload each one to Atera as soon as its page
    arrives; every failed upload is appended to a module-level error log,
    which is written out at the end only when it is not empty.

    The Atera endpoint is an oracle indexed by the number of uploads made so
    far: `server(m)` is the answer to the m-th POST. */
module ContactsMigration {
  import opened Wrappers
  import opened Records
  import opened Pagination

  const ContactsQueryUrl := "https://webservices14.autotask.net/ATServicesRest/V1.0/Contacts/query"
  const AteraApiUrl := "https://app.atera.com/api/v3/contacts"

  /** The JSON body posted to Atera. */
  datatype AteraContact = AteraContact(
    email: Option<string>,
    firstname: Option<string>,
    lastname: Option<string>,
    jobTitle: Option<string>,
    phone: Option<string>,
    mobilePhone: Option<string>,
    isContactPerson: bool,
    createdOn: Option<string>)

  /** The outcome of one POST: a 2xx, or a RequestException with its text. */
  datatype UploadResponse = Uploaded | UploadFailed(message: string)

  /** One entry of error_log. */
  datatype ErrorEntry = ErrorEntry(contactEmail: Option<string>, contactId: int, errorMessage: string)

  type UploadServer = nat -> UploadResponse

  /** The contact fields that are sent, each under its Atera name;
      `primaryContact` defaults to false when absent. */
  function ToAteraContact(c: Contact): (a: AteraContact)
    ensures a.email == c.emailAddress && a.firstname == c.firstName && a.lastname == c.lastName
    ensures a.jobTitle == c.title && a.phone == c.phone && a.mobilePhone == c.mobilePhone
    ensures a.createdOn == c.createDate
    ensures c.primaryContact.Some? ==> a.isContactPerson == c.primaryContact.value
    ensures c.primaryContact.None? ==> !a.isContactPerson
  {
    AteraContact(c.emailAddress, c.firstName, c.lastName, c.title, c.phone, c.mobilePhone,
                 c.primaryContact.GetOr(false), c.createDate)
  }

  /** Two contacts are uploaded as the same body exactly when they agree on
      every field that is sent (the id is not sent). */
  lemma SameBodyIffSameSentFields(c: Contact, d: Contact)
    ensures ToAteraContact(c) == ToAteraContact(d) <==>
            && c.emailAddress == d.emailAddress && c.firstName == d.firstName
            && c.lastName == d.lastName && c.title == d.title && c.phone == d.phone
            && c.mobilePhone == d.mobilePhone && c.createDate == d.createDate
            && c.primaryContact.GetOr(false) == d.primaryContact.GetOr(false)
  {
  }

  /** The bodies posted for `cs`, one per contact, in upload order. */
  function Bodies(cs: seq<Contact>): (bs: seq<AteraContact>)
    ensures |bs| == |cs|
    decreases |cs|
  {
    if cs == [] then []
    else Bodies(cs[..|cs| - 1]) + [ToAteraContact(cs[|cs| - 1])]
  }

  /** Body i is the mapping of contact i: every contact is posted once, in order. */
  lemma {:induction false} BodiesAt(cs: seq<Contact>)
    ensures forall i | 0 <= i < |cs| :: Bodies(cs)[i] == ToAteraContact(cs[i])
    decreases |cs|
  {
    if cs != [] {
      var init := cs[..|cs| - 1];
      BodiesAt(init);
      forall i | 0 <= i < |cs|
        ensures Bodies(cs)[i] == ToAteraContact(cs[i])
      {
        if i < |init| {
          assert Bodies(cs)[i] == Bodies(init)[i];
          assert cs[i] == init[i];
        }
      }
    }
  }

  /** One more upload of a page posts its own body. */
  lemma BodiesSnoc(cs: seq<Contact>, i: nat)
    requires i < |cs|
    ensures Bodies(cs[..i + 1]) == Bodies(cs[..i]) + [ToAteraContact(cs[i])]
  {
    assert cs[..i + 1][..i] == cs[..i];
  }

  /** Posting a + b posts a's bodies, then b's. */
  lemma {:induction false} BodiesAppend(a: seq<Contact>, b: seq<Contact>)
    ensures Bodies(a + b) == Bodies(a) + Bodies(b)
    decreases |b|
  {
    if b == [] {
      assert a + b == a;
    } else {
      var init, last := b[..|b| - 1], b[|b| - 1];
      BodiesAppend(a, init);
      assert (a + b)[..|a + b| - 1] == a + init;
      assert (a + b)[|a + b| - 1] == last;
      calc {
        Bodies(a + b);
        Bodies(a + init) + [ToAteraContact(last)];
        Bodies(a) + Bodies(init) + [ToAteraContact(last)];
        Bodies(a) + Bodies(b);
      }
    }
  }

  /** Appending the bodies of `more` to a record of `cs`'s bodies gives
      the bodies of cs + more. */
  lemma SentAfterPage(sent0: seq<AteraContact>, cs: seq<Contact>, more: seq<Contact>,
                      sentBefore: seq<AteraContact>, sentAfter: seq<AteraContact>)
    requires sentBefore == sent0 + Bodies(cs)
    requires sentAfter == sentBefore + Bodies(more)
    ensures sentAfter == sent0 + Bodies(cs + more)
  {
    BodiesAppend(cs, more);
  }

  /** What one upload adds to the error log: nothing on success, one entry
      carrying the contact's email, id and the error text on failure. */
  function UploadError(c: Contact, response: UploadResponse): (r: seq<ErrorEntry>)
    ensures r == [] <==> response.Uploaded?
    ensures response.UploadFailed? ==> r == [ErrorEntry(c.emailAddress, c.id, response.message)]
  {
    match response
    case Uploaded => []
    case UploadFailed(message) => [ErrorEntry(c.emailAddress, c.id, message)]
  }

  /** The error log entries of uploading `cs` in order, the first of them
      being upload number `n`. */
  function UploadErrors(cs: seq<Contact>, n: nat, server: UploadServer): (r: seq<ErrorEntry>)
    ensures |r| <= |cs|
    decreases |cs|
  {
    if cs == [] then []
    else UploadErrors(cs[..|cs| - 1], n, server) + UploadError(cs[|cs| - 1], server(n + |cs| - 1))
  }

  /** One more upload of a page appends its own entry, if any. */
  lemma UploadErrorsSnoc(cs: seq<Contact>, i: nat, n: nat, server: UploadServer)
    requires i < |cs|
    ensures UploadErrors(cs[..i + 1], n, server) == UploadErrors(cs[..i], n, server) + UploadError(cs[i], server(n + i))
  {
    assert cs[..i + 1][..i] == cs[..i];
  }

  /** The number of failed answers among uploads n .. n + count - 1. */
  function FailedUploads(n: nat, count: nat, server: UploadServer): nat
    decreases count
  {
    if count == 0 then 0
    else FailedUploads(n, count - 1, server) + (if server(n + count - 1).UploadFailed? then 1 else 0)
  }

  /** Uploading a + b logs a's errors, then b's. */
  lemma {:induction false} UploadErrorsAppend(a: seq<Contact>, b: seq<Contact>, n: nat, server: UploadServer)
    ensures UploadErrors(a + b, n, server) == UploadErrors(a, n, server) + UploadErrors(b, n + |a|, server)
    decreases |b|
  {
    if b == [] {
      assert a + b == a;
    } else {
      var init, last := b[..|b| - 1], b[|b| - 1];
      UploadErrorsAppend(a, init, n, server);
      assert (a + b)[..|a + b| - 1] == a + init;
      assert (a + b)[|a + b| - 1] == last;
      calc {
        UploadErrors(a + b, n, server);
        UploadErrors(a + init, n, server) + UploadError(last, server(n + |a| + |b| - 1));
        UploadErrors(a, n, server) + UploadErrors(init, n + |a|, server) + UploadError(last, server(n + |a| + |b| - 1));
        UploadErrors(a, n, server) + UploadErrors(b, n + |a|, server);
      }
    }
  }

  /** Appending the errors of uploading `more` after `cs` to a log of
      `cs`'s errors gives the log of uploading cs + more. */
  lemma LogAfterPage(log0: seq<ErrorEntry>, cs: seq<Contact>, more: seq<Contact>, n: nat, server: UploadServer,
                     logBefore: seq<ErrorEntry>, logAfter: seq<ErrorEntry>)
    requires logBefore == log0 + UploadErrors(cs, n, server)
    requires logAfter == logBefore + UploadErrors(more, n + |cs|, server)
    ensures logAfter == log0 + UploadErrors(cs + more, n, server)
  {
    UploadErrorsAppend(cs, more, n, server);
  }

  /** One entry per failed upload: the log has exactly as many entries as
      there were failed answers. */
  lemma {:induction false} OneEntryPerFailure(cs: seq<Contact>, n: nat, server: UploadServer)
    ensures |UploadErrors(cs, n, server)| == FailedUploads(n, |cs|, server)
    decreases |cs|
  {
    if cs != [] {
      OneEntryPerFailure(cs[..|cs| - 1], n, server);
    }
  }

  /** The error log stays empty exactly when every upload succeeded. */
  lemma {:induction false} NoErrorsIffAllUploaded(cs: seq<Contact>, n: nat, server: UploadServer)
    ensures UploadErrors(cs, n, server) == [] <==> forall m | n <= m < n + |cs| :: server(m).Uploaded?
    decreases |cs|
  {
    if cs != [] {
      NoErrorsIffAllUploaded(cs[..|cs| - 1], n, server);
      var last := UploadError(cs[|cs| - 1], server(n + |cs| - 1));
      if forall m | n <= m < n + |cs| :: server(m).Uploaded? {
        assert server(n + |cs| - 1).Uploaded?;
      } else {
        var m :| n <= m < n + |cs| && !server(m).Uploaded?;
        if m == n + |cs| - 1 {
          assert last != [];
        }
      }
    }
  }

  /** The first request of fetch_contacts(value): the query URL with the isActive filter. */
  function ContactsQuery(isActive: int): Request {
    Request(ContactsQueryUrl, SearchFilter("isActive", isActive))
  }

  /** The first request carries the isActive filter; any later request
      repeats the one before it (after a timeout) or goes to a page's
      nextPageUrl with no parameters. */
  lemma ContactRequests<T>(isActive: int, trace: seq<Response<T>>)
    ensures var f := Fetch(ContactsQuery(isActive), trace);
            && (|trace| > 0 ==> f.requests[0] == Request(ContactsQueryUrl, SearchFilter("isActive", isActive)))
            && forall j | 0 < j < |f.requests| ::
                 f.requests[j] == f.requests[j - 1] || f.requests[j].params == NoParams
  {
    var f := Fetch(ContactsQuery(isActive), trace);
    RequestChain(ContactsQuery(isActive), trace, 0, None, 0);
    forall j | 0 < j < |f.requests|
      ensures f.requests[j] == f.requests[j - 1] || f.requests[j].params == NoParams
    {
      assert ChainStep(f.requests, trace, 0, j);
    }
  }

  /** The script's module-level state: error_log, and how many uploads have
      been made so far (which the oracle is indexed by). `sent` records the
      body of every POST, in order; the script keeps no such list. */
  class Migration {
    var errorLog: seq<ErrorEntry>
    var uploads: nat
    ghost var sent: seq<AteraContact>

    constructor ()
      ensures errorLog == [] && uploads == 0 && sent == []
    {
      errorLog := [];
      uploads := 0;
      sent := [];
    }

    /** post_to_atera: one POST; a failure is logged and appended to the error log, never raised. */
    method PostToAtera(contact: Contact, server: UploadServer) returns (body: AteraContact)
      modifies this
      ensures body == ToAteraContact(contact)
      ensures uploads == old(uploads) + 1
      ensures errorLog == old(errorLog) + UploadError(contact, server(old(uploads)))
      ensures sent == old(sent) + [ToAteraContact(contact)]
    {
      body := ToAteraContact(contact);
      sent := sent + [body];
      var response := server(uploads);
      match response {
        case Uploaded =>
        case UploadFailed(message) =>
          errorLog := errorLog + [ErrorEntry(contact.emailAddress, contact.id, message)];
      }
      uploads := uploads + 1;
    }

    /** Uploads the items of one page, in order. */
    method PostPage(items: seq<Contact>, server: UploadServer)
      modifies this
      ensures uploads == old(uploads) + |items|
      ensures errorLog == old(errorLog) + UploadErrors(items, old(uploads), server)
      ensures sent == old(sent) + Bodies(items)
    {
      ghost var uploads0, log0, sent0 := uploads, errorLog, sent;
      for i := 0 to |items|
        invariant uploads == uploads0 + i
        invariant errorLog == log0 + UploadErrors(items[..i], uploads0, server)
        invariant sent == sent0 + Bodies(items[..i])
      {
        ghost var bodies := Bodies(items[..i]);
        ghost var done := UploadErrors(items[..i], uploads0, server);
        ghost var entry := UploadError(items[i], server(uploads0 + i));
        ghost var before := errorLog;
        var _ := PostToAtera(items[i], server);
        assert errorLog == before + entry;
        UploadErrorsSnoc(items, i, uploads0, server);
        assert (log0 + done) + entry == log0 + (done + entry);
        BodiesSnoc(items, i);
        assert (sent0 + bodies) + [ToAteraContact(items[i])] == sent0 + (bodies + [ToAteraContact(items[i])]);
      }
      assert items[..|items|] == items;
    }

    /** fetch_contacts(value): the same paginated loop with retries as the
        other fetches, uploading each page's contacts right after adding
        them to the result. */
    method FetchContacts(value: int, trace: seq<Response<Contact>>, server: UploadServer)
      returns (contacts: seq<Contact>, ghost requests: seq<Request>, ghost sleeps: seq<nat>)
      modifies this
      ensures contacts == Fetch(ContactsQuery(value), trace).items
      ensures requests == Fetch(ContactsQuery(value), trace).requests
      ensures sleeps == Fetch(ContactsQuery(value), trace).sleeps
      ensures uploads == old(uploads) + |contacts|
      ensures errorLog == old(errorLog) + UploadErrors(contacts, old(uploads), server)
      ensures sent == old(sent) + Bodies(contacts)
    {
      ghost var uploads0, log0, sent0 := uploads, errorLog, sent;
      var first := ContactsQuery(value);
      requests := [];
      sleeps := [];
      var next: Option<string> := None;
      var retries: nat := 0;
      var k: nat := 0;
      contacts := [];
      while k < |trace|
        invariant k <= |trace|
        invariant Fetch(first, trace) == Glue(contacts, requests, sleeps, FetchFrom(first, trace, k, next, retries))
        invariant uploads == uploads0 + |contacts|
        invariant errorLog == log0 + UploadErrors(contacts, uploads0, server)
        invariant sent == sent0 + Bodies(contacts)
        decreases |trace| - k
      {
        var request := RequestFor(first, next);
        match trace[k] {
          case Page(pageItems, link) =>
            if TruthyString(link) {
              ResumeAfterPage(first, trace, k, next, retries, contacts, requests, sleeps);
            } else {
              StopAt(first, trace, k, next, retries, contacts, requests, sleeps);
            }
            ghost var logBefore, sentBefore := errorLog, sent;
            PostPage(pageItems, server);
            LogAfterPage(log0, contacts, pageItems, uploads0, server, logBefore, errorLog);
            SentAfterPage(sent0, contacts, pageItems, sentBefore, sent);
            requests := requests + [request];
            contacts := contacts + pageItems;
            if !TruthyString(link) {
              return;
            }
            next := link;
          case Timeout =>
            if retries + 1 >= MaxRetries {
              StopAt(first, trace, k, next, retries, contacts, requests, sleeps);
              requests := requests + [request];
              return;
            }
            ResumeAfterTimeout(first, trace, k, next, retries, contacts, requests, sleeps);
            requests := requests + [request];
            retries := retries + 1;
            sleeps := sleeps + [BackoffSeconds * retries];
          case RequestFailure =>
            StopAt(first, trace, k, next, retries, contacts, requests, sleeps);
            requests := requests + [request];
            return;
        }
        k := k + 1;
      }
      assert contacts + [] == contacts && requests + [] == requests && sleeps + [] == sleeps;
    }

    /** fetch_all_contacts: isActive 0 then 1, concatenated; the error log
        file is written (Some) only when the log is not empty. */
    method FetchAllContacts(server: int -> seq<Response<Contact>>, uploadServer: UploadServer)
      returns (all: seq<Contact>, errorFile: Option<seq<ErrorEntry>>)
      modifies this
      ensures all == Fetch(ContactsQuery(0), server(0)).items + Fetch(ContactsQuery(1), server(1)).items
      ensures uploads == old(uploads) + |all|
      ensures errorLog == old(errorLog) + UploadErrors(all, old(uploads), uploadServer)
      ensures sent == old(sent) + Bodies(all)
      ensures errorFile == if errorLog != [] then Some(errorLog) else None
    {
      ghost var uploads0, log0, sent0 := uploads, errorLog, sent;
      all := [];
      var values := [0, 1];
      for i := 0 to |values|
        invariant all == FetchEach(ContactsQuery, server, values[..i])
        invariant uploads == uploads0 + |all|
        invariant errorLog == log0 + UploadErrors(all, uploads0, uploadServer)
        invariant sent == sent0 + Bodies(all)
      {
        ghost var logBefore, uploadsBefore, sentBefore := errorLog, uploads, sent;
        var contacts, _, _ := FetchContacts(values[i], server(values[i]), uploadServer);
        assert errorLog == logBefore + UploadErrors(contacts, uploadsBefore, uploadServer);
        assert uploadsBefore == uploads0 + |all|;
        assert logBefore == log0 + UploadErrors(all, uploads0, uploadServer);
        LogAfterPage(log0, all, contacts, uploads0, uploadServer, logBefore, errorLog);
        SentAfterPage(sent0, all, contacts, sentBefore, sent);
        assert values[..i + 1] == values[..i] + [values[i]];
        all := all + contacts;
      }
      assert values[..2] == [0, 1] && [0, 1][..1] == [0] && [0][..0] == [];
      assert FetchEach(ContactsQuery, server, [0]) == Fetch(ContactsQuery(0), server(0)).items;
      if errorLog != [] {
        errorFile := Some(errorLog);
      } else {
        errorFile := None;
      }
    }
  }
}
