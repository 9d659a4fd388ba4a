# tics_migration in Dafny

A model of the migration scripts that move tickets, contacts and resources from Autotask to Atera. It has three parts:

- **The ticket payload transformer** (`script3_tickets.py`). This part is pure. Lookups with defaults, first-match joins by id and by email, and a comment builder turn one Autotask ticket into one Atera ticket payload. The six reference snapshots that the script loads at module level are passed in as one `References` value.
- **The ticket poster** (`script4_tickets.py`). This part is imperative. Each ticket gets up to three attempts, with a five-second sleep after each failed one, and its comments are posted only after a successful attempt.
  - The two Atera endpoints are oracles: `(ticket, attempt) -> response` and `(ticket, comment) -> response`.
  - What the script does is recorded as a sequence of effects: requests, sleeps, and the give-up log.
  - An exception that escapes to the outer `except Exception` marks the run as abandoned.
- **The paginated fetch with retries.**
  - The same loop appears in `script1_tickets.py`, `fetch_resources.py`, `contacts_migration.py` and `fetch_atera_contacts.py`. It is modelled once (`Pagination.FetchPages`), against the suffix-recursive specification `Pagination.FetchFrom`. The server is a finite trace of responses: a page (its items and its next link), a timeout, or any other request failure.
  - `contacts_migration.py` is a class (`ContactsMigration.Migration`). It owns the module-level `error_log` and a count of the uploads made so far. A ghost field `sent` records the body of every upload POST, in order; the script keeps no such list. The Atera upload endpoint is an oracle indexed by that count. Its `fetch_contacts` is its own loop, because it uploads every contact of a page right after adding the page to its result.

Python's truthiness is modelled where the scripts test a bare value.
- `if end_user_id:` treats 0 as "not found".
- `if not ticket_id:` in `post_ticket` treats a null or 0 id as missing and raises a ValueError, which abandons the run. So `bool(ticket_id)` in the retry loop only ever sees a truthy id or None.
- `if not next_page_url:` treats "" and null alike.

JSON keys that may be absent or null are `Option`s. The email scans compare `Option`s, so an unknown email (None) matches a record whose email is null, as `None == None` does in Python.

In `get_ticket_comments`, a note with a null `creatorResourceID` is given `TechnicianCommentDetails`, and a note with a resource is given `EnduserCommentDetails`. `TicketPayloads.ToComment` keeps this assignment as written.

## Model

| member | source | states |
|---|---|---|
| Wrappers.FirstIndex | script3_tickets.py:15-19 | The `for`/early-`return` scan: the index of the first element satisfying the test. Every earlier element fails the test. The result is None exactly when every element fails. |
| TicketPayloads.NameById | script3_tickets.py:15-25 | The lookup both picklist helpers share: the name of the first entry whose id equals the argument, or the default when none does. |
| TicketPayloads.TicketPriority | script3_tickets.py:15-19 | The name of a listed priority, or "Low". "Low" whenever no priority has that id. |
| TicketPayloads.TicketStatus | script3_tickets.py:21-25 | The name of a listed status, or "New". "New" whenever no status has that id. |
| TicketPayloads.TicketImpact | script3_tickets.py:27-35 | Issue types 1..5 map to NoImpact, Minor, Major, Crisis, SiteDown. Anything else, including a missing value, gives "Minor". The result is always one of the five names. |
| TicketPayloads.TicketType | script3_tickets.py:37-44 | Ticket types 1..4 map to Request, Incident, Problem, Change. Anything else gives "Incident". The result is always one of the four names. |
| TicketPayloads.EndUserOf | script3_tickets.py:46-55 | The empty mapping exactly when no contact has the id. Otherwise the id, first name, last name and email of the first contact with that id. |
| TicketPayloads.AssignedResourceOf | script3_tickets.py:57-66 | The empty mapping exactly when no resource has the id. Otherwise the projection of the first resource with that id. |
| TicketPayloads.TechnicianId | script3_tickets.py:68-71 | None exactly when no technician's Email equals the argument, where None equals null. Otherwise the `$id` of the first technician that matches. |
| TicketPayloads.EndUserId | script3_tickets.py:73-76 | None exactly when no Atera contact's Email equals the argument. Otherwise the EndUserID of the first contact that matches. |
| TicketPayloads.ToComment | script3_tickets.py:81-94 | The timestamp and text are the note's createDateTime and description. The comment has exactly one details variant: technician exactly when creatorResourceID is null, with IsInternal false and the id resolved through the creating contact's email. Otherwise end-user, with the id resolved through the resource's email. |
| TicketPayloads.TicketComments | script3_tickets.py:78-96 | The appending loop: never more comments than notes. |
| TicketPayloads.CommentNotesAppend | script3_tickets.py:80-81 | Keeping the type-1 notes distributes over concatenation, so relative order is kept. |
| TicketPayloads.CommentNotesExactly | script3_tickets.py:80-81 | Every note of type 1 is kept, as often as it occurs, and no other note is kept (multiset count). |
| TicketPayloads.TicketCommentsFromCommentNotes | script3_tickets.py:78-96 | get_ticket_comments has one comment per type-1 note. Comment k is built from the k-th type-1 note. |
| TicketPayloads.CommentsOfMixedNotes | script3_tickets.py:78-96 | Notes of types 1, 2, 1 give exactly the two comments of the first and third notes, in that order. |
| TicketPayloads.CreateTicketPayload | script3_tickets.py:104-127 | EndUserID is set exactly when the resolved end-user id is truthy (non-null and non-zero), and it is that id. Otherwise the name, last name and email of the looked-up contact are set, all null when the contact is unknown. Never both. |
| TicketPayloads.PayloadComments | script3_tickets.py:100 | The payload's comments are exactly the comments of the ticket's type-1 notes, in order. |
| TicketPayloads.PayloadTechnician | script3_tickets.py:105-106 | TechnicianContactID is always present. It is null exactly when no technician's email equals the assigned resource's email. Otherwise it is the id of the first technician that matches. |
| TicketPayloads.PayloadLookups | script3_tickets.py:99-115 | The title and description are copied. The priority and status are the first-match lookups of the ticket's ids in the priority and status snapshots. The impact is the issue-type table lookup, and the type is the ticket-type table lookup. |
| TicketPayloads.UnknownContactTakesNullEmailEndUser | script3_tickets.py:104-107 | A ticket whose contact is unknown looks up a null email. If the first Atera end user with a null email has a non-zero id, that end user becomes the ticket's EndUserID. |
| TicketPayloads.ProcessTickets | script3_tickets.py:131-136 | One payload per ticket: the same length as the input, and element i is the payload of ticket i. |
| TicketPoster.PostTicket | script4_tickets.py:33-49 | Returns an id exactly when the POST succeeded with a truthy id, and returns that id. Returns None exactly on a RequestException. A 2xx without a truthy id raises. |
| TicketPoster.PostCommentAsWritten | script4_tickets.py:58-66 | As written: an accepted comment raises (KeyError on 'Text'). A failed one is only logged. |
| TicketPoster.PostComment | script4_tickets.py:58-66 | Corrected: never raises. The comment is posted exactly when the response is accepted. |
| TicketPoster.FirstDecisive | script4_tickets.py:77-84 | The first attempt that does not fail with a RequestException, or 3 when there is none. Every attempt before it failed. |
| TicketPoster.RetryFrom | script4_tickets.py:77-84 | The attempts from attempt k on: when an attempt remains, the first effect is attempt k's request. At most two effects (a request and a sleep) per remaining attempt. A created outcome carries a non-zero id. |
| TicketPoster.CommentsFrom | script4_tickets.py:89-90 | The comments loop from comment k on is abandoned exactly when the post of some comment from k on raises. When it is not abandoned, it makes exactly one request per remaining comment. It never makes more. |
| TicketPoster.PostOne | script4_tickets.py:74-93 | One iteration of the tickets loop always starts with that ticket's first attempt. |
| TicketPoster.PostAll | script4_tickets.py:73-96 | The run over the first n tickets, as written when given `PostCommentAsWritten`. A run over at least one ticket starts with ticket 0's first attempt. |
| TicketPoster.RetryShape | script4_tickets.py:74-84 | A ticket's attempts are one request and one 5-second sleep per failed attempt, followed by the deciding request if there is one. The outcome is that request's result, or "not created" after 3 failures. |
| TicketPoster.AlwaysFailingTicket | script4_tickets.py:77-93 | A ticket that always fails gets exactly 3 requests and 3 sleeps, then the give-up log, and no comment is posted. |
| TicketPoster.AllCommentsPosted | script4_tickets.py:86-90 | With the corrected comment post: after a successful post, every comment is posted once, in order, with the returned id. A failed comment does not stop the later ones. |
| TicketPoster.FailsTwiceThenSucceeds | script4_tickets.py:77-90 | With the corrected comment post: two failures and then a truthy id give three requests and two sleeps, followed by all the comments. |
| TicketPoster.AbandonedRunIsFinal | script4_tickets.py:95-96 | Once an exception escapes, nothing further happens: every remaining ticket is skipped. |
| TicketPoster.RunsExtend | script4_tickets.py:73 | Tickets are processed in file order: the run over the first n tickets is a prefix of the run over more. |
| TicketPoster.EveryTicketAttempted | script4_tickets.py:73-93 | With the corrected comment post and no ValueError, the run is never abandoned and every ticket gets its first attempt. One ticket's failure never skips the next. |
| TicketPoster.FirstAttemptOpensTicket | script4_tickets.py:74-90 | A ticket whose attempts never raise starts with its first attempt, and with the corrected comment post it is never abandoned. |
| TicketPoster.AcceptedCommentAbandonsRun | script4_tickets.py:62 | As written, a first ticket with one accepted comment ends the run right after that comment, and the second ticket is never attempted. With the corrected comment post, the run attempts the second ticket, whatever its responses. |
| TicketPoster.PostWithRetries | script4_tickets.py:74-84 | The `while retries < RETRY_LIMIT and not success` loop produces exactly the attempts and outcome of the retry specification. |
| TicketPoster.PostComments | script4_tickets.py:86-90 | For any `post_comment` behaviour, the comments loop sends exactly the requests of the comments specification, in order. It stops, and the run is abandoned, exactly at the first comment whose post raises. |
| TicketPoster.PostOneTicket | script4_tickets.py:73-93 | For any `post_comment` behaviour, one iteration of the tickets loop is exactly `PostOne`. A ValueError abandons the run. A created ticket adds its attempts and its comments. A ticket that is never created adds its attempts and the give-up log. |
| TicketPoster.PostTicketsFromJson | script4_tickets.py:68-96 | For any `post_comment` behaviour, the tickets loop produces exactly the run of the specification over every ticket. An exception from a ticket or a comment skips every remaining ticket. With `PostCommentAsWritten` this is the script as it is. |
| Pagination.RequestFor | script1_tickets.py:41-42 | The link without parameters once a page has given a truthy link. Otherwise the first request, with its filter. |
| Pagination.FetchFrom | script1_tickets.py:40-69 | One request per consumed response, never more than the trace holds. A request is made exactly when a response remains. |
| Pagination.FetchPages | script1_tickets.py:40-72 | The `while True` loop returns exactly the items, requests, sleeps and ending of the fetch specification. |
| Pagination.ResumeAfterPage | script1_tickets.py:52-55 | After a page with a truthy link, the loop adds the page's items and one request, and resumes at that link. |
| Pagination.ResumeAfterTimeout | script1_tickets.py:59-65 | After a timeout that is not the third, the loop adds one request and a sleep of 10·k seconds, and resumes with the same link. |
| Pagination.StopAt | script1_tickets.py:54-69 | A response that stops the fetch adds its page's items (for a last page), one request, and its ending. |
| Pagination.ItemsOfConsumedPages | script1_tickets.py:49-52 | The result is the concatenation of the items of the pages among the consumed responses, in page order. A failed response contributes nothing. |
| Pagination.TimeoutBudget | script1_tickets.py:59-64 | Timeouts are counted over the whole fetch and never reset. At most 3 are consumed, and the fetch gives up exactly when the third arrives. |
| Pagination.SleepSchedule | script1_tickets.py:59-65 | The k-th timeout sleeps 10·k seconds before the retry. Fewer than 3 sleeps are taken. |
| Pagination.SleepPerTimeout | script1_tickets.py:59-65 | Every consumed timeout sleeps, except the one that ends the fetch. |
| Pagination.RequestChain | script1_tickets.py:40-42 | The first request follows the current link (the first request when there is none). Each later request follows the response to the one before it: the same request after a timeout, the page's link without parameters after a page. Only the last consumed response can end the fetch. |
| Pagination.EndingOfFetch | script1_tickets.py:54-69 | The last consumed response says why the fetch ended: a page without a truthy link, the third timeout, or a request failure. Running out of trace happens only after every response was consumed. |
| Pagination.ThreeTimeoutsStop | script1_tickets.py:59-65 | Three timeouts from the start give three identical first requests, sleeps of 10 and 20 seconds, and nothing returned. |
| Pagination.FetchEach | script1_tickets.py:77-80 | The handler's concatenation over filter values. No values give no items, and a single value gives exactly the items of its own fetch. |
| Pagination.FetchEachAppend | script1_tickets.py:77-80 | Concatenating the per-value results distributes over the list of filter values. |
| FetchTickets.FetchTickets | script1_tickets.py:30-72 | fetch_tickets returns exactly the items of the fetch for its priority filter. |
| FetchTickets.TicketRequests | script1_tickets.py:36-42 | The first request is the Tickets query with the priority filter. Each later request repeats the previous one or has no parameters. |
| FetchTickets.Handler | script1_tickets.py:74-80 | The results for priorities 1, 2, 3 and 4, concatenated in that order. |
| FetchResources.FetchResources | fetch_resources.py:28-70 | fetch_resources returns exactly the items of the fetch for its isActive filter. |
| FetchResources.ResourceTimeouts | fetch_resources.py:57-63 | At most 3 timeouts per fetch, and the fetch gives up exactly at the third. The sleeps are 10·k seconds. |
| FetchResources.Handler | fetch_resources.py:72-78 | The results for isActive 0 and then 1, concatenated. |
| FetchAteraContacts.FetchContacts | fetch_atera_contacts.py:23-60 | fetch_contacts returns exactly the items of the fetch that starts at the contacts URL. |
| FetchAteraContacts.AteraRequestsHaveNoParams | fetch_atera_contacts.py:26-42 | The first request is the contacts URL. No request carries query parameters. |
| FetchAteraContacts.NoParamsFrom | fetch_atera_contacts.py:33-42 | Along the chain of requests, no request gains parameters. |
| FetchAteraContacts.Handler | fetch_atera_contacts.py:69-75 | The contacts are saved exactly when the fetched list is non-empty, and what is saved is that list. |
| ContactsMigration.ToAteraContact | contacts_migration.py:39-48 | Email, first name, last name, job title, phone, mobile phone and creation date are copied from the contact's fields. IsContactPerson is primaryContact when it is present, and false when it is missing. |
| ContactsMigration.SameBodyIffSameSentFields | contacts_migration.py:39-48 | Two contacts give the same body exactly when they agree on the seven mapped fields and on primaryContact defaulted to false. The id is not sent. |
| ContactsMigration.UploadError | contacts_migration.py:50-62 | A successful upload adds nothing. A failed one adds exactly one entry: the contact's email, its id and the error text. |
| ContactsMigration.UploadErrors | contacts_migration.py:85-88 | Uploading a list adds at most one entry per contact. |
| ContactsMigration.UploadErrorsAppend | contacts_migration.py:85-88 | Uploading a + b logs a's errors and then b's, in upload order. |
| ContactsMigration.LogAfterPage | contacts_migration.py:85-88 | Appending one page's upload errors to the log so far gives the log of uploading both. |
| ContactsMigration.BodiesAt | contacts_migration.py:32-48 | The i-th body posted for a list of contacts is the mapping of its i-th contact. |
| ContactsMigration.BodiesAppend | contacts_migration.py:85-88 | The bodies posted for a + b are a's bodies followed by b's. |
| ContactsMigration.SentAfterPage | contacts_migration.py:85-88 | Appending one page's bodies to the bodies sent so far gives the bodies of uploading both. |
| ContactsMigration.OneEntryPerFailure | contacts_migration.py:54-62 | The log has exactly one entry per failed upload. |
| ContactsMigration.NoErrorsIffAllUploaded | contacts_migration.py:124-132 | The error log stays empty, so no error file is written, exactly when every upload succeeded. |
| ContactsMigration.ContactRequests | contacts_migration.py:70-76 | The first request is the Contacts query with the isActive filter. Each later request repeats the previous one or has no parameters. |
| ContactsMigration.Migration.constructor | contacts_migration.py:30 | The error log starts empty, with no uploads made. |
| ContactsMigration.Migration.PostToAtera | contacts_migration.py:32-62 | Sends the mapped body, and the sent bodies grow by exactly that one. Counts one upload. The error log grows by exactly what the response calls for, and is not otherwise changed. |
| ContactsMigration.Migration.PostPage | contacts_migration.py:87-88 | Every contact of a page is uploaded once, in order: the sent bodies grow by exactly the page's mapped bodies. The log grows by their errors. |
| ContactsMigration.Migration.FetchContacts | contacts_migration.py:64-106 | Returns exactly the items of the fetch for its isActive filter. Its requests and sleeps are those of that fetch. The sent bodies grow by exactly the mapped bodies of the returned contacts, in order, and the log grows by exactly their errors. Upload failures never end the fetch. |
| ContactsMigration.Migration.FetchAllContacts | contacts_migration.py:108-132 | The results for isActive 0 and then 1, concatenated. The sent bodies grow by exactly their mapped bodies, in that order. The error file is written, with the whole log, exactly when the log is non-empty. |

## Left out

- HTTP itself is not modelled. `requests.get`/`requests.post`, JSON decoding and `raise_for_status` become abstract responses.
  - A response is a page, a timeout or another request failure. Bad JSON counts as a request failure: requests' JSONDecodeError is a RequestException.
  - The traces and oracles are parameters.
- Logging, `print`, `dotenv`, request headers and API keys are not modelled. `request_count` only feeds log lines.
- `time.sleep` is not real time. Sleeps are recorded as data: in `Fetched.sleeps` for the fetches, and as `Sleep` effects for the poster.
- File I/O (`json.load`, `json.dump`, `open`, `os.makedirs`) is not modelled.
  - The transformer's module-level snapshots become a parameter.
  - The result files are the methods' return values.
  - Writing the contacts error file becomes "Some(log) exactly when the log is non-empty".
  - The `try` around the contacts dump, and the outer handler's "cannot read the file" case, are not modelled.
- Termination is not claimed. A fetch only ends when the server stops sending links, so each fetch is bounded by the length of its trace. When the trace runs out, the ending is `TraceExhausted`.
- A `pageDetails` key that is present but null is not modelled. The script would then call `.get` on None, and the AttributeError ends the script. The model's page carries the link directly (`pageDetails.nextPageUrl`, or `nextLink` for Atera).
- Malformed 2xx bodies are not modelled. They are not RequestExceptions, so each escapes the fetch and ends the script. An `items` that is null makes `extend(None)` raise a TypeError (script1_tickets.py:52, fetch_resources.py:50, contacts_migration.py:85, fetch_atera_contacts.py:40). A JSON body that is not an object makes `data.get` raise an AttributeError. The model's page always carries a list of items.
- KeyErrors on keys the transformer indexes directly (`ticket['priority']`, `contact['firstName']`, `note['noteType']` and so on) are not modelled. Absent and null are both None.
- Ids are not modelled as arbitrary JSON. Every id is an `int`, so comparisons between ids of different JSON types cannot occur.
- ContactsMigration.ToAteraContact: an explicit null `primaryContact` is sent as null by the script. The model cannot tell null from absent and sends false for both.
- An exception from `requests.post` in `post_to_atera` that is not a RequestException is not modelled. It would end the script.
- `script2_tickets.py` is not part of this model. Its retries come from a decorator library whose behaviour is not visible here.

## Findings

| source | as written | input that shows it | evidently intended | confidence | as-written member | corrected member |
|---|---|---|---|---|---|---|
| script4_tickets.py:62 | After a 2xx comment POST, the success log reads `comment['Text']`, but the comments built by script3_tickets.py:82-85 only have `CommentText`. The KeyError is not a RequestException, so it reaches the outer `except Exception` (script4_tickets.py:95-96), and every remaining ticket is skipped. | Two tickets. The first is created and has one comment, and that comment's POST succeeds. The second ticket is never attempted. | A successful comment post only logs, and the loop goes on to the next comment and ticket. | not executed | TicketPoster.AcceptedCommentAbandonsRun | TicketPoster.EveryTicketAttempted |
