/** The ticket payload transformer of script3_tickets.py: joins one Autotask
    ticket with the reference snapshots (contacts, priorities, statuses,
    resources, Atera technicians, Atera end users) and builds the Atera ticket
    payload with its comments. The snapshots, which the script loads at
    module level, are passed in as one `References` value. */
module TicketPayloads {
  import opened Wrappers
  import opened Records

  /** An entry of the priority or status picklist. */
  datatype CodeName = CodeName(id: int, name: string)

  /** An Atera technician: its `$id` and `Email`. */
  datatype Technician = Technician(id: int, email: Option<string>)

  /** An Atera end user (contact): its `EndUserID` and `Email`. */
  datatype AteraEndUser = AteraEndUser(endUserId: int, email: Option<string>)

  /** A ticket note; noteType 1 is a comment. */
  datatype Note = Note(
    noteType: int,
    createDateTime: Option<string>,
    description: Option<string>,
    creatorResourceID: Option<int>,
    createdByContactID: Option<int>)

  /** A ticket with its notes attached (the output of the notes stage). */
  datatype Ticket = Ticket(
    title: Option<string>,
    description: Option<string>,
    priority: Option<int>,
    status: Option<int>,
    issueType: Option<int>,
    ticketType: Option<int>,
    contactID: Option<int>,
    assignedResourceID: Option<int>,
    notes: seq<Note>)

  /** The six snapshots the script loads before it transforms anything. */
  datatype References = References(
    contacts: seq<Contact>,
    priorities: seq<CodeName>,
    statuses: seq<CodeName>,
    resources: seq<Resource>,
    technicians: seq<Technician>,
    ateraContacts: seq<AteraEndUser>)

  /** The mapping get_end_user returns when it finds the contact; the empty
      mapping it returns otherwise is None. */
  datatype EndUser = EndUser(
    id: int,
    firstName: Option<string>,
    lastName: Option<string>,
    email: Option<string>)

  /** The mapping get_assigned_resource returns when it finds the resource. */
  datatype AssignedResource = AssignedResource(
    id: int,
    firstName: Option<string>,
    lastName: Option<string>,
    email: Option<string>)

  /** A comment carries exactly one of the two details keys. */
  datatype CommentDetails =
    | TechnicianCommentDetails(technicianId: Option<int>, isInternal: bool)
    | EnduserCommentDetails(enduserId: Option<int>)

  datatype Comment = Comment(
    timestampUtc: Option<string>,  // CommentTimestampUTC
    text: Option<string>,          // CommentText
    details: CommentDetails)

  /** The end user of a payload: either the Atera id alone, or the
      first name / last name / email triple. */
  datatype EndUserField =
    | EndUserById(id: int)
    | EndUserByName(firstName: Option<string>, lastName: Option<string>, email: Option<string>)

  datatype TicketPayload = TicketPayload(
    title: Option<string>,
    description: Option<string>,
    priority: string,
    impact: string,
    status: string,
    ticketType: string,
    technicianContactId: Option<int>,
    comments: seq<Comment>,
    endUser: EndUserField)

  // ---------------------------------------------------------------------
  // Picklist lookups with defaults

  /** The name of the first entry with that id, else `default`: the lookup
      shared by get_ticket_priority and get_ticket_status. */
  function NameById(list: seq<CodeName>, id: Option<int>, default: string): (name: string)
    ensures forall i | 0 <= i < |list| && Some(list[i].id) == id
                       && (forall j | 0 <= j < i :: Some(list[j].id) != id)
              :: name == list[i].name
    ensures (forall i | 0 <= i < |list| :: Some(list[i].id) != id) ==> name == default
  {
    match FirstIndex(list, (c: CodeName) => Some(c.id) == id)
    case Some(i) => list[i].name
    case None => default
  }

  /** get_ticket_priority: a listed priority's name, or "Low" when the id is not listed. */
  function TicketPriority(priorities: seq<CodeName>, priorityId: Option<int>): (name: string)
    ensures name == "Low" || exists i | 0 <= i < |priorities| :: name == priorities[i].name
    ensures (forall i | 0 <= i < |priorities| :: Some(priorities[i].id) != priorityId) ==> name == "Low"
  {
    NameById(priorities, priorityId, "Low")
  }

  /** get_ticket_status: a listed status's name, or "New" when the id is not listed. */
  function TicketStatus(statuses: seq<CodeName>, statusId: Option<int>): (name: string)
    ensures name == "New" || exists i | 0 <= i < |statuses| :: name == statuses[i].name
    ensures (forall i | 0 <= i < |statuses| :: Some(statuses[i].id) != statusId) ==> name == "New"
  {
    NameById(statuses, statusId, "New")
  }

  /** The impact names, indexed by issue type minus one. */
  const ImpactNames: seq<string> := ["NoImpact", "Minor", "Major", "Crisis", "SiteDown"]

  /** The ticket type names, indexed by ticket type minus one. */
  const TypeNames: seq<string> := ["Request", "Incident", "Problem", "Change"]

  /** get_ticket_impact: the fixed table for issue types 1..5, "Minor" for anything else. */
  function TicketImpact(issueType: Option<int>): (impact: string)
    ensures impact in ImpactNames
    ensures issueType.Some? && 1 <= issueType.value <= 5 ==> impact == ImpactNames[issueType.value - 1]
    ensures !(issueType.Some? && 1 <= issueType.value <= 5) ==> impact == "Minor"
  {
    match issueType
    case Some(1) => "NoImpact"
    case Some(2) => "Minor"
    case Some(3) => "Major"
    case Some(4) => "Crisis"
    case Some(5) => "SiteDown"
    case _ => "Minor"
  }

  /** get_ticket_type: the fixed table for ticket types 1..4, "Incident" for anything else. */
  function TicketType(ticketType: Option<int>): (name: string)
    ensures name in TypeNames
    ensures ticketType.Some? && 1 <= ticketType.value <= 4 ==> name == TypeNames[ticketType.value - 1]
    ensures !(ticketType.Some? && 1 <= ticketType.value <= 4) ==> name == "Incident"
  {
    match ticketType
    case Some(1) => "Request"
    case Some(2) => "Incident"
    case Some(3) => "Problem"
    case Some(4) => "Change"
    case _ => "Incident"
  }

  // ---------------------------------------------------------------------
  // Joins by id and by email

  /** get_end_user: the projection of the first contact with that id, or the empty mapping. */
  function EndUserOf(contacts: seq<Contact>, contactId: Option<int>): (u: Option<EndUser>)
    ensures u.None? <==> forall i | 0 <= i < |contacts| :: Some(contacts[i].id) != contactId
    ensures forall i | 0 <= i < |contacts| && Some(contacts[i].id) == contactId
                       && (forall j | 0 <= j < i :: Some(contacts[j].id) != contactId)
              :: u == Some(EndUser(contacts[i].id, contacts[i].firstName,
                                   contacts[i].lastName, contacts[i].emailAddress))
  {
    match FirstIndex(contacts, (c: Contact) => Some(c.id) == contactId)
    case Some(i) =>
      var c := contacts[i];
      Some(EndUser(c.id, c.firstName, c.lastName, c.emailAddress))
    case None => None
  }

  /** get_assigned_resource: the projection of the first resource with that id, or the empty mapping. */
  function AssignedResourceOf(resources: seq<Resource>, resourceId: Option<int>): (a: Option<AssignedResource>)
    ensures a.None? <==> forall i | 0 <= i < |resources| :: Some(resources[i].id) != resourceId
    ensures forall i | 0 <= i < |resources| && Some(resources[i].id) == resourceId
                       && (forall j | 0 <= j < i :: Some(resources[j].id) != resourceId)
              :: a == Some(AssignedResource(resources[i].id, resources[i].firstName,
                                            resources[i].lastName, resources[i].email))
  {
    match FirstIndex(resources, (r: Resource) => Some(r.id) == resourceId)
    case Some(i) =>
      var r := resources[i];
      Some(AssignedResource(r.id, r.firstName, r.lastName, r.email))
    case None => None
  }

  /** `.get("EndUserEmail")` on the result of get_end_user. */
  function EndUserEmail(u: Option<EndUser>): Option<string> {
    if u.Some? then u.value.email else None
  }

  /** `.get("resourceEmail")` on the result of get_assigned_resource. */
  function ResourceEmail(a: Option<AssignedResource>): Option<string> {
    if a.Some? then a.value.email else None
  }

  /** get_technician_id: the `$id` of the first technician whose `Email`
      equals the argument, else None; an absent email (None) equals a null one. */
  function TechnicianId(technicians: seq<Technician>, email: Option<string>): (id: Option<int>)
    ensures id.None? <==> forall i | 0 <= i < |technicians| :: technicians[i].email != email
    ensures forall i | 0 <= i < |technicians| && technicians[i].email == email
                       && (forall j | 0 <= j < i :: technicians[j].email != email)
              :: id == Some(technicians[i].id)
  {
    match FirstIndex(technicians, (t: Technician) => t.email == email)
    case Some(i) => Some(technicians[i].id)
    case None => None
  }

  /** get_enduser_id: the `EndUserID` of the first Atera contact whose
      `Email` equals the argument, else None; None equals a null email. */
  function EndUserId(ateraContacts: seq<AteraEndUser>, email: Option<string>): (id: Option<int>)
    ensures id.None? <==> forall i | 0 <= i < |ateraContacts| :: ateraContacts[i].email != email
    ensures forall i | 0 <= i < |ateraContacts| && ateraContacts[i].email == email
                       && (forall j | 0 <= j < i :: ateraContacts[j].email != email)
              :: id == Some(ateraContacts[i].endUserId)
  {
    match FirstIndex(ateraContacts, (e: AteraEndUser) => e.email == email)
    case Some(i) => Some(ateraContacts[i].endUserId)
    case None => None
  }

  // ---------------------------------------------------------------------
  // Comments

  predicate IsComment(n: Note) {
    n.noteType == 1
  }

  /** The comment built from one kept note. A null creatorResourceID takes the
      technician branch, keyed by the email of the contact that created the
      note; a non-null one takes the end-user branch, keyed by the email of
      that resource. */
  function ToComment(refs: References, n: Note): (c: Comment)
    ensures c.timestampUtc == n.createDateTime && c.text == n.description
    ensures c.details.TechnicianCommentDetails? <==> n.creatorResourceID.None?
    ensures c.details.TechnicianCommentDetails? ==>
      && !c.details.isInternal
      && c.details.technicianId
         == TechnicianId(refs.technicians, EndUserEmail(EndUserOf(refs.contacts, n.createdByContactID)))
    ensures c.details.EnduserCommentDetails? ==>
      c.details.enduserId
      == EndUserId(refs.ateraContacts, ResourceEmail(AssignedResourceOf(refs.resources, n.creatorResourceID)))
  {
    var details :=
      if n.creatorResourceID.None? then
        TechnicianCommentDetails(
          TechnicianId(refs.technicians, EndUserEmail(EndUserOf(refs.contacts, n.createdByContactID))),
          false)
      else
        EnduserCommentDetails(
          EndUserId(refs.ateraContacts, ResourceEmail(AssignedResourceOf(refs.resources, n.creatorResourceID))));
    Comment(n.createDateTime, n.description, details)
  }

  /** get_ticket_comments: the loop that appends one comment per kept note. */
  function TicketComments(refs: References, notes: seq<Note>): (comments: seq<Comment>)
    ensures |comments| <= |notes|
    decreases |notes|
  {
    if notes == [] then []
    else
      var last := notes[|notes| - 1];
      TicketComments(refs, notes[..|notes| - 1]) + (if IsComment(last) then [ToComment(refs, last)] else [])
  }

  /** The notes that are comments, in their original order: the reference
      definition against which TicketComments is checked. */
  function CommentNotes(notes: seq<Note>): seq<Note> {
    if notes == [] then []
    else (if IsComment(notes[0]) then [notes[0]] else []) + CommentNotes(notes[1..])
  }

  /** Keeping comment notes distributes over concatenation: relative order is kept. */
  lemma {:induction false} CommentNotesAppend(a: seq<Note>, b: seq<Note>)
    ensures CommentNotes(a + b) == CommentNotes(a) + CommentNotes(b)
    decreases |a|
  {
    if a != [] {
      assert (a + b)[0] == a[0];
      assert (a + b)[1..] == a[1..] + b;
      CommentNotesAppend(a[1..], b);
    } else {
      assert a + b == b;
    }
  }

  /** CommentNotes keeps every note of type 1, as often as it occurs, and no other note. */
  lemma {:induction false} CommentNotesExactly(notes: seq<Note>)
    ensures forall n :: multiset(CommentNotes(notes))[n] == if IsComment(n) then multiset(notes)[n] else 0
    decreases |notes|
  {
    if notes != [] {
      CommentNotesExactly(notes[1..]);
      assert notes == [notes[0]] + notes[1..];
      assert multiset(notes) == multiset{notes[0]} + multiset(notes[1..]);
    }
  }

  /** Element k of the comments is the comment built from the k-th comment note. */
  lemma {:induction false} TicketCommentsFromCommentNotes(refs: References, notes: seq<Note>)
    ensures |TicketComments(refs, notes)| == |CommentNotes(notes)|
    ensures forall k | 0 <= k < |CommentNotes(notes)| ::
      TicketComments(refs, notes)[k] == ToComment(refs, CommentNotes(notes)[k])
    decreases |notes|
  {
    if notes != [] {
      var init, last := notes[..|notes| - 1], notes[|notes| - 1];
      TicketCommentsFromCommentNotes(refs, init);
      assert notes == init + [last];
      CommentNotesAppend(init, [last]);
      var tail := if IsComment(last) then [last] else [];
      assert CommentNotes([last]) == tail + CommentNotes([]);
      var before, comments := TicketComments(refs, init), TicketComments(refs, notes);
      assert comments == before + (if IsComment(last) then [ToComment(refs, last)] else []);
      assert CommentNotes(notes) == CommentNotes(init) + tail;
      forall k | 0 <= k < |CommentNotes(notes)|
        ensures comments[k] == ToComment(refs, CommentNotes(notes)[k])
      {
        if k < |before| {
          assert comments[k] == before[k];
          assert CommentNotes(notes)[k] == CommentNotes(init)[k];
        }
      }
    }
  }

  /** Notes of types 1, 2, 1 give exactly two comments, in their original order. */
  lemma CommentsOfMixedNotes(refs: References, a: Note, b: Note, c: Note)
    requires a.noteType == 1 && b.noteType == 2 && c.noteType == 1
    ensures TicketComments(refs, [a, b, c]) == [ToComment(refs, a), ToComment(refs, c)]
  {
    assert [a][..0] == [];
    assert TicketComments(refs, [a]) == [ToComment(refs, a)];
    assert [a, b][..1] == [a];
    assert TicketComments(refs, [a, b]) == [ToComment(refs, a)];
    assert [a, b, c][..2] == [a, b];
  }

  // ---------------------------------------------------------------------
  // Payload

  /** The id `create_ticket_payload` tests with `if end_user_id:`. */
  function ResolvedEndUserId(refs: References, t: Ticket): Option<int> {
    EndUserId(refs.ateraContacts, EndUserEmail(EndUserOf(refs.contacts, t.contactID)))
  }

  /** create_ticket_payload. */
  function CreateTicketPayload(refs: References, t: Ticket): (p: TicketPayload)
    ensures p.endUser.EndUserById? <==> TruthyInt(ResolvedEndUserId(refs, t))
    ensures p.endUser.EndUserById? ==> Some(p.endUser.id) == ResolvedEndUserId(refs, t)
    ensures p.endUser.EndUserByName? ==>
      var u := EndUserOf(refs.contacts, t.contactID);
      && p.endUser.firstName == (if u.Some? then u.value.firstName else None)
      && p.endUser.lastName == (if u.Some? then u.value.lastName else None)
      && p.endUser.email == (if u.Some? then u.value.email else None)
  {
    var endUser := EndUserOf(refs.contacts, t.contactID);
    var resource := AssignedResourceOf(refs.resources, t.assignedResourceID);
    var endUserId := EndUserId(refs.ateraContacts, EndUserEmail(endUser));
    TicketPayload(
      t.title,
      t.description,
      TicketPriority(refs.priorities, t.priority),
      TicketImpact(t.issueType),
      TicketStatus(refs.statuses, t.status),
      TicketType(t.ticketType),
      TechnicianId(refs.technicians, ResourceEmail(resource)),
      TicketComments(refs, t.notes),
      if TruthyInt(endUserId) then EndUserById(endUserId.value)
      else if endUser.Some? then EndUserByName(endUser.value.firstName, endUser.value.lastName, endUser.value.email)
      else EndUserByName(None, None, None))
  }

  /** The payload's comments are exactly the comments built from the
      ticket's type-1 notes, in order. */
  lemma PayloadComments(refs: References, t: Ticket)
    ensures var p := CreateTicketPayload(refs, t);
            && |p.comments| == |CommentNotes(t.notes)|
            && forall k | 0 <= k < |p.comments| :: p.comments[k] == ToComment(refs, CommentNotes(t.notes)[k])
  {
    TicketCommentsFromCommentNotes(refs, t.notes);
  }

  /** TechnicianContactID is always there; it is null exactly when no Atera
      technician's email equals the assigned resource's email (which is
      None when the resource is not found), and otherwise it is the first
      such technician's id. */
  lemma PayloadTechnician(refs: References, t: Ticket)
    ensures var p := CreateTicketPayload(refs, t);
            var email := ResourceEmail(AssignedResourceOf(refs.resources, t.assignedResourceID));
            && (p.technicianContactId.None? <==> forall i | 0 <= i < |refs.technicians| :: refs.technicians[i].email != email)
            && forall i | 0 <= i < |refs.technicians| && refs.technicians[i].email == email
                          && (forall j | 0 <= j < i :: refs.technicians[j].email != email)
                 :: p.technicianContactId == Some(refs.technicians[i].id)
  {
  }

  /** The looked-up fields: the title and description are copied, and the
      priority, status, impact and type are what the four lookups give for
      the ticket's codes (first match or default, table entry or default). */
  lemma PayloadLookups(refs: References, t: Ticket)
    ensures var p := CreateTicketPayload(refs, t);
            && p.title == t.title && p.description == t.description
            && p.priority == TicketPriority(refs.priorities, t.priority)
            && p.status == TicketStatus(refs.statuses, t.status)
            && p.impact == TicketImpact(t.issueType)
            && p.ticketType == TicketType(t.ticketType)
  {
  }

  /** A ticket whose contact is unknown asks for the Atera end user with a
      null email: the first such end user with a non-zero id becomes the
      ticket's end user. */
  lemma {:induction false} UnknownContactTakesNullEmailEndUser(refs: References, t: Ticket, i: nat)
    requires EndUserOf(refs.contacts, t.contactID).None?
    requires i < |refs.ateraContacts| && refs.ateraContacts[i].email.None?
    requires forall j | 0 <= j < i :: refs.ateraContacts[j].email.Some?
    requires refs.ateraContacts[i].endUserId != 0
    ensures CreateTicketPayload(refs, t).endUser == EndUserById(refs.ateraContacts[i].endUserId)
  {
    assert EndUserEmail(EndUserOf(refs.contacts, t.contactID)) == None;
  }

  /** process_tickets: one payload per ticket, in input order. */
  method ProcessTickets(refs: References, tickets: seq<Ticket>) returns (payloads: seq<TicketPayload>)
    ensures |payloads| == |tickets|
    ensures forall i | 0 <= i < |tickets| :: payloads[i] == CreateTicketPayload(refs, tickets[i])
  {
    var payloadOf := t => CreateTicketPayload(refs, t);
    payloads := [];
    for i := 0 to |tickets|
      invariant payloads == MapSeq(payloadOf, tickets[..i])
    {
      assert tickets[..i + 1][..i] == tickets[..i];
      payloads := payloads + [payloadOf(tickets[i])];
    }
    assert tickets[..|tickets|] == tickets;
  }
}
