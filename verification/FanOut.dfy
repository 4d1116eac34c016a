// Who hears about a ticket event, by which channels, and under which mail job ids.
// Sources: apps/api/src/notifications/fan-out.ts,
// apps/api/src/notifications/notify.ts and apps/api/src/mail/mail.service.ts.

module FanOut {
  import opened LogOrder
  import opened Authorization
  import Members
  import JobIds
  import Text

  datatype Kind =
    | TICKET_RAISED_FOR_YOU | TICKET_CREATED | TICKET_ASSIGNED | COMMENT_INTERNAL | COMMENT_PUBLIC | STATUS_CHANGED
    | TICKET_REOPENED | CHANGE_AWAITING_APPROVAL | CHANGE_APPROVED | CHANGE_REJECTED | WATCHER_ADDED | SLA_WARNING | SLA_BREACHED

  /** A member who might be told; the kinds they turned email off for. */
  datatype Person = Person(reader: Reader, active: bool, noEmail: set<Kind>)
  {
    function Id(): nat {
      reader.id
    }
  }

  datatype Status = PENDING | RESOLVED | CLOSED | IMPLEMENTED | ROLLED_BACK | UnwordedStatus

  /** A comment that rides along: an internal note or not. */
  type Carried = Option<bool>

  datatype What =
    | TicketCreated
    | TicketAssigned(assignee: nat)
    | CommentAdded(internal: bool)
    | StatusChanged(to: Status, comment: Carried)
    | TicketReopened(comment: Carried)
    | ChangeSubmitted
    | ChangeDecided(approved: bool, comment: Carried)
    | WatcherAdded(member: nat)
    | Sla(breach: bool)

  /** No actor for the system. */
  datatype Event = Event(what: What, actor: Option<nat>)

  /** A snapshot of one ticket with everyone who may have to hear of it, taken as the event is handled. */
  datatype Circle = Circle(
    ticket: Ticket,
    visibility: Visibility,
    emailEnabled: bool,
    requester: Option<Person>,
    assignee: Option<Person>,
    teamMembers: seq<Person>,
    teamLeads: seq<Person>,
    watchers: seq<Person>,
    admins: seq<Person>
  )
  {
    /** The people are who the ticket's row names. */
    predicate Loaded() {
      && (requester.Some? ==> requester.value.Id() == ticket.requester)
      && (assignee.Some? ==> ticket.assignee == Some(assignee.value.Id()))
    }
  }

  datatype Delivery = Delivery(person: Person, kind: Kind, inApp: bool, email: bool)

  /** One call of `send`. */
  datatype Send = Send(people: seq<Person>, kind: Kind, inApp: bool, email: bool, includeActor: bool)

  function Both(people: seq<Person>, kind: Kind): Send {
    Send(people, kind, true, true, false)
  }

  function OneOrNone(p: Option<Person>): seq<Person> {
    if p.Some? then [p.value] else []
  }

  function CommentSend(c: Circle, internal: bool): Send {
    if internal then Both(OneOrNone(c.assignee), COMMENT_INTERNAL)
    else Both(OneOrNone(c.requester) + OneOrNone(c.assignee) + c.watchers, COMMENT_PUBLIC)
  }

  function CarriedSend(c: Circle, comment: Carried): seq<Send> {
    if comment.Some? then [CommentSend(c, comment.value)] else []
  }

  /** Approvers: neither the requester nor the assignee. */
  function Approvers(c: Circle, people: seq<Person>): (r: seq<Person>)
    ensures forall p :: p in r <==> p in people && p.Id() != c.ticket.requester && c.ticket.assignee != Some(p.Id())
  {
    if people == [] then []
    else if people[0].Id() != c.ticket.requester && c.ticket.assignee != Some(people[0].Id()) then
      [people[0]] + Approvers(c, people[1..])
    else Approvers(c, people[1..])
  }

  function Named(people: seq<Person>, id: nat): seq<Person> {
    if people == [] then []
    else if people[0].Id() == id then [people[0]]
    else Named(people[1..], id)
  }

  /** The calls of `send` an event makes, in order. */
  function SendsOf(e: Event, c: Circle): seq<Send> {
    match e.what
    case TicketCreated =>
      [if e.actor.Some? && e.actor.value != c.ticket.requester then Both(OneOrNone(c.requester), TICKET_RAISED_FOR_YOU)
       // The receipt: they are looking at the ticket, so email only.
       else Send(OneOrNone(c.requester), TICKET_CREATED, false, true, true),
       Send(c.teamMembers, TICKET_CREATED, true, false, false)]
    case TicketAssigned(id) => [Both(Named(OneOrNone(c.assignee), id), TICKET_ASSIGNED)]
    case CommentAdded(internal) => [CommentSend(c, internal)]
    case StatusChanged(to, comment) =>
      (if to.UnwordedStatus? then [] else [Both(OneOrNone(c.requester) + OneOrNone(c.assignee) + c.watchers, STATUS_CHANGED)]) +
      CarriedSend(c, comment)
    case TicketReopened(comment) => [Both(OneOrNone(c.assignee) + c.teamLeads, TICKET_REOPENED)] + CarriedSend(c, comment)
    case ChangeSubmitted => [Both(Approvers(c, c.teamLeads + c.admins), CHANGE_AWAITING_APPROVAL)]
    case ChangeDecided(approved, comment) =>
      [Both(OneOrNone(c.requester) + OneOrNone(c.assignee), if approved then CHANGE_APPROVED else CHANGE_REJECTED)] +
      CarriedSend(c, comment)
    case WatcherAdded(id) => [Both(Named(c.watchers, id), WATCHER_ADDED)]
    case Sla(breach) =>
      [Both(OneOrNone(c.assignee) + c.teamLeads + (if breach then c.admins else []), if breach then SLA_BREACHED else SLA_WARNING)]
  }

  /** `send` passes over those who left, and the actor unless the call includes them. */
  predicate Hears(e: Event, s: Send, p: Person) {
    p.active && (e.actor != Some(p.Id()) || s.includeActor)
  }

  function DeliveryOf(s: Send, p: Person): Delivery {
    Delivery(p, s.kind, s.inApp, s.email)
  }

  function Has(out: seq<Delivery>, id: nat): bool {
    exists d :: d in out && d.person.Id() == id
  }

  /** Each member's first delivery stands. */
  function Sent(e: Event, s: Send, people: seq<Person>, out: seq<Delivery>): seq<Delivery> {
    if people == [] then out
    else
      var p := people[0];
      Sent(e, s, people[1..], if Hears(e, s, p) && !Has(out, p.Id()) then out + [DeliveryOf(s, p)] else out)
  }

  function SentAll(e: Event, sends: seq<Send>, out: seq<Delivery>): seq<Delivery> {
    if sends == [] then out else SentAll(e, sends[1..], Sent(e, sends[0], sends[0].people, out))
  }

  function DeliveriesFor(e: Event, c: Circle): seq<Delivery> {
    SentAll(e, SendsOf(e, c), [])
  }

  // ---- First delivery wins ----

  predicate OnePerMember(out: seq<Delivery>) {
    forall i, j :: 0 <= i < j < |out| ==> out[i].person.Id() != out[j].person.Id()
  }

  /** Everyone the calls name who hears, as often as they are named. */
  function Heard(e: Event, s: Send, people: seq<Person>): seq<Delivery> {
    if people == [] then []
    else (if Hears(e, s, people[0]) then [DeliveryOf(s, people[0])] else []) + Heard(e, s, people[1..])
  }

  function HeardAll(e: Event, sends: seq<Send>): seq<Delivery> {
    if sends == [] then [] else Heard(e, sends[0], sends[0].people) + HeardAll(e, sends[1..])
  }

  /** The first of a list of deliveries for each member. */
  function Firsts(all: seq<Delivery>): seq<Delivery> {
    if all == [] then []
    else
      var before, last := Firsts(all[..|all| - 1]), all[|all| - 1];
      if Has(before, last.person.Id()) then before else before + [last]
  }

  lemma FirstsSnoc(all: seq<Delivery>, d: Delivery)
    ensures Firsts(all + [d]) == if Has(Firsts(all), d.person.Id()) then Firsts(all) else Firsts(all) + [d]
  {
    assert (all + [d])[..|all|] == all;
  }

  lemma {:induction false} SentIsFirsts(e: Event, s: Send, people: seq<Person>, all: seq<Delivery>)
    ensures Sent(e, s, people, Firsts(all)) == Firsts(all + Heard(e, s, people))
  {
    hide Firsts, Hears, Has;
    if people == [] {
      assert all + Heard(e, s, people) == all;
    } else {
      var p := people[0];
      if Hears(e, s, p) {
        FirstsSnoc(all, DeliveryOf(s, p));
        SentIsFirsts(e, s, people[1..], all + [DeliveryOf(s, p)]);
        assert all + Heard(e, s, people) == all + [DeliveryOf(s, p)] + Heard(e, s, people[1..]);
      } else {
        SentIsFirsts(e, s, people[1..], all);
        assert all + Heard(e, s, people) == all + Heard(e, s, people[1..]);
      }
    }
  }

  lemma {:induction false} SentAllIsFirsts(e: Event, sends: seq<Send>, all: seq<Delivery>)
    ensures SentAll(e, sends, Firsts(all)) == Firsts(all + HeardAll(e, sends))
  {
    hide Firsts, Heard, Sent;
    if sends == [] {
      assert all + HeardAll(e, sends) == all;
    } else {
      var now := Heard(e, sends[0], sends[0].people);
      SentIsFirsts(e, sends[0], sends[0].people, all);
      SentAllIsFirsts(e, sends[1..], all + now);
      assert all + HeardAll(e, sends) == all + now + HeardAll(e, sends[1..]);
    }
  }

  /** Where in a list a delivery is its member's first. */
  predicate IsFirst(all: seq<Delivery>, i: nat)
    requires i < |all|
  {
    forall j :: 0 <= j < i ==> all[j].person.Id() != all[i].person.Id()
  }

  lemma {:induction false} FirstsAre(all: seq<Delivery>)
    ensures OnePerMember(Firsts(all))
    ensures forall d :: d in Firsts(all) <==> exists i: nat :: i < |all| && all[i] == d && IsFirst(all, i)
    ensures forall d :: d in all ==> Has(Firsts(all), d.person.Id())
  {
    if all != [] {
      var less, last := all[..|all| - 1], all[|all| - 1];
      FirstsAre(less);
      assert all == less + [last];
      FirstsSnoc(less, last);
      forall i: nat | i < |less| ensures IsFirst(less, i) <==> IsFirst(all, i) {}
      assert IsFirst(all, |less|) <==> !Has(Firsts(less), last.person.Id()) by { LastIsFirst(less, last); }
      forall d | d in Firsts(all) ensures exists i: nat :: i < |all| && all[i] == d && IsFirst(all, i) {
        if d in Firsts(less) {
          var i: nat :| i < |less| && less[i] == d && IsFirst(less, i);
          assert all[i] == d && IsFirst(all, i);
        } else {
          assert all[|less|] == d;
        }
      }
    }
  }

  lemma LastIsFirst(less: seq<Delivery>, last: Delivery)
    requires forall d :: d in Firsts(less) <==> exists i: nat :: i < |less| && less[i] == d && IsFirst(less, i)
    requires forall d :: d in less ==> Has(Firsts(less), d.person.Id())
    ensures IsFirst(less + [last], |less|) <==> !Has(Firsts(less), last.person.Id())
  {
    var all := less + [last];
    if Has(Firsts(less), last.person.Id()) {
      var d :| d in Firsts(less) && d.person.Id() == last.person.Id();
      var i: nat :| i < |less| && less[i] == d && IsFirst(less, i);
      assert all[i].person.Id() == all[|less|].person.Id();
    } else {
      forall j | 0 <= j < |less| ensures all[j].person.Id() != all[|less|].person.Id() {
        assert less[j] in less;
      }
    }
  }

  /** Each member at most once, and by the first call that named them. */
  lemma FirstDeliveryWins(e: Event, c: Circle)
    ensures var all := HeardAll(e, SendsOf(e, c));
            && OnePerMember(DeliveriesFor(e, c))
            && (forall d :: d in DeliveriesFor(e, c) <==> exists i: nat :: i < |all| && all[i] == d && IsFirst(all, i))
            && (forall d :: d in all ==> Has(DeliveriesFor(e, c), d.person.Id()))
  {
    var sends := SendsOf(e, c);
    SentAllIsFirsts(e, sends, []);
    assert [] + HeardAll(e, sends) == HeardAll(e, sends);
    FirstsAre(HeardAll(e, sends));
  }

  // ---- Who never hears, and who alone does ----

  lemma {:induction false} HeardComesFrom(e: Event, s: Send, people: seq<Person>, d: Delivery)
    requires d in Heard(e, s, people)
    ensures d.person in people && Hears(e, s, d.person) && d == DeliveryOf(s, d.person)
  {
    if d !in (if Hears(e, s, people[0]) then [DeliveryOf(s, people[0])] else []) { HeardComesFrom(e, s, people[1..], d); }
  }

  lemma {:induction false} HeardAllComesFrom(e: Event, sends: seq<Send>, d: Delivery)
    requires d in HeardAll(e, sends)
    ensures exists s :: s in sends && d.person in s.people && Hears(e, s, d.person) && d == DeliveryOf(s, d.person)
  {
    if d in Heard(e, sends[0], sends[0].people) {
      HeardComesFrom(e, sends[0], sends[0].people, d);
    } else {
      HeardAllComesFrom(e, sends[1..], d);
    }
  }

  lemma DeliveryComesFrom(e: Event, c: Circle, d: Delivery) returns (s: Send)
    requires d in DeliveriesFor(e, c)
    ensures s in SendsOf(e, c) && d.person in s.people && Hears(e, s, d.person) && d == DeliveryOf(s, d.person)
  {
    FirstDeliveryWins(e, c);
    HeardAllComesFrom(e, SendsOf(e, c), d);
    s :| s in SendsOf(e, c) && d.person in s.people && Hears(e, s, d.person) && d == DeliveryOf(s, d.person);
  }

  /** Nobody who left hears, and the actor only by the receipt of their own ticket: by email, never in the inbox. */
  lemma ActorOnlyByReceipt(e: Event, c: Circle, d: Delivery)
    requires c.Loaded() && d in DeliveriesFor(e, c)
    ensures d.person.active
    ensures e.actor == Some(d.person.Id()) ==>
              e.what.TicketCreated? && d.person.Id() == c.ticket.requester && d.kind == TICKET_CREATED && d.email && !d.inApp
  {
    var s := DeliveryComesFrom(e, c, d);
    if e.actor == Some(d.person.Id()) {
      assert s.includeActor;
      OnlyTheReceiptIncludesTheActor(e, c, s);
    }
  }

  lemma OnlyTheReceiptIncludesTheActor(e: Event, c: Circle, s: Send)
    requires s in SendsOf(e, c) && s.includeActor
    ensures e.what.TicketCreated? && s == Send(OneOrNone(c.requester), TICKET_CREATED, false, true, true)
  {
  }

  /** An internal note's delivery goes to the assignee and nobody else. */
  lemma NotesReachTheAssigneeOnly(e: Event, c: Circle, d: Delivery)
    requires d in DeliveriesFor(e, c) && d.kind == COMMENT_INTERNAL
    ensures c.assignee == Some(d.person)
    ensures c.Loaded() ==> c.ticket.assignee == Some(d.person.Id())
  {
    var s := DeliveryComesFrom(e, c, d);
    OnlyNotesAreInternal(e, c, s);
  }

  lemma OnlyNotesAreInternal(e: Event, c: Circle, s: Send)
    requires s in SendsOf(e, c) && s.kind == COMMENT_INTERNAL
    ensures s.people == OneOrNone(c.assignee)
  {
  }

  /** An event that is an internal note tells nobody but the assignee anything. */
  lemma NoteEventsStayInternal(e: Event, c: Circle, d: Delivery)
    requires e.what == CommentAdded(true) && d in DeliveriesFor(e, c)
    ensures d.kind == COMMENT_INTERNAL && c.assignee == Some(d.person)
  {
    var s := DeliveryComesFrom(e, c, d);
  }

  // ---- Everyone who should hear, hears ----

  lemma {:induction false} HeardWhenNamed(e: Event, s: Send, people: seq<Person>, p: Person)
    requires p in people && Hears(e, s, p)
    ensures DeliveryOf(s, p) in Heard(e, s, people)
  {
    if people[0] != p { HeardWhenNamed(e, s, people[1..], p); }
  }

  lemma {:induction false} HeardAllWhenNamed(e: Event, sends: seq<Send>, s: Send, p: Person)
    requires s in sends && p in s.people && Hears(e, s, p)
    ensures DeliveryOf(s, p) in HeardAll(e, sends)
  {
    if sends[0] == s { HeardWhenNamed(e, s, s.people, p); } else { HeardAllWhenNamed(e, sends[1..], s, p); }
  }

  /** Whoever a call names and does not pass over gets a delivery, from it or from an earlier one. */
  lemma NamedIsTold(e: Event, c: Circle, s: Send, p: Person)
    requires s in SendsOf(e, c) && p in s.people && Hears(e, s, p)
    ensures Has(DeliveriesFor(e, c), p.Id())
  {
    HeardAllWhenNamed(e, SendsOf(e, c), s, p);
    FirstDeliveryWins(e, c);
    assert DeliveryOf(s, p).person.Id() == p.Id();
  }

  /** The thread: who follows what is said and done on a ticket. */
  predicate Follows(c: Circle, p: Person) {
    c.requester == Some(p) || c.assignee == Some(p) || p in c.watchers
  }

  /** A public reply, alone or with a move, and a move that has words for it: everyone who follows and is neither gone nor the actor. */
  lemma FollowersAreTold(e: Event, c: Circle, p: Person)
    requires Follows(c, p) && p.active && e.actor != Some(p.Id())
    requires || e.what == CommentAdded(false)
             || (e.what.StatusChanged? && (!e.what.to.UnwordedStatus? || e.what.comment == Some(false)))
             || (e.what.TicketReopened? && e.what.comment == Some(false))
             || (e.what.ChangeDecided? && e.what.comment == Some(false))
    ensures Has(DeliveriesFor(e, c), p.Id())
  {
    var people := OneOrNone(c.requester) + OneOrNone(c.assignee) + c.watchers;
    assert p in people;
    var s := if e.what.StatusChanged? && !e.what.to.UnwordedStatus? then Both(people, STATUS_CHANGED) else Both(people, COMMENT_PUBLIC);
    assert s in SendsOf(e, c);
    NamedIsTold(e, c, s, p);
  }

  /** And a reply or a move tells nobody else. */
  lemma OnlyFollowersAreTold(e: Event, c: Circle, d: Delivery)
    requires d in DeliveriesFor(e, c) && (e.what.CommentAdded? || e.what.StatusChanged?)
    ensures Follows(c, d.person)
  {
    hide SendsOf;
    var s := DeliveryComesFrom(e, c, d);
    ThreadSends(e, c, s);
  }

  lemma ThreadSends(e: Event, c: Circle, s: Send)
    requires s in SendsOf(e, c) && (e.what.CommentAdded? || e.what.StatusChanged?)
    ensures s.people == OneOrNone(c.assignee) || s.people == OneOrNone(c.requester) + OneOrNone(c.assignee) + c.watchers
  {
    hide Both;
    var thread := OneOrNone(c.requester) + OneOrNone(c.assignee) + c.watchers;
    assert Both(thread, STATUS_CHANGED).people == thread by { BothAre(thread, STATUS_CHANGED); }
    if e.what.StatusChanged? && e.what.comment.Some? {
      CommentPeople(c, e.what.comment.value);
    } else if e.what.CommentAdded? {
      CommentPeople(c, e.what.internal);
    }
  }

  lemma BothAre(people: seq<Person>, kind: Kind)
    ensures Both(people, kind).people == people
  {
  }

  lemma CommentPeople(c: Circle, internal: bool)
    ensures CommentSend(c, internal).people ==
            if internal then OneOrNone(c.assignee) else OneOrNone(c.requester) + OneOrNone(c.assignee) + c.watchers
  {
  }

  /** A change awaits the leads and the administrators who could decide it: never its requester, nor its assignee. */
  lemma ApproversAreTold(e: Event, c: Circle, p: Person)
    requires e.what.ChangeSubmitted? && p.active && e.actor != Some(p.Id())
    requires p in c.teamLeads || p in c.admins
    ensures c.ticket.requester != p.Id() && c.ticket.assignee != Some(p.Id()) ==> Has(DeliveriesFor(e, c), p.Id())
    ensures forall d :: d in DeliveriesFor(e, c) ==> d.person.Id() != c.ticket.requester && c.ticket.assignee != Some(d.person.Id())
  {
    var s := SendsOf(e, c)[0];
    if c.ticket.requester != p.Id() && c.ticket.assignee != Some(p.Id()) { NamedIsTold(e, c, s, p); }
    forall d | d in DeliveriesFor(e, c) ensures d.person.Id() != c.ticket.requester && c.ticket.assignee != Some(d.person.Id()) {
      var t := DeliveryComesFrom(e, c, d);
    }
  }

  /** A breach goes further than its warning: whoever is told of the one is told of the other, and the administrators too. */
  lemma BreachesEscalate(c: Circle, p: Person)
    requires p.active
    ensures Has(DeliveriesFor(Event(Sla(false), None), c), p.Id()) ==> Has(DeliveriesFor(Event(Sla(true), None), c), p.Id())
    ensures p in c.admins ==> Has(DeliveriesFor(Event(Sla(true), None), c), p.Id())
  {
    var warning, breach := Event(Sla(false), None), Event(Sla(true), None);
    var s := SendsOf(breach, c)[0];
    if Has(DeliveriesFor(warning, c), p.Id()) {
      var d :| d in DeliveriesFor(warning, c) && d.person.Id() == p.Id();
      var t := DeliveryComesFrom(warning, c, d);
      NamedIsTold(breach, c, s, d.person);
    }
    if p in c.admins { NamedIsTold(breach, c, s, p); }
  }

  // ---- Who is told what, and how: the whole table ----

  ghost predicate Leads(c: Circle, p: Person) {
    c.assignee == Some(p) || p in c.teamLeads
  }

  ghost predicate CommentTells(c: Circle, p: Person, internal: bool, kind: Kind) {
    if internal then c.assignee == Some(p) && kind == COMMENT_INTERNAL else Follows(c, p) && kind == COMMENT_PUBLIC
  }

  ghost predicate FirstNamed(people: seq<Person>, id: nat, p: Person) {
    exists i :: 0 <= i < |people| && people[i] == p && p.Id() == id && forall j :: 0 <= j < i ==> people[j].Id() != id
  }

  /** The requester raised the ticket themselves, or nobody did. */
  predicate OwnTicket(e: Event, c: Circle) {
    e.actor.None? || e.actor.value == c.ticket.requester
  }

  /** What an event has to say to someone: of itself, or, `after` that, to the team or of the comment it carries. */
  ghost predicate Tells(e: Event, c: Circle, after: bool, p: Person, kind: Kind, inApp: bool, email: bool) {
    match e.what
    case TicketCreated =>
      if after then p in c.teamMembers && kind == TICKET_CREATED && inApp && !email
      else c.requester == Some(p) && email && if OwnTicket(e, c) then kind == TICKET_CREATED && !inApp else kind == TICKET_RAISED_FOR_YOU && inApp
    case TicketAssigned(id) => !after && inApp && email && kind == TICKET_ASSIGNED && c.assignee == Some(p) && p.Id() == id
    case CommentAdded(internal) => !after && inApp && email && CommentTells(c, p, internal, kind)
    case StatusChanged(to, comment) =>
      && inApp && email
      && if after then comment.Some? && CommentTells(c, p, comment.value, kind)
         else !to.UnwordedStatus? && Follows(c, p) && kind == STATUS_CHANGED
    case TicketReopened(comment) =>
      && inApp && email
      && if after then comment.Some? && CommentTells(c, p, comment.value, kind) else Leads(c, p) && kind == TICKET_REOPENED
    case ChangeSubmitted =>
      && !after && inApp && email && kind == CHANGE_AWAITING_APPROVAL
      && (p in c.teamLeads || p in c.admins) && p.Id() != c.ticket.requester && c.ticket.assignee != Some(p.Id())
    case ChangeDecided(approved, comment) =>
      && inApp && email
      && if after then comment.Some? && CommentTells(c, p, comment.value, kind)
         else (c.requester == Some(p) || c.assignee == Some(p)) && kind == if approved then CHANGE_APPROVED else CHANGE_REJECTED
    case WatcherAdded(id) => !after && inApp && email && kind == WATCHER_ADDED && FirstNamed(c.watchers, id, p)
    case Sla(breach) =>
      && !after && inApp && email && kind == (if breach then SLA_BREACHED else SLA_WARNING)
      && (Leads(c, p) || (breach && p in c.admins))
  }

  /** Still here, and not the one who did it, but for the receipt of a ticket of their own. */
  predicate Listens(e: Event, c: Circle, after: bool, p: Person) {
    p.active && (e.actor == Some(p.Id()) ==> e.what.TicketCreated? && !after && OwnTicket(e, c))
  }

  lemma {:induction false} NamedIsFirst(people: seq<Person>, id: nat, p: Person)
    ensures p in Named(people, id) <==> FirstNamed(people, id, p)
  {
    if people != [] && people[0].Id() != id {
      NamedIsFirst(people[1..], id, p);
      if FirstNamed(people[1..], id, p) {
        var i :| 0 <= i < |people[1..]| && people[1..][i] == p && p.Id() == id && forall j :: 0 <= j < i ==> people[1..][j].Id() != id;
        forall j | 0 <= j < i + 1 ensures people[j].Id() != id { if j > 0 { assert people[1..][j - 1].Id() != id; } }
        assert people[i + 1] == p;
      }
      if FirstNamed(people, id, p) {
        var i :| 0 <= i < |people| && people[i] == p && p.Id() == id && forall j :: 0 <= j < i ==> people[j].Id() != id;
        forall j | 0 <= j < i - 1 ensures people[1..][j].Id() != id { assert people[j + 1].Id() != id; }
        assert people[1..][i - 1] == p;
      }
    } else if people != [] {
      if p == people[0] { assert FirstNamed(people, id, p); }
    }
  }

  /** The event's own call, and the one after it. */
  function CallOf(e: Event, c: Circle, after: bool): Option<Send> {
    var sends := SendsOf(e, c);
    var alone := e.what.StatusChanged? && e.what.to.UnwordedStatus?;
    var i := if after && !alone then 1 else 0;
    if i < |sends| && (after || !alone) then Some(sends[i]) else None
  }

  lemma CommentTold(c: Circle, p: Person, internal: bool)
    ensures var s := CommentSend(c, internal); (p in s.people <==> CommentTells(c, p, internal, s.kind)) && s.inApp && s.email && !s.includeActor
    ensures p in OneOrNone(c.requester) + OneOrNone(c.assignee) + c.watchers <==> Follows(c, p)
  {
  }

  lemma CallTells(e: Event, c: Circle, after: bool, p: Person)
    ensures var s := CallOf(e, c, after);
            && (s.Some? && p in s.value.people ==> Tells(e, c, after, p, s.value.kind, s.value.inApp, s.value.email))
            && (s.Some? && p in s.value.people ==> (Hears(e, s.value, p) <==> Listens(e, c, after, p)))
  {
    hide CommentSend, CommentTells, Named, FirstNamed, Approvers;
    CommentTold(c, p, true);
    CommentTold(c, p, false);
    match e.what {
      case TicketCreated =>
      case TicketAssigned(_) => AssigneeNamed(c, e.what.assignee, p);
      case CommentAdded(_) =>
      case StatusChanged(_, _) =>
      case TicketReopened(_) =>
      case ChangeSubmitted => assert p in Approvers(c, c.teamLeads + c.admins) ==> p in c.teamLeads + c.admins;
      case ChangeDecided(_, _) =>
      case WatcherAdded(_) => NamedIsFirst(c.watchers, e.what.member, p);
      case Sla(_) =>
    }
  }

  lemma AssigneeNamed(c: Circle, id: nat, p: Person)
    ensures p in Named(OneOrNone(c.assignee), id) <==> c.assignee == Some(p) && p.Id() == id
  {
  }

  lemma TellingCalls(e: Event, c: Circle, after: bool, p: Person, kind: Kind, inApp: bool, email: bool)
    requires Tells(e, c, after, p, kind, inApp, email)
    ensures var s := CallOf(e, c, after); s.Some? && p in s.value.people && s.value in SendsOf(e, c)
  {
    if e.what.WatcherAdded? { NamedIsFirst(c.watchers, e.what.member, p); }
  }

  lemma CallsAre(e: Event, c: Circle, s: Send)
    ensures s in SendsOf(e, c) <==> CallOf(e, c, false) == Some(s) || CallOf(e, c, true) == Some(s)
    ensures CallOf(e, c, true).Some? && CallOf(e, c, false).Some? ==> SendsOf(e, c) == [CallOf(e, c, false).value, CallOf(e, c, true).value]
  {
    hide Both, CommentSend, Named, Approvers;
  }

  /** Whoever the event has something to say to, and who listens, is told. */
  lemma ListenersAreTold(e: Event, c: Circle, after: bool, p: Person, kind: Kind, inApp: bool, email: bool)
    requires Tells(e, c, after, p, kind, inApp, email) && Listens(e, c, after, p)
    ensures Has(DeliveriesFor(e, c), p.Id())
  {
    hide Tells, CallOf, Hears, Listens, SendsOf, DeliveriesFor, Has;
    TellingCalls(e, c, after, p, kind, inApp, email);
    CallTells(e, c, after, p);
    NamedIsTold(e, c, CallOf(e, c, after).value, p);
  }

  /** Of two calls, the second reaches only those the first did not. */
  lemma FirstCallFirst(e: Event, c: Circle, a: Send, b: Send, d: Delivery)
    requires SendsOf(e, c) == [a, b] && d in DeliveriesFor(e, c)
    ensures (d.person in a.people && Hears(e, a, d.person) && d == DeliveryOf(a, d.person)) ||
            forall p :: p in a.people && Hears(e, a, p) ==> p.Id() != d.person.Id()
  {
    hide SendsOf, DeliveriesFor, Hears;
    FirstDeliveryWins(e, c);
    var first, all := Heard(e, a, a.people), HeardAll(e, [a, b]);
    assert all == first + HeardAll(e, [b]) by { assert [a, b][1..] == [b]; }
    var i: nat :| i < |all| && all[i] == d && IsFirst(all, i);
    if i < |first| {
      assert d in first;
      HeardComesFrom(e, a, a.people, d);
    } else {
      forall p | p in a.people && Hears(e, a, p) ensures p.Id() != d.person.Id() {
        HeardWhenNamed(e, a, a.people, p);
        var j :| 0 <= j < |first| && first[j] == DeliveryOf(a, p);
        assert all[j] == first[j];
      }
    }
  }

  /**
   * Every delivery is something the event has to say to a listener: of itself
   * whenever it has that to say to them, and only otherwise what comes after it.
   */
  lemma DeliveriesAreTold(e: Event, c: Circle, d: Delivery) returns (after: bool)
    requires d in DeliveriesFor(e, c)
    ensures Tells(e, c, after, d.person, d.kind, d.inApp, d.email) && Listens(e, c, after, d.person)
    ensures after ==> forall p, kind, inApp, email ::
              Tells(e, c, false, p, kind, inApp, email) && Listens(e, c, false, p) ==> p.Id() != d.person.Id()
  {
    hide Tells, CallOf, Hears, Listens, SendsOf, DeliveriesFor;
    var s := DeliveryComesFrom(e, c, d);
    CallsAre(e, c, s);
    after := CallOf(e, c, false) != Some(s);
    if after && CallOf(e, c, false).Some? {
      var a, b := CallOf(e, c, false).value, CallOf(e, c, true).value;
      FirstCallFirst(e, c, a, b, d);
      after := !(d.person in a.people && Hears(e, a, d.person) && d == DeliveryOf(a, d.person));
    }
    CallTells(e, c, after, d.person);
    if after {
      forall p, kind, inApp, email | Tells(e, c, false, p, kind, inApp, email) && Listens(e, c, false, p) ensures p.Id() != d.person.Id() {
        TellingCalls(e, c, false, p, kind, inApp, email);
        CallTells(e, c, false, p);
      }
    }
  }

  // ---- Only those who could open it ----

  predicate Audience(c: Circle, d: Delivery) {
    MayRead(d.person.reader, c.ticket, c.visibility, d.kind == COMMENT_INTERNAL)
  }

  function Kept(c: Circle, out: seq<Delivery>): (r: seq<Delivery>)
    ensures forall d :: d in r <==> d in out && MayRead(d.person.reader, c.ticket, c.visibility, d.kind == COMMENT_INTERNAL)
  {
    if out == [] then []
    else
      var before, last := Kept(c, out[..|out| - 1]), out[|out| - 1];
      assert out == out[..|out| - 1] + [last];
      if Audience(c, last) then before + [last] else before
  }

  lemma {:induction false} KeptOnce(c: Circle, out: seq<Delivery>)
    requires OnePerMember(out)
    ensures OnePerMember(Kept(c, out))
  {
    if out != [] {
      var less, last := out[..|out| - 1], out[|out| - 1];
      KeptOnce(c, less);
      forall d | d in Kept(c, less) ensures d.person.Id() != last.person.Id() {
        var i :| 0 <= i < |less| && less[i] == d;
        assert out[i] == d;
      }
    }
  }

  function Told(e: Event, c: Circle): seq<Delivery> {
    Kept(c, DeliveriesFor(e, c))
  }

  /** Whoever is told finds the ticket in their own list, and a note reaches only an assignee who may read notes. */
  lemma ToldMayRead(e: Event, c: Circle, d: Delivery)
    requires d in Told(e, c)
    ensures OnePerMember(Told(e, c))
    ensures Listed(ScopeFor(ActorOf(d.person.reader), c.visibility), c.ticket)
    ensures d.kind == COMMENT_INTERNAL ==> c.assignee == Some(d.person) && d.person.reader.hasAccount && d.person.reader.role != Members.REQUESTER
  {
    FirstDeliveryWins(e, c);
    KeptOnce(c, DeliveriesFor(e, c));
    ToldIsListed(d.person.reader, c.ticket, c.visibility);
    if d.kind == COMMENT_INTERNAL {
      NotesReachTheAssigneeOnly(e, c, d);
      InternalReaders(d.person.reader, c.ticket, c.visibility);
    }
  }

  // ---- Mail ----

  datatype Mailing = Mailing(person: Person, kind: Kind, entity: string)

  /** The members whose inbox row is new. */
  type NewRows = set<nat>

  predicate Mailed(c: Circle, d: Delivery, inserted: NewRows) {
    && c.emailEnabled && d.email && d.kind !in d.person.noEmail
    && (d.inApp && d.person.reader.hasAccount ==> d.person.Id() in inserted)
  }

  /** An event's and a member's ids as text: UUIDs, all of one length, with neither a slash nor a colon. */
  ghost predicate Uuids(uuid: nat -> string) {
    forall i, j :: JobIds.Plain(uuid(i)) && |uuid(i)| == |uuid(j)| && (uuid(i) == uuid(j) ==> i == j)
  }

  function EntityOf(uuid: nat -> string, event: nat, member: nat): string {
    uuid(event) + "-" + uuid(member)
  }

  function MailingsFor(uuid: nat -> string, event: nat, c: Circle, out: seq<Delivery>, inserted: NewRows): (r: seq<Mailing>)
    ensures forall m :: m in r <==> exists d ::
              && d in out && c.emailEnabled && d.email && d.kind !in d.person.noEmail
              && (d.inApp && d.person.reader.hasAccount ==> d.person.Id() in inserted)
              && m == Mailing(d.person, d.kind, EntityOf(uuid, event, d.person.Id()))
  {
    if out == [] then []
    else
      var before, last := MailingsFor(uuid, event, c, out[..|out| - 1], inserted), out[|out| - 1];
      assert out == out[..|out| - 1] + [last];
      if Mailed(c, last, inserted) then before + [Mailing(last.person, last.kind, EntityOf(uuid, event, last.person.Id()))] else before
  }

  const MAIL_QUEUE: string := "mail"
  const TICKET_NOTIFICATION: string := "ticket-notification"

  function MailJob(org: string, m: Mailing): JobIds.JobId {
    JobIds.JobIdOf(MAIL_QUEUE, Some(org), m.entity, TICKET_NOTIFICATION)
  }

  /** Events and members are told apart by their place in the entity. */
  lemma SameEntityIff(uuid: nat -> string, e: nat, m: nat, e': nat, m': nat)
    requires Uuids(uuid)
    ensures JobIds.Plain(EntityOf(uuid, e, m))
    ensures EntityOf(uuid, e, m) == EntityOf(uuid, e', m') <==> e == e' && m == m'
  {
    var a, b := EntityOf(uuid, e, m), EntityOf(uuid, e', m');
    assert |uuid(e)| == |uuid(e')|;
    assert a[..|uuid(e)|] == uuid(e) && a[|uuid(e)| + 1..] == uuid(m);
    assert b[..|uuid(e)|] == uuid(e') && b[|uuid(e)| + 1..] == uuid(m');
    assert JobIds.Plain(uuid(e)) && JobIds.Plain(uuid(m));
  }

  /**
   * Any two runs, of any two events, in any two tenants, whatever the circles had
   * become: two mails share a job exactly when they are the same event's to the
   * same member of the same tenant. A run again can queue nothing twice.
   */
  lemma SameMailJobIff(uuid: nat -> string, org: string, event: nat, c: Circle, out: seq<Delivery>, inserted: NewRows, m: Mailing,
                       org': string, event': nat, c': Circle, out': seq<Delivery>, inserted': NewRows, m': Mailing)
    requires Uuids(uuid) && m in MailingsFor(uuid, event, c, out, inserted) && m' in MailingsFor(uuid, event', c', out', inserted')
    ensures MailJob(org, m).Id? && MailJob(org', m').Id?
    ensures MailJob(org, m) == MailJob(org', m') <==> org == org' && event == event' && m.person.Id() == m'.person.Id()
  {
    hide Uuids, JobIds.Plain, EntityOf;
    SameEntityIff(uuid, event, m.person.Id(), event', m'.person.Id());
    SameEntityIff(uuid, event', m'.person.Id(), event, m.person.Id());
    QueueIsPlain();
    IdsExist(org, m.entity);
    IdsExist(org', m'.entity);
    JobIds.SameIdIff(MAIL_QUEUE, Some(org), m.entity, TICKET_NOTIFICATION, MAIL_QUEUE, Some(org'), m'.entity, TICKET_NOTIFICATION);
  }

  lemma QueueIsPlain()
    ensures JobIds.Plain(MAIL_QUEUE) && JobIds.Plain(TICKET_NOTIFICATION)
  {
  }

  lemma IdsExist(org: string, entity: string)
    requires JobIds.Plain(entity) && JobIds.Plain(MAIL_QUEUE) && JobIds.Plain(TICKET_NOTIFICATION)
    ensures JobIds.JobIdOf(MAIL_QUEUE, Some(org), entity, TICKET_NOTIFICATION).Id?
  {
  }

  // ---- The code ----

  /** What `deliveriesFor` fills: each member's delivery, in the order they were first named. */
  class FanOut {
    var out: seq<Delivery>

    constructor ()
      ensures out == []
    {
      out := [];
    }

    method SendTo(e: Event, s: Send)
      modifies this
      ensures out == Sent(e, s, s.people, old(out))
    {
      for i := 0 to |s.people|
        invariant Sent(e, s, s.people[i..], out) == Sent(e, s, s.people, old(out))
      {
        var p := s.people[i];
        assert s.people[i..][0] == p && s.people[i..][1..] == s.people[i + 1..];
        if Hears(e, s, p) && !Has(out, p.Id()) {
          out := out + [DeliveryOf(s, p)];
        }
      }
    }

    /** Each member who should hear, once, as the first call that named them has it. */
    method Deliver(e: Event, c: Circle)
      requires out == []
      modifies this
      ensures out == DeliveriesFor(e, c)
      ensures OnePerMember(out) && forall d :: d in out ==> d.person.active
    {
      var sends := SendsOf(e, c);
      for i := 0 to |sends|
        invariant SentAll(e, sends[i..], out) == SentAll(e, sends, [])
      {
        assert sends[i..][0] == sends[i] && sends[i..][1..] == sends[i + 1..];
        SendTo(e, sends[i]);
      }
      FirstDeliveryWins(e, c);
      forall d | d in out ensures d.person.active {
        var s := DeliveryComesFrom(e, c, d);
      }
    }
  }
}
