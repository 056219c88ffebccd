// Erasing a person from the calendar tables: the events they organized go with everything that hangs
// on them, and so does their attendance elsewhere. The tables refer to each other; what is left must
// still refer only to what is there.
module CalendarErasure {
  import opened Common

  type Id = nat
  type Address = nat
  type Account = nat

  datatype Event = Event(calendar: Id, organizer: Address, createdBy: Option<Account>)
  datatype Attendee = Attendee(event: Id, address: Option<Address>, calendar: Option<Id>)
  datatype Guest = Guest(attendee: Id, invitation: Id)
  datatype Ticket = Ticket(attendee: Id, occurrence: Id)
  datatype Reminder = Reminder(event: Id, attendee: Option<Id>, owner: Option<Address>)
  datatype Recipient = ToAttendee(id: Id) | ToOwner(address: Address)
  datatype Delivery = Delivery(event: Id, occurrence: Option<Id>, recipient: Recipient, account: Option<Account>)

  datatype Tables = Tables(
    calendars: map<Id, Option<Address>>,   // a group's calendar has no owner
    events: map<Id, Event>,
    occurrences: map<Id, Id>,              // the event of each
    overrides: set<Id>,                    // by occurrence
    attendees: map<Id, Attendee>,
    answers: set<(Id, Id)>,                // event_occurrence_attendees: occurrence, attendee
    tokens: map<Id, Id>,                   // the attendee of each
    challenges: map<Id, Guest>,
    sessions: map<Id, Guest>,
    tickets: map<Id, Ticket>,
    reminders: map<Id, Reminder>,
    outbox: map<Id, Delivery>)

  // ---- what must hold of the tables -------------------------------------------------------------

  ghost predicate EventsFit(t: Tables) {
    && (forall e :: e in t.events ==> t.events[e].calendar in t.calendars)
    && (forall o :: o in t.occurrences ==> t.occurrences[o] in t.events)
    && (forall o :: o in t.overrides ==> o in t.occurrences)
    && (forall d :: d in t.outbox ==> t.outbox[d].event in t.events)
  }

  ghost predicate AttendeesFit(t: Tables) {
    && (forall a :: a in t.attendees ==> t.attendees[a].event in t.events)
    && (forall x :: x in t.answers ==> x.0 in t.occurrences && x.1 in t.attendees)
    && (forall k :: k in t.tickets ==> t.tickets[k].attendee in t.attendees && t.tickets[k].occurrence in t.occurrences)
    && (forall r :: r in t.reminders ==> t.reminders[r].event in t.events)
    && (forall r :: r in t.reminders && t.reminders[r].attendee.Some? ==> t.reminders[r].attendee.value in t.attendees)
  }

  // A guest's challenge and session come from an invitation of the same attendee.
  ghost predicate GuestFits(t: Tables, g: Guest) {
    g.attendee in t.attendees && g.invitation in t.tokens && t.tokens[g.invitation] == g.attendee
  }

  ghost predicate GuestsFit(t: Tables) {
    && (forall k :: k in t.tokens ==> t.tokens[k] in t.attendees)
    && (forall c :: c in t.challenges ==> GuestFits(t, t.challenges[c]))
    && (forall s :: s in t.sessions ==> GuestFits(t, t.sessions[s]))
  }

  // Every row refers to rows that exist.
  ghost predicate Integral(t: Tables) {
    EventsFit(t) && AttendeesFit(t) && GuestsFit(t)
  }

  // The calendar an attendee filed the event in.
  ghost predicate FiledInExisting(t: Tables) {
    forall a :: a in t.attendees && t.attendees[a].calendar.Some? ==> t.attendees[a].calendar.value in t.calendars
  }

  predicate Owned(t: Tables, c: Id, who: set<Address>) {
    c in t.calendars && t.calendars[c].Some? && t.calendars[c].value in who
  }

  predicate Theirs(t: Tables, e: Event, who: set<Address>, account: Account) {
    e.createdBy == Some(account) || e.organizer in who || Owned(t, e.calendar, who)
  }

  // Nothing of the person's own is left.
  ghost predicate NoTrace(t: Tables, who: set<Address>, account: Account) {
    && (forall e :: e in t.events ==> !Theirs(t, t.events[e], who, account))
    && (forall c :: c in t.calendars ==> !Owned(t, c, who))
    && (forall a :: a in t.attendees && t.attendees[a].address.Some? ==> t.attendees[a].address.value !in who)
    && (forall r :: r in t.reminders && t.reminders[r].owner.Some? ==> t.reminders[r].owner.value !in who)
    && (forall d :: d in t.outbox ==> t.outbox[d].account != Some(account))
  }

  ghost predicate Sub<V>(a: map<Id, V>, b: map<Id, V>) {
    forall k :: k in a ==> k in b && a[k] == b[k]
  }

  // Rows were only removed.
  ghost predicate Within(a: Tables, b: Tables) {
    && Sub(a.calendars, b.calendars) && Sub(a.events, b.events) && Sub(a.occurrences, b.occurrences) && a.overrides <= b.overrides
    && Sub(a.attendees, b.attendees) && a.answers <= b.answers && Sub(a.tokens, b.tokens) && Sub(a.challenges, b.challenges)
    && Sub(a.sessions, b.sessions) && Sub(a.tickets, b.tickets) && Sub(a.reminders, b.reminders) && Sub(a.outbox, b.outbox)
  }

  // ---- the erasure, statement by statement ------------------------------------------------------

  // DELETE FROM a table WHERE a column is one of `gone`.
  function ByValue(m: map<Id, Id>, gone: set<Id>): map<Id, Id> {
    map k | k in m && m[k] !in gone :: m[k]
  }

  function AnswersByAttendee(s: set<(Id, Id)>, gone: set<Id>): set<(Id, Id)> {
    set x | x in s && x.1 !in gone
  }

  function AnswersByOccurrence(s: set<(Id, Id)>, gone: set<Id>): set<(Id, Id)> {
    set x | x in s && x.0 !in gone
  }

  function GuestsByAttendee(m: map<Id, Guest>, gone: set<Id>): map<Id, Guest> {
    map k | k in m && m[k].attendee !in gone :: m[k]
  }

  function TicketsByAttendee(m: map<Id, Ticket>, gone: set<Id>): map<Id, Ticket> {
    map k | k in m && m[k].attendee !in gone :: m[k]
  }

  function TicketsByOccurrence(m: map<Id, Ticket>, gone: set<Id>): map<Id, Ticket> {
    map k | k in m && m[k].occurrence !in gone :: m[k]
  }

  predicate Among(o: Option<Id>, gone: set<Id>) {
    o.Some? && o.value in gone
  }

  function RemindersByAttendee(m: map<Id, Reminder>, gone: set<Id>): map<Id, Reminder> {
    map k | k in m && !Among(m[k].attendee, gone) :: m[k]
  }

  function RemindersByEvent(m: map<Id, Reminder>, gone: set<Id>): map<Id, Reminder> {
    map k | k in m && m[k].event !in gone :: m[k]
  }

  function RemindersByOwner(m: map<Id, Reminder>, who: set<Address>): map<Id, Reminder> {
    map k | k in m && !Among(m[k].owner, who) :: m[k]
  }

  function OutboxByEvent(m: map<Id, Delivery>, gone: set<Id>): map<Id, Delivery> {
    map k | k in m && m[k].event !in gone :: m[k]
  }

  function OutboxByAccount(m: map<Id, Delivery>, account: Account): map<Id, Delivery> {
    map k | k in m && m[k].account != Some(account) :: m[k]
  }

  function CalendarsByOwner(m: map<Id, Option<Address>>, who: set<Address>): map<Id, Option<Address>> {
    map k | k in m && !Among(m[k], who) :: m[k]
  }

  // DELETE ... WHERE attendee_id, from every table keyed by attendees, then the attendees.
  function DropAttendees(t: Tables, gone: set<Id>): Tables {
    t.(answers := AnswersByAttendee(t.answers, gone), tokens := ByValue(t.tokens, gone),
       challenges := GuestsByAttendee(t.challenges, gone), sessions := GuestsByAttendee(t.sessions, gone),
       tickets := TicketsByAttendee(t.tickets, gone), reminders := RemindersByAttendee(t.reminders, gone),
       attendees := t.attendees - gone)
  }

  // DELETE ... WHERE occurrence_id
  function DropAtOccurrences(t: Tables, gone: set<Id>): Tables {
    t.(overrides := t.overrides - gone, answers := AnswersByOccurrence(t.answers, gone), tickets := TicketsByOccurrence(t.tickets, gone))
  }

  function OccurrencesOf(t: Tables, events: set<Id>): set<Id> {
    set o | o in t.occurrences && t.occurrences[o] in events
  }

  // DELETE ... WHERE event_id, then the events.
  function DropAtEvents(t: Tables, gone: set<Id>): Tables {
    t.(occurrences := ByValue(t.occurrences, gone), reminders := RemindersByEvent(t.reminders, gone),
       outbox := OutboxByEvent(t.outbox, gone), events := t.events - gone)
  }

  function DropEvents(t: Tables, gone: set<Id>): Tables {
    DropAtEvents(DropAtOccurrences(t, OccurrencesOf(t, gone)), gone)
  }

  function DropOwned(t: Tables, who: set<Address>): Tables {
    t.(reminders := RemindersByOwner(t.reminders, who), calendars := CalendarsByOwner(t.calendars, who))
  }

  function DoomedEvents(t: Tables, who: set<Address>, account: Account): set<Id> {
    set e | e in t.events && Theirs(t, t.events[e], who, account)
  }

  function DoomedAttendees(t: Tables, who: set<Address>, account: Account): set<Id> {
    set a | a in t.attendees &&
      (Among(t.attendees[a].address, who) || t.attendees[a].event in DoomedEvents(t, who, account))
  }

  // The whole erasure.
  function Erased(t: Tables, who: set<Address>, account: Account): Tables {
    var events := DoomedEvents(t, who, account);
    var left := DropEvents(DropAttendees(t, DoomedAttendees(t, who, account)), events);
    DropOwned(left.(outbox := OutboxByAccount(left.outbox, account)), who)
  }

  // ---- what it achieves -------------------------------------------------------------------------

  // Which rows are left, table by table.
  lemma ErasedEvents(t: Tables, who: set<Address>, account: Account)
    ensures var x, events := Erased(t, who, account), DoomedEvents(t, who, account);
      && Sub(x.calendars, t.calendars) && (forall c :: c in x.calendars <==> c in t.calendars && !Owned(t, c, who))
      && Sub(x.events, t.events) && (forall e :: e in x.events <==> e in t.events && e !in events)
      && Sub(x.occurrences, t.occurrences) && (forall o :: o in x.occurrences <==> o in t.occurrences && t.occurrences[o] !in events)
      && (forall o :: o in x.overrides <==> o in t.overrides && !(o in t.occurrences && t.occurrences[o] in events))
      && Sub(x.outbox, t.outbox)
      && (forall d :: d in x.outbox <==> d in t.outbox && t.outbox[d].event !in events && t.outbox[d].account != Some(account))
  {
  }

  lemma SameOccurrences(t: Tables, people: set<Id>, events: set<Id>)
    ensures OccurrencesOf(DropAttendees(t, people), events) == OccurrencesOf(t, events)
  {
  }

  // The tables of attendees, and which of their rows are left.
  lemma ErasedTables(t: Tables, who: set<Address>, account: Account)
    ensures var x, events, people := Erased(t, who, account), DoomedEvents(t, who, account), DoomedAttendees(t, who, account);
      && x.attendees == t.attendees - people
      && x.answers == AnswersByOccurrence(AnswersByAttendee(t.answers, people), OccurrencesOf(t, events))
      && x.tickets == TicketsByOccurrence(TicketsByAttendee(t.tickets, people), OccurrencesOf(t, events))
      && x.reminders == RemindersByOwner(RemindersByEvent(RemindersByAttendee(t.reminders, people), events), who)
  {
    SameOccurrences(t, DoomedAttendees(t, who, account), DoomedEvents(t, who, account));
    hide DoomedEvents, DoomedAttendees, OccurrencesOf, AnswersByOccurrence, AnswersByAttendee, TicketsByAttendee, TicketsByOccurrence;
    hide RemindersByAttendee, RemindersByEvent, RemindersByOwner, OutboxByAccount, OutboxByEvent, ByValue, GuestsByAttendee, CalendarsByOwner;
  }

  lemma ErasedAttendees(t: Tables, who: set<Address>, account: Account)
    ensures var x, events, people := Erased(t, who, account), DoomedEvents(t, who, account), DoomedAttendees(t, who, account);
      && Sub(x.attendees, t.attendees) && (forall a :: a in x.attendees <==> a in t.attendees && a !in people)
      && (forall y :: y in x.answers <==> y in t.answers && y.1 !in people && !(y.0 in t.occurrences && t.occurrences[y.0] in events))
      && Sub(x.tickets, t.tickets)
      && (forall k :: k in x.tickets <==>
            k in t.tickets && t.tickets[k].attendee !in people
            && !(t.tickets[k].occurrence in t.occurrences && t.occurrences[t.tickets[k].occurrence] in events))
      && Sub(x.reminders, t.reminders)
      && (forall r :: r in x.reminders <==>
            r in t.reminders && t.reminders[r].event !in events
            && !(t.reminders[r].attendee.Some? && t.reminders[r].attendee.value in people)
            && !(t.reminders[r].owner.Some? && t.reminders[r].owner.value in who))
  {
    hide Erased, DoomedEvents, DoomedAttendees;
    ErasedTables(t, who, account);
  }

  lemma ErasedGuests(t: Tables, who: set<Address>, account: Account)
    ensures var x, people := Erased(t, who, account), DoomedAttendees(t, who, account);
      && Sub(x.tokens, t.tokens) && (forall k :: k in x.tokens <==> k in t.tokens && t.tokens[k] !in people)
      && Sub(x.challenges, t.challenges) && (forall k :: k in x.challenges <==> k in t.challenges && t.challenges[k].attendee !in people)
      && Sub(x.sessions, t.sessions) && (forall k :: k in x.sessions <==> k in t.sessions && t.sessions[k].attendee !in people)
  {
  }

  lemma EventsStillFit(t: Tables, who: set<Address>, account: Account)
    requires EventsFit(t)
    ensures EventsFit(Erased(t, who, account))
  {
    ErasedEvents(t, who, account);
    hide Erased;
  }

  lemma AttendeesStillFit(t: Tables, who: set<Address>, account: Account)
    requires EventsFit(t) && AttendeesFit(t)
    ensures AttendeesFit(Erased(t, who, account))
  {
    ErasedEvents(t, who, account);
    ErasedAttendees(t, who, account);
    hide Erased;
    var x := Erased(t, who, account);
    forall y | y in x.answers ensures y.0 in x.occurrences && y.1 in x.attendees {
      assert y in t.answers;
    }
  }

  lemma GuestsStillFit(t: Tables, who: set<Address>, account: Account)
    requires GuestsFit(t)
    ensures GuestsFit(Erased(t, who, account))
  {
    ErasedAttendees(t, who, account);
    ErasedGuests(t, who, account);
    hide Erased;
  }

  lemma NoTraceLeft(t: Tables, who: set<Address>, account: Account)
    requires EventsFit(t)
    ensures NoTrace(Erased(t, who, account), who, account)
  {
    ErasedEvents(t, who, account);
    ErasedAttendees(t, who, account);
    hide Erased;
    var x := Erased(t, who, account);
    forall e | e in x.events ensures !Theirs(x, x.events[e], who, account) {
      assert e !in DoomedEvents(t, who, account);
    }
  }

  // The person is gone and nothing refers to a row that went.
  lemma {:induction false} ErasureKeepsIntegrity(t: Tables, who: set<Address>, account: Account)
    requires Integral(t)
    ensures Integral(Erased(t, who, account)) && NoTrace(Erased(t, who, account), who, account)
    ensures Within(Erased(t, who, account), t)
  {
    EventsStillFit(t, who, account);
    AttendeesStillFit(t, who, account);
    GuestsStillFit(t, who, account);
    NoTraceLeft(t, who, account);
    ErasedEvents(t, who, account);
    ErasedAttendees(t, who, account);
    ErasedGuests(t, who, account);
    hide Erased, NoTrace, EventsFit, AttendeesFit, GuestsFit, Sub;
  }

  lemma KeptEventsStay(t: Tables, who: set<Address>, account: Account, kept: Tables)
    requires Within(kept, t) && EventsFit(kept) && NoTrace(kept, who, account)
    ensures forall e :: e in kept.events ==> e !in DoomedEvents(t, who, account)
    ensures AttendeesFit(kept) ==> forall a :: a in kept.attendees ==> a !in DoomedAttendees(t, who, account)
  {
    forall e | e in kept.events ensures e !in DoomedEvents(t, who, account) {
      assert !Theirs(kept, kept.events[e], who, account) && kept.events[e].calendar in kept.calendars;
    }
  }

  lemma KeepsTheseEvents(t: Tables, who: set<Address>, account: Account, kept: Tables)
    requires Within(kept, t) && EventsFit(kept) && NoTrace(kept, who, account)
    ensures var x := Erased(t, who, account);
            Sub(kept.calendars, x.calendars) && Sub(kept.events, x.events) && Sub(kept.occurrences, x.occurrences)
  {
    KeptEventsStay(t, who, account, kept);
    ErasedEvents(t, who, account);
    hide Erased, DoomedEvents, Theirs;
    forall c | c in kept.calendars ensures c in Erased(t, who, account).calendars {
      assert !Owned(kept, c, who);
    }
  }

  lemma KeepsTheseDeliveries(t: Tables, who: set<Address>, account: Account, kept: Tables)
    requires Within(kept, t) && EventsFit(kept) && NoTrace(kept, who, account)
    ensures kept.overrides <= Erased(t, who, account).overrides && Sub(kept.outbox, Erased(t, who, account).outbox)
  {
    KeptEventsStay(t, who, account, kept);
    ErasedEvents(t, who, account);
    hide Erased, DoomedEvents, Theirs, Owned;
    forall o | o in kept.overrides ensures o in Erased(t, who, account).overrides {
      assert o in kept.occurrences;
    }
  }

  lemma KeepsThesePeople(t: Tables, who: set<Address>, account: Account, kept: Tables)
    requires Within(kept, t) && EventsFit(kept) && AttendeesFit(kept) && NoTrace(kept, who, account)
    ensures var x := Erased(t, who, account);
            Sub(kept.attendees, x.attendees) && kept.answers <= x.answers && Sub(kept.tickets, x.tickets) && Sub(kept.reminders, x.reminders)
  {
    KeepsTheseAttendees(t, who, account, kept);
    KeepsTheseReminders(t, who, account, kept);
    hide Erased, Within, EventsFit, AttendeesFit, NoTrace;
  }

  lemma KeepsTheseAttendees(t: Tables, who: set<Address>, account: Account, kept: Tables)
    requires Within(kept, t) && EventsFit(kept) && AttendeesFit(kept) && NoTrace(kept, who, account)
    ensures var x := Erased(t, who, account);
            Sub(kept.attendees, x.attendees) && kept.answers <= x.answers && Sub(kept.tickets, x.tickets)
  {
    KeptEventsStay(t, who, account, kept);
    ErasedAttendees(t, who, account);
    hide Erased, DoomedEvents, DoomedAttendees, NoTrace;
  }

  lemma KeepsTheseReminders(t: Tables, who: set<Address>, account: Account, kept: Tables)
    requires Within(kept, t) && EventsFit(kept) && AttendeesFit(kept) && NoTrace(kept, who, account)
    ensures Sub(kept.reminders, Erased(t, who, account).reminders)
  {
    KeptEventsStay(t, who, account, kept);
    ErasedAttendees(t, who, account);
    hide Erased, DoomedEvents, DoomedAttendees;
  }

  lemma KeepsTheseGuests(t: Tables, who: set<Address>, account: Account, kept: Tables)
    requires Within(kept, t) && EventsFit(kept) && AttendeesFit(kept) && GuestsFit(kept) && NoTrace(kept, who, account)
    ensures var x := Erased(t, who, account);
            Sub(kept.tokens, x.tokens) && Sub(kept.challenges, x.challenges) && Sub(kept.sessions, x.sessions)
  {
    KeptEventsStay(t, who, account, kept);
    ErasedGuests(t, who, account);
    hide Erased, DoomedEvents, DoomedAttendees;
  }

  // And nothing went that could stay: of all ways to take rows out so that nothing of the person is
  // left and nothing refers to a missing row, the erasure keeps the most.
  lemma {:induction false} ErasureRemovesNoMore(t: Tables, who: set<Address>, account: Account, kept: Tables)
    requires Within(kept, t) && Integral(kept) && NoTrace(kept, who, account)
    ensures Within(kept, Erased(t, who, account))
  {
    KeepsTheseEvents(t, who, account, kept);
    KeepsTheseDeliveries(t, who, account, kept);
    KeepsThesePeople(t, who, account, kept);
    KeepsTheseGuests(t, who, account, kept);
    hide Erased, NoTrace, EventsFit, AttendeesFit, GuestsFit, Sub;
  }

  // One reference is not looked after: the calendar an attendee filed the event in. It survives the
  // erasure exactly when nobody else filed an event of somebody else in the person's calendar.
  lemma {:induction false} FilingKeptExactlyWhen(t: Tables, who: set<Address>, account: Account)
    requires FiledInExisting(t)
    ensures FiledInExisting(Erased(t, who, account)) <==>
              forall a :: a in t.attendees && t.attendees[a].calendar.Some? && Owned(t, t.attendees[a].calendar.value, who) ==>
                (t.attendees[a].address.Some? && t.attendees[a].address.value in who) || t.attendees[a].event in DoomedEvents(t, who, account)
  {
    ErasedEvents(t, who, account);
    ErasedAttendees(t, who, account);
    hide Erased;
    if FiledInExisting(Erased(t, who, account)) {
      forall a | a in t.attendees && t.attendees[a].calendar.Some? && Owned(t, t.attendees[a].calendar.value, who)
        ensures (t.attendees[a].address.Some? && t.attendees[a].address.value in who) || t.attendees[a].event in DoomedEvents(t, who, account)
      {
      }
    }
  }

  // The person of address 10 owns calendar 1; somebody else filed an event of organizer 20 in it.
  function Filed(): Tables {
    Tables(map[1 := Some(10), 2 := Some(20)], map[5 := Event(2, 20, None)], map[], {},
           map[7 := Attendee(5, Some(30), Some(1))], {}, map[], map[], map[], map[], map[], map[])
  }

  lemma FiledFits()
    ensures EventsFit(Filed()) && AttendeesFit(Filed()) && GuestsFit(Filed()) && FiledInExisting(Filed())
  {
  }

  lemma FiledByAnother()
    ensures var t := Filed();
            && 7 in t.attendees && t.attendees[7].calendar == Some(1) && Owned(t, 1, {10})
            && t.attendees[7].address == Some(30) && t.attendees[7].event !in DoomedEvents(t, {10}, 1)
  {
  }

  lemma FilingLost()
    ensures Integral(Filed()) && FiledInExisting(Filed())
    ensures Integral(Erased(Filed(), {10}, 1)) && !FiledInExisting(Erased(Filed(), {10}, 1))
  {
    hide Filed, Erased, EventsFit, AttendeesFit, GuestsFit, FiledInExisting, DoomedEvents, Owned, NoTrace, Within;
    FiledFits();
    FiledByAnother();
    ErasureKeepsIntegrity(Filed(), {10}, 1);
    FilingKeptExactlyWhen(Filed(), {10}, 1);
  }

  // Whether a queued delivery is still addressed to the person.
  predicate AddressedTo(t: Tables, d: Delivery, who: set<Address>) {
    match d.recipient
    case ToOwner(address) => address in who
    case ToAttendee(a) => a in t.attendees && t.attendees[a].address.Some? && t.attendees[a].address.value in who
  }

  // Queued deliveries go by event and by account, not by recipient: what another organizer queued for
  // the person stays. None is left exactly when there was none outside the person's own events.
  lemma {:induction false} DeliveriesToThemLeftExactlyWhen(t: Tables, who: set<Address>, account: Account)
    ensures (exists d :: d in Erased(t, who, account).outbox && AddressedTo(t, Erased(t, who, account).outbox[d], who)) <==>
            (exists d :: d in t.outbox && AddressedTo(t, t.outbox[d], who)
                         && t.outbox[d].event !in DoomedEvents(t, who, account) && t.outbox[d].account != Some(account))
  {
    ErasedEvents(t, who, account);
    hide Erased;
    if d :| d in t.outbox && AddressedTo(t, t.outbox[d], who) && t.outbox[d].event !in DoomedEvents(t, who, account) && t.outbox[d].account != Some(account) {
      assert d in Erased(t, who, account).outbox;
    }
  }

  // Organizer 20 invited the person of address 10, and the invitation is still queued.
  function Queued(): Tables {
    Tables(map[2 := Some(20)], map[5 := Event(2, 20, None)], map[], {}, map[7 := Attendee(5, Some(10), None)], {},
           map[], map[], map[], map[], map[], map[9 := Delivery(5, None, ToAttendee(7), None)])
  }

  lemma QueuedFits()
    ensures EventsFit(Queued()) && AttendeesFit(Queued()) && GuestsFit(Queued())
  {
  }

  lemma QueuedByAnother()
    ensures var t := Queued();
            && 9 in t.outbox && AddressedTo(t, t.outbox[9], {10}) && t.outbox[9].account == None
            && t.outbox[9].event !in DoomedEvents(t, {10}, 1)
  {
  }

  lemma DeliveryLeft()
    ensures Integral(Queued()) && NoTrace(Erased(Queued(), {10}, 1), {10}, 1)
    ensures exists d :: d in Erased(Queued(), {10}, 1).outbox && AddressedTo(Queued(), Erased(Queued(), {10}, 1).outbox[d], {10})
  {
    hide Queued, Erased, EventsFit, AttendeesFit, GuestsFit, DoomedEvents, AddressedTo, NoTrace, Within;
    QueuedFits();
    QueuedByAnother();
    ErasureKeepsIntegrity(Queued(), {10}, 1);
    DeliveriesToThemLeftExactlyWhen(Queued(), {10}, 1);
  }

  // ---- the erasure as it runs ---------------------------------------------------------------------

  // One attendee's rows can always go: what is left still refers only to what is there.
  lemma AttendeeCanGo(t: Tables, a: Id)
    requires Integral(t)
    ensures Integral(DropAttendees(t, {a}))
  {
  }

  predicate AttendedBy(t: Tables, e: Id) {
    exists a :: a in t.attendees && t.attendees[a].event == e
  }

  lemma EventDropped(t: Tables, e: Id)
    ensures var x := DropEvents(t, {e});
      && x.calendars == t.calendars && x.attendees == t.attendees && x.tokens == t.tokens
      && x.challenges == t.challenges && x.sessions == t.sessions
      && Sub(x.events, t.events) && (forall k :: k in x.events <==> k in t.events && k != e)
      && Sub(x.occurrences, t.occurrences) && (forall o :: o in x.occurrences <==> o in t.occurrences && t.occurrences[o] != e)
      && (forall o :: o in x.overrides ==> o in t.overrides && !(o in t.occurrences && t.occurrences[o] == e))
      && Sub(x.outbox, t.outbox) && (forall d :: d in x.outbox ==> t.outbox[d].event != e)
  {
  }

  lemma EventDroppedFor(t: Tables, e: Id)
    ensures var x := DropEvents(t, {e});
      && (forall y :: y in x.answers ==> y in t.answers && !(y.0 in t.occurrences && t.occurrences[y.0] == e))
      && Sub(x.tickets, t.tickets)
      && (forall k :: k in x.tickets ==> !(t.tickets[k].occurrence in t.occurrences && t.occurrences[t.tickets[k].occurrence] == e))
      && Sub(x.reminders, t.reminders) && (forall r :: r in x.reminders ==> t.reminders[r].event != e)
  {
  }

  // An event's rows can go exactly when its attendees have.
  lemma EventCanGoExactlyWhen(t: Tables, e: Id)
    requires Integral(t)
    ensures Integral(DropEvents(t, {e})) <==> !AttendedBy(t, e)
  {
    hide DropEvents, EventsFit, AttendeesFit, GuestsFit;
    EventsFitWithout(t, e);
    AttendeesFitWithout(t, e);
  }

  lemma EventsFitWithout(t: Tables, e: Id)
    requires EventsFit(t) && GuestsFit(t)
    ensures EventsFit(DropEvents(t, {e})) && GuestsFit(DropEvents(t, {e}))
  {
    hide DropEvents;
    EventDropped(t, e);
  }

  lemma AttendeesFitWithout(t: Tables, e: Id)
    requires AttendeesFit(t)
    ensures AttendeesFit(DropEvents(t, {e})) <==> !AttendedBy(t, e)
  {
    hide DropEvents;
    EventDropped(t, e);
    EventDroppedFor(t, e);
    if a :| a in t.attendees && t.attendees[a].event == e {
      assert !AttendeesFit(DropEvents(t, {e}));
    }
  }

  predicate Holding(t: Tables, who: set<Address>) {
    exists e :: e in t.events && Owned(t, t.events[e].calendar, who)
  }

  lemma OwnedDropped(t: Tables, who: set<Address>)
    ensures var x := DropOwned(t, who);
      && x == t.(calendars := x.calendars, reminders := x.reminders)
      && (forall c :: c in x.calendars <==> c in t.calendars && !Owned(t, c, who))
      && Sub(x.reminders, t.reminders)
  {
  }

  // An address's calendars can go exactly when no event is left in them.
  lemma CalendarsCanGoExactlyWhen(t: Tables, who: set<Address>)
    requires Integral(t)
    ensures Integral(DropOwned(t, who)) <==> !Holding(t, who)
  {
    hide DropOwned, Owned;
    OwnedDropped(t, who);
    assert AttendeesFit(DropOwned(t, who));
    assert GuestsFit(DropOwned(t, who));
    if e :| e in t.events && Owned(t, t.events[e].calendar, who) {
      assert !EventsFit(DropOwned(t, who));
    }
  }

  // Deleting for one key after another is deleting for all of them, table by table ...
  lemma AttendeeTablesTwice(t: Tables, a: set<Id>, b: set<Id>)
    ensures ByValue(ByValue(t.tokens, a), b) == ByValue(t.tokens, a + b)
    ensures AnswersByAttendee(AnswersByAttendee(t.answers, a), b) == AnswersByAttendee(t.answers, a + b)
    ensures TicketsByAttendee(TicketsByAttendee(t.tickets, a), b) == TicketsByAttendee(t.tickets, a + b)
    ensures RemindersByAttendee(RemindersByAttendee(t.reminders, a), b) == RemindersByAttendee(t.reminders, a + b)
    ensures t.attendees - a - b == t.attendees - (a + b)
  {
  }

  lemma GuestsTwice(m: map<Id, Guest>, a: set<Id>, b: set<Id>)
    ensures GuestsByAttendee(GuestsByAttendee(m, a), b) == GuestsByAttendee(m, a + b)
  {
  }

  // ... and all together.
  lemma DropAttendeesTwice(t: Tables, a: set<Id>, b: set<Id>)
    ensures DropAttendees(DropAttendees(t, a), b) == DropAttendees(t, a + b)
  {
    AttendeeTablesTwice(t, a, b);
    GuestsTwice(t.challenges, a, b);
    GuestsTwice(t.sessions, a, b);
    hide ByValue, AnswersByAttendee, TicketsByAttendee, RemindersByAttendee, GuestsByAttendee;
  }

  lemma DropAtOccurrencesTwice(t: Tables, a: set<Id>, b: set<Id>)
    ensures DropAtOccurrences(DropAtOccurrences(t, a), b) == DropAtOccurrences(t, a + b)
  {
    assert t.overrides - a - b == t.overrides - (a + b);
    assert AnswersByOccurrence(AnswersByOccurrence(t.answers, a), b) == AnswersByOccurrence(t.answers, a + b);
    assert TicketsByOccurrence(TicketsByOccurrence(t.tickets, a), b) == TicketsByOccurrence(t.tickets, a + b);
  }

  lemma DropAtEventsTwice(t: Tables, a: set<Id>, b: set<Id>)
    ensures DropAtEvents(DropAtEvents(t, a), b) == DropAtEvents(t, a + b)
  {
    assert ByValue(ByValue(t.occurrences, a), b) == ByValue(t.occurrences, a + b);
    assert RemindersByEvent(RemindersByEvent(t.reminders, a), b) == RemindersByEvent(t.reminders, a + b);
    assert OutboxByEvent(OutboxByEvent(t.outbox, a), b) == OutboxByEvent(t.outbox, a + b);
    assert t.events - a - b == t.events - (a + b);
  }

  // Occurrences and events are different tables, so the order of their deletions does not matter.
  lemma DropsCommute(t: Tables, events: set<Id>, occurrences: set<Id>)
    ensures DropAtOccurrences(DropAtEvents(t, events), occurrences) == DropAtEvents(DropAtOccurrences(t, occurrences), events)
  {
  }

  lemma DropEventsTwice(t: Tables, a: set<Id>, b: set<Id>)
    ensures DropEvents(DropEvents(t, a), b) == DropEvents(t, a + b)
  {
    var oa := OccurrencesOf(t, a);
    var ob := OccurrencesOf(DropEvents(t, a), b);
    assert oa + ob == OccurrencesOf(t, a + b);
    DropsCommute(DropAtOccurrences(t, oa), a, ob);
    DropAtOccurrencesTwice(t, oa, ob);
    DropAtEventsTwice(DropAtOccurrences(t, oa + ob), a, b);
    hide DropAtOccurrences, DropAtEvents, OccurrencesOf;
  }

  lemma DropOwnedTwice(t: Tables, a: set<Address>, b: set<Address>)
    ensures DropOwned(DropOwned(t, a), b) == DropOwned(t, a + b)
  {
    assert RemindersByOwner(RemindersByOwner(t.reminders, a), b) == RemindersByOwner(t.reminders, a + b);
    assert CalendarsByOwner(CalendarsByOwner(t.calendars, a), b) == CalendarsByOwner(t.calendars, a + b);
  }

  lemma DropNoAttendees(t: Tables)
    ensures DropAttendees(t, {}) == t
  {
    assert AnswersByAttendee(t.answers, {}) == t.answers && ByValue(t.tokens, {}) == t.tokens;
    assert GuestsByAttendee(t.challenges, {}) == t.challenges && GuestsByAttendee(t.sessions, {}) == t.sessions;
    assert TicketsByAttendee(t.tickets, {}) == t.tickets && RemindersByAttendee(t.reminders, {}) == t.reminders;
    assert t.attendees - {} == t.attendees;
  }

  lemma DropAtNoOccurrences(t: Tables)
    ensures DropAtOccurrences(t, {}) == t
  {
    assert AnswersByOccurrence(t.answers, {}) == t.answers && TicketsByOccurrence(t.tickets, {}) == t.tickets;
  }

  lemma DropNoEvents(t: Tables)
    ensures DropEvents(t, {}) == t
  {
    assert OccurrencesOf(t, {}) == {};
    DropAtNoOccurrences(t);
    assert ByValue(t.occurrences, {}) == t.occurrences && RemindersByEvent(t.reminders, {}) == t.reminders;
    assert OutboxByEvent(t.outbox, {}) == t.outbox && t.events - {} == t.events;
  }

  lemma DropNotOwned(t: Tables)
    ensures DropOwned(t, {}) == t
  {
    assert RemindersByOwner(t.reminders, {}) == t.reminders && CalendarsByOwner(t.calendars, {}) == t.calendars;
  }

  class CalendarStore {
    var t: Tables

    constructor (t: Tables)
      ensures this.t == t
    {
      this.t := t;
    }

    method DeleteAttendee(a: Id)
      modifies this
      ensures t == DropAttendees(old(t), {a})
      ensures old(Integral(t)) ==> Integral(t) && a !in t.attendees
    {
      if Integral(t) {
        AttendeeCanGo(t, a);
      }
      hide Integral, AnswersByAttendee, ByValue, GuestsByAttendee, TicketsByAttendee, RemindersByAttendee;
      t := t.(answers := AnswersByAttendee(t.answers, {a}));
      t := t.(tokens := ByValue(t.tokens, {a}));
      t := t.(challenges := GuestsByAttendee(t.challenges, {a}));
      t := t.(sessions := GuestsByAttendee(t.sessions, {a}));
      t := t.(tickets := TicketsByAttendee(t.tickets, {a}));
      t := t.(reminders := RemindersByAttendee(t.reminders, {a}));
      t := t.(attendees := t.attendees - {a});
    }

    method DeleteAtOccurrence(o: Id)
      modifies this
      ensures t == DropAtOccurrences(old(t), {o})
    {
      t := t.(overrides := t.overrides - {o});
      t := t.(answers := AnswersByOccurrence(t.answers, {o}));
      t := t.(tickets := TicketsByOccurrence(t.tickets, {o}));
    }

    method DeleteEvent(e: Id)
      modifies this
      ensures t == DropEvents(old(t), {e})
      ensures old(Integral(t)) ==> (Integral(t) <==> !AttendedBy(old(t), e))
    {
      if Integral(t) {
        EventCanGoExactlyWhen(t, e);
      }
      hide Integral, AttendedBy, DropAtOccurrences, ByValue, RemindersByEvent, OutboxByEvent;
      var occurrences := OccurrencesOf(t, {e});
      var todo := occurrences;
      DropAtNoOccurrences(t);
      assert occurrences - todo == {};
      while todo != {}
        invariant todo <= occurrences && t == DropAtOccurrences(old(t), occurrences - todo)
        decreases |todo|
      {
        var o :| o in todo;
        DropAtOccurrencesTwice(old(t), occurrences - todo, {o});
        assert occurrences - (todo - {o}) == (occurrences - todo) + {o};
        DeleteAtOccurrence(o);
        todo := todo - {o};
      }
      assert occurrences - todo == occurrences;
      t := t.(occurrences := ByValue(t.occurrences, {e}));
      t := t.(reminders := RemindersByEvent(t.reminders, {e}));
      t := t.(outbox := OutboxByEvent(t.outbox, {e}));
      t := t.(events := t.events - {e});
    }

    method DeleteOwned(address: Address)
      modifies this
      ensures t == DropOwned(old(t), {address})
      ensures old(Integral(t)) ==> (Integral(t) <==> !Holding(old(t), {address}))
    {
      if Integral(t) {
        CalendarsCanGoExactlyWhen(t, {address});
      }
      hide Integral, Holding;
      t := t.(reminders := RemindersByOwner(t.reminders, {address}));
      t := t.(calendars := CalendarsByOwner(t.calendars, {address}));
    }

    // The two loops over the rows to go.
    method DeleteAll(attendees: set<Id>, events: set<Id>)
      modifies this
      ensures t == DropEvents(DropAttendees(old(t), attendees), events)
    {
      hide DropAttendees, DropEvents;
      DropNoAttendees(t);
      var todo := attendees;
      assert attendees - todo == {};
      while todo != {}
        invariant todo <= attendees && t == DropAttendees(old(t), attendees - todo)
        decreases |todo|
      {
        var a :| a in todo;
        DropAttendeesTwice(old(t), attendees - todo, {a});
        assert attendees - (todo - {a}) == (attendees - todo) + {a};
        DeleteAttendee(a);
        todo := todo - {a};
      }
      assert attendees - todo == attendees;
      ghost var without := t;
      DropNoEvents(without);
      todo := events;
      assert events - todo == {};
      while todo != {}
        invariant todo <= events && t == DropEvents(without, events - todo)
        decreases |todo|
      {
        var e :| e in todo;
        DropEventsTwice(without, events - todo, {e});
        assert events - (todo - {e}) == (events - todo) + {e};
        DeleteEvent(e);
        todo := todo - {e};
      }
      assert events - todo == events;
    }

    // Who has to go besides the person: everybody invited to an event that goes.
    method CollectAttendees(who: set<Address>, account: Account) returns (attendees: set<Id>)
      ensures attendees == DoomedAttendees(t, who, account)
    {
      var events := DoomedEvents(t, who, account);
      hide DoomedEvents;
      attendees := set a | a in t.attendees && Among(t.attendees[a].address, who);
      ghost var named := attendees;
      var todo := events;
      while todo != {}
        invariant todo <= events
        invariant attendees == named + set a | a in t.attendees && t.attendees[a].event in events - todo
        decreases |todo|
      {
        var e :| e in todo;
        attendees := attendees + set a | a in t.attendees && t.attendees[a].event == e;
        todo := todo - {e};
      }
    }

    // `erase_calendar`
    method Erase(addresses: seq<Address>, account: Account)
      modifies this
      ensures t == Erased(old(t), Members(addresses), account)
    {
      hide DropAttendees, DropEvents, DropOwned, DoomedEvents, DoomedAttendees;
      var who := Members(addresses);
      var events := DoomedEvents(t, who, account);
      var attendees := CollectAttendees(who, account);
      DeleteAll(attendees, events);
      t := t.(outbox := OutboxByAccount(t.outbox, account));
      ghost var without := t;
      DropNotOwned(without);
      assert Members(addresses[..0]) == {};
      for i := 0 to |addresses|
        invariant t == DropOwned(without, Members(addresses[..i]))
      {
        DropOwnedTwice(without, Members(addresses[..i]), {addresses[i]});
        assert addresses[..i + 1] == addresses[..i] + [addresses[i]];
        assert Members(addresses[..i + 1]) == Members(addresses[..i]) + {addresses[i]};
        DeleteOwned(addresses[i]);
      }
      assert addresses[..|addresses|] == addresses;
    }
  }

  function Members(s: seq<Address>): (m: set<Address>)
    ensures forall a :: a in m <==> a in s
  {
    set i | 0 <= i < |s| :: s[i]
  }
}
