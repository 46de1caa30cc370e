/** Meeting scheduling from a structured intent: resolve the attendee names,
    fill in a fresh event object step by step, submit it, and report five fields
    of what the service created. Submission is a parameter: a function from the
    submitted event to the created one. */
module Scheduler {
  import opened Wrappers
  import opened Models
  import opened GraphModels
  import opened Resolver

  /** The event submitted for `details` once its attendees resolved to `emails`. */
  function EventFor(details: MeetingIntent, emails: seq<string>): (e: EventPayload)
    ensures e.subject == Some(details.subject)
    ensures e.body.Some? <==> details.description != ""
    ensures e.body.Some? ==> e.body.value == ItemBody(details.description, Text)
    ensures e.start == Some(DateTimeTimeZone(details.startDateTime, details.startTimeZone))
    ensures e.end == Some(DateTimeTimeZone(details.endDateTime, details.endTimeZone))
    ensures e.location.Some? <==> details.location != ""
    ensures e.location.Some? ==> e.location.value.displayName == details.location
    ensures e.attendees.Some? <==> emails != []
    ensures e.attendees.Some? ==>
              |e.attendees.value| == |emails| &&
              forall i :: 0 <= i < |emails| ==> e.attendees.value[i].emailAddress.address == emails[i]
    ensures e.allowNewTimeProposals == Some(true) && e.isOnlineMeeting == Some(true)
    ensures e.onlineMeetingProvider == Some(TeamsForBusiness)
  {
    EventPayload(
      Some(details.subject),
      if details.description != "" then Some(ItemBody(details.description, Text)) else None,
      Some(DateTimeTimeZone(details.startDateTime, details.startTimeZone)),
      Some(DateTimeTimeZone(details.endDateTime, details.endTimeZone)),
      if details.location != "" then Some(Location(details.location)) else None,
      if emails != [] then Some(AttendeesFor(emails)) else None,
      Some(true), Some(true), Some(TeamsForBusiness))
  }

  /** `schedule_meeting`: `sent` is the event as submitted, `result` the reported
      fields of what `post` created from it. A `None` attendee list counts as empty. */
  method ScheduleMeeting(lookup: string -> UsersResponse, post: EventPayload -> CreatedEvent,
                         details: MeetingIntent)
    returns (sent: EventPayload, result: ScheduledEvent)
    ensures sent == EventFor(details, ResolveEmailsByNames(lookup, OrEmpty(details.attendees)))
    ensures result == Project(post(sent))
  {
    var resolved := ResolveEmailsByNames(lookup, OrEmpty(details.attendees));

    var event := new Event(Some(details.subject));
    if details.description != "" {
      event.body := Some(ItemBody(details.description, Text));
    }
    event.start := Some(DateTimeTimeZone(details.startDateTime, details.startTimeZone));
    event.end := Some(DateTimeTimeZone(details.endDateTime, details.endTimeZone));
    if details.location != "" {
      event.location := Some(Location(details.location));
    }
    if resolved != [] {
      event.attendees := Some(AttendeesFor(resolved));
    }
    event.allowNewTimeProposals := Some(true);
    event.isOnlineMeeting := Some(true);
    event.onlineMeetingProvider := Some(TeamsForBusiness);

    sent := event.Payload();
    var created := post(sent);
    result := Project(created);
  }

  /** The event is sent without attendees exactly when none of the names resolved;
      no error reaches the caller either way. */
  lemma NoAttendeesIffNothingResolved(lookup: string -> UsersResponse, details: MeetingIntent)
    ensures var names := OrEmpty(details.attendees);
            (EventFor(details, ResolveEmailsByNames(lookup, names)).attendees.None?
             <==> forall i :: 0 <= i < |names| ==> !Truthy(ResolveEmailByName(lookup, names[i])))
  {
    NothingResolvedIff(lookup, OrEmpty(details.attendees));
  }

  /** Every invited address is the answer to one of the listed names, and the
      invitations follow the order of the names. */
  lemma InviteesComeFromNames(lookup: string -> UsersResponse, details: MeetingIntent)
    ensures var names := OrEmpty(details.attendees);
            var e := EventFor(details, ResolveEmailsByNames(lookup, names));
            e.attendees.Some? ==>
              SubsequenceOf(seq(|e.attendees.value|, i requires 0 <= i < |e.attendees.value| =>
                                  e.attendees.value[i].emailAddress.address),
                            ResolveAll(lookup, names))
  {
    var names := OrEmpty(details.attendees);
    var emails := ResolveEmailsByNames(lookup, names);
    var e := EventFor(details, emails);
    if e.attendees.Some? {
      assert seq(|e.attendees.value|, i requires 0 <= i < |e.attendees.value| =>
                   e.attendees.value[i].emailAddress.address) == emails;
    }
  }

  /** A submission that echoes subject, start and end back. */
  ghost predicate Echoes(post: EventPayload -> CreatedEvent)
  {
    forall p: EventPayload {:trigger post(p)} ::
      p.start.Some? && p.end.Some? ==>
        post(p).subject == p.subject && post(p).start == p.start.value && post(p).end == p.end.value
  }

  /** Against an echoing service, the reported subject, start and end are the
      intent's own, verbatim. */
  lemma EchoedReport(post: EventPayload -> CreatedEvent, details: MeetingIntent, emails: seq<string>)
    requires Echoes(post)
    ensures var report := Project(post(EventFor(details, emails)));
            report.subject == Some(details.subject) &&
            report.start == details.startDateTime && report.end == details.endDateTime
  {
  }

  /** A name-to-address directory as a lookup: a name it knows answers with one
      user whose `mail` is that address; any other filter finds nobody. */
  function DirectoryOf(directory: map<string, string>): string -> UsersResponse
  {
    (f: string) =>
      if exists name :: name in directory && UserFilter(name) == f
      then
        var name :| name in directory && UserFilter(name) == f;
        Response(Some([User(Some(directory[name]), None)]))
      else Response(Some([]))
  }

  const Tutoring := MeetingIntent(
    "Tutoring", "2025-06-12T12:00:00", "Pacific Standard Time",
    "2025-06-12T12:30:00", "Pacific Standard Time", Some(["alice"]), "", "")

  /** The tutoring request with `alice` in the directory: one attendee,
      alice@example.com, online meeting on. */
  lemma TutoringWithAlice()
    ensures var e := EventFor(Tutoring, ResolveEmailsByNames(
                       DirectoryOf(map["alice" := "alice@example.com"]), ["alice"]));
            e.attendees == Some([Attendee(EmailAddress("alice@example.com"))]) &&
            e.isOnlineMeeting == Some(true)
  {
    var lookup := DirectoryOf(map["alice" := "alice@example.com"]);
    var f := UserFilter("alice");
    forall name | name in map["alice" := "alice@example.com"] && UserFilter(name) == f
      ensures name == "alice"
    {
      UserFilterInjective(name, "alice");
    }
    assert lookup(f) == Response(Some([User(Some("alice@example.com"), None)]));
    assert ResolveEmailByName(lookup, "alice") == Some("alice@example.com");
    assert ResolveAll(lookup, ["alice"]) == [Some("alice@example.com")];
    assert ResolveEmailsByNames(lookup, ["alice"]) == ["alice@example.com"];
    assert AttendeesFor(["alice@example.com"]) == [Attendee(EmailAddress("alice@example.com"))];
  }

  /** The same request against a directory without `alice`: no attendees, and
      the event is still submitted. */
  lemma TutoringWithoutAlice()
    ensures EventFor(Tutoring, ResolveEmailsByNames(DirectoryOf(map[]), ["alice"])).attendees == None
  {
  }
}
