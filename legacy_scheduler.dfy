/** The older scheduler: it takes attendee addresses directly (no resolution
    step), fills a fresh event field by field, appends one attendee per address
    in a loop, and sets no online-meeting or time-proposal flags. Description,
    location and attendees default to `None`. */
module LegacyScheduler {
  import opened Wrappers
  import opened GraphModels
  import Models
  import Scheduler

  /** The event submitted for these arguments. */
  function LegacyEventFor(subject: string, startDateTime: string, startTimeZone: string,
                          endDateTime: string, endTimeZone: string,
                          attendees: Option<seq<string>>, description: Option<string>,
                          location: Option<string>): (e: EventPayload)
    ensures e.subject == Some(subject)
    ensures e.body.Some? <==> Truthy(description)
    ensures e.body.Some? ==> e.body.value == ItemBody(description.value, Text)
    ensures e.start == Some(DateTimeTimeZone(startDateTime, startTimeZone))
    ensures e.end == Some(DateTimeTimeZone(endDateTime, endTimeZone))
    ensures e.location.Some? <==> Truthy(location)
    ensures e.location.Some? ==> e.location.value.displayName == location.value
    ensures e.attendees.Some? <==> NonEmptyList(attendees)
    ensures e.attendees.Some? ==>
              |e.attendees.value| == |attendees.value| &&
              forall i :: 0 <= i < |attendees.value| ==>
                e.attendees.value[i].emailAddress.address == attendees.value[i]
    ensures e.allowNewTimeProposals == None && e.isOnlineMeeting == None
    ensures e.onlineMeetingProvider == None
  {
    EventPayload(
      Some(subject),
      if Truthy(description) then Some(ItemBody(description.value, Text)) else None,
      Some(DateTimeTimeZone(startDateTime, startTimeZone)),
      Some(DateTimeTimeZone(endDateTime, endTimeZone)),
      if Truthy(location) then Some(Location(location.value)) else None,
      if NonEmptyList(attendees) then Some(AttendeesFor(attendees.value)) else None,
      None, None, None)
  }

  /** `schedule_meeting` of the older module: `sent` is the event as submitted,
      `result` the reported fields of what `post` created from it. */
  method LegacyScheduleMeeting(post: EventPayload -> CreatedEvent,
                               subject: string, startDateTime: string, startTimeZone: string,
                               endDateTime: string, endTimeZone: string,
                               attendees: Option<seq<string>> := None,
                               description: Option<string> := None,
                               location: Option<string> := None)
    returns (sent: EventPayload, result: ScheduledEvent)
    ensures sent == LegacyEventFor(subject, startDateTime, startTimeZone, endDateTime, endTimeZone,
                                   attendees, description, location)
    ensures result == Project(post(sent))
  {
    var event := new Event(None);
    event.subject := Some(subject);

    if Truthy(description) {
      event.body := Some(ItemBody(description.value, Text));
    }

    event.start := Some(DateTimeTimeZone(startDateTime, startTimeZone));
    event.end := Some(DateTimeTimeZone(endDateTime, endTimeZone));

    if Truthy(location) {
      event.location := Some(Location(location.value));
    }

    if NonEmptyList(attendees) {
      var emails := attendees.value;
      event.attendees := Some([]);
      ghost var before := event.Payload();
      for i := 0 to |emails|
        invariant event.attendees.Some?
        invariant event.Payload() == before.(attendees := Some(AttendeesFor(emails[..i])))
      {
        assert AttendeesFor(emails[..i + 1])
            == AttendeesFor(emails[..i]) + [Attendee(EmailAddress(emails[i]))];
        event.attendees := Some(event.attendees.value + [Attendee(EmailAddress(emails[i]))]);
      }
      assert emails[..|emails|] == emails;
    }

    sent := event.Payload();
    var created := post(sent);
    result := Project(created);
  }

  /** Given the addresses the resolver produced, the older payload is the newer
      one without the three online-meeting fields. */
  lemma LegacyIsCurrentWithoutFlags(details: Models.MeetingIntent, emails: seq<string>)
    ensures var legacy := LegacyEventFor(details.subject, details.startDateTime, details.startTimeZone,
                                         details.endDateTime, details.endTimeZone,
                                         Some(emails), Some(details.description), Some(details.location));
            legacy == Scheduler.EventFor(details, emails).(allowNewTimeProposals := None,
                                                           isOnlineMeeting := None,
                                                           onlineMeetingProvider := None)
  {
  }
}
