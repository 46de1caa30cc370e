/** The shapes of the calendar client's objects that the core reads and builds:
    directory users, the event being assembled, the event the service creates and
    the dictionary handed back to the caller. */
module GraphModels {
  import opened Wrappers

  /** A directory user as the lookup returns it; both address fields may be absent. */
  datatype User = User(mail: Option<string>, userPrincipalName: Option<string>)

  /** The outcome of one directory query: it raised, or it answered with a
      collection whose `value` may itself be missing. */
  datatype UsersResponse = Raised | Response(value: Option<seq<User>>)

  datatype BodyType = Text
  datatype ItemBody = ItemBody(content: string, contentType: BodyType)
  datatype DateTimeTimeZone = DateTimeTimeZone(dateTime: string, timeZone: string)
  datatype Location = Location(displayName: string)
  datatype EmailAddress = EmailAddress(address: string)
  datatype Attendee = Attendee(emailAddress: EmailAddress)
  datatype OnlineMeetingProvider = TeamsForBusiness

  /** The value of an event object at the moment it is submitted: every field the
      core may set, `None` where it was left unset. */
  datatype EventPayload = EventPayload(
    subject: Option<string>,
    body: Option<ItemBody>,
    start: Option<DateTimeTimeZone>,
    end: Option<DateTimeTimeZone>,
    location: Option<Location>,
    attendees: Option<seq<Attendee>>,
    allowNewTimeProposals: Option<bool>,
    isOnlineMeeting: Option<bool>,
    onlineMeetingProvider: Option<OnlineMeetingProvider>)

  /** The event the calendar service answers with after creating it. */
  datatype CreatedEvent = CreatedEvent(
    id: Option<string>,
    subject: Option<string>,
    start: DateTimeTimeZone,
    end: DateTimeTimeZone,
    webLink: Option<string>)

  /** The dictionary `{id, subject, start, end, web_link}` returned to the caller. */
  datatype ScheduledEvent = ScheduledEvent(
    id: Option<string>,
    subject: Option<string>,
    start: string,
    end: string,
    webLink: Option<string>)

  /** One attendee per address, in the order of the addresses. */
  function AttendeesFor(emails: seq<string>): (r: seq<Attendee>)
    ensures |r| == |emails|
    ensures forall i :: 0 <= i < |emails| ==> r[i].emailAddress.address == emails[i]
  {
    seq(|emails|, i requires 0 <= i < |emails| => Attendee(EmailAddress(emails[i])))
  }

  /** The five fields of the created event that are reported back. */
  function Project(created: CreatedEvent): ScheduledEvent
  {
    ScheduledEvent(created.id, created.subject, created.start.dateTime,
                   created.end.dateTime, created.webLink)
  }

  /** The calendar client's mutable event object, filled in field by field. */
  class Event {
    var subject: Option<string>
    var body: Option<ItemBody>
    var start: Option<DateTimeTimeZone>
    var end: Option<DateTimeTimeZone>
    var location: Option<Location>
    var attendees: Option<seq<Attendee>>
    var allowNewTimeProposals: Option<bool>
    var isOnlineMeeting: Option<bool>
    var onlineMeetingProvider: Option<OnlineMeetingProvider>

    /** `Event()` when `subject` is `None`, `Event(subject=s)` otherwise: every
        other field starts unset. */
    constructor (subject: Option<string>)
      ensures Payload() == EventPayload(subject, None, None, None, None, None, None, None, None)
    {
      this.subject := subject;
      body, start, end, location, attendees := None, None, None, None, None;
      allowNewTimeProposals, isOnlineMeeting, onlineMeetingProvider := None, None, None;
    }

    /** The current field values, as the service would receive them. */
    function Payload(): EventPayload
      reads this
    {
      EventPayload(subject, body, start, end, location, attendees,
                   allowNewTimeProposals, isOnlineMeeting, onlineMeetingProvider)
    }
  }
}
