/** The structured meeting request that the intent parser produces and the
    scheduler consumes. Date-times and time zones are opaque strings: they are
    passed through verbatim and never parsed. */
module Models {
  import opened Wrappers

  datatype MeetingIntent = MeetingIntent(
    subject: string,
    startDateTime: string,       // ISO 8601 text
    startTimeZone: string,       // Windows time-zone name
    endDateTime: string,
    endTimeZone: string,
    attendees: Option<seq<string>>,  // display names, not yet e-mail addresses
    description: string,
    location: string)
}
