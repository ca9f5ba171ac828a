/**
 * The mock calendar service (backend/services/calendar_service.py): echoes
 * each event back with a positional id.
 */
module CalendarService {
  import opened Wrappers
  import opened Text

  /** An event dict; `None` in `title` is a missing key (an explicit `None` value is not modelled). */
  datatype EventSpec = EventSpec(title: Option<string>, startTime: Option<string>, endTime: Option<string>, description: string)

  datatype CreatedEvent = CreatedEvent(eventId: string, title: string, startTime: Option<string>, endTime: Option<string>, status: string)

  function EventId(i: nat): string {
    "mock_event_" + NatToString(i)
  }

  /** `create_schedule(events)`. */
  function CreateSchedule(events: seq<EventSpec>): (r: seq<CreatedEvent>)
    ensures |r| == |events|
    ensures forall i :: 0 <= i < |r| ==>
              && r[i].eventId == EventId(i)
              && r[i].title == events[i].title.GetOr("Event")
              && r[i].startTime == events[i].startTime && r[i].endTime == events[i].endTime
              && r[i].status == "created"
  {
    seq(|events|, i requires 0 <= i < |events| =>
      CreatedEvent(EventId(i), events[i].title.GetOr("Event"), events[i].startTime, events[i].endTime, "created"))
  }

  /** Event ids never repeat within one call. */
  lemma EventIdsDistinct(events: seq<EventSpec>, i: nat, j: nat)
    requires i < j < |events|
    ensures CreateSchedule(events)[i].eventId != CreateSchedule(events)[j].eventId
  {
    var pre := "mock_event_";
    if EventId(i) == EventId(j) {
      assert (pre + NatToString(i))[|pre|..] == NatToString(i);
      assert (pre + NatToString(j))[|pre|..] == NatToString(j);
      NatToStringInjective(i, j);
    }
  }
}
