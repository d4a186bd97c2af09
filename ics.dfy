/** The iCalendar export of src/utils/calendarUtils.ts (`exportToICS`): a
    VCALENDAR header, one nine-line VEVENT per task and a closing line,
    joined with CRLF (RFC 5545, sections 3.4 and 3.6.1). The UTC stamps of
    DTSTART and DTEND are given by the caller. */
module Ics {
  import opened Wrappers
  import opened Types
  import opened Text

  const Header: seq<string> := ["BEGIN:VCALENDAR", "VERSION:2.0", "PRODID:-//4m Planner//EN", "CALSCALE:GREGORIAN"]

  const Footer: string := "END:VCALENDAR"

  /** The position of the first calendar with the given id, or the length
      when there is none. */
  function FirstIndex(calendars: seq<Calendar>, id: string): (k: nat)
    ensures k <= |calendars| && (k < |calendars| ==> calendars[k].id == id)
    ensures forall j :: 0 <= j < k ==> calendars[j].id != id
  {
    if calendars == [] || calendars[0].id == id then 0
    else 1 + FirstIndex(calendars[1..], id)
  }

  /** `calendars.find(c => c.id === id)`. */
  function FindCalendar(calendars: seq<Calendar>, id: string): Option<Calendar> {
    var k := FirstIndex(calendars, id);
    if k < |calendars| then Some(calendars[k]) else None
  }

  /** `calendar?.name || 'Default'`: an empty name also falls back. */
  function CategoryName(calendars: seq<Calendar>, id: string): string {
    match FindCalendar(calendars, id)
    case Some(c) => if c.name != "" then c.name else "Default"
    case None => "Default"
  }

  /** CATEGORIES names the first calendar with the task's calendar id when
      that name is not empty, and is `Default` otherwise. */
  lemma CategoryOfFirstMatch(calendars: seq<Calendar>, id: string, k: nat)
    requires k <= |calendars|
    requires k < |calendars| ==> calendars[k].id == id
    requires forall j :: 0 <= j < k ==> calendars[j].id != id
    ensures CategoryName(calendars, id) ==
      if k < |calendars| && calendars[k].name != "" then calendars[k].name else "Default"
  {
    assert FirstIndex(calendars, id) == k;
  }

  /** The PRIORITY value: 1 for high, 5 for medium, 9 for low. */
  function PriorityValue(p: Priority): string {
    match p
    case High => "1"
    case Medium => "5"
    case Low => "9"
  }

  /** How a reader of section 3.8.1.9 of RFC 5545 reads a PRIORITY value:
      1 to 4 are high, 5 is medium, 6 to 9 are low, and 0 is undefined. */
  function ReadPriority(v: string): Option<Priority> {
    if |v| != 1 || !IsDigit(v[0]) then None
    else
      var n := DigitValue(v[0]);
      if 1 <= n <= 4 then Some(High)
      else if n == 5 then Some(Medium)
      else if 6 <= n <= 9 then Some(Low)
      else None
  }

  /** The value the export writes is read back as the task's priority. */
  lemma PriorityRoundTrip(p: Priority)
    ensures ReadPriority(PriorityValue(p)) == Some(p)
  {
    match p
    case High => assert DigitValue('1') == 1;
    case Medium => assert DigitValue('5') == 5;
    case Low => assert DigitValue('9') == 9;
  }

  /** The nine lines of one task's VEVENT; `stamp(date, time)` is the UTC
      `YYYYMMDDTHHMMSS` form of that local date and time. */
  function EventLines(t: Task, calendars: seq<Calendar>, stamp: (Day, Minute) -> string): seq<string> {
    [ "BEGIN:VEVENT",
      "UID:" + t.id + "@4m.app",
      "DTSTART:" + stamp(t.date, t.startTime) + "Z",
      "DTEND:" + stamp(t.date, t.endTime) + "Z",
      "SUMMARY:" + t.title,
      "DESCRIPTION:" + t.description.GetOr(""),
      "CATEGORIES:" + CategoryName(calendars, t.calendarId),
      "PRIORITY:" + PriorityValue(t.priority),
      "END:VEVENT" ]
  }

  /** The events of `tasks`, in order. */
  function Events(tasks: seq<Task>, calendars: seq<Calendar>, stamp: (Day, Minute) -> string): (lines: seq<string>)
    ensures |lines| == 9 * |tasks|
    decreases |tasks|
  {
    if tasks == [] then []
    else Events(tasks[..|tasks| - 1], calendars, stamp) + EventLines(tasks[|tasks| - 1], calendars, stamp)
  }

  function IcsLines(tasks: seq<Task>, calendars: seq<Calendar>, stamp: (Day, Minute) -> string): seq<string> {
    Header + Events(tasks, calendars, stamp) + [Footer]
  }

  /** `exportToICS(tasks, calendars)`: the lines are built up task by task and
      joined with CRLF. */
  method ExportToIcs(tasks: seq<Task>, calendars: seq<Calendar>, stamp: (Day, Minute) -> string)
    returns (ics: string)
    ensures ics == Join(IcsLines(tasks, calendars, stamp), CRLF)
  {
    var icsLines := PushEvents(Header, tasks, calendars, stamp);
    icsLines := icsLines + [Footer];
    ics := Join(icsLines, CRLF);
  }

  /** The `forEach` of `exportToICS`: each task's event pushed onto `lines`. */
  method PushEvents(lines: seq<string>, tasks: seq<Task>, calendars: seq<Calendar>, stamp: (Day, Minute) -> string)
    returns (icsLines: seq<string>)
    ensures icsLines == lines + Events(tasks, calendars, stamp)
  {
    icsLines := lines;
    var i := 0;
    while i < |tasks|
      invariant 0 <= i <= |tasks|
      invariant icsLines == lines + Events(tasks[..i], calendars, stamp)
    {
      var event := EventLines(tasks[i], calendars, stamp);
      EventsSnoc(tasks, calendars, stamp, i);
      assert icsLines + event == lines + (Events(tasks[..i], calendars, stamp) + event);
      icsLines := icsLines + event;
      i := i + 1;
    }
    assert tasks[..|tasks|] == tasks;
  }

  lemma EventsSnoc(tasks: seq<Task>, calendars: seq<Calendar>, stamp: (Day, Minute) -> string, i: nat)
    requires i < |tasks|
    ensures Events(tasks[..i + 1], calendars, stamp) == Events(tasks[..i], calendars, stamp) + EventLines(tasks[i], calendars, stamp)
  {
    assert tasks[..i + 1][..i] == tasks[..i];
  }

  /** Task `k`'s event occupies lines 9k .. 9k+8 of the events. */
  lemma {:induction false} EventsAt(tasks: seq<Task>, calendars: seq<Calendar>, stamp: (Day, Minute) -> string, k: nat)
    requires k < |tasks|
    ensures Events(tasks, calendars, stamp)[9 * k..9 * k + 9] == EventLines(tasks[k], calendars, stamp)
    decreases |tasks|
  {
    var init := tasks[..|tasks| - 1];
    if k < |tasks| - 1 {
      EventsAt(init, calendars, stamp, k);
      assert Events(tasks, calendars, stamp)[9 * k..9 * k + 9] == Events(init, calendars, stamp)[9 * k..9 * k + 9];
    }
  }

  /** The export's lines: the four header lines, nine lines per task with
      task `k`'s event at lines 4+9k .. 12+9k, and END:VCALENDAR last. */
  lemma IcsShape(tasks: seq<Task>, calendars: seq<Calendar>, stamp: (Day, Minute) -> string)
    ensures var lines := IcsLines(tasks, calendars, stamp);
      |lines| == 9 * |tasks| + 5 && lines[..4] == Header && lines[|lines| - 1] == Footer &&
      forall k :: 0 <= k < |tasks| ==> lines[4 + 9 * k..13 + 9 * k] == EventLines(tasks[k], calendars, stamp)
  {
    var lines := IcsLines(tasks, calendars, stamp);
    var ev := Events(tasks, calendars, stamp);
    forall k | 0 <= k < |tasks|
      ensures lines[4 + 9 * k..13 + 9 * k] == EventLines(tasks[k], calendars, stamp)
    {
      EventsAt(tasks, calendars, stamp, k);
      assert lines[4 + 9 * k..13 + 9 * k] == ev[9 * k..9 * k + 9];
    }
  }

  /** No field written into the export holds a carriage return. */
  predicate NoCarriageReturn(tasks: seq<Task>, calendars: seq<Calendar>, stamp: (Day, Minute) -> string) {
    (forall c :: c in calendars ==> '\r' !in c.name) &&
    forall t :: t in tasks ==>
      '\r' !in t.id && '\r' !in t.title && '\r' !in t.description.GetOr("") &&
      '\r' !in stamp(t.date, t.startTime) && '\r' !in stamp(t.date, t.endTime)
  }

  lemma EventLinesClean(t: Task, calendars: seq<Calendar>, stamp: (Day, Minute) -> string)
    requires NoCarriageReturn([t], calendars, stamp)
    ensures forall k :: 0 <= k < 9 ==> '\r' !in EventLines(t, calendars, stamp)[k]
  {
    var k := FirstIndex(calendars, t.calendarId);
    if k < |calendars| {
      assert calendars[k] in calendars;
    }
  }

  lemma {:induction false} EventsClean(tasks: seq<Task>, calendars: seq<Calendar>, stamp: (Day, Minute) -> string)
    requires NoCarriageReturn(tasks, calendars, stamp)
    ensures forall k :: 0 <= k < |Events(tasks, calendars, stamp)| ==> '\r' !in Events(tasks, calendars, stamp)[k]
    decreases |tasks|
  {
    if tasks != [] {
      var init := tasks[..|tasks| - 1];
      var last := tasks[|tasks| - 1];
      assert NoCarriageReturn(init, calendars, stamp) by {
        forall t | t in init ensures t in tasks { }
      }
      EventsClean(init, calendars, stamp);
      assert NoCarriageReturn([last], calendars, stamp);
      EventLinesClean(last, calendars, stamp);
    }
  }

  /** Splitting the export at CRLF gives back exactly its lines, so the lines
      are joined with CRLF and nothing follows END:VCALENDAR, provided no
      field holds a carriage return. */
  lemma IcsSplitsIntoLines(tasks: seq<Task>, calendars: seq<Calendar>, stamp: (Day, Minute) -> string)
    requires NoCarriageReturn(tasks, calendars, stamp)
    ensures SplitCRLF(Join(IcsLines(tasks, calendars, stamp), CRLF)) == IcsLines(tasks, calendars, stamp)
  {
    var lines := IcsLines(tasks, calendars, stamp);
    var ev := Events(tasks, calendars, stamp);
    EventsClean(tasks, calendars, stamp);
    forall k | 0 <= k < |lines| ensures '\r' !in lines[k] {
      if 4 <= k < 4 + |ev| {
        assert lines[k] == ev[k - 4];
      }
    }
    SplitJoin(lines);
  }
}
