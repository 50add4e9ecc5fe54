/** main.py: the web service. Its request body carries the same answers as the console dialogue;
    its prompt differs from the console one only in the fixed text around the details; the reply
    is cut to its JSON text the same way, and the calendar is built by the same loop and sent
    back as a file. */
module Service {

  import opened Wrappers
  import opened Strings
  import opened Extraction
  import opened Timestamp
  import opened Calendar
  import opened Schedule
  import Decimal
  import Cli

  // ---------------------------------------------------------------------------------------
  // TimetableRequest

  /** The request model: every field is required except `preferences`, which is `""` when the
      body leaves it out. */
  function NewRequest(name: string, startDate: string, days: int, hoursPerDay: int, subjects: seq<string>,
                      preferences: Option<string>): (r: Request)
    ensures r.name == name && r.startDate == startDate && r.days == days && r.hoursPerDay == hoursPerDay
    ensures r.subjects == subjects
    ensures preferences.None? ==> r.preferences == ""
    ensures preferences.Some? ==> r.preferences == preferences.value
  {
    Request(name, startDate, days, hoursPerDay, subjects, if preferences.Some? then preferences.value else "")
  }

  /** Without preferences the prompt's preferences line ends right after its label. */
  lemma {:induction false} OmittedPreferencesLine(name: string, startDate: string, days: int, hoursPerDay: int, subjects: seq<string>)
    ensures DetailLines(NewRequest(name, startDate, days, hoursPerDay, subjects, None))[4] == "    - Preferences: "
  {
  }

  // ---------------------------------------------------------------------------------------
  // generate_timetable_logic

  /** The prompt text the service sends: no blank line before the details and no closing rules. */
  function Prompt(r: Request): string
  {
    "\n    Create a structured timetable for " + r.name + ".\n    Details:\n"
    + Details(r)
    + "\n    Output in strict JSON format with schema:\n"
    + Schema
    + "    "
  }

  /** The prompt holds the name, the detail lines and, through them, the start date, the day and
      hour counts in decimal, the subjects joined by ", " (each of them, in input order) and the
      preferences; and it holds the schema. */
  lemma {:induction false} PromptMentions(r: Request)
    ensures IsInfix(r.name, Prompt(r))
    ensures IsInfix(Details(r), Prompt(r)) && IsInfix(Schema, Prompt(r))
    ensures IsInfix(r.startDate, Prompt(r))
    ensures IsInfix(Decimal.IntToString(r.days) + " days", Prompt(r))
    ensures IsInfix(Decimal.IntToString(r.hoursPerDay) + " hours per day", Prompt(r))
    ensures IsInfix(SubjectList(r), Prompt(r))
    ensures forall k :: 0 <= k < |r.subjects| ==> IsInfix(r.subjects[k], Prompt(r))
    ensures IsInfix(r.preferences, Prompt(r))
  {
    TemplateMentions(r, "\n    Create a structured timetable for ", ".\n    Details:\n",
      "\n    Output in strict JSON format with schema:\n", "    ");
  }

  // ---------------------------------------------------------------------------------------
  // generate_ics

  /** What the endpoint answers with on success: the written file, sent as `text/calendar`
      under its own name. */
  datatype Attachment = Attachment(filename: string, mediaType: string, content: string)

  /** The `/generate-ics` handler: the reply is cut to its JSON text and read; the `for` loop
      grows the calendar text block by block, and the file is written and sent back. Any
      exception on the way (invalid JSON, no events list, a timestamp that does not parse)
      fails the request before the file is written, here `Err`. `uids[k]` and `clock[k]` are
      what `uuid4()` and `utcnow()` return in the `k`-th turn. */
  method GenerateIcs(r: Request, reply: string, decode: string -> Decoded, uids: seq<string>, clock: seq<DateTime>)
    returns (res: Result<Attachment, string>)
    requires decode(JsonCandidate(reply)).Events? ==>
      |uids| == |decode(JsonCandidate(reply)).events| && |clock| == |decode(JsonCandidate(reply)).events|
    ensures var doc := Document(decode(JsonCandidate(reply)), uids, clock);
      && (res.Ok? <==> doc.Some?)
      && (res.Ok? ==> res.value == Attachment(r.name + "_timetable.ics", "text/calendar", doc.value))
  {
    var timetable := decode(JsonCandidate(reply));
    if timetable.NotJson? {
      return Err("Expecting value");
    }
    if timetable.NoEvents? {
      return Err("'events'");
    }
    var filename := FileName(r.name);
    var events := timetable.events;
    var content := "BEGIN:VCALENDAR\nVERSION:2.0\nCALSCALE:GREGORIAN\n";
    ghost var rows: seq<Row> := [];
    var i := 0;
    while i < |events|
      invariant 0 <= i <= |events| && |rows| == i
      invariant AllSome(Formatted(events)[..i]) == Some(rows)
      invariant content == Header + Blocks(rows, uids, Stamps(clock))
    {
      var event := events[i];
      var start := ParseIso(event.start);
      if start.None? {
        RenderStuck(events, uids, clock, i);
        return Err("Invalid isoformat string");
      }
      var end := ParseIso(event.end);
      if end.None? {
        RenderStuck(events, uids, clock, i);
        return Err("Invalid isoformat string");
      }
      var uid := uids[i];
      var dtstamp := FormatStamp(clock[i]);
      ghost var row := Row(event.title, FormatCompact(start.value), FormatCompact(end.value));
      TurnRows(events, i, rows, start.value, end.value);
      TurnText(content, Header, rows, row, uids, Stamps(clock));
      BlockSteps(content, row, uid, dtstamp);
      content := content + "BEGIN:VEVENT\n";
      content := content + ("UID:" + uid + "\n");
      content := content + ("DTSTAMP:" + dtstamp + "\n");
      content := content + ("SUMMARY:" + event.title + "\n");
      content := content + ("DTSTART:" + FormatCompact(start.value) + "\n");
      content := content + ("DTEND:" + FormatCompact(end.value) + "\n");
      content := content + "END:VEVENT\n";
      rows := rows + [row];
      i := i + 1;
    }
    content := content + "END:VCALENDAR";
    RenderDone(events, uids, clock, rows);
    res := Ok(Attachment(filename, "text/calendar", content));
  }

  /** Given the same reply, reader, UIDs and clock readings, the service sends exactly the
      calendar text the console program saves, under the same file name, and fails exactly
      when the console program saves nothing. */
  method SameCalendar(r: Request, reply: string, decode: string -> Decoded, uids: seq<string>, clock: seq<DateTime>)
    returns (console: Cli.Outcome, service: Result<Attachment, string>)
    requires decode(JsonCandidate(reply)).Events? ==>
      |uids| == |decode(JsonCandidate(reply)).events| && |clock| == |decode(JsonCandidate(reply)).events|
    ensures console.Saved? <==> service.Ok?
    ensures console.Saved? ==> console == Cli.Saved(service.value.filename, service.value.content)
  {
    console := Cli.JsonToIcs(JsonCandidate(reply), decode, uids, clock, FileName(r.name));
    service := GenerateIcs(r, reply, decode, uids, clock);
  }
}
