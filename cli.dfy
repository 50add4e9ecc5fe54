/** m.py: the console program. Its user dialogue collects the subjects until a `done` line, its
    prompt asks for the timetable, the reply is cut to its JSON text and checked, and the JSON
    is turned into a calendar file named after the user. */
module Cli {

  import opened Wrappers
  import opened Strings
  import opened Extraction
  import opened Timestamp
  import opened Calendar
  import opened Schedule
  import Decimal

  // ---------------------------------------------------------------------------------------
  // The subject sentinel loop of get_user_data

  /** `c.lower()` on ASCII letters. */
  function LowerChar(c: char): char
  {
    if 'A' <= c <= 'Z' then (c as int + 32) as char else c
  }

  /** `s.lower()`, letter by letter. */
  function Lower(s: string): string
  {
    seq(|s|, k requires 0 <= k < |s| => LowerChar(s[k]))
  }

  /** The line ends the subject list: `subject.lower() == "done"`. */
  predicate IsDone(line: string)
  {
    Lower(line) == "done"
  }

  /** The lines that end the list are the four letters d, o, n, e, each in either case. */
  lemma {:induction false} IsDoneIff(line: string)
    ensures IsDone(line) <==>
      && |line| == 4
      && (line[0] == 'd' || line[0] == 'D') && (line[1] == 'o' || line[1] == 'O')
      && (line[2] == 'n' || line[2] == 'N') && (line[3] == 'e' || line[3] == 'E')
  {
    if IsDone(line) {
      assert |Lower(line)| == |line|;
      assert Lower(line)[0] == 'd' && Lower(line)[1] == 'o' && Lower(line)[2] == 'n' && Lower(line)[3] == 'e';
    }
    if |line| == 4 && (line[0] == 'd' || line[0] == 'D') && (line[1] == 'o' || line[1] == 'O')
      && (line[2] == 'n' || line[2] == 'N') && (line[3] == 'e' || line[3] == 'E')
    {
      assert Lower(line) == "done";
    }
  }

  /** `done` in any case stops the loop; anything around it does not. */
  lemma DoneSpellings()
    ensures IsDone("done") && IsDone("Done") && IsDone("DONE") && IsDone("dOnE")
    ensures !IsDone("done.") && !IsDone(" done") && !IsDone("don") && !IsDone("")
  {
    IsDoneIff("done");
    IsDoneIff("Done");
    IsDoneIff("DONE");
    IsDoneIff("dOnE");
    IsDoneIff("done.");
    IsDoneIff(" done");
    IsDoneIff("don");
    IsDoneIff("");
  }

  /** The position of the first sentinel line, if any. */
  function FirstDone(lines: seq<string>): (r: Option<nat>)
    ensures r.Some? ==> r.value < |lines| && IsDone(lines[r.value]) && forall k :: 0 <= k < r.value ==> !IsDone(lines[k])
    ensures r.None? ==> forall k :: 0 <= k < |lines| ==> !IsDone(lines[k])
  {
    if |lines| == 0 then None
    else if IsDone(lines[0]) then Some(0)
    else match FirstDone(lines[1..])
      case None => None
      case Some(i) => Some(i + 1)
  }

  /** The subjects entered and the input lines left after the sentinel. */
  datatype Collected = Collected(subjects: seq<string>, rest: seq<string>)

  /** The `while True` loop reading subjects: each line is appended until the first one whose
      lower-case form is `done`, which is consumed but not kept. Input that ends first makes
      `input()` raise EOFError. */
  method CollectSubjects(input: seq<string>) returns (r: Result<Collected, string>)
    ensures FirstDone(input).None? ==> r == Err("EOF when reading a line")
    ensures FirstDone(input).Some? ==>
      r == Ok(Collected(input[..FirstDone(input).value], input[FirstDone(input).value + 1..]))
    ensures r.Ok? <==> exists k :: 0 <= k < |input| && IsDone(input[k])
    ensures r.Ok? ==>
      var n := |r.value.subjects|;
      && n < |input| && IsDone(input[n])
      && input == r.value.subjects + [input[n]] + r.value.rest
      && forall k :: 0 <= k < n ==> !IsDone(r.value.subjects[k])
  {
    var subjects: seq<string> := [];
    var i := 0;
    while true
      invariant 0 <= i <= |input|
      invariant subjects == input[..i]
      invariant forall k :: 0 <= k < i ==> !IsDone(input[k])
      decreases |input| - i
    {
      if i == |input| {
        return Err("EOF when reading a line");
      }
      var subject := input[i];
      i := i + 1;
      if IsDone(subject) {
        break;
      }
      subjects := subjects + [subject];
    }
    assert input == input[..i - 1] + [input[i - 1]] + input[i..];
    r := Ok(Collected(subjects, input[i..]));
  }

  // ---------------------------------------------------------------------------------------
  // The prompt of generate_timetable_json

  /** The prompt text the console program sends, with its blank lines and closing rules. */
  function Prompt(r: Request): string
  {
    "\n    Create a structured timetable for " + r.name + ".\n\n    Details:\n"
    + Details(r)
    + "\n    Output in strict JSON format with this schema:\n"
    + Schema
    + "\n    Rules:\n    - Do not include explanations or text outside JSON.\n    - Ensure valid JSON only.\n    "
  }

  /** The prompt holds the name, the detail lines and, through them, the start date, the day and
      hour counts in decimal, the subjects joined by ", " (each of them, in input order) and the
      preferences; and it holds the schema. */
  lemma {:induction false} PromptMentions(r: Request)
    ensures IsInfix(r.name, Prompt(r))
    ensures IsInfix(Details(r), Prompt(r)) && IsInfix(Schema, Prompt(r))
    ensures IsInfix(r.startDate, Prompt(r))
    ensures IsInfix(Decimal.IntToString(r.days) + " days", Prompt(r))
    ensures IsInfix(Decimal.IntToString(r.hoursPerDay) + " hours per day", Prompt(r))
    ensures IsInfix(SubjectList(r), Prompt(r))
    ensures forall k :: 0 <= k < |r.subjects| ==> IsInfix(r.subjects[k], Prompt(r))
    ensures IsInfix(r.preferences, Prompt(r))
  {
    TemplateMentions(r, "\n    Create a structured timetable for ", ".\n\n    Details:\n",
      "\n    Output in strict JSON format with this schema:\n",
      "\n    Rules:\n    - Do not include explanations or text outside JSON.\n    - Ensure valid JSON only.\n    ");
  }

  // ---------------------------------------------------------------------------------------
  // The reply check of generate_timetable_json

  /** The reply cut to its JSON text, returned when `json.loads` accepts it; when it does not,
      the raw text is shown and the exception propagates, here the `Err` carrying that text. */
  function GenerateTimetableJson(reply: string, decode: string -> Decoded): (r: Result<string, string>)
    ensures r.Ok? <==> !decode(JsonCandidate(reply)).NotJson?
    ensures r == Ok(JsonCandidate(reply)) || r == Err(JsonCandidate(reply))
  {
    var text := JsonCandidate(reply);
    if decode(text).NotJson? then Err(text) else Ok(text)
  }

  // ---------------------------------------------------------------------------------------
  // json_to_ics

  /** What json_to_ics leaves behind: the file written with the calendar text, or nothing
      written (the error is printed). */
  datatype Outcome = Saved(filename: string, content: string) | NotSaved

  /** The `for` loop grows the calendar text block by block; any failure (the JSON, the
      `events` list, a timestamp) hands control to the `except` before the file is opened, so
      the file is written with the whole document or not at all. `uids[k]` and `clock[k]` are
      what `uuid4()` and `utcnow()` return in the `k`-th turn. */
  method JsonToIcs(jsonText: string, decode: string -> Decoded, uids: seq<string>, clock: seq<DateTime>, filename: string)
    returns (out: Outcome)
    requires decode(jsonText).Events? ==> |uids| == |decode(jsonText).events| && |clock| == |decode(jsonText).events|
    ensures var doc := Document(decode(jsonText), uids, clock);
      out == if doc.Some? then Saved(filename, doc.value) else NotSaved
  {
    var data := decode(jsonText);
    if !data.Events? {
      return NotSaved;
    }
    var events := data.events;
    var content := "BEGIN:VCALENDAR\nVERSION:2.0\nCALSCALE:GREGORIAN\n";
    ghost var rows: seq<Row> := [];
    var i := 0;
    while i < |events|
      invariant 0 <= i <= |events| && |rows| == i
      invariant AllSome(Formatted(events)[..i]) == Some(rows)
      invariant content == Header + Blocks(rows, uids, Stamps(clock))
    {
      var event := events[i];
      var start := ParseIso(event.start);
      if start.None? {
        RenderStuck(events, uids, clock, i);
        return NotSaved;
      }
      var end := ParseIso(event.end);
      if end.None? {
        RenderStuck(events, uids, clock, i);
        return NotSaved;
      }
      var uid := uids[i];
      var dtstamp := FormatStamp(clock[i]);
      ghost var row := Row(event.title, FormatCompact(start.value), FormatCompact(end.value));
      TurnRows(events, i, rows, start.value, end.value);
      TurnText(content, Header, rows, row, uids, Stamps(clock));
      BlockSteps(content, row, uid, dtstamp);
      content := content + "BEGIN:VEVENT\n";
      content := content + ("UID:" + uid + "\n");
      content := content + ("DTSTAMP:" + dtstamp + "\n");
      content := content + ("SUMMARY:" + event.title + "\n");
      content := content + ("DTSTART:" + FormatCompact(start.value) + "\n");
      content := content + ("DTEND:" + FormatCompact(end.value) + "\n");
      content := content + "END:VEVENT\n";
      rows := rows + [row];
      i := i + 1;
    }
    content := content + "END:VCALENDAR";
    RenderDone(events, uids, clock, rows);
    out := Saved(filename, content);
  }

  /** One turn of the main loop after the dialogue: the reply to the prompt is checked, and
      its JSON becomes `<name>_timetable.ics`. An invalid reply ends the program with the
      exception, here `Err`. */
  method CreateTimetable(r: Request, reply: string, decode: string -> Decoded, uids: seq<string>, clock: seq<DateTime>)
    returns (res: Result<Outcome, string>)
    requires decode(JsonCandidate(reply)).Events? ==>
      |uids| == |decode(JsonCandidate(reply)).events| && |clock| == |decode(JsonCandidate(reply)).events|
    ensures res.Err? <==> decode(JsonCandidate(reply)).NotJson?
    ensures res.Err? ==> res.error == JsonCandidate(reply)
    ensures res.Ok? ==> var doc := Document(decode(JsonCandidate(reply)), uids, clock);
      res.value == if doc.Some? then Saved(r.name + "_timetable.ics", doc.value) else NotSaved
  {
    var checked := GenerateTimetableJson(reply, decode);
    if checked.Err? {
      return Err(checked.error);
    }
    var out := JsonToIcs(checked.value, decode, uids, clock, FileName(r.name));
    res := Ok(out);
  }
}
