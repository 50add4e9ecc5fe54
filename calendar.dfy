/** The calendar text both programs write: a fixed header, one VEVENT block per event in input
    order, and a footer, joined with "\n" (not the CRLF of RFC 5545, section 3.1, and with no
    TEXT escaping of SUMMARY, section 3.3.11). This is the one specification that the serialisers
    of both programs are proved to meet. */
module Calendar {

  import opened Wrappers
  import opened Strings
  import opened Timestamp

  /** One entry of the model's `events` list. */
  datatype Event = Event(title: string, start: string, end: string)

  /** What reading the model's JSON text yields: `json.loads` raising, a JSON value without an
      `events` list of objects with `title`, `start` and `end` (the lookups raise), or the events. */
  datatype Decoded = NotJson | NoEvents | Events(events: seq<Event>)

  /** The SUMMARY, DTSTART and DTEND values of one block, once both timestamps are reformatted. */
  datatype Row = Row(title: string, dtstart: string, dtend: string)

  const Header: string := "BEGIN:VCALENDAR\nVERSION:2.0\nCALSCALE:GREGORIAN\n"
  const Footer: string := "END:VCALENDAR"
  const HeaderLines: seq<string> := ["BEGIN:VCALENDAR", "VERSION:2.0", "CALSCALE:GREGORIAN"]

  /** The seven `+=` steps of one loop iteration, given the already formatted fields. */
  function VEvent(uid: string, dtstamp: string, title: string, dtstart: string, dtend: string): string
  {
    "BEGIN:VEVENT\n" + ("UID:" + uid + "\n") + ("DTSTAMP:" + dtstamp + "\n") + ("SUMMARY:" + title + "\n")
    + ("DTSTART:" + dtstart + "\n") + ("DTEND:" + dtend + "\n") + "END:VEVENT\n"
  }

  /** Parse and reformat the start, then the end, of one event; `None` when either raises. */
  function FormatEvent(e: Event): Option<Row>
  {
    match (CompactTimestamp(e.start), CompactTimestamp(e.end))
    case (Some(a), Some(b)) => Some(Row(e.title, a, b))
    case _ => None
  }

  /** The outcome of every event, position by position. */
  function Formatted(events: seq<Event>): (ps: seq<Option<Row>>)
    ensures |ps| == |events|
    ensures forall k :: 0 <= k < |events| ==> ps[k] == FormatEvent(events[k])
  {
    seq(|events|, k requires 0 <= k < |events| => FormatEvent(events[k]))
  }

  /** The DTSTAMP value written for each clock reading. */
  function Stamps(clock: seq<DateTime>): (ss: seq<string>)
    ensures |ss| == |clock|
    ensures forall k :: 0 <= k < |clock| ==> ss[k] == FormatStamp(clock[k])
  {
    seq(|clock|, k requires 0 <= k < |clock| => FormatStamp(clock[k]))
  }

  /** All values when there is no `None` among the outcomes, in order; otherwise `None`. */
  function AllSome(ps: seq<Option<Row>>): (r: Option<seq<Row>>)
    ensures r.Some? ==> |r.value| == |ps|
  {
    if |ps| == 0 then Some([])
    else match (AllSome(ps[..|ps| - 1]), ps[|ps| - 1])
      case (Some(rows), Some(row)) => Some(rows + [row])
      case _ => None
  }

  /** The text of one block. */
  function Block(row: Row, uid: string, stamp: string): string
  {
    VEvent(uid, stamp, row.title, row.dtstart, row.dtend)
  }

  /** The blocks of `rows`, in order, each with the UID and DTSTAMP taken at its position. */
  function Blocks(rows: seq<Row>, uids: seq<string>, stamps: seq<string>): string
    requires |rows| <= |uids| && |rows| <= |stamps|
  {
    if |rows| == 0 then ""
    else Blocks(rows[..|rows| - 1], uids, stamps) + Block(rows[|rows| - 1], uids[|rows| - 1], stamps[|rows| - 1])
  }

  /** The calendar document for `events`, given the UID (`uuid4()`) and the clock reading
      (`utcnow()`) taken for each event; `None` when a timestamp fails to parse, in which case
      nothing at all is written. */
  function Render(events: seq<Event>, uids: seq<string>, clock: seq<DateTime>): Option<string>
    requires |uids| == |events| && |clock| == |events|
  {
    match AllSome(Formatted(events))
    case None => None
    case Some(rows) => Some(Header + Blocks(rows, uids, Stamps(clock)) + Footer)
  }

  /** The calendar text for what the JSON reading yields: none without an events list, and
      otherwise the rendering of the events. */
  function Document(d: Decoded, uids: seq<string>, clock: seq<DateTime>): Option<string>
    requires d.Events? ==> |uids| == |d.events| && |clock| == |d.events|
  {
    if d.Events? then Render(d.events, uids, clock) else None
  }

  /** The file name both programs use for a user. */
  function FileName(name: string): (r: string)
    ensures |r| == |name| + 14 && r[..|name|] == name && r[|name|..] == "_timetable.ics"
  {
    name + "_timetable.ics"
  }

  /** The outcomes combine to values exactly when each one is a value, and keep them in order. */
  lemma {:induction false} AllSomeIff(ps: seq<Option<Row>>)
    ensures AllSome(ps).Some? <==> forall k :: 0 <= k < |ps| ==> ps[k].Some?
    ensures AllSome(ps).Some? ==> forall k :: 0 <= k < |ps| ==> AllSome(ps).value[k] == ps[k].value
  {
    if |ps| > 0 {
      var init := ps[..|ps| - 1];
      AllSomeIff(init);
      assert forall k :: 0 <= k < |init| ==> init[k] == ps[k];
    }
  }

  /** Extending the outcomes by one value extends the combined values by it ... */
  lemma {:induction false} AllSomeSnoc(ps: seq<Option<Row>>, rows: seq<Row>, row: Row)
    requires AllSome(ps) == Some(rows)
    ensures AllSome(ps + [Some(row)]) == Some(rows + [row])
  {
    assert (ps + [Some(row)])[..|ps|] == ps;
  }

  /** ... and by a `None` makes them `None`. */
  lemma {:induction false} AllSomeSnocNone(ps: seq<Option<Row>>)
    ensures AllSome(ps + [None]) == None
  {
    assert (ps + [None])[..|ps|] == ps;
  }

  /** All-or-nothing: no document at all when any one start or end fails to parse, and a
      document whenever every one parses. */
  lemma {:induction false} RenderFailsIff(events: seq<Event>, uids: seq<string>, clock: seq<DateTime>)
    requires |uids| == |events| && |clock| == |events|
    ensures Render(events, uids, clock).None? <==>
      exists k :: 0 <= k < |events| && (ParseIso(events[k].start).None? || ParseIso(events[k].end).None?)
  {
    var ps := Formatted(events);
    AllSomeIff(ps);
    if AllSome(ps).None? {
      var k :| 0 <= k < |ps| && ps[k].None?;
      assert FormatEvent(events[k]).None?;
    } else {
      forall k | 0 <= k < |events|
        ensures ParseIso(events[k].start).Some? && ParseIso(events[k].end).Some?
      {
        assert ps[k].Some?;
      }
    }
  }

  /** One turn of either serialiser's loop, on the outcomes: the next outcome is a row, and the
      rows so far gain it at the end. */
  lemma {:induction false} AllSomeStep(ps: seq<Option<Row>>, i: nat, rows: seq<Row>, row: Row)
    requires i < |ps| && AllSome(ps[..i]) == Some(rows) && ps[i] == Some(row)
    ensures AllSome(ps[..i + 1]) == Some(rows + [row])
  {
    assert ps[..i + 1] == ps[..i] + [Some(row)];
    AllSomeSnoc(ps[..i], rows, row);
  }

  /** One turn of either serialiser's loop, on the text: the new block follows the blocks so far. */
  lemma {:induction false} BlocksSnoc(rows: seq<Row>, row: Row, uids: seq<string>, stamps: seq<string>)
    requires |rows| < |uids| && |rows| < |stamps|
    ensures Blocks(rows + [row], uids, stamps) == Blocks(rows, uids, stamps) + Block(row, uids[|rows|], stamps[|rows|])
  {
    var all, n := rows + [row], |rows|;
    assert all[..n] == rows;
    assert all[n] == row;
    assert Blocks(all, uids, stamps) == Blocks(all[..n], uids, stamps) + Block(all[n], uids[n], stamps[n]);
  }

  /** One whole turn of either serialiser's loop on the outcomes: when the next event's start
      and end parse, the rows so far gain its row. */
  lemma {:induction false} TurnRows(events: seq<Event>, i: nat, rows: seq<Row>, start: DateTime, end: DateTime)
    requires i < |events| && AllSome(Formatted(events)[..i]) == Some(rows)
    requires ParseIso(events[i].start) == Some(start) && ParseIso(events[i].end) == Some(end)
    ensures AllSome(Formatted(events)[..i + 1]) == Some(rows + [Row(events[i].title, FormatCompact(start), FormatCompact(end))])
  {
    var row := Row(events[i].title, FormatCompact(start), FormatCompact(end));
    assert Formatted(events)[i] == Some(row);
    AllSomeStep(Formatted(events), i, rows, row);
  }

  /** One whole turn of either serialiser's loop on the text: the block of one more row
      follows the header and blocks so far. */
  lemma {:induction false} TurnText(content: string, h: string, rows: seq<Row>, row: Row, uids: seq<string>, stamps: seq<string>)
    requires |rows| < |uids| && |rows| < |stamps|
    requires content == h + Blocks(rows, uids, stamps)
    ensures content + Block(row, uids[|rows|], stamps[|rows|]) == h + Blocks(rows + [row], uids, stamps)
  {
    BlocksSnoc(rows, row, uids, stamps);
    ConcatAssoc(h, Blocks(rows, uids, stamps), Block(row, uids[|rows|], stamps[|rows|]));
  }

  /** The seven `+=` steps of one turn append the block. */
  lemma {:induction false} BlockSteps(c: string, row: Row, uid: string, stamp: string)
    ensures c + "BEGIN:VEVENT\n" + ("UID:" + uid + "\n") + ("DTSTAMP:" + stamp + "\n")
      + ("SUMMARY:" + row.title + "\n") + ("DTSTART:" + row.dtstart + "\n") + ("DTEND:" + row.dtend + "\n") + "END:VEVENT\n"
      == c + Block(row, uid, stamp)
  {
    SevenSteps(c, "BEGIN:VEVENT\n", "UID:" + uid + "\n", "DTSTAMP:" + stamp + "\n",
      "SUMMARY:" + row.title + "\n", "DTSTART:" + row.dtstart + "\n", "DTEND:" + row.dtend + "\n", "END:VEVENT\n");
  }

  /** An event whose start or end does not parse leaves no document. */
  lemma {:induction false} RenderStuck(events: seq<Event>, uids: seq<string>, clock: seq<DateTime>, i: nat)
    requires |uids| == |events| && |clock| == |events| && i < |events|
    requires FormatEvent(events[i]).None?
    ensures Render(events, uids, clock).None?
  {
    AllSomeIff(Formatted(events));
  }

  /** Once every event is formatted, the document is the header, the blocks and the footer. */
  lemma {:induction false} RenderDone(events: seq<Event>, uids: seq<string>, clock: seq<DateTime>, rows: seq<Row>)
    requires |uids| == |events| && |clock| == |events|
    requires AllSome(Formatted(events)[..|events|]) == Some(rows)
    ensures Render(events, uids, clock) == Some(Header + Blocks(rows, uids, Stamps(clock)) + Footer)
  {
    assert Formatted(events)[..|events|] == Formatted(events);
  }

  /** Seven `+=` steps append what one `+` of the seven parts does. */
  lemma {:induction false} SevenSteps(c: string, p1: string, p2: string, p3: string, p4: string, p5: string, p6: string, p7: string)
    ensures c + p1 + p2 + p3 + p4 + p5 + p6 + p7 == c + (p1 + p2 + p3 + p4 + p5 + p6 + p7)
  {
  }

  /** No calendar text exactly when the JSON has no events list, or one of its events has a
      start or end that does not parse. */
  lemma {:induction false} DocumentFailsIff(d: Decoded, uids: seq<string>, clock: seq<DateTime>)
    requires d.Events? ==> |uids| == |d.events| && |clock| == |d.events|
    ensures Document(d, uids, clock).None? <==>
      || !d.Events?
      || exists k :: 0 <= k < |d.events| && (ParseIso(d.events[k].start).None? || ParseIso(d.events[k].end).None?)
  {
    if d.Events? {
      RenderFailsIff(d.events, uids, clock);
    }
  }

  /** The lines of one block, as read back by splitting on "\n". */
  function EventLines(row: Row, uid: string, stamp: string): seq<string>
  {
    [ "BEGIN:VEVENT", "UID:" + uid, "DTSTAMP:" + stamp, "SUMMARY:" + row.title,
      "DTSTART:" + row.dtstart, "DTEND:" + row.dtend, "END:VEVENT" ]
  }

  /** The lines of the blocks of `rows`. */
  function BodyLines(rows: seq<Row>, uids: seq<string>, stamps: seq<string>): seq<string>
    requires |rows| <= |uids| && |rows| <= |stamps|
  {
    if |rows| == 0 then []
    else BodyLines(rows[..|rows| - 1], uids, stamps) + EventLines(rows[|rows| - 1], uids[|rows| - 1], stamps[|rows| - 1])
  }

  lemma {:induction false} TerminatedSeven(ls: seq<string>)
    requires |ls| == 7
    ensures Terminated(ls) == ls[0] + "\n" + ls[1] + "\n" + ls[2] + "\n" + ls[3] + "\n" + ls[4] + "\n" + ls[5] + "\n" + ls[6] + "\n"
  {
    var t6 := ls[6] + "\n";
    assert Terminated(ls[6..]) == t6 by { assert ls[6..][1..] == []; }
    assert Terminated(ls[5..]) == ls[5] + "\n" + t6 by { assert ls[5..][1..] == ls[6..]; }
    assert Terminated(ls[4..]) == ls[4] + "\n" + Terminated(ls[5..]) by { assert ls[4..][1..] == ls[5..]; }
    assert Terminated(ls[3..]) == ls[3] + "\n" + Terminated(ls[4..]) by { assert ls[3..][1..] == ls[4..]; }
    assert Terminated(ls[2..]) == ls[2] + "\n" + Terminated(ls[3..]) by { assert ls[2..][1..] == ls[3..]; }
    assert Terminated(ls[1..]) == ls[1] + "\n" + Terminated(ls[2..]) by { assert ls[1..][1..] == ls[2..]; }
  }

  /** A block is its seven lines, each followed by a newline. */
  lemma {:induction false} BlockLines(row: Row, uid: string, stamp: string)
    ensures Block(row, uid, stamp) == Terminated(EventLines(row, uid, stamp))
  {
    TerminatedSeven(EventLines(row, uid, stamp));
  }

  /** The blocks, read as lines, are the body lines. */
  lemma {:induction false} BlocksLines(rows: seq<Row>, uids: seq<string>, stamps: seq<string>)
    requires |rows| <= |uids| && |rows| <= |stamps|
    ensures Blocks(rows, uids, stamps) == Terminated(BodyLines(rows, uids, stamps))
  {
    if |rows| > 0 {
      var n := |rows|;
      BlocksLines(rows[..n - 1], uids, stamps);
      BlockLines(rows[n - 1], uids[n - 1], stamps[n - 1]);
      TerminatedConcat(BodyLines(rows[..n - 1], uids, stamps), EventLines(rows[n - 1], uids[n - 1], stamps[n - 1]));
    }
  }

  /** Block `k` of seven-line blocks, after one more block is appended. */
  lemma {:induction false} SevenAt(prev: seq<string>, last: seq<string>, m: nat, k: nat)
    requires |prev| == 7 * m && |last| == 7 && k <= m
    ensures (prev + last)[7 * k..7 * k + 7] == if k < m then prev[7 * k..7 * k + 7] else last
  {
  }

  /** Body lines: seven per event, in input order. */
  lemma {:induction false} BodyLinesAt(rows: seq<Row>, uids: seq<string>, stamps: seq<string>)
    requires |rows| <= |uids| && |rows| <= |stamps|
    ensures |BodyLines(rows, uids, stamps)| == 7 * |rows|
    ensures forall k :: 0 <= k < |rows| ==>
      BodyLines(rows, uids, stamps)[7 * k..7 * k + 7] == EventLines(rows[k], uids[k], stamps[k])
  {
    if |rows| > 0 {
      var n := |rows|;
      var init := rows[..n - 1];
      BodyLinesAt(init, uids, stamps);
      var prev := BodyLines(init, uids, stamps);
      var last := EventLines(rows[n - 1], uids[n - 1], stamps[n - 1]);
      forall k | 0 <= k < n
        ensures (prev + last)[7 * k..7 * k + 7] == EventLines(rows[k], uids[k], stamps[k])
      {
        SevenAt(prev, last, n - 1, k);
        if k < n - 1 {
          assert init[k] == rows[k];
        }
      }
    }
  }

  /** No field of a block holds a newline. */
  predicate RowClean(row: Row, uid: string, stamp: string)
  {
    '\n' !in row.title && '\n' !in row.dtstart && '\n' !in row.dtend && '\n' !in uid && '\n' !in stamp
  }

  /** No body line holds a newline when no field does. */
  lemma {:induction false} BodyLinesNoNewline(rows: seq<Row>, uids: seq<string>, stamps: seq<string>)
    requires |rows| <= |uids| && |rows| <= |stamps|
    requires forall k :: 0 <= k < |rows| ==> RowClean(rows[k], uids[k], stamps[k])
    ensures NoNewlines(BodyLines(rows, uids, stamps))
  {
    if |rows| > 0 {
      var n := |rows|;
      BodyLinesNoNewline(rows[..n - 1], uids, stamps);
      NoNewlinesConcat(BodyLines(rows[..n - 1], uids, stamps), EventLines(rows[n - 1], uids[n - 1], stamps[n - 1]));
    }
  }

  /** The header is its three lines, each followed by a newline, none holding another one. */
  lemma HeaderShape()
    ensures Header == Terminated(HeaderLines)
    ensures NoNewlines(HeaderLines) && '\n' !in Footer
  {
    HeaderText();
    HeaderClean();
  }

  lemma HeaderText()
    ensures Header == Terminated(HeaderLines)
  {
    assert HeaderLines[1..][1..][1..] == [];
  }

  lemma HeaderClean()
    ensures NoNewlines(HeaderLines) && '\n' !in Footer
  {
  }

  /** A document split on newlines: the header lines, the body lines, the footer. */
  lemma {:induction false} DocumentLines(rows: seq<Row>, uids: seq<string>, stamps: seq<string>)
    requires |rows| <= |uids| && |rows| <= |stamps|
    requires forall k :: 0 <= k < |rows| ==> RowClean(rows[k], uids[k], stamps[k])
    ensures SplitLines(Header + Blocks(rows, uids, stamps) + Footer) == HeaderLines + BodyLines(rows, uids, stamps) + [Footer]
  {
    var body := BodyLines(rows, uids, stamps);
    var all := HeaderLines + body;
    BlocksLines(rows, uids, stamps);
    BodyLinesNoNewline(rows, uids, stamps);
    HeaderShape();
    TerminatedConcat(HeaderLines, body);
    NoNewlinesConcat(HeaderLines, body);
    SplitTerminated(all, Footer);
  }

  /** A slice of the middle part of three concatenated line lists, and its two ends. */
  lemma {:induction false} MiddleSlice(h: seq<string>, b: seq<string>, f: seq<string>, i: nat, j: nat)
    requires i <= j <= |b|
    ensures (h + b + f)[|h| + i..|h| + j] == b[i..j]
    ensures (h + b + f)[..|h|] == h
    ensures |f| > 0 ==> (h + b + f)[|h + b + f| - 1] == f[|f| - 1]
  {
    var d := h + b + f;
    assert d[..|h|] == h;
    assert forall k :: 0 <= k < |b| ==> d[|h| + k] == b[k];
  }

  /** The lines of a document: header, seven lines per event in order, footer. */
  lemma {:induction false} DocumentShape(rows: seq<Row>, uids: seq<string>, stamps: seq<string>)
    requires |rows| <= |uids| && |rows| <= |stamps|
    requires forall k :: 0 <= k < |rows| ==> RowClean(rows[k], uids[k], stamps[k])
    ensures var lines := SplitLines(Header + Blocks(rows, uids, stamps) + Footer);
      && |lines| == 3 + 7 * |rows| + 1
      && lines[..3] == HeaderLines
      && lines[|lines| - 1] == Footer
      && forall k :: 0 <= k < |rows| ==> lines[3 + 7 * k..3 + 7 * k + 7] == EventLines(rows[k], uids[k], stamps[k])
  {
    DocumentLines(rows, uids, stamps);
    BodyLinesAt(rows, uids, stamps);
    var body := BodyLines(rows, uids, stamps);
    forall k | 0 <= k < |rows|
      ensures (HeaderLines + body + [Footer])[3 + 7 * k..3 + 7 * k + 7] == EventLines(rows[k], uids[k], stamps[k])
    {
      MiddleSlice(HeaderLines, body, [Footer], 7 * k, 7 * k + 7);
    }
    MiddleSlice(HeaderLines, body, [Footer], 0, 0);
  }

  /** The rows of a rendered document are the events' titles with their reformatted timestamps,
      and none of their fields, nor any DTSTAMP, holds a newline when no title or UID does. */
  lemma {:induction false} RowsOfRender(events: seq<Event>, uids: seq<string>, clock: seq<DateTime>, rows: seq<Row>)
    requires |uids| == |events| && |clock| == |events|
    requires AllSome(Formatted(events)) == Some(rows)
    requires forall k :: 0 <= k < |events| ==> '\n' !in events[k].title && '\n' !in uids[k]
    ensures |rows| == |events|
    ensures forall k :: 0 <= k < |events| ==>
      && CompactTimestamp(events[k].start).Some? && CompactTimestamp(events[k].end).Some?
      && rows[k] == Row(events[k].title, CompactTimestamp(events[k].start).value, CompactTimestamp(events[k].end).value)
    ensures forall k :: 0 <= k < |rows| ==> RowClean(rows[k], uids[k], Stamps(clock)[k])
  {
    var ps := Formatted(events);
    AllSomeIff(ps);
    forall k | 0 <= k < |events|
      ensures && CompactTimestamp(events[k].start).Some? && CompactTimestamp(events[k].end).Some?
              && rows[k] == Row(events[k].title, CompactTimestamp(events[k].start).value, CompactTimestamp(events[k].end).value)
              && RowClean(rows[k], uids[k], Stamps(clock)[k])
    {
      assert ps[k].Some? && rows[k] == ps[k].value;
      CompactShape(ParseIso(events[k].start).value);
      CompactShape(ParseIso(events[k].end).value);
      StampShape(clock[k]);
    }
  }

  /** Read back line by line (`split("\n")`), a document for N events has 3 header lines, then
      N seven-line VEVENT blocks in input order, then `END:VCALENDAR`: 3 + 7N + 1 lines. This
      holds when no title or UID contains a newline (titles are copied unescaped). */
  lemma {:induction false} RenderLines(events: seq<Event>, uids: seq<string>, clock: seq<DateTime>)
    requires |uids| == |events| && |clock| == |events|
    requires Render(events, uids, clock).Some?
    requires forall k :: 0 <= k < |events| ==> '\n' !in events[k].title && '\n' !in uids[k]
    ensures var lines := SplitLines(Render(events, uids, clock).value);
      && |lines| == 3 + 7 * |events| + 1
      && lines[..3] == ["BEGIN:VCALENDAR", "VERSION:2.0", "CALSCALE:GREGORIAN"]
      && lines[|lines| - 1] == "END:VCALENDAR"
      && forall k :: 0 <= k < |events| ==>
           CompactTimestamp(events[k].start).Some? && CompactTimestamp(events[k].end).Some?
           && lines[3 + 7 * k..3 + 7 * k + 7] ==
              [ "BEGIN:VEVENT", "UID:" + uids[k], "DTSTAMP:" + FormatStamp(clock[k]), "SUMMARY:" + events[k].title,
                "DTSTART:" + CompactTimestamp(events[k].start).value, "DTEND:" + CompactTimestamp(events[k].end).value,
                "END:VEVENT" ]
  {
    var rows := AllSome(Formatted(events)).value;
    var stamps := Stamps(clock);
    RowsOfRender(events, uids, clock, rows);
    DocumentShape(rows, uids, stamps);
  }

  /** The first and last parts of a three-part text. */
  lemma {:induction false} Framed(h: string, b: string, f: string)
    ensures var d := h + b + f; |d| >= |h| + |f| && d[..|h|] == h && d[|d| - |f|..] == f
  {
    var d := h + b + f;
    assert d[..|h|] == h;
    assert d[|d| - |f|..] == f;
  }

  /** The document begins with exactly the three header lines and ends with `END:VCALENDAR`,
      with no newline after it. */
  lemma {:induction false} RenderFrame(events: seq<Event>, uids: seq<string>, clock: seq<DateTime>)
    requires |uids| == |events| && |clock| == |events|
    requires Render(events, uids, clock).Some?
    ensures var doc := Render(events, uids, clock).value;
      && |doc| >= |Header| + |Footer|
      && doc[..|Header|] == "BEGIN:VCALENDAR\nVERSION:2.0\nCALSCALE:GREGORIAN\n"
      && doc[|doc| - |Footer|..] == "END:VCALENDAR"
  {
    Framed(Header, Blocks(AllSome(Formatted(events)).value, uids, Stamps(clock)), Footer);
  }

  /** No events: header and footer only. */
  lemma RenderEmpty()
    ensures Render([], [], []) == Some("BEGIN:VCALENDAR\nVERSION:2.0\nCALSCALE:GREGORIAN\nEND:VCALENDAR")
  {
    assert AllSome(Formatted([])) == Some([]);
    assert Header + "" + Footer == "BEGIN:VCALENDAR\nVERSION:2.0\nCALSCALE:GREGORIAN\nEND:VCALENDAR";
  }
}
