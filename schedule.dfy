/** The timetable request both programs collect, and the part of the prompt that both prompt
    templates share: the schema they ask the model to answer in and the list of details. */
module Schedule {

  import opened Strings
  import opened Decimal

  /** The user's answers (m.py) or the request body (main.py). */
  datatype Request = Request(
    name: string,
    startDate: string,
    days: int,
    hoursPerDay: int,
    subjects: seq<string>,
    preferences: string)

  /** `", ".join(subjects)`. */
  function SubjectList(r: Request): string
  {
    Join(r.subjects, ", ")
  }

  /** The five detail lines: start date, day count, hours per day, subjects, preferences. */
  function DetailLines(r: Request): seq<string>
  {
    [ "    - Start date: " + r.startDate,
      "    - " + IntToString(r.days) + " days",
      "    - " + IntToString(r.hoursPerDay) + " hours per day",
      "    - Subjects: " + SubjectList(r),
      "    - Preferences: " + r.preferences ]
  }

  /** The detail lines as they stand in both prompts, each ended by a newline. */
  function Details(r: Request): string
  {
    Terminated(DetailLines(r))
  }

  /** The JSON shape both prompts request: an `events` list of title, start and end. */
  const Schema: string :=
    "    {\n"
    + "        \"events\": [\n"
    + "            {\n"
    + "                \"title\": \"Subject Name\",\n"
    + "                \"start\": \"YYYY-MM-DDTHH:MM:SS\",\n"
    + "                \"end\": \"YYYY-MM-DDTHH:MM:SS\"\n"
    + "            }\n"
    + "        ]\n"
    + "    }\n"

  /** A value written at the end of a line stands in that line. */
  lemma {:induction false} EndOfLine(tag: string, x: string)
    ensures IsInfix(x, tag + x)
  {
    InfixOfConcat(tag, x, "");
    assert tag + x + "" == tag + x;
  }

  /** The details name the start date, the day and hour counts in decimal, the subjects
      joined by ", " and the preferences. */
  lemma {:induction false} DetailsMention(r: Request)
    ensures IsInfix(r.startDate, Details(r))
    ensures IsInfix(IntToString(r.days) + " days", Details(r))
    ensures IsInfix(IntToString(r.hoursPerDay) + " hours per day", Details(r))
    ensures IsInfix(SubjectList(r), Details(r))
    ensures IsInfix(r.preferences, Details(r))
  {
    var ls := DetailLines(r);
    var d := IntToString(r.days) + " days";
    var h := IntToString(r.hoursPerDay) + " hours per day";
    EndOfLine("    - Start date: ", r.startDate);
    TerminatedHasLine(ls, 0);
    InfixTrans(r.startDate, ls[0], Details(r));
    assert ls[1] == "    - " + d;
    EndOfLine("    - ", d);
    TerminatedHasLine(ls, 1);
    InfixTrans(d, ls[1], Details(r));
    assert ls[2] == "    - " + h;
    EndOfLine("    - ", h);
    TerminatedHasLine(ls, 2);
    InfixTrans(h, ls[2], Details(r));
    EndOfLine("    - Subjects: ", SubjectList(r));
    TerminatedHasLine(ls, 3);
    InfixTrans(SubjectList(r), ls[3], Details(r));
    EndOfLine("    - Preferences: ", r.preferences);
    TerminatedHasLine(ls, 4);
    InfixTrans(r.preferences, ls[4], Details(r));
  }

  /** Every subject appears in the subject list, in input order: subject `k` is preceded by
      exactly the joined subjects before it. */
  lemma {:induction false} SubjectsInOrder(r: Request, k: nat)
    requires k < |r.subjects|
    ensures IsInfix(r.subjects[k], SubjectList(r))
    ensures SubjectList(r) ==
      (if k == 0 then "" else Join(r.subjects[..k], ", ") + ", ") + r.subjects[k]
      + (if k == |r.subjects| - 1 then "" else ", " + Join(r.subjects[k + 1..], ", "))
  {
    JoinAround(r.subjects, ", ", k);
    JoinContainsPart(r.subjects, ", ", k);
  }

  /** A prompt of the shape `a + name + b + details + c + schema + e` holds its name, its
      details and its schema. */
  lemma {:induction false} TemplateHolds(a: string, name: string, b: string, d: string, c: string, sch: string, e: string)
    ensures var p := a + name + b + d + c + sch + e;
      IsInfix(name, p) && IsInfix(d, p) && IsInfix(sch, p)
  {
    var p := a + name + b + d + c + sch + e;
    InfixOfConcat(a, name, b + d + c + sch + e);
    assert a + name + (b + d + c + sch + e) == p;
    InfixOfConcat(a + name + b, d, c + sch + e);
    assert a + name + b + d + (c + sch + e) == p;
    InfixOfConcat(a + name + b + d + c, sch, e);
  }

  /** A text that holds the details holds every detail, and every subject. */
  lemma {:induction false} MentionsThroughDetails(r: Request, p: string)
    requires IsInfix(Details(r), p)
    ensures IsInfix(r.startDate, p)
    ensures IsInfix(IntToString(r.days) + " days", p)
    ensures IsInfix(IntToString(r.hoursPerDay) + " hours per day", p)
    ensures IsInfix(SubjectList(r), p)
    ensures forall k :: 0 <= k < |r.subjects| ==> IsInfix(r.subjects[k], p)
    ensures IsInfix(r.preferences, p)
  {
    DetailsMention(r);
    InfixTrans(r.startDate, Details(r), p);
    InfixTrans(IntToString(r.days) + " days", Details(r), p);
    InfixTrans(IntToString(r.hoursPerDay) + " hours per day", Details(r), p);
    InfixTrans(SubjectList(r), Details(r), p);
    InfixTrans(r.preferences, Details(r), p);
    forall k | 0 <= k < |r.subjects|
      ensures IsInfix(r.subjects[k], p)
    {
      SubjectsInOrder(r, k);
      InfixTrans(r.subjects[k], SubjectList(r), p);
    }
  }

  /** A prompt of the template's shape, `a + name + b + details + c + schema + e`, holds the name,
      the details and the schema, and through the details every detail and every subject. */
  lemma {:induction false} TemplateMentions(r: Request, a: string, b: string, c: string, e: string)
    ensures var p := a + r.name + b + Details(r) + c + Schema + e;
      && IsInfix(r.name, p) && IsInfix(Details(r), p) && IsInfix(Schema, p)
      && IsInfix(r.startDate, p)
      && IsInfix(IntToString(r.days) + " days", p)
      && IsInfix(IntToString(r.hoursPerDay) + " hours per day", p)
      && IsInfix(SubjectList(r), p)
      && (forall k :: 0 <= k < |r.subjects| ==> IsInfix(r.subjects[k], p))
      && IsInfix(r.preferences, p)
  {
    var p := a + r.name + b + Details(r) + c + Schema + e;
    TemplateHolds(a, r.name, b, Details(r), c, Schema, e);
    MentionsThroughDetails(r, p);
  }
}
