# Smart TimeTable: a verified model of its string core

Smart TimeTable gathers a student's name, start date, day and hour counts, subjects and
preferences. It asks a generative model for a timetable in JSON, then turns the JSON into an
iCalendar (`.ics`) file. The tool comes in two shells:

- `m.py`, a console program;
- `main.py`, a FastAPI service.

Both shells share four deterministic pieces, and this project models them and proves
properties about them:

- **The prompt template.** It holds the details and the requested schema (`Schedule`, `Cli.Prompt`, `Service.Prompt`).
- **The subject collector.** It reads subject lines until the first line `done`, in any letter case (`Cli.CollectSubjects`).
- **The reply cleaning.** `strip()` is applied, then the text is cut to the span from the first `{` to the last `}` (`Strings.Strip`, `Extraction.ExtractJson`). `Extraction.ExtractJson` stands for the regular-expression search and its `group(0)`; `Extraction.JsonCandidate` is the two steps together.
- **The calendar serialiser.** A loop appends one seven-line `VEVENT` block per event (`Cli.JsonToIcs`, `Service.GenerateIcs`). Both loops are proved against one specification function, `Calendar.Document`: the calendar text for what the JSON reading yields, which applies `Calendar.Render` to the events. `Service.SameCalendar` shows the two programs produce the same text.

Modules, one per file:

| module | file | role |
|---|---|---|
| `Wrappers` | wrappers.dfy | `Option`, `Result` |
| `Strings` | strings.dfy | substring, first and last index, `join`, Python whitespace and `strip()`, line splitting |
| `Decimal` | decimal.dfy | `str(int)` and its inverse |
| `Extraction` | extraction.dfy | the brace-span search (`ExtractJson`), and what the programs hand to `json.loads` (`JsonCandidate`) |
| `Timestamp` | timestamp.dfy | `datetime.fromisoformat` on the schema form, and the two `strftime` patterns |
| `Calendar` | calendar.dfy | the calendar document as a function (`Render` on events, `Document` on the JSON reading), and its line structure |
| `Schedule` | schedule.dfy | the request record and the prompt's shared detail lines |
| `Cli` | cli.dfy | `m.py`: the subject loop, its prompt, the reply check, `json_to_ics`, one round of the main loop |
| `Service` | service.dfy | `main.py`: the request default, its prompt, the `/generate-ics` handler |

Things the code does nondeterministically or through foreign calls become parameters:

- **The model's reply** is a `reply: string`.
- **`json.loads`** is a function `decode: string -> Decoded`. A `Decoded` value is one of:
  - invalid JSON;
  - JSON without a usable `events` list;
  - the list of `Event(title, start, end)`.
- **`uuid4()`** becomes `uids[k]`, the value returned in the `k`-th turn of the loop.
- **`utcnow()`** becomes `clock[k]`, the value returned in the `k`-th turn of the loop.

The code calls `utcnow()` once per event, inside the loop, so every block gets its own DTSTAMP.

## Model

| member | source | states |
|---|---|---|
| Strings.FirstIndex | m.py:75-77 | the index found holds the character and no earlier index does; `None` exactly when the character is absent |
| Strings.LastIndex | m.py:75-77 | the index found holds the character and no later index does; `None` exactly when the character is absent |
| Strings.JoinAround | m.py:50 | in `", ".join(parts)` each part stands between the join of the parts before it and the join of the parts after it, so the order is kept |
| Strings.JoinContainsPart | m.py:50 | every part is a substring of the join |
| Strings.LeadingSpace | m.py:70 | the count of leading characters that `str.isspace()` accepts; the next character, if any, is not whitespace |
| Strings.SpaceBefore | m.py:70 | the count of whitespace characters ending the prefix `s[..e]`; the character before them, if any, is not whitespace |
| Strings.Strip | m.py:70 | `str.strip()`: the result is the slice after the leading whitespace; only whitespace is cut on either side; the result neither starts nor ends with whitespace |
| Decimal.NatToString | m.py:48-49 | `str(n)` is non-empty, only digits, and has no leading zero except for 0 |
| Decimal.ValueOfNatToString | m.py:48-49 | the digits of `str(n)` denote `n` |
| Decimal.IntToStringRoundTrip | m.py:48-49 | parsing the decimal text of any integer, negative ones included, gives the integer back |
| Decimal.IntToStringInjective | m.py:48-49 | distinct integers have distinct decimal texts (`str` is injective on `int`) |
| Extraction.ExtractAt | m.py:75-77 | when the first `{` is at `f` and the last `}` is at `l > f`, the extracted text is `s[f..l+1]` |
| Extraction.HasSpanIff | m.py:75-77 | the pattern matches somewhere exactly when the first `{` comes before the last `}` |
| Extraction.ExtractIsSearchResult | m.py:75-77 | on a match, the first-`{`/last-`}` span is the leftmost-longest match that `re.search` reports, and the extractor returns it |
| Extraction.ExtractMatchesSearch | main.py:73-75 | for any span meeting `re.search`'s leftmost-longest rule, the extractor returns exactly that span |
| Extraction.ExtractWithoutSpan | main.py:73-75 | with no match, the text passes through unchanged |
| Extraction.ExtractShape | m.py:75-77 | on a match, the result is a substring starting with `{` and ending with `}`; no `{` is cut off before it and no `}` after it |
| Extraction.ExtractIsInfix | m.py:75-77 | the result is always a substring of the text |
| Extraction.ExtractOfBraced | m.py:75-77 | a text running from `{` to `}` is its own span |
| Extraction.ExtractIdempotent | m.py:75-77 | extracting twice is extracting once |
| Extraction.ExtractFixpoint | m.py:75-77 | the text is unchanged exactly when it has no match or already runs from `{` to `}` |
| Extraction.ExtractAfterStrip | m.py:70-77 | on a match, `strip()` before the search changes nothing about what is extracted |
| Extraction.ExtractAfterTrim | m.py:70-77 | cutting whitespace from either end of a text with a match keeps the match and the extracted span |
| Extraction.NoSpanPiece | main.py:70-75 | a slice of a text without a match is passed on unchanged and is a substring of it |
| Extraction.NoSpanInside | main.py:70-75 | a slice of a text without a match has no match either |
| Extraction.JsonCandidate | m.py:70-77 | the text given to `json.loads` is a substring of the raw reply. With a match it is the raw reply's first `{` to last `}`; without one it is the stripped reply |
| Extraction.CandidateFacts | main.py:70-77 | the same three facts, about the strip-then-extract composition |
| Extraction.CandidateWithSpan | m.py:70-77 | with a match, strip-then-extract yields the raw reply's span, a substring of the reply |
| Extraction.CandidateWithoutSpan | main.py:70-77 | without a match, strip-then-extract yields the stripped reply, a substring of the reply |
| Extraction.GreedySpansTwoObjects | m.py:75-77 | two objects with prose between them are spanned together, the greedy match |
| Extraction.ProseAroundObject | m.py:75-77 | prose around a single object is cut away |
| Extraction.NoBracesUnchanged | m.py:75-77 | a text without braces is handed to the parser as it is |
| Timestamp.Pad2 | m.py:102 | `%m %d %H %M %S` give exactly two digits |
| Timestamp.Pad4 | m.py:102 | `%Y` gives exactly four digits |
| Timestamp.TwoOfPad2 | m.py:93 | a two-digit padded field reads back as its value |
| Timestamp.FourOfPad4 | m.py:93 | a padded year reads back as its value |
| Timestamp.Pad2OfTwo | m.py:102 | rewriting a parsed two-digit field gives the same two characters |
| Timestamp.Pad4OfFour | m.py:102 | rewriting a parsed year gives the same four characters |
| Timestamp.ParseOfFormatIso | m.py:93 | for a date-time whose year is below 10000 and whose other fields are below 100, the schema form reads back field by field, and it parses exactly when the date-time is valid |
| Timestamp.FormatIsoOfParse | m.py:93 | every string that `fromisoformat` accepts here is the schema form of its value, so parsing loses nothing |
| Timestamp.CompactDropsSeparators | m.py:102-103 | a timestamp that parses is rewritten to its own digits with `-` and `:` removed |
| Timestamp.CompactShape | m.py:102-103 | the compact form has 15 characters, digits around a `T`, and no newline |
| Timestamp.StampShape | m.py:96 | the DTSTAMP form is the compact form followed by `Z`, 16 characters, with no newline |
| Timestamp.ParseExample | m.py:58 | `2024-01-01T09:00:00` parses to 1 January 2024, 09:00:00 |
| Timestamp.CompactExample | m.py:102 | `2024-01-01T09:00:00` is written as `20240101T090000` |
| Timestamp.CompactEndExample | m.py:103 | `2024-01-01T10:00:00` is written as `20240101T100000` |
| Timestamp.RejectsMissingDay | m.py:93 | 29 February 2023 is a parse failure |
| Timestamp.AcceptsLeapDay | m.py:93 | 29 February 2024 is accepted |
| Calendar.AllSome | m.py:92-94 | once every outcome is combined, there is one row per event |
| Calendar.FileName | m.py:125 | the file name is the user's name followed by `_timetable.ics` |
| Calendar.AllSomeIff | m.py:92-94 | the rows exist exactly when every event parses, and they are the events' rows in order |
| Calendar.AllSomeSnoc | m.py:92-104 | one more parsed event adds its row at the end |
| Calendar.AllSomeSnocNone | m.py:93-94 | one failed event leaves no rows |
| Calendar.RenderFailsIff | m.py:92-114 | all or nothing: there is no document exactly when some start or end fails to parse |
| Calendar.AllSomeStep | m.py:92-104 | one loop turn on the outcomes: the rows so far gain the next row |
| Calendar.BlocksSnoc | m.py:98-104 | one loop turn on the text: the new block follows the blocks so far |
| Calendar.TurnRows | m.py:92-104 | a turn whose start and end parse adds the block's row, with the title and the compact timestamps |
| Calendar.TurnText | m.py:98-104 | a turn appends exactly the block of the new row after the header and the blocks so far |
| Calendar.BlockSteps | m.py:98-104 | the seven `+=` steps append one block |
| Calendar.RenderStuck | m.py:93-94 | a start or end that fails to parse leaves no document |
| Calendar.RenderDone | m.py:106 | once the loop ends, the document is the header, the blocks and the footer |
| Calendar.DocumentFailsIff | m.py:88-114 | there is no document exactly when the JSON has no events list or some event's start or end fails to parse |
| Calendar.BlockLines | m.py:98-104 | a block is its seven lines, each followed by a newline |
| Calendar.BlocksLines | m.py:92-104 | the blocks are the body lines, each followed by a newline |
| Calendar.BodyLinesAt | m.py:92-104 | the body has seven lines per event, block `k` holding event `k` |
| Calendar.BodyLinesNoNewline | m.py:98-104 | no body line holds a newline when no field does |
| Calendar.HeaderShape | m.py:90 | the header is its three lines, each followed by a newline; the footer holds no newline |
| Calendar.HeaderText | m.py:90 | the header is `BEGIN:VCALENDAR`, `VERSION:2.0` and `CALSCALE:GREGORIAN`, each followed by a newline |
| Calendar.HeaderClean | m.py:106 | no header line and not the footer holds a newline |
| Calendar.DocumentLines | m.py:90-106 | when no row field, UID or DTSTAMP holds a newline, a document split on newlines is the header lines, the body lines and the footer |
| Calendar.DocumentShape | m.py:90-106 | when no row field, UID or DTSTAMP holds a newline, a document of N rows has 3 + 7N + 1 lines. It opens with the header, ends with the footer, and block `k` holds row `k` |
| Calendar.RowsOfRender | m.py:92-104 | the rows of a document are the events' titles with their compact timestamps, in order; when no title or UID holds a newline, no row field, UID or DTSTAMP holds one |
| Calendar.RenderLines | m.py:90-106 | when no title or UID holds a newline, a document for N events read back line by line has 3 header lines, the N seven-line blocks in input order (title verbatim, compact start and end, its own UID and DTSTAMP) and `END:VCALENDAR` |
| Calendar.RenderFrame | m.py:90-106 | a document starts with exactly the three header lines and ends with `END:VCALENDAR`, with no newline after it |
| Calendar.RenderEmpty | m.py:90-106 | with no events, the document is the header and the footer only |
| Schedule.DetailsMention | m.py:47-51 | the detail lines hold the start date, the decimal day and hour counts, the subjects joined by `", "`, and the preferences |
| Schedule.SubjectsInOrder | m.py:50 | within the subject list, subject `k` comes right after the joined subjects before it, so input order is kept |
| Schedule.MentionsThroughDetails | m.py:43-67 | a text holding the detail lines holds every detail and every subject |
| Schedule.TemplateMentions | m.py:43-67 | any prompt built as fixed text around the name, the detail lines and the schema holds the name, the schema, every detail (decimal counts included) and every subject; both programs' prompts are instances |
| Cli.IsDoneIff | m.py:25 | a line stops the loop exactly when it is the four letters d, o, n, e, each in either case |
| Cli.DoneSpellings | m.py:25 | `done`, `Done`, `DONE` and `dOnE` stop the loop; `done.`, ` done`, `don` and the empty line do not |
| Cli.FirstDone | m.py:23-27 | the position of the first sentinel line; no earlier line is one |
| Cli.CollectSubjects | m.py:21-27 | the subjects are exactly the lines before the first sentinel, in order; the sentinel is dropped and reading stops there; input that ends first is an EOF error |
| Cli.PromptMentions | m.py:43-67 | the console prompt holds the name, the schema, the start date, the decimal day and hour counts, the joined subjects, each subject and the preferences |
| Cli.GenerateTimetableJson | m.py:70-84 | the result is the extracted text, accepted exactly when `json.loads` accepts it; otherwise the error carries that text |
| Cli.JsonToIcs | m.py:87-114 | the file is saved with exactly the rendered document when there is one; otherwise nothing is saved |
| Cli.CreateTimetable | m.py:119-125 | one round after the dialogue fails exactly on invalid JSON, showing the extracted text; otherwise `<name>_timetable.ics` is saved with the rendered document, or nothing is saved |
| Service.NewRequest | main.py:33-39 | the request copies every field; `preferences` is `""` when omitted |
| Service.OmittedPreferencesLine | main.py:39 | without preferences, the prompt's preferences line ends right after its label |
| Service.PromptMentions | main.py:48-67 | the service prompt holds the name, the schema, the start date, the decimal day and hour counts, the joined subjects, each subject and the preferences |
| Service.GenerateIcs | main.py:84-110 | succeeds exactly when the document exists; it then sends `<name>_timetable.ics` as `text/calendar` with the document as content |
| Service.SameCalendar | main.py:90-105 | for the same reply, reader, UIDs and clock, the service sends exactly the text and file name the console saves, and fails exactly when the console saves nothing |

## Left out

- The Gemini calls and their configuration are a remote, nondeterministic service. The reply text is a parameter.
- `json.loads` is a foreign parser. It is the `decode` parameter: a `Decoded` value is invalid JSON, a value without a usable `events` list of objects with `title`, `start` and `end`, or the events. Titles are modelled as strings; a non-string title that Python would format with `str()` is not modelled.
- `Timestamp.ParseIso`: only the 19-character schema form `YYYY-MM-DDTHH:MM:SS` counts as valid. The other forms `datetime.fromisoformat` accepts (dates alone, fractions, offsets, variations between Python versions) are treated as failures.
- `Timestamp.Pad4`: years below 1000 are padded to four digits. The C library behind `strftime("%Y")` may print fewer digits.
- `uuid4()` and `utcnow()` are the `uids` and `clock` parameters. UIDs are not required to be unique.
- `Cli.Lower`: ASCII case folding only. This is exact for the comparison with `done`, since only ASCII letters fold to those four letters.
- `Cli.CollectSubjects`: console I/O is not modelled, so lines are a `seq<string>`. Neither are the other prompts of the dialogue (name, start date, `int()` of the two counts, preferences). Only the subject loop is modelled.
- The main loop of `m.py` is modelled as one round (`Cli.CreateTimetable`). The "create another timetable?" repetition and the printing are not modelled.
- The error texts carried by `Err` stand for Python's exceptions and are illustrative.
- Console printing of diagnostics is not modelled.
- The file writes (`open`/`write`) and FastAPI's `FileResponse` are modelled as the content they would carry (`Cli.Saved`, `Service.Attachment`).
- `Cli.JsonToIcs`, `Cli.CreateTimetable`, `Service.GenerateIcs`, `Service.SameCalendar`: `Saved` and `Ok` assume that `open` and `write` succeed. A write can fail, for example on a name holding a `/` into a directory that does not exist, or on a title that decodes to a lone surrogate and cannot be encoded as UTF-8. In `m.py` such a failure goes to the `except` and nothing is saved. In `main.py` the request fails. Either way an empty or partial file may be left behind, because `open(..., "w")` has already created or truncated it. Lone surrogates cannot occur in a Dafny string at all.
- File-system races between requests with the same name are not modelled.
- The `/generate` endpoint only returns `json.loads` of the extracted text, a foreign call. Its extraction is the `Extraction.JsonCandidate` shared by both programs.
- FastAPI routing, CORS and pydantic's field aliases are framework code. `Service.NewRequest` models only the field values and the `preferences` default.
- `Calendar.DocumentLines`, `Calendar.DocumentShape`, `Calendar.RowsOfRender`, `Calendar.RenderLines`: the line structure is proved only for titles and UIDs without a newline. A title is copied into `SUMMARY:` unescaped, so a title holding a newline splits its block into more than seven lines, and the document then has more than 3 + 7N + 1 lines.
- The calendar text uses `\n` and leaves `SUMMARY` unescaped, as the code does. It follows neither the CRLF and line folding of section 3.1 of RFC 5545 nor the TEXT escaping of section 3.3.11.
