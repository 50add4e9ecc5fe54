/** String helpers shared by the prompt builder, the extractor and the calendar writer. */
module Strings {

  import opened Wrappers

  /** `x` occurs in `t` as a contiguous substring. */
  predicate IsInfix(x: string, t: string)
  {
    exists i | 0 <= i <= |t| - |x| :: OccursAt(x, t, i)
  }

  /** `x` occurs in `t` starting at index `i`. */
  predicate OccursAt(x: string, t: string, i: int)
  {
    0 <= i <= |t| - |x| && t[i..i + |x|] == x
  }

  /** The middle part of a three-part text occurs in it, right after the first part. */
  lemma {:induction false} InfixOfConcat(a: string, x: string, b: string)
    ensures OccursAt(x, a + x + b, |a|) && IsInfix(x, a + x + b)
  {
    assert (a + x + b)[|a|..|a| + |x|] == x;
    assert OccursAt(x, a + x + b, |a|);
  }

  /** A substring of a substring is a substring. */
  lemma {:induction false} InfixTrans(x: string, y: string, z: string)
    requires IsInfix(x, y) && IsInfix(y, z)
    ensures IsInfix(x, z)
  {
    var i :| 0 <= i <= |y| - |x| && OccursAt(x, y, i);
    var j :| 0 <= j <= |z| - |y| && OccursAt(y, z, j);
    forall k | 0 <= k < |x|
      ensures z[j + i + k] == x[k]
    {
      assert x[k] == y[i + k] == z[j + i + k];
    }
    assert z[j + i..j + i + |x|] == x;
    assert OccursAt(x, z, j + i);
  }

  lemma {:induction false} ConcatAssoc(a: string, b: string, c: string)
    ensures a + b + c == a + (b + c)
  {
  }

  /** Index of the first `c` in `s` (`s.find(c)` when it is not -1). */
  function FirstIndex(s: string, c: char): (r: Option<nat>)
    ensures r.Some? ==> r.value < |s| && s[r.value] == c && forall k :: 0 <= k < r.value ==> s[k] != c
    ensures r.None? ==> forall k :: 0 <= k < |s| ==> s[k] != c
  {
    if |s| == 0 then None
    else if s[0] == c then Some(0)
    else match FirstIndex(s[1..], c)
      case None => None
      case Some(i) => Some(i + 1)
  }

  /** Index of the last `c` in `s` (`s.rfind(c)` when it is not -1). */
  function LastIndex(s: string, c: char): (r: Option<nat>)
    ensures r.Some? ==> r.value < |s| && s[r.value] == c && forall k :: r.value < k < |s| ==> s[k] != c
    ensures r.None? ==> forall k :: 0 <= k < |s| ==> s[k] != c
  {
    if |s| == 0 then None
    else if s[|s| - 1] == c then Some(|s| - 1)
    else LastIndex(s[..|s| - 1], c)
  }

  /** Python's `sep.join(parts)`. */
  function Join(parts: seq<string>, sep: string): string
    decreases |parts|
  {
    if |parts| == 0 then ""
    else if |parts| == 1 then parts[0]
    else Join(parts[..|parts| - 1], sep) + sep + parts[|parts| - 1]
  }

  /** Joining two non-empty lists is joining their joins. */
  lemma {:induction false} JoinConcat(a: seq<string>, b: seq<string>, sep: string)
    requires |a| > 0 && |b| > 0
    ensures Join(a + b, sep) == Join(a, sep) + sep + Join(b, sep)
    decreases |b|
  {
    if |b| == 1 {
      assert (a + b)[..|a + b| - 1] == a;
    } else {
      var b' := b[..|b| - 1];
      assert (a + b)[..|a + b| - 1] == a + b';
      JoinConcat(a, b', sep);
    }
  }

  /** Every part stands in the join between the join of the parts before it and the
      join of the parts after it, each set off by one separator: the parts keep their order. */
  lemma {:induction false} JoinAround(parts: seq<string>, sep: string, k: nat)
    requires k < |parts|
    ensures Join(parts, sep) ==
      (if k == 0 then "" else Join(parts[..k], sep) + sep)
      + parts[k]
      + (if k == |parts| - 1 then "" else sep + Join(parts[k + 1..], sep))
  {
    var before, rest := parts[..k], parts[k..];
    assert parts == before + rest;
    assert Join([parts[k]], sep) == parts[k];
    if k < |parts| - 1 {
      assert rest == [parts[k]] + parts[k + 1..];
      JoinConcat([parts[k]], parts[k + 1..], sep);
    }
    if k > 0 {
      JoinConcat(before, rest, sep);
    }
  }

  /** Each part can be found in the join. */
  lemma {:induction false} JoinContainsPart(parts: seq<string>, sep: string, k: nat)
    requires k < |parts|
    ensures IsInfix(parts[k], Join(parts, sep))
  {
    JoinAround(parts, sep, k);
    var pre := if k == 0 then "" else Join(parts[..k], sep) + sep;
    var post := if k == |parts| - 1 then "" else sep + Join(parts[k + 1..], sep);
    var j := Join(parts, sep);
    assert j == pre + parts[k] + post;
    assert j[|pre|..|pre| + |parts[k]|] == parts[k];
    assert OccursAt(parts[k], j, |pre|);
  }

  /** Python's `str.isspace()` for a single character, the set `str.strip()` removes. */
  predicate IsSpace(c: char)
  {
    ('\t' <= c <= '\r') || ('\U{1C}' <= c <= '\U{1F}') || c == ' ' || c == '\U{85}' || c == '\U{A0}'
    || c == '\U{1680}' || ('\U{2000}' <= c <= '\U{200A}') || c == '\U{2028}' || c == '\U{2029}'
    || c == '\U{202F}' || c == '\U{205F}' || c == '\U{3000}'
  }

  predicate AllSpace(s: string)
  {
    forall k :: 0 <= k < |s| ==> IsSpace(s[k])
  }

  /** How many whitespace characters `s` starts with. */
  function LeadingSpace(s: string): (n: nat)
    ensures n <= |s| && AllSpace(s[..n])
    ensures n < |s| ==> !IsSpace(s[n])
  {
    if |s| > 0 && IsSpace(s[0]) then
      var n := 1 + LeadingSpace(s[1..]);
      assert forall k :: 1 <= k < n ==> s[..n][k] == s[1..][..n - 1][k - 1];
      n
    else 0
  }

  /** How many whitespace characters `s[..e]` ends with. */
  function SpaceBefore(s: string, e: nat): (n: nat)
    requires e <= |s|
    ensures n <= e && forall j :: e - n <= j < e ==> IsSpace(s[j])
    ensures n < e ==> !IsSpace(s[e - n - 1])
    decreases e
  {
    if e > 0 && IsSpace(s[e - 1]) then 1 + SpaceBefore(s, e - 1) else 0
  }

  /** Python's `s.strip()`: `s` is split into its leading whitespace, the result and its
      trailing whitespace, and the result neither starts nor ends with whitespace. */
  function Strip(s: string): (r: string)
    ensures LeadingSpace(s) + |r| <= |s| && s[LeadingSpace(s)..LeadingSpace(s) + |r|] == r
    ensures AllSpace(s[..LeadingSpace(s)]) && AllSpace(s[LeadingSpace(s) + |r|..])
    ensures r == [] || (!IsSpace(r[0]) && !IsSpace(r[|r| - 1]))
  {
    var a := LeadingSpace(s);
    if a == |s| then []
    else
      var b := SpaceBefore(s, |s|);
      s[a..|s| - b]
  }

  /** Python's `text.split("\n")`: the pieces between newlines, empty pieces included. */
  function SplitLines(s: string): (lines: seq<string>)
    ensures |lines| > 0
    decreases |s|
  {
    match FirstIndex(s, '\n')
    case None => [s]
    case Some(k) => [s[..k]] + SplitLines(s[k + 1..])
  }

  /** Each line followed by a newline, in order. */
  function Terminated(lines: seq<string>): string
  {
    if |lines| == 0 then "" else lines[0] + "\n" + Terminated(lines[1..])
  }

  lemma {:induction false} TerminatedConcat(a: seq<string>, b: seq<string>)
    ensures Terminated(a + b) == Terminated(a) + Terminated(b)
    decreases |a|
  {
    if |a| > 0 {
      assert (a + b)[0] == a[0];
      assert (a + b)[1..] == a[1..] + b;
      TerminatedConcat(a[1..], b);
      calc {
        Terminated(a + b);
        a[0] + "\n" + Terminated(a[1..] + b);
        a[0] + "\n" + (Terminated(a[1..]) + Terminated(b));
        (a[0] + "\n" + Terminated(a[1..])) + Terminated(b);
      }
    } else {
      assert a + b == b;
    }
  }

  /** A first line without a newline is split off whole, at its terminator. */
  lemma {:induction false} SplitFirstLine(l: string, rest: string)
    requires '\n' !in l
    ensures SplitLines(l + "\n" + rest) == [l] + SplitLines(rest)
  {
    var s := l + "\n" + rest;
    assert s[|l|] == '\n';
    assert forall k :: 0 <= k < |l| ==> s[k] == l[k];
    assert FirstIndex(s, '\n') == Some(|l|);
    assert s[..|l|] == l;
    assert s[|l| + 1..] == rest;
  }

  /** No line holds a newline. */
  predicate NoNewlines(lines: seq<string>)
  {
    forall i :: 0 <= i < |lines| ==> '\n' !in lines[i]
  }

  lemma {:induction false} NoNewlinesConcat(a: seq<string>, b: seq<string>)
    requires NoNewlines(a) && NoNewlines(b)
    ensures NoNewlines(a + b)
  {
    forall i | 0 <= i < |a + b|
      ensures '\n' !in (a + b)[i]
    {
      if i >= |a| {
        assert (a + b)[i] == b[i - |a|];
      }
    }
  }

  /** Each line stands in the newline-terminated text of the lines. */
  lemma {:induction false} TerminatedHasLine(lines: seq<string>, k: nat)
    requires k < |lines|
    ensures IsInfix(lines[k], Terminated(lines))
    decreases k
  {
    var rest := Terminated(lines[1..]);
    if k == 0 {
      InfixOfConcat("", lines[0], "\n" + rest);
      assert "" + lines[0] + ("\n" + rest) == Terminated(lines);
    } else {
      TerminatedHasLine(lines[1..], k - 1);
      InfixOfConcat(lines[0] + "\n", rest, "");
      assert lines[0] + "\n" + rest + "" == Terminated(lines);
      InfixTrans(lines[k], rest, Terminated(lines));
    }
  }

  /** Splitting newline-terminated lines followed by a newline-free tail gives back the
      lines and then the tail. */
  lemma {:induction false} SplitTerminated(lines: seq<string>, tail: string)
    requires NoNewlines(lines)
    requires '\n' !in tail
    ensures SplitLines(Terminated(lines) + tail) == lines + [tail]
    decreases |lines|
  {
    if |lines| == 0 {
      assert Terminated(lines) + tail == tail;
    } else {
      var l := lines[0];
      var rest := Terminated(lines[1..]) + tail;
      assert Terminated(lines) + tail == l + "\n" + rest;
      SplitFirstLine(l, rest);
      SplitTerminated(lines[1..], tail);
      assert lines == [l] + lines[1..];
    }
  }
}
