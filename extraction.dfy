/** The JSON extractor both programs apply to the model's reply: a regular-expression search for
    a `{`, any run of characters and a `}`; on a match the text is replaced by the matched span. */
module Extraction {

  import opened Wrappers
  import opened Strings

  /** The pattern `\{[\s\S]*\}` matches `s[i..j + 1]`: a `{`, anything (newlines included), a `}`. */
  predicate MatchAt(s: string, i: int, j: int)
  {
    0 <= i < j < |s| && s[i] == '{' && s[j] == '}'
  }

  /** The search succeeds: some `{` has a `}` somewhere after it. */
  predicate HasSpan(s: string)
  {
    exists i, j | 0 <= i < j < |s| :: MatchAt(s, i, j)
  }

  /** The span `re.search` reports: the leftmost start at which the pattern matches, and there
      the longest match, since `[\s\S]*` is greedy and only backs off as far as the last `}`. */
  ghost predicate SearchResult(s: string, i: int, j: int)
  {
    && MatchAt(s, i, j)
    && (forall i', j' :: MatchAt(s, i', j') ==> i <= i')
    && (forall j' :: MatchAt(s, i, j') ==> j' <= j)
  }

  /** The text handed to `json.loads`: from the first `{` through the last `}` when the pattern
      matches, the text itself otherwise. */
  function ExtractJson(text: string): string
  {
    match (FirstIndex(text, '{'), LastIndex(text, '}'))
    case (Some(i), Some(j)) => if i < j then text[i..j + 1] else text
    case _ => text
  }

  /** Given the first `{` at `f` and the last `}` at `l`, with `f < l`, the extractor returns `s[f..l + 1]`. */
  lemma {:induction false} ExtractAt(s: string, f: nat, l: nat)
    requires f < l < |s| && s[f] == '{' && s[l] == '}'
    requires forall k :: 0 <= k < f ==> s[k] != '{'
    requires forall k :: l < k < |s| ==> s[k] != '}'
    ensures FirstIndex(s, '{') == Some(f) && LastIndex(s, '}') == Some(l)
    ensures ExtractJson(s) == s[f..l + 1]
  {
  }

  /** The pattern matches exactly when the first `{` comes before the last `}`. */
  lemma {:induction false} HasSpanIff(s: string)
    ensures HasSpan(s) <==>
      FirstIndex(s, '{').Some? && LastIndex(s, '}').Some? && FirstIndex(s, '{').value < LastIndex(s, '}').value
  {
    if HasSpan(s) {
      var i, j :| 0 <= i < j < |s| && MatchAt(s, i, j);
      assert s[i] == '{' && s[j] == '}';
    }
    if FirstIndex(s, '{').Some? && LastIndex(s, '}').Some? && FirstIndex(s, '{').value < LastIndex(s, '}').value {
      assert MatchAt(s, FirstIndex(s, '{').value, LastIndex(s, '}').value);
    }
  }

  /** When the search succeeds, its span is the one from the first `{` to the last `}`, and the
      extractor returns exactly that span. */
  lemma {:induction false} ExtractIsSearchResult(s: string)
    requires HasSpan(s)
    ensures SearchResult(s, FirstIndex(s, '{').value, LastIndex(s, '}').value)
    ensures ExtractJson(s) == s[FirstIndex(s, '{').value..LastIndex(s, '}').value + 1]
  {
    HasSpanIff(s);
  }

  /** `re.search`'s span is unique; whatever it is, the extractor returns it. */
  lemma {:induction false} ExtractMatchesSearch(s: string, i: int, j: int)
    requires SearchResult(s, i, j)
    ensures ExtractJson(s) == s[i..j + 1]
  {
    assert HasSpan(s);
    ExtractIsSearchResult(s);
    var f, l := FirstIndex(s, '{').value, LastIndex(s, '}').value;
    assert MatchAt(s, f, l);
    assert i <= f;
    assert MatchAt(s, i, l);
    assert l <= j;
  }

  /** No `{` followed by a `}`: the text is passed on unchanged. */
  lemma {:induction false} ExtractWithoutSpan(s: string)
    requires !HasSpan(s)
    ensures ExtractJson(s) == s
  {
    HasSpanIff(s);
  }

  /** On a match the result is a piece of the text that starts with `{` and ends with `}`; what is
      cut off in front holds no `{` and what is cut off behind holds no `}`. */
  lemma {:induction false} ExtractShape(s: string)
    requires HasSpan(s)
    ensures var r := ExtractJson(s);
      && |r| >= 2 && r[0] == '{' && r[|r| - 1] == '}'
      && exists i :: OccursAt(r, s, i) && '{' !in s[..i] && '}' !in s[i + |r|..]
  {
    ExtractIsSearchResult(s);
    var f, l := FirstIndex(s, '{').value, LastIndex(s, '}').value;
    var r := s[f..l + 1];
    assert OccursAt(r, s, f);
    assert forall k :: 0 <= k < f ==> s[..f][k] == s[k];
    assert forall k :: l < k < |s| ==> s[l + 1..][k - l - 1] == s[k];
  }

  /** The extractor always returns a substring of the text. */
  lemma {:induction false} ExtractIsInfix(s: string)
    ensures IsInfix(ExtractJson(s), s)
  {
    var r := ExtractJson(s);
    if HasSpan(s) {
      ExtractIsSearchResult(s);
      assert OccursAt(r, s, FirstIndex(s, '{').value);
    } else {
      ExtractWithoutSpan(s);
      assert OccursAt(r, s, 0);
    }
  }

  /** A text that starts with `{` and ends with `}` is its own span. */
  lemma {:induction false} ExtractOfBraced(r: string)
    requires |r| >= 2 && r[0] == '{' && r[|r| - 1] == '}'
    ensures ExtractJson(r) == r
  {
    assert MatchAt(r, 0, |r| - 1);
    ExtractIsSearchResult(r);
    assert FirstIndex(r, '{').value == 0;
    assert LastIndex(r, '}').value == |r| - 1;
  }

  /** Extracting twice is extracting once. */
  lemma {:induction false} ExtractIdempotent(s: string)
    ensures ExtractJson(ExtractJson(s)) == ExtractJson(s)
  {
    if HasSpan(s) {
      ExtractShape(s);
      ExtractOfBraced(ExtractJson(s));
    } else {
      ExtractWithoutSpan(s);
    }
  }

  /** The texts the extractor leaves alone are those without a match and those already
      running from `{` to `}`. */
  lemma {:induction false} ExtractFixpoint(s: string)
    ensures ExtractJson(s) == s <==> !HasSpan(s) || (s[0] == '{' && s[|s| - 1] == '}')
  {
    if HasSpan(s) {
      ExtractShape(s);
      if s[0] == '{' && s[|s| - 1] == '}' {
        ExtractOfBraced(s);
      }
    } else {
      ExtractWithoutSpan(s);
    }
  }

  /** The reply is stripped before the search; stripping only removes whitespace, never a
      brace, so on a match it does not change what is extracted. */
  lemma {:induction false} ExtractAfterStrip(s: string)
    requires HasSpan(s)
    ensures HasSpan(Strip(s)) && ExtractJson(Strip(s)) == ExtractJson(s)
  {
    ExtractAfterTrim(s, Strip(s), LeadingSpace(s));
  }

  /** Cutting whitespace off either end leaves the span and what is extracted unchanged. */
  lemma {:induction false} ExtractAfterTrim(s: string, t: string, a: nat)
    requires HasSpan(s)
    requires a + |t| <= |s| && s[a..a + |t|] == t && AllSpace(s[..a]) && AllSpace(s[a + |t|..])
    ensures HasSpan(t) && ExtractJson(t) == ExtractJson(s)
  {
    HasSpanIff(s);
    var f, l := FirstIndex(s, '{').value, LastIndex(s, '}').value;
    ExtractAt(s, f, l);
    // the braces are not whitespace, so they lie inside the kept part
    NonSpaceInside(s, a, |t|, f);
    NonSpaceInside(s, a, |t|, l);
    SliceShift(s, t, a, f, l);
    assert MatchAt(t, f - a, l - a);
  }

  /** A character that is not whitespace lies between a whitespace prefix and a whitespace suffix. */
  lemma {:induction false} NonSpaceInside(s: string, a: nat, n: nat, i: nat)
    requires a + n <= |s| && AllSpace(s[..a]) && AllSpace(s[a + n..])
    requires i < |s| && !IsSpace(s[i])
    ensures a <= i < a + n
  {
  }

  /** The first `{` and last `}` of a text, seen from a slice that contains them both. */
  lemma {:induction false} SliceShift(s: string, t: string, a: nat, f: nat, l: nat)
    requires a + |t| <= |s| && s[a..a + |t|] == t
    requires a <= f < l < a + |t| && s[f] == '{' && s[l] == '}'
    requires forall k :: 0 <= k < f ==> s[k] != '{'
    requires forall k :: l < k < |s| ==> s[k] != '}'
    ensures ExtractJson(t) == s[f..l + 1]
  {
    assert forall k :: 0 <= k < |t| ==> t[k] == s[a + k];
    ExtractAt(t, f - a, l - a);
    var u, v := t[f - a..l - a + 1], s[f..l + 1];
    forall k | 0 <= k < |u|
      ensures u[k] == v[k]
    {
      assert u[k] == t[f - a + k];
    }
    assert u == v;
  }

  /** The text both programs hand to `json.loads`: the reply with `strip()` applied, then cut
      to its brace span. On a match that is the span of the raw reply itself; without one it is
      the stripped reply. Either way it is a piece of the reply. */
  function JsonCandidate(reply: string): (r: string)
    ensures IsInfix(r, reply)
    ensures HasSpan(reply) ==> r == reply[FirstIndex(reply, '{').value..LastIndex(reply, '}').value + 1]
    ensures !HasSpan(reply) ==> r == Strip(reply)
  {
    CandidateFacts(reply);
    ExtractJson(Strip(reply))
  }

  lemma {:induction false} CandidateFacts(reply: string)
    ensures IsInfix(ExtractJson(Strip(reply)), reply)
    ensures HasSpan(reply) ==>
      ExtractJson(Strip(reply)) == reply[FirstIndex(reply, '{').value..LastIndex(reply, '}').value + 1]
    ensures !HasSpan(reply) ==> ExtractJson(Strip(reply)) == Strip(reply)
  {
    if HasSpan(reply) {
      CandidateWithSpan(reply);
    } else {
      CandidateWithoutSpan(reply);
    }
  }

  lemma {:induction false} CandidateWithSpan(reply: string)
    requires HasSpan(reply)
    ensures IsInfix(ExtractJson(Strip(reply)), reply)
    ensures ExtractJson(Strip(reply)) == reply[FirstIndex(reply, '{').value..LastIndex(reply, '}').value + 1]
  {
    ExtractAfterStrip(reply);
    ExtractIsSearchResult(reply);
    ExtractIsInfix(reply);
  }

  lemma {:induction false} CandidateWithoutSpan(reply: string)
    requires !HasSpan(reply)
    ensures IsInfix(Strip(reply), reply) && ExtractJson(Strip(reply)) == Strip(reply)
  {
    NoSpanPiece(reply, Strip(reply), LeadingSpace(reply));
  }

  /** A piece of a text without a brace span is passed on unchanged. */
  lemma {:induction false} NoSpanPiece(s: string, t: string, a: nat)
    requires !HasSpan(s)
    requires a + |t| <= |s| && s[a..a + |t|] == t
    ensures IsInfix(t, s) && ExtractJson(t) == t
  {
    NoSpanInside(s, t, a);
    ExtractWithoutSpan(t);
    assert OccursAt(t, s, a);
  }

  /** A piece of a text without a brace span has none either. */
  lemma {:induction false} NoSpanInside(s: string, t: string, a: nat)
    requires !HasSpan(s)
    requires a + |t| <= |s| && s[a..a + |t|] == t
    ensures !HasSpan(t)
  {
    forall i, j | 0 <= i < j < |t|
      ensures !MatchAt(t, i, j)
    {
      assert !MatchAt(s, a + i, a + j);
      assert t[i] == s[a + i] && t[j] == s[a + j];
    }
  }

  /** Two separate objects with prose between them are taken as one span (the greedy match). */
  lemma GreedySpansTwoObjects()
    ensures ExtractJson("Here: {\"a\": 1} and {\"b\": 2} done") == "{\"a\": 1} and {\"b\": 2}"
  {
    var r := "{\"a\": 1} and {\"b\": 2}";
    var s := "Here: " + r + " done";
    assert s == "Here: {\"a\": 1} and {\"b\": 2} done";
    ExtractAt(s, 6, 26);
    assert s[6..27] == r;
  }

  /** Prose around one object is cut away. */
  lemma ProseAroundObject()
    ensures ExtractJson("prefix text {\"events\":[]} suffix") == "{\"events\":[]}"
  {
    var r := "{\"events\":[]}";
    var s := "prefix text " + r + " suffix";
    assert s == "prefix text {\"events\":[]} suffix";
    ExtractAt(s, 12, 24);
    assert s[12..25] == r;
  }

  /** A text without braces goes to the parser as it is. */
  lemma NoBracesUnchanged()
    ensures ExtractJson("no json here") == "no json here"
  {
    var s := "no json here";
    assert forall k :: 0 <= k < |s| ==> s[k] != '{';
    ExtractWithoutSpan(s);
  }
}
