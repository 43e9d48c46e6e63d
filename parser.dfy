/**
 * Classification of one raw model output, as `query_loop` performs it
 * before dispatching anything: the blank check, the `Answer:` split, and the
 * leftmost search of `action_re = Action:\s*(\w+)(?::\s*(.*))?` followed by
 * the `PAUSE` check.
 */
module OutputParser {
  import opened Wrappers
  import opened Text

  const ActionTag := "Action:"
  const AnswerTag := "Answer:"
  const PauseTag := "PAUSE"

  /** The spans of one match of `action_re`, as Python's match object reports
      them: where the match starts, group 1 as `[nameStart, nameEnd)`, and
      group 2 as a span when the optional `:` group took part. */
  datatype ActionMatch = ActionMatch(start: nat, nameStart: nat, nameEnd: nat, argSpan: Option<(nat, nat)>)

  /** `action_re.match(s, i)` succeeds: `Action:` at `i`, then whitespace
      (line feeds included), then a word character. */
  ghost predicate MatchesAt(s: string, i: nat) {
    && OccursAt(s, ActionTag, i)
    && exists k :: i + |ActionTag| <= k < |s| && AllSat(s, i + |ActionTag|, k, IsSpace) && IsWordChar(s[k])
  }

  /** Well-formed spans of a match at `i`, greedy at every quantifier. */
  ghost predicate SpansOf(s: string, i: nat, m: ActionMatch) {
    && m.start == i
    && OccursAt(s, ActionTag, i)
    && i + |ActionTag| <= m.nameStart < m.nameEnd <= |s|
    && AllSat(s, i + |ActionTag|, m.nameStart, IsSpace)
    && AllSat(s, m.nameStart, m.nameEnd, IsWordChar)
    && (m.nameEnd < |s| ==> !IsWordChar(s[m.nameEnd]))
    && (m.argSpan.Some? <==> m.nameEnd < |s| && s[m.nameEnd] == ':')
    && (m.argSpan.Some? ==>
          var (a, b) := m.argSpan.value;
          && m.nameEnd + 1 <= a <= b <= |s|
          && AllSat(s, m.nameEnd + 1, a, IsSpace)
          && (a < |s| ==> !IsSpace(s[a]))
          && AllSat(s, a, b, IsLineChar)
          && (b < |s| ==> s[b] == '\n'))
  }

  /** `action_re.match(s, i)`: anchored at `i`. */
  function MatchAt(s: string, i: nat): (r: Option<ActionMatch>)
    requires i <= |s|
    ensures r.Some? <==> MatchesAt(s, i)
    ensures r.Some? ==> r.value.start == i && SpansOf(s, i, r.value)
  {
    if !OccursAt(s, ActionTag, i) then None
    else
      var ns := SkipWhile(s, i + |ActionTag|, IsSpace);
      var ne := SkipWhile(s, ns, IsWordChar);
      if ne == ns then
        assert !MatchesAt(s, i) by {
          assert ns < |s| ==> !IsSpace(s[ns]) && !IsWordChar(s[ns]);
        }
        None
      else
        var arg :=
          if ne < |s| && s[ne] == ':' then
            var a := SkipWhile(s, ne + 1, IsSpace);
            Some((a, SkipWhile(s, a, IsLineChar)))
          else None;
        assert IsWordChar(s[ns]);
        Some(ActionMatch(i, ns, ne, arg))
  }

  /** The greedy spans are unique: whatever satisfies `SpansOf` is the match
      `MatchAt` returns. */
  lemma MatchAtSpans(s: string, i: nat, m: ActionMatch)
    requires i <= |s| && SpansOf(s, i, m)
    ensures MatchAt(s, i) == Some(m)
  {
    assert MatchesAt(s, i) by {
      assert AllSat(s, i + |ActionTag|, m.nameStart, IsSpace) && IsWordChar(s[m.nameStart]);
    }
    SkipWhileUnique(s, i + |ActionTag|, m.nameStart, IsSpace);
    SkipWhileUnique(s, m.nameStart, m.nameEnd, IsWordChar);
    if m.argSpan.Some? {
      var (a, b) := m.argSpan.value;
      SkipWhileUnique(s, m.nameEnd + 1, a, IsSpace);
      SkipWhileUnique(s, a, b, IsLineChar);
    }
  }

  /** `action_re.search(s, from)`: the leftmost position where a match exists. */
  function SearchFrom(s: string, from: nat): (r: Option<ActionMatch>)
    requires from <= |s|
    ensures r.Some? ==> from <= r.value.start <= |s| && MatchAt(s, r.value.start) == r
    ensures r.Some? ==> forall q: nat :: from <= q < r.value.start ==> !MatchesAt(s, q)
    ensures r.None? ==> forall q: nat :: from <= q <= |s| ==> !MatchesAt(s, q)
    decreases |s| - from
  {
    var m := MatchAt(s, from);
    if m.Some? then m
    else if from == |s| then None
    else SearchFrom(s, from + 1)
  }

  /** `m` is what `action_re.search(s)` returns. */
  ghost predicate Leftmost(s: string, m: ActionMatch) {
    && m.start <= |s|
    && MatchAt(s, m.start) == Some(m)
    && forall q: nat :: q < m.start ==> !MatchesAt(s, q)
  }

  ghost predicate HasActionLine(s: string) {
    exists i: nat :: i <= |s| && MatchesAt(s, i)
  }

  lemma LeftmostUnique(s: string, m: ActionMatch, m': ActionMatch)
    requires Leftmost(s, m) && Leftmost(s, m')
    ensures m == m'
  {
    assert MatchesAt(s, m.start) && MatchesAt(s, m'.start);
  }

  /** An action line starts with the tag, so output without the tag has none. */
  lemma ActionLineHasTag(s: string)
    ensures HasActionLine(s) ==> Contains(s, ActionTag)
  {
    if HasActionLine(s) {
      var i: nat :| i <= |s| && MatchesAt(s, i);
      assert OccursAt(s, ActionTag, i);
    }
  }

  /** Group 2 of the match, with `if match.group(2)` turning an empty or
      absent group into None; the argument is stripped. */
  function Argument(s: string, m: ActionMatch): (r: Option<string>)
    requires m.argSpan.Some? ==> m.argSpan.value.0 <= m.argSpan.value.1 <= |s|
  {
    match m.argSpan
    case None => None
    case Some((a, b)) => if a == b then None else Some(Strip(s[a..b]))
  }

  /** The five ways one raw output can be read. */
  datatype Classification =
    | Blank                                            // `not output.strip()`
    | FinalAnswer(answer: string)                      // `"Answer:" in output`
    | MissingPause                                     // an action line, no `PAUSE`
    | Invocation(name: string, argument: Option<string>)
    | Unrecognised                                     // none of the above: no branch taken

  /** The checks of one loop iteration, in the order the code makes them. */
  function Classify(s: string): (c: Classification)
    ensures c.Blank? <==> IsBlank(s)
  {
    if Strip(s) == [] then Blank
    else match Find(s, AnswerTag)
      case Some(p) => FinalAnswer(Strip(s[p + |AnswerTag|..]))
      case None =>
        match SearchFrom(s, 0)
        case None => Unrecognised
        case Some(m) =>
          if Find(s, PauseTag).None? then MissingPause
          else Invocation(Lower(Strip(s[m.nameStart..m.nameEnd])), Argument(s, m))
  }

  /** An `Answer:` anywhere wins over any action line: the answer is what
      follows its first occurrence, stripped. */
  lemma ClassifyAnswer(s: string, p: nat)
    requires !IsBlank(s) && FirstOccurrence(s, AnswerTag, p)
    ensures Classify(s) == FinalAnswer(Strip(s[p + |AnswerTag|..]))
  {
    FirstOccurrenceUnique(s, AnswerTag, p, Find(s, AnswerTag).value);
  }

  /** An action line in an output without `PAUSE` is a protocol error. */
  lemma ClassifyMissingPause(s: string)
    requires !IsBlank(s) && !Contains(s, AnswerTag)
    requires HasActionLine(s) && !Contains(s, PauseTag)
    ensures Classify(s) == MissingPause
  {
    var i: nat :| i <= |s| && MatchesAt(s, i);
  }

  /** With `PAUSE` present, the leftmost action line gives the lower-cased
      word run as the name and the stripped rest of the line as the argument. */
  lemma ClassifyInvocation(s: string, m: ActionMatch)
    requires !IsBlank(s) && !Contains(s, AnswerTag)
    requires Leftmost(s, m) && Contains(s, PauseTag)
    ensures m.nameStart < m.nameEnd <= |s|
    ensures Classify(s) == Invocation(Lower(s[m.nameStart..m.nameEnd]), Argument(s, m))
  {
    var r := SearchFrom(s, 0);
    assert r.Some? by {
      assert MatchesAt(s, m.start);
    }
    LeftmostUnique(s, m, r.value);
    StripUnpadded(s[m.nameStart..m.nameEnd]);
  }

  /** Output with neither an answer nor an action line matches no branch. */
  lemma ClassifyUnrecognised(s: string)
    requires !IsBlank(s) && !Contains(s, AnswerTag) && !HasActionLine(s)
    ensures Classify(s) == Unrecognised
  {
    var r := SearchFrom(s, 0);
    assert r.Some? ==> MatchesAt(s, r.value.start);
  }

  /** Every output with an action line has a leftmost one, so the five cases
      above cover all outputs. */
  lemma LeftmostExists(s: string) returns (m: ActionMatch)
    requires HasActionLine(s)
    ensures Leftmost(s, m)
  {
    var i: nat :| i <= |s| && MatchesAt(s, i);
    var r := SearchFrom(s, 0);
    assert r.Some?;
    m := r.value;
  }

  // Worked examples of the classification on concrete outputs.

  lemma ArgOnNextLineMarkers(s: string)
    requires s == "Action: foo:\nPAUSE"
    ensures !IsBlank(s) && !Contains(s, AnswerTag) && Contains(s, PauseTag)
  {
    assert !IsSpace(s[0]);
    ContainsHasChar(s, AnswerTag, 3);
    assert 'w' !in s;
    assert OccursAt(s, PauseTag, 13);
  }

  lemma ArgOnNextLineMatch(s: string)
    requires s == "Action: foo:\nPAUSE"
    ensures Leftmost(s, ActionMatch(0, 8, 11, Some((13, 18))))
    ensures Lower(s[8..11]) == "foo"
    ensures Argument(s, ActionMatch(0, 8, 11, Some((13, 18)))) == Some("PAUSE")
  {
    assert s[8..11] == "foo";
    assert s[13..18] == "PAUSE";
    StripUnpadded("PAUSE");
    LowerIdentity("foo");
    assert OccursAt(s, ActionTag, 0);
    forall k | 8 <= k < 11 ensures IsWordChar(s[k]) {
      assert k == 8 || k == 9 || k == 10;
    }
    forall k | 13 <= k < 18 ensures IsLineChar(s[k]) {
      assert k == 13 || k == 14 || k == 15 || k == 16 || k == 17;
    }
    MatchAtSpans(s, 0, ActionMatch(0, 8, 11, Some((13, 18))));
  }

  lemma ScenarioArgOnNextLine(s: string)
    requires s == "Action: foo:\nPAUSE"
    ensures Classify(s) == Invocation("foo", Some("PAUSE"))
  {
    ArgOnNextLineMarkers(s);
    ArgOnNextLineMatch(s);
    ClassifyInvocation(s, ActionMatch(0, 8, 11, Some((13, 18))));
  }
  lemma AnswerFacts(s: string)
    requires s == "Answer: The dataset has 120 rows."
    ensures !IsBlank(s) && FirstOccurrence(s, AnswerTag, 0)
    ensures s[|AnswerTag|..] == " The dataset has 120 rows."
  {
    assert !IsSpace(s[0]);
    assert OccursAt(s, AnswerTag, 0);
  }

  lemma AnswerStrip(t: string)
    requires t == " The dataset has 120 rows."
    ensures Strip(t) == "The dataset has 120 rows."
  {
    assert t[1] == 'T' && t[|t| - 1] == '.';
    assert !IsSpace(t[1]) && !IsSpace(t[|t| - 1]);
    assert AllSat(t, 0, 1, IsSpace);
    StripExact(t, 1, |t|);
    assert t[1..] == "The dataset has 120 rows.";
  }

  lemma ScenarioAnswer(s: string)
    requires s == "Answer: The dataset has 120 rows."
    ensures Classify(s) == FinalAnswer("The dataset has 120 rows.")
  {
    AnswerFacts(s);
    AnswerStrip(s[|AnswerTag|..]);
    ClassifyAnswer(s, 0);
  }

  lemma UnsupportedMarkers(s: string)
    requires s == "Action: frobnicate\nPAUSE"
    ensures !IsBlank(s) && !Contains(s, AnswerTag) && Contains(s, PauseTag)
  {
    assert !IsSpace(s[0]);
    ContainsHasChar(s, AnswerTag, 3);
    assert 'w' !in s;
    assert OccursAt(s, PauseTag, 19);
  }

  lemma UnsupportedMatch(s: string)
    requires s == "Action: frobnicate\nPAUSE"
    ensures Leftmost(s, ActionMatch(0, 8, 18, None))
  {
    assert OccursAt(s, ActionTag, 0);
    forall k | 8 <= k < 18 ensures IsWordChar(s[k]) {
      assert k == 8 || k == 9 || k == 10 || k == 11 || k == 12 || k == 13 || k == 14 || k == 15 || k == 16 || k == 17;
    }
    MatchAtSpans(s, 0, ActionMatch(0, 8, 18, None));
  }

  lemma UnsupportedName(s: string)
    requires s == "Action: frobnicate\nPAUSE"
    ensures Lower(s[8..18]) == "frobnicate"
  {
    assert s[8..18] == "frobnicate";
    LowerIdentity("frobnicate");
  }

  lemma ScenarioUnsupported(s: string)
    requires s == "Action: frobnicate\nPAUSE"
    ensures Classify(s) == Invocation("frobnicate", None)
  {
    UnsupportedMarkers(s);
    UnsupportedMatch(s);
    UnsupportedName(s);
    ClassifyInvocation(s, ActionMatch(0, 8, 18, None));
  }

  lemma MissingPauseFacts(s: string)
    requires s == "Action: column_mean: age"
    ensures !IsBlank(s) && !Contains(s, AnswerTag) && !Contains(s, PauseTag) && HasActionLine(s)
  {
    assert !IsSpace(s[0]);
    ContainsHasChar(s, AnswerTag, 3);
    assert 'w' !in s;
    ContainsHasChar(s, PauseTag, 0);
    assert 'P' !in s;
    assert OccursAt(s, ActionTag, 0);
    assert AllSat(s, 7, 8, IsSpace) && IsWordChar(s[8]);
    assert MatchesAt(s, 0);
  }

  lemma ScenarioMissingPause(s: string)
    requires s == "Action: column_mean: age"
    ensures Classify(s) == MissingPause
  {
    MissingPauseFacts(s);
    ClassifyMissingPause(s);
  }
}
