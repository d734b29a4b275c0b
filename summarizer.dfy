/**
 * `get_meeting_summary` of app/services/summarizer_service.py: the guards
 * around the chat-completion call, the cleaning of the model's free-text reply
 * into bullet points, the cap of five points and the wrapping of errors.
 * The chat-completion call itself is an input (`CompletionOutcome`).
 */
module SummarizerService {
  import opened Wrappers
  import opened PyText

  /** `max_summary_points`: the most points a summary keeps. */
  const MaxSummaryPoints: nat := 5

  /** The `ValueError` raised when no client is given. */
  const MissingClientMessage: string := "OpenAI 클라이언트가 필요합니다."

  /** The text in front of `str(e)` in the `RuntimeError` that wraps a failed call. */
  const RuntimeErrorPrefix: string := "회의 요약 생성 중 오류가 발생했습니다: "

  /** What the chat-completion call gave: the reply's `message.content`
      (possibly `None`), or the text of the exception it raised. */
  datatype CompletionOutcome = Completed(content: Option<string>) | CallRaised(error: string)

  /** How `get_meeting_summary` ends: it returns the points, or raises. */
  datatype SummaryOutcome =
    | Returned(points: seq<string>)
    | RaisedValueError(message: string)
    | RaisedRuntimeError(message: string)

  // ---------------------------------------------------------------------------
  // The marker substitution re.sub(r"^[-\*\d]+\.?\s*", "", line)
  // ---------------------------------------------------------------------------

  /** A character of the class `[-\*\d]` (ASCII digits only). */
  predicate IsMarkerChar(c: char) {
    c == '-' || c == '*' || ('0' <= c <= '9')
  }

  predicate AllMarkers(s: string) {
    forall k :: 0 <= k < |s| ==> IsMarkerChar(s[k])
  }

  /** `t` is in the language of the pattern `[-\*\d]+\.?\s*`: a non-empty run of
      markers, then at most one dot, then whitespace only. */
  ghost predicate MarkerPattern(t: string) {
    exists i, j :: 0 < i <= j <= |t| && AllMarkers(t[..i]) && (j == i || (j == i + 1 && t[i] == '.')) && AllSpace(t[j..])
  }

  /** The length of the longest run of marker characters at the front of `s`. */
  function MarkerRunLength(s: string): (n: nat)
    ensures n <= |s|
    ensures forall m :: 0 <= m < n ==> IsMarkerChar(s[m])
    ensures n == |s| || !IsMarkerChar(s[n])
  {
    if |s| > 0 && IsMarkerChar(s[0]) then 1 + MarkerRunLength(s[1..]) else 0
  }

  /** The length of the match the regular-expression engine finds at the start
      of `s` (0 when there is none): it is greedy, so it takes the whole marker
      run, then a dot if one follows, then all the whitespace that follows. */
  function MatchLength(s: string): (n: nat)
    ensures n <= |s|
    ensures n == 0 <==> s == [] || !IsMarkerChar(s[0])
    ensures n == |s| || !IsSpace(s[n]) || n == 0
  {
    if s == [] || !IsMarkerChar(s[0]) then 0
    else
      var i := MarkerRunLength(s);
      var j := if i < |s| && s[i] == '.' then i + 1 else i;
      j + LeadingSpaces(s[j..])
  }

  /** The substitution: what follows the match; `s` itself when nothing matches. */
  function StripMarker(s: string): (r: string)
    ensures |r| <= |s| && r == s[|s| - |r|..]
    ensures |r| == |s| <==> (s == [] || !IsMarkerChar(s[0]))
    ensures |r| < |s| ==> r == [] || !IsSpace(r[0])
  {
    s[MatchLength(s)..]
  }

  /** The prefix `StripMarker` removes is the longest prefix of `s` that matches
      `[-\*\d]+\.?\s*` (so exactly one match is removed), and nothing is removed
      when no prefix matches. */
  lemma StripMarkerRemovesLongestMatch(s: string)
    ensures var n := |s| - |StripMarker(s)|;
      && (n > 0 ==> MarkerPattern(s[..n]))
      && forall k :: 0 <= k <= |s| && MarkerPattern(s[..k]) ==> 0 < k <= n
  {
    var n := MatchLength(s);
    assert n == |s| - |StripMarker(s)|;
    if n > 0 {
      GreedyMatchIsMatch(s);
    }
    forall k | 0 <= k <= |s| && MarkerPattern(s[..k])
      ensures 0 < k <= n
    {
      MatchEndsWithinGreedyMatch(s, k);
    }
  }

  /** The greedy match is a match. */
  lemma GreedyMatchIsMatch(s: string)
    requires s != [] && IsMarkerChar(s[0])
    ensures MarkerPattern(s[..MatchLength(s)])
  {
    var n := MatchLength(s);
    var t := s[..n];
    var i := MarkerRunLength(s);
    var j := if i < |s| && s[i] == '.' then i + 1 else i;
    assert n == j + LeadingSpaces(s[j..]);
    LeadingSpacesFrom(s, j);
    MarkerPatternAt(t, i, j);
  }

  /** Markers below `i`, an optional dot, whitespace from `j` to the end: a match. */
  lemma MarkerPatternAt(t: string, i: nat, j: nat)
    requires 0 < i <= j <= |t| && (j == i || (j == i + 1 && t[i] == '.'))
    requires forall m :: 0 <= m < i ==> IsMarkerChar(t[m])
    requires forall m :: j <= m < |t| ==> IsSpace(t[m])
    ensures MarkerPattern(t)
  {
    assert AllMarkers(t[..i]) by {
      forall m | 0 <= m < i ensures IsMarkerChar(t[..i][m]) { assert t[..i][m] == t[m]; }
    }
    assert AllSpace(t[j..]) by {
      forall m | 0 <= m < |t[j..]| ensures IsSpace(t[j..][m]) { assert t[j..][m] == t[j + m]; }
    }
  }

  /** Any match of the pattern at the start of `s` ends within the greedy match. */
  lemma MatchEndsWithinGreedyMatch(s: string, k: nat)
    requires k <= |s| && MarkerPattern(s[..k])
    ensures 0 < k <= MatchLength(s)
  {
    var t := s[..k];
    var i, j :| 0 < i <= j <= |t| && AllMarkers(t[..i]) && (j == i || (j == i + 1 && t[i] == '.')) && AllSpace(t[j..]);
    assert forall m :: 0 <= m < i ==> IsMarkerChar(s[m]) by {
      forall m | 0 <= m < i ensures IsMarkerChar(s[m]) { assert t[..i][m] == s[m]; }
    }
    assert forall m :: j <= m < k ==> IsSpace(s[m]) by {
      forall m | j <= m < k ensures IsSpace(s[m]) { assert t[j..][m - j] == s[m]; }
    }
    assert j < |t| ==> t[j] == s[j];
    GreedyMatchBounds(s, i, j, k);
  }

  /** Index-level form of the previous lemma: markers up to `i`, an optional dot,
      whitespace from `j` to `k` end no later than the greedy match. */
  lemma GreedyMatchBounds(s: string, i: nat, j: nat, k: nat)
    requires 0 < i <= j <= k <= |s|
    requires forall m :: 0 <= m < i ==> IsMarkerChar(s[m])
    requires j == i || (j == i + 1 && s[i] == '.')
    requires forall m :: j <= m < k ==> IsSpace(s[m])
    ensures 0 < k <= MatchLength(s)
  {
    var i0 := MarkerRunLength(s);
    var j0 := if i0 < |s| && s[i0] == '.' then i0 + 1 else i0;
    assert MatchLength(s) == j0 + LeadingSpaces(s[j0..]);
    LeadingSpacesFrom(s, j0);
    assert i <= i0;
    if i < i0 {
      assert IsMarkerChar(s[i]);
      assert j == i;
      assert !IsSpace(s[i]);
      assert k == i;
    } else {
      if j < j0 {
        assert k == j;
      } else {
        assert j == j0;
      }
    }
  }

  // ---------------------------------------------------------------------------
  // The cleaning of the reply
  // ---------------------------------------------------------------------------

  /** One line of the reply after `line.strip()` and the marker substitution: a
      suffix of the stripped line with neither end whitespace; a stripped line
      that does not start with a marker is kept whole. */
  function CleanLine(line: string): (r: string)
    ensures IsStripped(r)
    ensures var s := Strip(line); |r| <= |s| && r == s[|s| - |r|..]
    ensures Strip(line) == [] || !IsMarkerChar(Strip(line)[0]) ==> r == Strip(line)
  {
    var s := Strip(line);
    StripMarkerKeepsStripped(s);
    StripMarker(s)
  }

  /** The substitution leaves a stripped line stripped. */
  lemma StripMarkerKeepsStripped(s: string)
    requires IsStripped(s)
    ensures IsStripped(StripMarker(s))
  {
    var r := StripMarker(s);
    assert r != [] ==> r[|r| - 1] == s[|s| - 1];
  }

  /** A line gives no point exactly when it is blank or, once stripped, is
      nothing but a marker match (such as "-", "3." or "* "). */
  lemma CleanLineEmpty(line: string)
    ensures CleanLine(line) == [] <==> AllSpace(line) || MarkerPattern(Strip(line))
  {
    var t := Strip(line);
    assert t[..|t|] == t;
    if CleanLine(line) == [] && t != [] {
      assert MatchLength(t) == |t|;
      GreedyMatchIsMatch(t);
    }
    if MarkerPattern(t) {
      MatchEndsWithinGreedyMatch(t, |t|);
    }
  }

  /** A list marker as a reply would write it: a match of the pattern that ends
      in whitespace ("- ", "1. ", "** "). */
  ghost predicate IsListMarker(p: string) {
    MarkerPattern(p) && p != [] && IsSpace(p[|p| - 1])
  }

  /** A line made of a list marker and an item gives the item back. */
  lemma MarkedLine(p: string, item: string)
    requires IsListMarker(p) && item != [] && IsStripped(item)
    ensures CleanLine(p + item) == item
  {
    var s := p + item;
    assert s[..|p|] == p;
    assert s[|p| - 1] == p[|p| - 1] && s[|p|] == item[0];
    GreedyMatchIs(s, |p|);
    assert IsStripped(s) by { assert s[|s| - 1] == item[|item| - 1]; }
    assert Strip(s) == s;
    assert s[|p|..] == item;
  }

  /** A match that ends in whitespace followed by a non-space character is the
      greedy match. */
  lemma GreedyMatchIs(s: string, q: nat)
    requires 0 < q < |s| && MarkerPattern(s[..q])
    requires IsSpace(s[q - 1]) && !IsSpace(s[q])
    ensures MatchLength(s) == q && IsMarkerChar(s[0])
  {
    MatchEndsWithinGreedyMatch(s, q);
    GreedyMatchStopsAt(s, q);
  }

  /** The greedy match cannot run past a non-space character that follows a space. */
  lemma GreedyMatchStopsAt(s: string, q: nat)
    requires 0 < q < |s| && IsSpace(s[q - 1]) && !IsSpace(s[q])
    requires s != [] && IsMarkerChar(s[0])
    ensures MatchLength(s) <= q
  {
    var i := MarkerRunLength(s);
    var j := if i < |s| && s[i] == '.' then i + 1 else i;
    assert MatchLength(s) == j + LeadingSpaces(s[j..]);
    assert !IsMarkerChar(s[q - 1]) && s[q - 1] != '.';
    assert j <= q - 1;
    assert s[j..][q - j] == s[q];
  }

  /** The points the loop collects from `lines`: the cleaned lines that are not
      empty, in their order. */
  function CleanedLines(lines: seq<string>): (points: seq<string>)
    ensures |points| <= |lines|
    ensures forall k :: 0 <= k < |points| ==> points[k] != [] && IsStripped(points[k])
  {
    if lines == [] then []
    else
      var last := CleanLine(lines[|lines| - 1]);
      CleanedLines(lines[..|lines| - 1]) + (if last == [] then [] else [last])
  }

  /** Cleaning works line by line: the points of two blocks of lines are the
      points of the first followed by those of the second. */
  lemma {:induction false} CleanedLinesAppend(a: seq<string>, b: seq<string>)
    ensures CleanedLines(a + b) == CleanedLines(a) + CleanedLines(b)
    decreases |b|
  {
    if b == [] {
      assert a + b == a;
    } else {
      var last := CleanLine(b[|b| - 1]);
      assert (a + b)[..|a + b| - 1] == a + b[..|b| - 1];
      assert (a + b)[|a + b| - 1] == b[|b| - 1];
      CleanedLinesAppend(a, b[..|b| - 1]);
    }
  }

  /** Some line of `lines` cleans to `x`. */
  ghost predicate CleansTo(lines: seq<string>, x: string) {
    exists k :: 0 <= k < |lines| && CleanLine(lines[k]) == x
  }

  /** A point is exactly the cleaned form of some line, when that form is not
      empty: blank and marker-only lines contribute nothing, every other line
      contributes its cleaned form. */
  lemma CleanedLinesMembers(lines: seq<string>, x: string)
    ensures x in CleanedLines(lines) <==> x != [] && CleansTo(lines, x)
  {
    if x in CleanedLines(lines) {
      var k := CleanedLineSource(lines, x);
    }
    if x != [] && CleansTo(lines, x) {
      var k :| 0 <= k < |lines| && CleanLine(lines[k]) == x;
      CleanedLinesComplete(lines, k);
    }
  }

  /** Every point comes from a line: the index of one that cleans to `x`. */
  lemma {:induction false} CleanedLineSource(lines: seq<string>, x: string) returns (k: nat)
    ensures x in CleanedLines(lines) ==> k < |lines| && CleanLine(lines[k]) == x && x != []
    decreases |lines|
  {
    k := 0;
    if lines != [] {
      var init := lines[..|lines| - 1];
      if x in CleanedLines(init) {
        k := CleanedLineSource(init, x);
        assert lines[k] == init[k];
      } else {
        k := |lines| - 1;
      }
    }
  }

  /** The line at `k`, when it does not clean to nothing, gives a point. */
  lemma {:induction false} CleanedLinesComplete(lines: seq<string>, k: nat)
    ensures k < |lines| && CleanLine(lines[k]) != [] ==> CleanLine(lines[k]) in CleanedLines(lines)
    decreases |lines|
  {
    if k < |lines| - 1 {
      var init := lines[..|lines| - 1];
      assert init[k] == lines[k];
      CleanedLinesComplete(init, k);
    }
  }

  /** When every line cleans to a non-empty item, the points are those items. */
  lemma {:induction false} CleanedLinesAllKept(lines: seq<string>, items: seq<string>)
    requires |lines| == |items|
    requires forall k :: 0 <= k < |lines| ==> items[k] != [] && CleanLine(lines[k]) == items[k]
    ensures CleanedLines(lines) == items
    decreases |lines|
  {
    if lines != [] {
      var last := |lines| - 1;
      TakeOneMore(lines, last);
      TakeOneMore(items, last);
      assert lines[..last + 1] == lines && items[..last + 1] == items;
      CleanedLinesSnoc(lines[..last], lines[last]);
      CleanedLinesAllKept(lines[..last], items[..last]);
    }
  }

  /** The lines of a reply written as a list: marker `markers[k]` in front of item `items[k]`. */
  function MarkedLines(markers: seq<string>, items: seq<string>): (lines: seq<string>)
    requires |markers| == |items|
    ensures |lines| == |items|
    ensures forall k :: 0 <= k < |lines| ==> lines[k] == markers[k] + items[k]
  {
    seq(|items|, k requires 0 <= k < |items| => markers[k] + items[k])
  }

  lemma MarkedReplyStripped(markers: seq<string>, items: seq<string>)
    requires |markers| == |items| > 0
    requires MarkerPattern(markers[0])
    requires items[|items| - 1] != [] && IsStripped(items[|items| - 1])
    ensures IsStripped(Join(MarkedLines(markers, items), '\n'))
  {
    var lines := MarkedLines(markers, items);
    var raw := Join(lines, '\n');
    var first, last := markers[0], |lines| - 1;
    var i, j :| 0 < i <= j <= |first| && AllMarkers(first[..i]) && (j == i || (j == i + 1 && first[i] == '.')) && AllSpace(first[j..]);
    assert first[..i][0] == first[0];
    assert lines[0][0] == first[0];
    JoinFirst(lines, '\n');
    assert lines[last][|lines[last]| - 1] == items[last][|items[last]| - 1];
    JoinLast(lines, '\n');
  }

  /** A reply written as a list, one item behind a list marker on each line,
      parses to its items, cut to the first five. */
  lemma MarkedReplyParses(markers: seq<string>, items: seq<string>)
    requires |markers| == |items| > 0
    requires forall k :: 0 <= k < |items| ==> IsListMarker(markers[k]) && '\n' !in markers[k]
    requires forall k :: 0 <= k < |items| ==> items[k] != [] && IsStripped(items[k]) && '\n' !in items[k]
    ensures SummaryPoints(Join(MarkedLines(markers, items), '\n'))
         == if |items| > MaxSummaryPoints then items[..MaxSummaryPoints] else items
  {
    var lines := MarkedLines(markers, items);
    var raw := Join(lines, '\n');
    forall k | 0 <= k < |lines|
      ensures CleanLine(lines[k]) == items[k] && '\n' !in lines[k]
    {
      MarkedLine(markers[k], items[k]);
    }
    assert Split(raw, '\n') == lines by {
      SplitJoin(lines, '\n');
    }
    MarkedReplyStripped(markers, items);
    CleanedLinesAllKept(lines, items);
  }

  /** Cleaning one more line appends its cleaned form, unless that is empty. */
  lemma CleanedLinesSnoc(lines: seq<string>, line: string)
    ensures CleanedLines(lines + [line]) == CleanedLines(lines) + (if CleanLine(line) == [] then [] else [CleanLine(line)])
  {
    assert (lines + [line])[..|lines|] == lines;
  }

  lemma TakeOneMore<T>(s: seq<T>, i: nat)
    requires i < |s|
    ensures s[..i + 1] == s[..i] + [s[i]]
  {
  }

  /** The summary points of a reply: the first `MaxSummaryPoints` cleaned,
      non-empty lines of the stripped reply split at '\n'. */
  function SummaryPoints(rawSummaryText: string): (points: seq<string>)
    ensures |points| <= MaxSummaryPoints
    ensures forall k :: 0 <= k < |points| ==> points[k] != [] && IsStripped(points[k])
    ensures var all := CleanedLines(Split(Strip(rawSummaryText), '\n'));
      && points <= all
      && (|points| < MaxSummaryPoints ==> points == all)
  {
    var all := CleanedLines(Split(Strip(rawSummaryText), '\n'));
    if |all| > MaxSummaryPoints then all[..MaxSummaryPoints] else all
  }

  /** The parse of the reply (the `for` loop over `raw_lines` and the cap). */
  method ParseSummaryReply(rawSummaryText: string) returns (summaryPoints: seq<string>)
    ensures summaryPoints == SummaryPoints(rawSummaryText)
  {
    summaryPoints := [];
    var rawLines := Split(Strip(rawSummaryText), '\n');
    for i := 0 to |rawLines|
      invariant summaryPoints == CleanedLines(rawLines[..i])
    {
      TakeOneMore(rawLines, i);
      CleanedLinesSnoc(rawLines[..i], rawLines[i]);
      var cleanedLine := Strip(rawLines[i]);
      cleanedLine := StripMarker(cleanedLine);
      if cleanedLine != [] {
        summaryPoints := summaryPoints + [cleanedLine];
      }
    }
    assert rawLines[..|rawLines|] == rawLines;
    if |summaryPoints| > MaxSummaryPoints {
      summaryPoints := summaryPoints[..MaxSummaryPoints];
    }
  }

  // ---------------------------------------------------------------------------
  // get_meeting_summary
  // ---------------------------------------------------------------------------

  /** What `get_meeting_summary` does for a given client, transcript and call
      outcome. A missing client raises `ValueError` before anything else; a
      blank transcript gives no points; a failed call is re-raised as
      `RuntimeError`; a `None` reply gives no points; any result has at most
      five points, none of them empty or with whitespace at either end. */
  function MeetingSummary(clientPresent: bool, rcTxt: string, completion: CompletionOutcome): (r: SummaryOutcome)
    ensures r.RaisedValueError? <==> !clientPresent
    ensures r.RaisedValueError? ==> r.message == MissingClientMessage
    ensures clientPresent && IsBlank(rcTxt) ==> r == Returned([])
    ensures r.RaisedRuntimeError? <==> clientPresent && !IsBlank(rcTxt) && completion.CallRaised?
    ensures r.RaisedRuntimeError? ==> r.message == RuntimeErrorPrefix + completion.error
    ensures clientPresent && completion == Completed(None) ==> r == Returned([])
    ensures clientPresent && !IsBlank(rcTxt) && completion.Completed? && completion.content.Some? ==>
      r == Returned(SummaryPoints(completion.content.value))
    ensures r.Returned? ==> |r.points| <= MaxSummaryPoints
    ensures r.Returned? ==> forall k :: 0 <= k < |r.points| ==> r.points[k] != [] && IsStripped(r.points[k])
  {
    if !clientPresent then RaisedValueError(MissingClientMessage)
    else if rcTxt == [] || IsBlank(rcTxt) then Returned([])
    else
      match completion
      case CallRaised(e) => RaisedRuntimeError(RuntimeErrorPrefix + e)
      case Completed(None) => Returned([])
      case Completed(Some(raw)) => Returned(SummaryPoints(raw))
  }

  /** `get_meeting_summary`. `llmCalls` counts the chat-completion calls made:
      one when the client is present and the transcript is not blank, none
      otherwise. The subject and model name only shape the prompt, which is
      not modelled. */
  method GetMeetingSummary(clientPresent: bool, rcTxt: string, completion: CompletionOutcome)
    returns (outcome: SummaryOutcome, ghost llmCalls: nat)
    ensures outcome == MeetingSummary(clientPresent, rcTxt, completion)
    ensures llmCalls == (if clientPresent && !IsBlank(rcTxt) then 1 else 0)
  {
    llmCalls := 0;
    if !clientPresent {
      outcome := RaisedValueError(MissingClientMessage);
      return;
    }
    if rcTxt == [] || IsBlank(rcTxt) {
      outcome := Returned([]);
      return;
    }
    llmCalls := llmCalls + 1;
    match completion {
      case CallRaised(e) =>
        outcome := RaisedRuntimeError(RuntimeErrorPrefix + e);
      case Completed(None) =>
        outcome := Returned([]);
      case Completed(Some(rawSummaryText)) =>
        var summaryPoints := ParseSummaryReply(rawSummaryText);
        outcome := Returned(summaryPoints);
    }
  }
}
