/**
 * Lemmas about what the modelled summary parser (`SummaryPoints` and
 * `CleanLine`) gives for concrete replies: the reply shown in the comments of
 * app/services/summarizer_service.py, and two lines whose content the marker
 * pattern eats into.
 */
module SummaryExamples {
  import opened PyText
  import opened SummarizerService

  /** A one-character marker and a space ("- ", "* "). */
  lemma BulletIsListMarker(p: string)
    requires |p| == 2 && IsMarkerChar(p[0]) && p[1] == ' '
    ensures IsListMarker(p)
  {
    assert AllMarkers(p[..1]) && AllSpace(p[1..]);
  }

  lemma DocMarkedLines(markers: seq<string>, items: seq<string>)
    requires markers == ["- ", "- ", "* "] && items == ["항목1", "항목2", "항목3"]
    ensures MarkedLines(markers, items) == ["- 항목1", "- 항목2", "* 항목3"]
  {
    var lines := MarkedLines(markers, items);
    assert lines[0] == "- 항목1";
    assert lines[1] == "- 항목2";
    assert lines[2] == "* 항목3";
  }

  lemma DocLines(lines: seq<string>)
    requires lines == ["- 항목1", "- 항목2", "* 항목3"]
    ensures Join(lines, '\n') == "- 항목1\n- 항목2\n* 항목3"
  {
    assert Join(lines[2..], '\n') == "* 항목3";
    assert Join(lines[1..], '\n') == "- 항목2\n* 항목3";
  }

  /** The reply the parser's comments expect parses to its three items. */
  lemma DocCommentReply()
    ensures SummaryPoints("- 항목1\n- 항목2\n* 항목3") == ["항목1", "항목2", "항목3"]
  {
    var markers := ["- ", "- ", "* "];
    var items := ["항목1", "항목2", "항목3"];
    forall k | 0 <= k < 3
      ensures IsListMarker(markers[k]) && '\n' !in markers[k]
      ensures items[k] != [] && IsStripped(items[k]) && '\n' !in items[k]
    {
      BulletIsListMarker(markers[k]);
    }
    MarkedReplyParses(markers, items);
    var lines := MarkedLines(markers, items);
    DocMarkedLines(markers, items);
    DocLines(lines);
  }

  /** The pattern has no word boundary: a line that opens with a number loses
      the number even when it is not a list marker ("2024년 계획" keeps only
      "년 계획"). */
  lemma QuirkYear(s: string)
    requires s == "2024년 계획"
    ensures CleanLine(s) == "년 계획"
  {
    assert IsStripped(s);
    YearMatch(s);
    assert s[4..] == "년 계획";
  }

  lemma YearMatch(s: string)
    requires s == "2024년 계획"
    ensures MatchLength(s) == 4
  {
    assert !IsMarkerChar(s[4]);
    assert MarkerRunLength(s[4..]) == 0;
    assert MarkerRunLength(s) == 4;
    assert LeadingSpaces(s[4..]) == 0;
  }

  /** The optional dot is taken once, so a decimal number loses its integer
      part and the dot ("1.2 foo" becomes "2 foo"). */
  lemma QuirkDecimal(s: string)
    requires s == "1.2 foo"
    ensures CleanLine(s) == "2 foo"
  {
    assert IsStripped(s);
    assert MarkerRunLength(s[1..]) == 0;
    assert MarkerRunLength(s) == 1;
    assert LeadingSpaces(s[2..]) == 0;
    assert MatchLength(s) == 2;
    assert s[2..] == "2 foo";
  }
}
