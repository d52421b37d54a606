/** `parse_swot_text`: the line-oriented reader that turns the final SWOT
    report into the four lists of the API result. A line naming a section
    switches to it; a dash line under a section becomes an item. */
module SwotParser {
  import opened Wrappers
  import opened Text
  import opened Swot

  /** The section a non-empty, stripped line switches to, from its lowercase
      form; the keywords are tried in this order. */
  function Header(lowerLine: string): (h: Option<Bucket>)
    ensures h.None? <==> forall k | 0 <= k < |Keywords| :: !Contains(lowerLine, Keywords[k])
    ensures Contains(lowerLine, Keywords[0]) ==> h == Some(Strengths)
    ensures !Contains(lowerLine, Keywords[0]) && Contains(lowerLine, Keywords[1]) ==> h == Some(Weaknesses)
    ensures (!Contains(lowerLine, Keywords[0]) && !Contains(lowerLine, Keywords[1])
             && Contains(lowerLine, Keywords[2])) ==> h == Some(Opportunities)
    ensures (!Contains(lowerLine, Keywords[0]) && !Contains(lowerLine, Keywords[1])
             && !Contains(lowerLine, Keywords[2]) && Contains(lowerLine, Keywords[3])) ==> h == Some(Threats)
  {
    if Contains(lowerLine, Keywords[0]) then Some(Strengths)
    else if Contains(lowerLine, Keywords[1]) then Some(Weaknesses)
    else if Contains(lowerLine, Keywords[2]) then Some(Opportunities)
    else if Contains(lowerLine, Keywords[3]) then Some(Threats)
    else None
  }

  const Keywords: seq<string> := ["strength", "weakness", "opportunit", "threat"]

  /** `line.lstrip('- ').strip()` */
  function Item(line: string): string {
    Strip(StripLeftOf(line, {'-', ' '}))
  }

  /** The loop's variables: the four lists and `current_section`. */
  datatype ParseState = ParseState(sections: Summary<string>, current: Option<Bucket>)

  const Start: ParseState := ParseState(EmptySummary(), None)

  /** One iteration of the loop over the lines. */
  function Step(st: ParseState, rawLine: string): ParseState {
    var line := Strip(rawLine);
    if line == "" then st
    else
      match Header(Lower(line))
      case Some(b) => st.(current := Some(b))
      case None =>
        if st.current.Some? && StartsWith(line, "-") && Item(line) != "" then
          st.(sections := st.sections.Add(st.current.value, Item(line)))
        else st
  }

  /** The loop's state after the given lines. */
  function ParseLines(lines: seq<string>): ParseState
    decreases |lines|
  {
    if |lines| == 0 then Start else Step(ParseLines(lines[..|lines| - 1]), lines[|lines| - 1])
  }

  /** What `parse_swot_text(text)` returns. */
  function ParseSwot(text: string): Summary<string> {
    ParseLines(Split(text, '\n')).sections
  }

  method ParseSwotText(text: string) returns (sections: Summary<string>)
    ensures sections == ParseSwot(text)
  {
    var lines := Split(text, '\n');
    sections := EmptySummary();
    var current: Option<Bucket> := None;
    for i := 0 to |lines|
      invariant ParseState(sections, current) == ParseLines(lines[..i])
    {
      assert lines[..i + 1][..i] == lines[..i];
      var line := Strip(lines[i]);
      if line == "" {
        continue;
      }
      var lowerLine := Lower(line);
      if Contains(lowerLine, "strength") {
        current := Some(Strengths);
      } else if Contains(lowerLine, "weakness") {
        current := Some(Weaknesses);
      } else if Contains(lowerLine, "opportunit") {
        current := Some(Opportunities);
      } else if Contains(lowerLine, "threat") {
        current := Some(Threats);
      } else if current.Some? && StartsWith(line, "-") {
        var item := Strip(StripLeftOf(line, {'-', ' '}));
        if item != "" {
          sections := sections.Add(current.value, item);
        }
      }
    }
    assert lines[..|lines|] == lines;
  }

  // ------------------------------------------------------------------ properties

  /** What every item satisfies: it is non-empty and names no section. */
  predicate CleanItem(item: string) {
    item != "" && forall k | 0 <= k < |Keywords| :: !Contains(Lower(item), Keywords[k])
  }

  lemma ItemIsSlice(line: string)
    ensures exists a, b :: 0 <= a <= b <= |line| && Item(line) == line[a..b]
  {
    StripLeftOfIsSuffix(line, {'-', ' '});
    var a :| 0 <= a <= |line| && StripLeftOf(line, {'-', ' '}) == line[a..];
    StripIsSlice(line[a..]);
    var c, d :| 0 <= c <= d <= |line| - a && Strip(line[a..]) == line[a..][c..d];
    assert line[a..][c..d] == line[a + c..a + d];
    assert Item(line) == line[a + c..a + d];
  }

  /** An item cut from a line that is not a header is clean. */
  lemma ItemOfNonHeaderIsClean(line: string)
    requires Header(Lower(line)).None? && Item(line) != ""
    ensures CleanItem(Item(line))
  {
    ItemIsSlice(line);
    var a, b :| 0 <= a <= b <= |line| && Item(line) == line[a..b];
    LowerSlice(line, a, b);
    forall k | 0 <= k < |Keywords| ensures !Contains(Lower(Item(line)), Keywords[k]) {
      if Contains(Lower(line)[a..b], Keywords[k]) {
        ContainsSlice(Lower(line), a, b, Keywords[k]);
      }
    }
  }

  /** The line `line` yields item `x`. */
  predicate ItemLine(line: string, x: string) {
    StartsWith(Strip(line), "-") && Item(Strip(line)) == x
  }

  /** Header lines are never items, no item is empty, and every item is cut
      from a dash line. */
  lemma {:induction false} ItemsAreClean(lines: seq<string>, b: Bucket)
    ensures forall x | x in ParseLines(lines).sections.Get(b) ::
      CleanItem(x) && exists i | 0 <= i < |lines| :: ItemLine(lines[i], x)
    decreases |lines|
  {
    if |lines| > 0 {
      var init := lines[..|lines| - 1];
      ItemsAreClean(init, b);
      assert forall i | 0 <= i < |init| :: init[i] == lines[i];
      var st := ParseLines(init);
      var line := Strip(lines[|lines| - 1]);
      if line != "" && Header(Lower(line)).None? && st.current.Some? && StartsWith(line, "-") && Item(line) != "" {
        ItemOfNonHeaderIsClean(line);
      }
    }
  }

  /** Each line adds at most one item. */
  lemma {:induction false} ItemsBoundedByLines(lines: seq<string>)
    ensures ParseLines(lines).sections.Size() <= |lines|
    decreases |lines|
  {
    if |lines| > 0 {
      ItemsBoundedByLines(lines[..|lines| - 1]);
    }
  }

  /** Before the first header line nothing is collected. */
  lemma {:induction false} NothingBeforeAHeader(lines: seq<string>)
    requires forall i | 0 <= i < |lines| :: Header(Lower(Strip(lines[i]))).None?
    ensures ParseLines(lines) == Start
    decreases |lines|
  {
    if |lines| > 0 {
      NothingBeforeAHeader(lines[..|lines| - 1]);
    }
  }

  // ------------------------------------------------------------------ placement

  /** The section a raw line of the report switches to, if it is a header. */
  function HeaderOf(line: string): Option<Bucket> {
    Header(Lower(Strip(line)))
  }

  /** Line `j` is a header for `b` and no header follows it in `lines`. */
  predicate LatestHeader(lines: seq<string>, j: int, b: Bucket) {
    0 <= j < |lines| && HeaderOf(lines[j]) == Some(b)
    && forall k | j < k < |lines| :: HeaderOf(lines[k]).None?
  }

  /** Line `i` is a non-empty dash item `x`, and the most recent header
      before it (line `j`) names section `b`. */
  predicate Collects(lines: seq<string>, j: int, i: int, b: Bucket, x: string) {
    0 <= j < i < |lines| && LatestHeader(lines[..i], j, b)
    && HeaderOf(lines[i]).None? && ItemLine(lines[i], x) && x != ""
  }

  /** One loop iteration, seen through `HeaderOf` and `ItemLine`. */
  lemma StepByHeader(st: ParseState, raw: string)
    ensures HeaderOf(raw).Some? ==> Step(st, raw) == st.(current := HeaderOf(raw))
    ensures HeaderOf(raw).None? ==> Step(st, raw).current == st.current
    ensures HeaderOf(raw).None? ==> (Step(st, raw).sections ==
      if st.current.Some? && ItemLine(raw, Item(Strip(raw))) && Item(Strip(raw)) != ""
      then st.sections.Add(st.current.value, Item(Strip(raw))) else st.sections)
  {
  }

  /** A line that is not a header keeps the latest header. */
  lemma LatestHeaderPastItem(lines: seq<string>, j: int, b: Bucket)
    requires |lines| > 0 && HeaderOf(lines[|lines| - 1]).None?
    ensures LatestHeader(lines, j, b) <==> LatestHeader(lines[..|lines| - 1], j, b)
  {
    var init := lines[..|lines| - 1];
    assert forall k | 0 <= k < |init| :: init[k] == lines[k];
  }

  /** A header line is the latest header. */
  lemma LatestHeaderAtHeader(lines: seq<string>, j: int, b: Bucket)
    requires |lines| > 0 && HeaderOf(lines[|lines| - 1]).Some?
    ensures LatestHeader(lines, j, b) <==> j == |lines| - 1 && HeaderOf(lines[j]) == Some(b)
  {
  }

  /** `current_section` after some lines is the section of the most recent
      header among them. */
  lemma {:induction false} CurrentIsLatestHeader(lines: seq<string>, b: Bucket)
    ensures ParseLines(lines).current == Some(b) <==> exists j :: LatestHeader(lines, j, b)
    decreases |lines|
  {
    if |lines| > 0 {
      var n := |lines| - 1;
      var init := lines[..n];
      CurrentIsLatestHeader(init, b);
      StepByHeader(ParseLines(init), lines[n]);
      if HeaderOf(lines[n]).Some? {
        LatestHeaderAtHeader(lines, n, b);
        if exists j :: LatestHeader(lines, j, b) {
          var j :| LatestHeader(lines, j, b);
          LatestHeaderAtHeader(lines, j, b);
        }
      } else {
        if ParseLines(init).current == Some(b) {
          var j :| LatestHeader(init, j, b);
          LatestHeaderPastItem(lines, j, b);
        }
        if exists j :: LatestHeader(lines, j, b) {
          var j :| LatestHeader(lines, j, b);
          LatestHeaderPastItem(lines, j, b);
        }
      }
    }
  }

  /** What one line adds to the list of section `b`: the item of a dash line
      when the current section is `b`. */
  lemma StepItems(st: ParseState, raw: string, b: Bucket, x: string)
    ensures x in Step(st, raw).sections.Get(b) <==>
      x in st.sections.Get(b) || (st.current == Some(b) && HeaderOf(raw).None? && ItemLine(raw, x) && x != "")
  {
    StepByHeader(st, raw);
  }

  /** An item before the last line is collected in `lines` exactly when it is
      collected in the lines before the last. */
  lemma CollectsBeforeLast(lines: seq<string>, j: int, i: int, b: Bucket, x: string)
    requires 0 <= i < |lines| - 1
    ensures Collects(lines, j, i, b, x) <==> Collects(lines[..|lines| - 1], j, i, b, x)
  {
    assert lines[..|lines| - 1][..i] == lines[..i];
  }

  lemma {:induction false} ItemPlacementSound(lines: seq<string>, b: Bucket, x: string)
    requires x in ParseLines(lines).sections.Get(b)
    ensures exists j, i :: Collects(lines, j, i, b, x)
    decreases |lines|
  {
    var n := |lines| - 1;
    var init := lines[..n];
    var st := ParseLines(init);
    StepItems(st, lines[n], b, x);
    if x in st.sections.Get(b) {
      ItemPlacementSound(init, b, x);
      var j, i :| Collects(init, j, i, b, x);
      CollectsBeforeLast(lines, j, i, b, x);
    } else {
      CurrentIsLatestHeader(init, b);
      var j :| LatestHeader(init, j, b);
      assert Collects(lines, j, n, b, x);
    }
  }

  /** An item of the last line whose latest header names `b` is collected. */
  lemma CollectedAtLast(lines: seq<string>, b: Bucket, x: string, j: int)
    requires |lines| > 0 && Collects(lines, j, |lines| - 1, b, x)
    ensures x in ParseLines(lines).sections.Get(b)
  {
    var init := lines[..|lines| - 1];
    assert LatestHeader(init, j, b);
    CurrentIsLatestHeader(init, b);
    StepItems(ParseLines(init), lines[|lines| - 1], b, x);
  }

  lemma {:induction false} ItemPlacementComplete(lines: seq<string>, b: Bucket, x: string, j: int, i: int)
    requires Collects(lines, j, i, b, x)
    ensures x in ParseLines(lines).sections.Get(b)
    decreases |lines|
  {
    var n := |lines| - 1;
    if i < n {
      var init := lines[..n];
      CollectsBeforeLast(lines, j, i, b, x);
      ItemPlacementComplete(init, b, x, j, i);
      StepItems(ParseLines(init), lines[n], b, x);
    } else {
      CollectedAtLast(lines, b, x, j);
    }
  }

  /** An item is in the list of section `b` exactly when some dash line
      yields it while the most recent header before that line names `b`. */
  lemma ItemPlacement(lines: seq<string>, b: Bucket, x: string)
    ensures x in ParseLines(lines).sections.Get(b) <==> exists j, i :: Collects(lines, j, i, b, x)
  {
    if x in ParseLines(lines).sections.Get(b) {
      ItemPlacementSound(lines, b, x);
    }
    if exists j, i :: Collects(lines, j, i, b, x) {
      var j, i :| Collects(lines, j, i, b, x);
      ItemPlacementComplete(lines, b, x, j, i);
    }
  }
}
