/** The logic of the Hugging Face Spaces app: the section parser of the SWOT
    endpoint and the quality score of the analysis endpoint. */
module HfSpaces {
  import opened Wrappers
  import opened Text

  function Heading(name: string): string {
    "## " + name
  }

  /** Where `extract_section` cuts: from the first heading to the next "##"
      after its first character, or to the end of the report. */
  function SectionBounds(report: string, name: string): (r: Option<(nat, nat)>)
    ensures r.None? <==> !Contains(report, Heading(name))
    ensures r.Some? ==> r.value.0 < r.value.1 <= |report|
    ensures r.Some? ==> OccursAt(report, Heading(name), r.value.0)
                        && forall j | 0 <= j < r.value.0 :: !OccursAt(report, Heading(name), j)
    ensures r.Some? ==> (r.value.1 < |report| ==> OccursAt(report, "##", r.value.1))
                        && forall j | r.value.0 + 1 <= j < r.value.1 :: !OccursAt(report, "##", j)
  {
    var start := Find(report, Heading(name));
    if start == -1 then None
    else
      var next := FindFrom(report, "##", start + 1);
      Some((start, if next == -1 then |report| else next))
  }

  /** The item of one line of a section: a line whose stripped form starts
      with "-" stands for itself with all its dashes removed, stripped. */
  function LineItem(line: string): (r: Option<string>)
    ensures r.Some? <==> StartsWith(Strip(line), "-")
    ensures r.Some? ==> r.value == Strip(RemoveChar(line, '-'))
  {
    if StartsWith(Strip(line), "-") then Some(Strip(RemoveChar(line, '-'))) else None
  }

  /** The items of the section's lines, in order. */
  function Items(lines: seq<string>): seq<string> {
    FilterMap(lines, LineItem)
  }

  /** `extract_section(section_name)` */
  function ExtractSection(report: string, name: string): (items: seq<string>)
    ensures !Contains(report, Heading(name)) ==> items == []
  {
    match SectionBounds(report, name)
    case None => []
    case Some((start, end)) => Items(Split(report[start..end], '\n'))
  }

  lemma ItemsMembership(lines: seq<string>, x: string)
    ensures x in Items(lines) <==> exists i | 0 <= i < |lines| :: StartsWith(Strip(lines[i]), "-") && x == Strip(RemoveChar(lines[i], '-'))
  {
    FilterMapMembership(lines, LineItem, x);
    assert forall i | 0 <= i < |lines| :: LineItem(lines[i]) == Some(x) <==>
      StartsWith(Strip(lines[i]), "-") && x == Strip(RemoveChar(lines[i], '-'));
  }

  /** No item contains a dash. */
  lemma NoDashInItems(lines: seq<string>, x: string)
    requires x in Items(lines)
    ensures '-' !in x
  {
    ItemsMembership(lines, x);
    var i :| 0 <= i < |lines| && StartsWith(Strip(lines[i]), "-") && x == Strip(RemoveChar(lines[i], '-'));
    StripChars(RemoveChar(lines[i], '-'));
  }

  /** An item of a section is the dash-less, stripped form of one of the
      section's lines that start with "-"; none contains a dash. */
  lemma ExtractedItems(report: string, name: string, x: string)
    requires x in ExtractSection(report, name)
    ensures Contains(report, Heading(name))
    ensures var (start, end) := SectionBounds(report, name).value;
            exists line | line in Split(report[start..end], '\n') :: StartsWith(Strip(line), "-") && x == Strip(RemoveChar(line, '-'))
    ensures '-' !in x
  {
    var (start, end) := SectionBounds(report, name).value;
    var lines := Split(report[start..end], '\n');
    ItemsMembership(lines, x);
    NoDashInItems(lines, x);
  }

  /** The four lists of `get_swot`. */
  datatype SwotLists = SwotLists(strengths: seq<string>, weaknesses: seq<string>, opportunities: seq<string>,
                                 threats: seq<string>)

  /** `get_swot`, given the drafted report. */
  function SwotOf(report: string): SwotLists {
    SwotLists(ExtractSection(report, "Strengths"), ExtractSection(report, "Weaknesses"),
              ExtractSection(report, "Opportunities"), ExtractSection(report, "Threats"))
  }

  const FlagshipNames := ["tesla", "apple", "microsoft"]

  /** The score of `analyze_company`: 9.2 for a company whose lower-cased
      name contains one of the flagship names, 8.5 otherwise. */
  function AnalysisScore(companyName: string): (s: real)
    ensures s == 9.2 || s == 8.5
    ensures s == 9.2 <==> exists k | k in FlagshipNames :: Contains(Lower(companyName), k)
  {
    if exists k | k in FlagshipNames :: Contains(Lower(companyName), k) then 9.2 else 8.5
  }

  lemma LowerTwice(s: string)
    ensures Lower(Lower(s)) == Lower(s)
  {
    assert forall i | 0 <= i < |s| :: LowerChar(LowerChar(s[i])) == LowerChar(s[i]);
  }

  /** The score does not depend on letter case. */
  lemma ScoreIgnoresCase(companyName: string)
    ensures AnalysisScore(Lower(companyName)) == AnalysisScore(companyName)
  {
    LowerTwice(companyName);
  }

  /** A name containing "Apple" in any case scores 9.2. */
  lemma FlagshipScore(companyName: string, i: nat)
    requires i + 5 <= |companyName| && Lower(companyName[i..i + 5]) == "apple"
    ensures AnalysisScore(companyName) == 9.2
  {
    LowerSlice(companyName, i, i + 5);
    assert OccursAt(Lower(companyName), "apple", i);
    assert "apple" in FlagshipNames;
  }
}
