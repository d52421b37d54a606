/** The SEC fundamentals basket: CIK formatting, the choice of the latest
    reported fact of a concept, the guards of the growth computation, the
    8-K material-event parser, the going-concern risk level, the ownership
    filing buckets and the SWOT rules of the full basket. The HTTP calls
    are gone: what EDGAR returns is an input. */
module Financials {
  import opened Wrappers
  import opened Text
  import opened Swot

  // ------------------------------------------------------------------ format_cik

  function Zeros(n: nat): (z: string)
    ensures |z| == n && forall k | 0 <= k < n :: z[k] == '0'
  {
    seq(n, _ => '0')
  }

  /** `str(cik).zfill(10)`: zeros are inserted after a leading sign. */
  function FormatCik(cik: string): (r: string)
    ensures |r| == if |cik| >= 10 then |cik| else 10
    ensures |cik| >= 10 ==> r == cik
  {
    if |cik| >= 10 then cik
    else if |cik| > 0 && (cik[0] == '+' || cik[0] == '-') then [cik[0]] + Zeros(10 - |cik|) + cik[1..]
    else Zeros(10 - |cik|) + cik
  }

  lemma FormatCikIdempotent(cik: string)
    ensures FormatCik(FormatCik(cik)) == FormatCik(cik)
  {
  }

  predicate IsDigits(s: string) {
    forall k | 0 <= k < |s| :: '0' <= s[k] <= '9'
  }

  /** The number a string of decimal digits denotes. */
  function DigitsValue(s: string): nat
    requires IsDigits(s)
    decreases |s|
  {
    if |s| == 0 then 0 else DigitsValue(s[..|s| - 1]) * 10 + (s[|s| - 1] as int - '0' as int)
  }

  lemma {:induction false} ZerosValue(n: nat)
    ensures DigitsValue(Zeros(n)) == 0
    decreases n
  {
    if n > 0 {
      assert Zeros(n)[..n - 1] == Zeros(n - 1);
      ZerosValue(n - 1);
    }
  }

  lemma {:induction false} LeadingZerosValue(n: nat, s: string)
    requires IsDigits(s)
    ensures IsDigits(Zeros(n) + s) && DigitsValue(Zeros(n) + s) == DigitsValue(s)
    decreases |s|
  {
    if |s| == 0 {
      assert Zeros(n) + s == Zeros(n);
      ZerosValue(n);
    } else {
      var init := s[..|s| - 1];
      LeadingZerosValue(n, init);
      assert (Zeros(n) + s)[..|Zeros(n) + s| - 1] == Zeros(n) + init;
    }
  }

  /** Padding a CIK of digits keeps only digits and the same number: the
      formatted CIK names the same registrant. */
  lemma FormatCikKeepsNumber(cik: string)
    requires IsDigits(cik)
    ensures IsDigits(FormatCik(cik)) && DigitsValue(FormatCik(cik)) == DigitsValue(cik)
  {
    if |cik| < 10 {
      LeadingZerosValue(10 - |cik|, cik);
    }
  }

  // ------------------------------------------------------------------ company facts

  /** One entry of `facts["us-gaap"][concept]["units"][unit]`; a missing key is `None`. */
  datatype Fact = Fact(form: Option<string>, end: Option<string>, val: Option<real>, fy: Option<int>)

  /** The `us-gaap` part of the company facts: concept, then unit, then entries. */
  type Facts = map<string, map<string, seq<Fact>>>

  const TenK := "10-K"

  function Units(facts: Facts, concept: string, unit: string): seq<Fact> {
    if concept in facts && unit in facts[concept] then facts[concept][unit] else []
  }

  /** `x.get("end", "")`, the sort key. */
  function EndKey(f: Fact): string {
    f.end.GetOr("")
  }

  predicate EndBefore(a: Fact, b: Fact) {
    !StrLe(EndKey(b), EndKey(a))
  }

  /** `[f for f in units if f.get("form") == "10-K"]` */
  function Annual(units: seq<Fact>): (r: seq<Fact>)
    ensures forall f | f in r :: f in units && f.form == Some(TenK)
    ensures forall f | f in units && f.form == Some(TenK) :: f in r
    decreases |units|
  {
    if |units| == 0 then []
    else
      var init := Annual(units[..|units| - 1]);
      assert forall f | f in units[..|units| - 1] :: f in units;
      if units[|units| - 1].form == Some(TenK) then init + [units[|units| - 1]] else init
  }

  /** Places `x` after every entry whose end date is not earlier, as the
      stable descending sort does. */
  function InsertByEnd(x: Fact, s: seq<Fact>): seq<Fact>
    decreases |s|
  {
    if |s| == 0 then [x]
    else if EndBefore(s[0], x) then [x] + s
    else [s[0]] + InsertByEnd(x, s[1..])
  }

  /** `facts.sort(key=lambda x: x.get("end", ""), reverse=True)` */
  function SortByEnd(s: seq<Fact>): seq<Fact>
    decreases |s|
  {
    if |s| == 0 then [] else InsertByEnd(s[|s| - 1], SortByEnd(s[..|s| - 1]))
  }

  predicate Descending(s: seq<Fact>) {
    forall i, j | 0 <= i < j < |s| :: StrLe(EndKey(s[j]), EndKey(s[i]))
  }

  lemma {:induction false} InsertByEndPermutes(x: Fact, s: seq<Fact>)
    ensures multiset(InsertByEnd(x, s)) == multiset(s) + multiset{x}
    decreases |s|
  {
    if |s| > 0 && !EndBefore(s[0], x) {
      InsertByEndPermutes(x, s[1..]);
      assert s == [s[0]] + s[1..];
    }
  }

  /** An entry ending no earlier than every entry of a descending list may go first. */
  lemma PrependDescending(y: Fact, s: seq<Fact>)
    requires Descending(s)
    requires forall j | 0 <= j < |s| :: StrLe(EndKey(s[j]), EndKey(y))
    ensures Descending([y] + s)
  {
    var r := [y] + s;
    forall i, j | 0 <= i < j < |r| ensures StrLe(EndKey(r[j]), EndKey(r[i])) {
      if i > 0 {
        assert r[i] == s[i - 1] && r[j] == s[j - 1];
      }
    }
  }

  lemma TailDescending(s: seq<Fact>)
    requires |s| > 0 && Descending(s)
    ensures Descending(s[1..])
  {
    var tail := s[1..];
    forall i, j | 0 <= i < j < |tail| ensures StrLe(EndKey(tail[j]), EndKey(tail[i])) {
      assert tail[i] == s[i + 1] && tail[j] == s[j + 1];
    }
  }

  /** Inserting into the tail keeps every entry no later than the head. */
  lemma InsertBelowHead(x: Fact, s: seq<Fact>)
    requires |s| > 0 && Descending(s) && !EndBefore(s[0], x)
    ensures forall j | 0 <= j < |InsertByEnd(x, s[1..])| :: StrLe(EndKey(InsertByEnd(x, s[1..])[j]), EndKey(s[0]))
  {
    var tail := s[1..];
    var ins := InsertByEnd(x, tail);
    InsertByEndPermutes(x, tail);
    forall j | 0 <= j < |ins| ensures StrLe(EndKey(ins[j]), EndKey(s[0])) {
      assert ins[j] in multiset(ins);
      if ins[j] != x {
        assert ins[j] in multiset(tail);
        var k :| 0 <= k < |tail| && tail[k] == ins[j];
        assert tail[k] == s[k + 1];
      }
    }
  }

  lemma {:induction false} InsertByEndDescending(x: Fact, s: seq<Fact>)
    requires Descending(s)
    ensures Descending(InsertByEnd(x, s))
    decreases |s|
  {
    if |s| > 0 {
      if EndBefore(s[0], x) {
        StrLeTotal(EndKey(s[0]), EndKey(x));
        forall j | 0 <= j < |s| ensures StrLe(EndKey(s[j]), EndKey(x)) {
          if j > 0 {
            StrLeTrans(EndKey(s[j]), EndKey(s[0]), EndKey(x));
          }
        }
        PrependDescending(x, s);
      } else {
        TailDescending(s);
        InsertByEndDescending(x, s[1..]);
        InsertBelowHead(x, s);
        PrependDescending(s[0], InsertByEnd(x, s[1..]));
      }
    }
  }

  /** The sort orders by end date, latest first, and keeps the same entries. */
  lemma {:induction false} SortByEndCorrect(s: seq<Fact>)
    ensures Descending(SortByEnd(s))
    ensures multiset(SortByEnd(s)) == multiset(s)
    ensures |SortByEnd(s)| == |s|
    decreases |s|
  {
    if |s| > 0 {
      var init := s[..|s| - 1];
      SortByEndCorrect(init);
      InsertByEndDescending(s[|s| - 1], SortByEnd(init));
      InsertByEndPermutes(s[|s| - 1], SortByEnd(init));
      assert s == init + [s[|s| - 1]];
    }
    assert |multiset(SortByEnd(s))| == |multiset(s)|;
  }

  /** The first entry of `s` with the greatest end date. */
  function FirstLatest(s: seq<Fact>): Fact
    requires |s| > 0
    decreases |s|
  {
    if |s| == 1 then s[0]
    else
      var m := FirstLatest(s[..|s| - 1]);
      if EndBefore(m, s[|s| - 1]) then s[|s| - 1] else m
  }

  /** The first entry after the stable sort is the earliest-listed entry
      among those with the greatest end date. */
  lemma {:induction false} SortHeadIsFirstLatest(s: seq<Fact>)
    requires |s| > 0
    ensures |SortByEnd(s)| > 0 && SortByEnd(s)[0] == FirstLatest(s)
    decreases |s|
  {
    if |s| > 1 {
      SortHeadIsFirstLatest(s[..|s| - 1]);
    } else {
      assert s[..0] == [];
    }
  }

  lemma {:induction false} FirstLatestIsGreatest(s: seq<Fact>) returns (i: nat)
    requires |s| > 0
    ensures i < |s| && s[i] == FirstLatest(s)
    ensures forall j | 0 <= j < |s| :: StrLe(EndKey(s[j]), EndKey(s[i]))
    ensures forall j | 0 <= j < i :: EndBefore(s[j], s[i])
    decreases |s|
  {
    if |s| == 1 {
      i := 0;
      StrLeRefl(EndKey(s[0]));
    } else {
      var init := s[..|s| - 1];
      var last := s[|s| - 1];
      var k := FirstLatestIsGreatest(init);
      if EndBefore(init[k], last) {
        i := |s| - 1;
        StrLeTotal(EndKey(init[k]), EndKey(last));
        forall j | 0 <= j < |s| ensures StrLe(EndKey(s[j]), EndKey(s[i])) {
          if j < |s| - 1 {
            assert s[j] == init[j];
            StrLeTrans(EndKey(s[j]), EndKey(init[k]), EndKey(last));
          } else {
            StrLeRefl(EndKey(last));
          }
        }
        forall j | 0 <= j < i ensures EndBefore(s[j], s[i]) {
          assert s[j] == init[j];
          if StrLe(EndKey(last), EndKey(s[j])) {
            StrLeTrans(EndKey(last), EndKey(s[j]), EndKey(init[k]));
          }
        }
      } else {
        i := k;
        assert s[i] == init[k];
        forall j | 0 <= j < |s| ensures StrLe(EndKey(s[j]), EndKey(s[i])) {
          if j < |s| - 1 {
            assert s[j] == init[j];
          }
        }
        assert forall j | 0 <= j < i :: s[j] == init[j];
      }
    }
  }

  /** What `get_latest_value` returns for the chosen entry. */
  datatype Latest = Latest(value: Option<real>, endDate: Option<string>, fiscalYear: Option<int>, form: Option<string>)

  function LatestOf(f: Fact): Latest {
    Latest(f.val, f.end, f.fy, f.form)
  }

  /** The entries the choice is made from: the 10-K entries, or all of them
      when there are none. */
  function Candidates(units: seq<Fact>): seq<Fact> {
    var annual := Annual(units);
    if |annual| == 0 then units else annual
  }

  /** `get_latest_value(facts, concept, unit)` */
  function GetLatestValue(facts: Facts, concept: string, unit: string): Option<Latest> {
    var units := Units(facts, concept, unit);
    if |units| == 0 then None
    else
      var sorted := SortByEnd(Candidates(units));
      SortByEndCorrect(Candidates(units));
      Some(LatestOf(sorted[0]))
  }

  /** Nothing without entries; otherwise the entry with the greatest end
      date, the first such in listing order, taken from the 10-K entries
      when there are any. */
  lemma GetLatestValueChoice(facts: Facts, concept: string, unit: string)
    ensures Units(facts, concept, unit) == [] <==> GetLatestValue(facts, concept, unit) == None
    ensures Units(facts, concept, unit) != [] ==>
      var pool := Candidates(Units(facts, concept, unit));
      exists i | 0 <= i < |pool| ::
        GetLatestValue(facts, concept, unit) == Some(LatestOf(pool[i]))
        && (forall j | 0 <= j < |pool| :: StrLe(EndKey(pool[j]), EndKey(pool[i])))
        && (forall j | 0 <= j < i :: EndBefore(pool[j], pool[i]))
    ensures (exists f | f in Units(facts, concept, unit) :: f.form == Some(TenK)) ==>
      forall f | f in Candidates(Units(facts, concept, unit)) :: f.form == Some(TenK)
  {
    var units := Units(facts, concept, unit);
    if units != [] {
      var pool := Candidates(units);
      var i := FirstLatestIsGreatest(pool);
      SortHeadIsFirstLatest(pool);
    }
    if exists f | f in units :: f.form == Some(TenK) {
      var f :| f in units && f.form == Some(TenK);
      assert f in Annual(units);
    }
  }

  // ------------------------------------------------------------------ calculate_growth

  /** The two values the compound growth rate is computed from. */
  datatype GrowthBasis = GrowthBasis(latest: real, older: real, years: nat)

  /** The guards of `calculate_growth(facts, concept, years)`; the rate itself is
      `((latest / older) ** (1 / years) - 1) * 100` over floats. A zero `years`
      divides by zero, which the source catches, returning `None`. */
  function GrowthInputs(facts: Facts, concept: string, years: nat): Option<GrowthBasis> {
    var sorted := SortByEnd(Annual(Units(facts, concept, "USD")));
    if |sorted| < years + 1 then None
    else
      var latest := sorted[0].val.GetOr(0.0);
      var older := sorted[years].val.GetOr(0.0);
      if older <= 0.0 || latest <= 0.0 || years == 0 then None
      else Some(GrowthBasis(latest, older, years))
  }

  /** Growth is computed only from at least `years + 1` 10-K entries whose
      endpoint values are positive, the latest one being the entry with the
      greatest end date. */
  lemma GrowthGuards(facts: Facts, concept: string, years: nat)
    ensures var annual := Annual(Units(facts, concept, "USD"));
      |annual| < years + 1 ==> GrowthInputs(facts, concept, years) == None
    ensures var annual := Annual(Units(facts, concept, "USD"));
      GrowthInputs(facts, concept, years).Some? ==>
        var g := GrowthInputs(facts, concept, years).value;
        |annual| >= years + 1 && years >= 1 && g.latest > 0.0 && g.older > 0.0
        && Some(g.latest) == FirstLatest(annual).val
  {
    var annual := Annual(Units(facts, concept, "USD"));
    SortByEndCorrect(annual);
    if |annual| > 0 {
      SortHeadIsFirstLatest(annual);
    }
  }

  // ------------------------------------------------------------------ fetch_material_events

  /** The `filings.recent` columns of a submissions record; a missing column is empty. */
  datatype Submissions = Submissions(forms: seq<string>, dates: seq<string>, accessions: seq<string>,
                                     items: seq<string>, documents: seq<string>)

  /** `xs[i] if i < len(xs) else None` */
  function At(xs: seq<string>, i: nat): Option<string> {
    if i < |xs| then Some(xs[i]) else None
  }

  const EightK := "8-K"

  /** `ITEM_8K_CODES` */
  const ItemDescriptions: map<string, string> := map[
    "1.01" := "Entry into Material Definitive Agreement",
    "1.02" := "Termination of Material Definitive Agreement",
    "1.03" := "Bankruptcy or Receivership",
    "1.04" := "Mine Safety",
    "2.01" := "Completion of Acquisition or Disposition of Assets",
    "2.02" := "Results of Operations and Financial Condition",
    "2.03" := "Creation of Direct Financial Obligation",
    "2.04" := "Triggering Events (Accelerate/Increase Obligation)",
    "2.05" := "Exit or Disposal Activities",
    "2.06" := "Material Impairments",
    "3.01" := "Delisting or Listing Standard Failure",
    "3.02" := "Unregistered Sales of Equity Securities",
    "3.03" := "Material Modification to Security Holder Rights",
    "4.01" := "Changes in Certifying Accountant",
    "4.02" := "Non-Reliance on Previously Issued Financials",
    "5.01" := "Changes in Control of Registrant",
    "5.02" := "Departure/Election of Directors or Officers",
    "5.03" := "Amendments to Articles/Bylaws",
    "5.05" := "Amendments to Code of Ethics",
    "5.06" := "Change in Shell Company Status",
    "5.07" := "Submission of Matters to Shareholder Vote",
    "5.08" := "Shareholder Nominations",
    "6.01" := "ABS Servicer Information",
    "6.02" := "Change of ABS Servicer",
    "6.03" := "Change in Credit Enhancement",
    "6.04" := "Failure to Make Distribution",
    "6.05" := "ABS Informational and Computational Material",
    "7.01" := "Regulation FD Disclosure",
    "8.01" := "Other Events",
    "9.01" := "Financial Statements and Exhibits"]

  /** `HIGH_PRIORITY_ITEMS` */
  const HighPriorityItems: set<string> := {"1.03", "2.04", "2.06", "3.01", "4.02", "5.01", "5.02"}

  datatype ParsedItem = ParsedItem(code: string, description: string, highPriority: bool)

  function ItemOf(code: string): ParsedItem
    requires code in ItemDescriptions
  {
    ParsedItem(code, ItemDescriptions[code], code in HighPriorityItems)
  }

  /** The item one comma-separated piece stands for: the stripped piece,
      when it is a code of the table. */
  function PieceItem(piece: string): (r: Option<ParsedItem>)
    ensures r.Some? <==> Strip(piece) in ItemDescriptions
    ensures r.Some? ==> r.value == ItemOf(Strip(piece))
  {
    var code := Strip(piece);
    if code in ItemDescriptions then Some(ItemOf(code)) else None
  }

  /** The items the loop over the comma-separated pieces keeps: each piece
      stripped, and only the codes of the table. */
  function KnownItems(pieces: seq<string>): seq<ParsedItem> {
    FilterMap(pieces, PieceItem)
  }

  /** The items parsed from one filing's `items` column. */
  function ParseItems(raw: string): seq<ParsedItem> {
    if raw == "" then [] else KnownItems(Split(raw, ','))
  }

  predicate AnyHighPriority(items: seq<ParsedItem>) {
    exists k | 0 <= k < |items| :: items[k].highPriority
  }

  lemma KnownItemsMembership(pieces: seq<string>, it: ParsedItem)
    ensures it in KnownItems(pieces) <==>
      exists k | 0 <= k < |pieces| :: Strip(pieces[k]) in ItemDescriptions && it == ItemOf(Strip(pieces[k]))
  {
    FilterMapMembership(pieces, PieceItem, it);
    assert forall k | 0 <= k < |pieces| :: PieceItem(pieces[k]) == Some(it) <==>
      Strip(pieces[k]) in ItemDescriptions && it == ItemOf(Strip(pieces[k]));
  }

  /** An item is parsed exactly when a stripped piece of the column is a
      code of the table. */
  lemma ParseItemsMembership(raw: string, it: ParsedItem)
    ensures it in ParseItems(raw) <==>
      exists p | p in Split(raw, ',') :: Strip(p) in ItemDescriptions && it == ItemOf(Strip(p))
  {
    var pieces := Split(raw, ',');
    if raw == "" {
      assert pieces == [""];
      assert Strip("") == "";
    } else {
      KnownItemsMembership(pieces, it);
    }
  }

  /** A filing is high priority exactly when one of the stripped pieces of
      its column is a high-priority code. */
  lemma ParseItemsHighPriority(raw: string)
    ensures AnyHighPriority(ParseItems(raw)) <==>
      exists p | p in Split(raw, ',') :: Strip(p) in HighPriorityItems
  {
    var pieces := Split(raw, ',');
    var items := ParseItems(raw);
    if AnyHighPriority(items) {
      var k :| 0 <= k < |items| && items[k].highPriority;
      ParseItemsMembership(raw, items[k]);
    }
    if exists p | p in pieces :: Strip(p) in HighPriorityItems {
      var p :| p in pieces && Strip(p) in HighPriorityItems;
      assert Strip(p) in ItemDescriptions;
      ParseItemsMembership(raw, ItemOf(Strip(p)));
      var k :| 0 <= k < |items| && items[k] == ItemOf(Strip(p));
    }
  }

  /** The inner loop of `fetch_material_events` over one filing's codes. */
  method ParseItemCodes(raw: string) returns (items: seq<ParsedItem>, highPriority: bool)
    ensures items == ParseItems(raw)
    ensures highPriority == AnyHighPriority(items)
  {
    items := [];
    highPriority := false;
    if raw != "" {
      var pieces := Split(raw, ',');
      for j := 0 to |pieces|
        invariant items == KnownItems(pieces[..j])
        invariant highPriority == AnyHighPriority(items)
      {
        FilterMapStep(pieces, PieceItem, j);
        var code := Strip(pieces[j]);
        if code in ItemDescriptions {
          var it := ItemOf(code);
          assert forall k | 0 <= k < |items| :: (items + [it])[k] == items[k];
          assert (items + [it])[|items|] == it;
          items := items + [it];
          if code in HighPriorityItems {
            highPriority := true;
          }
        }
      }
      assert pieces[..|pieces|] == pieces;
    }
  }

  /** One entry of `recent_events`; the browse URL is left out. */
  datatype Event = Event(filingDate: Option<string>, accession: Option<string>, items: seq<ParsedItem>,
                         rawItems: string, document: Option<string>, highPriority: bool)

  function EventAt(f: Submissions, i: nat): Event {
    var raw := if i < |f.items| then f.items[i] else "";
    var items := ParseItems(raw);
    Event(At(f.dates, i), At(f.accessions, i), items, raw, At(f.documents, i), AnyHighPriority(items))
  }

  /** The events the loop has collected after the first `n` forms. */
  function EventsUpTo(f: Submissions, limit: int, n: nat): seq<Event>
    requires n <= |f.forms|
  {
    if n == 0 then []
    else
      var prev := EventsUpTo(f, limit, n - 1);
      if f.forms[n - 1] == EightK && |prev| < limit then prev + [EventAt(f, n - 1)] else prev
  }

  /** Every 8-K among the first `n` forms, with no limit. */
  function AllEightK(f: Submissions, n: nat): seq<Event>
    requires n <= |f.forms|
  {
    if n == 0 then []
    else
      var prev := AllEightK(f, n - 1);
      if f.forms[n - 1] == EightK then prev + [EventAt(f, n - 1)] else prev
  }

  /** The high-priority events, in the order of `events`. */
  function HighOf(events: seq<Event>): seq<Event>
    decreases |events|
  {
    if |events| == 0 then []
    else
      var init := HighOf(events[..|events| - 1]);
      if events[|events| - 1].highPriority then init + [events[|events| - 1]] else init
  }

  /** The loop keeps the first `limit` 8-K filings, in filing order. */
  lemma {:induction false} EventsAreFirstEightK(f: Submissions, limit: int, n: nat)
    requires n <= |f.forms|
    ensures EventsUpTo(f, limit, n) == Take(AllEightK(f, n), limit)
  {
    if n > 0 {
      EventsAreFirstEightK(f, limit, n - 1);
      TakeStep(EventsUpTo(f, limit, n - 1), AllEightK(f, n - 1), EventAt(f, n - 1), limit, f.forms[n - 1] == EightK);
    }
  }

  /** A loop guarded by `len(out) < k` that appends `x` when `keep` holds
      still holds the first `k` of everything kept. */
  lemma TakeStep<T>(prev: seq<T>, all: seq<T>, x: T, k: int, keep: bool)
    requires prev == Take(all, k)
    ensures (if keep && |prev| < k then prev + [x] else prev) == Take(if keep then all + [x] else all, k)
  {
    if keep && k > 0 && |all| >= k {
      assert (all + [x])[..k] == all[..k];
    }
  }

  lemma {:induction false} HighOfMembership(events: seq<Event>, e: Event)
    ensures e in HighOf(events) <==> e in events && e.highPriority
    ensures |HighOf(events)| <= |events|
    decreases |events|
  {
    if |events| > 0 {
      var init := events[..|events| - 1];
      HighOfMembership(init, e);
      assert events == init + [events[|events| - 1]];
    }
  }

  lemma {:induction false} HighOfPrefix(events: seq<Event>, j: nat)
    requires j <= |events|
    ensures HighOf(events[..j]) == Take(HighOf(events), |HighOf(events[..j])|)
    decreases |events|
  {
    if j < |events| {
      var init := events[..|events| - 1];
      assert events[..j] == init[..j];
      HighOfPrefix(init, j);
      HighOfMembership(init, events[0]);
    } else {
      assert events[..j] == events;
    }
  }

  // ------------------------------------------------------------------ 8-K SWOT implications

  datatype EventKind = Bankruptcy | Impairment | Delisting | Restatement | ControlChange | ExecutiveChange | DebtTriggered

  /** A `swot_implications` entry: what happened and the filing date. */
  datatype Implication = Implication(kind: EventKind, date: Option<string>)

  /** The branch chain over an item's code. */
  function ImplicationOf(code: string): (r: Option<(Bucket, EventKind)>)
    ensures r.Some? <==> code in HighPriorityItems
    ensures r.Some? ==> r.value.0 == Threats || r.value.0 == Weaknesses
  {
    if code == "1.03" then Some((Threats, Bankruptcy))
    else if code == "2.06" then Some((Weaknesses, Impairment))
    else if code == "3.01" then Some((Threats, Delisting))
    else if code == "4.02" then Some((Threats, Restatement))
    else if code == "5.01" then Some((Weaknesses, ControlChange))
    else if code == "5.02" then Some((Weaknesses, ExecutiveChange))
    else if code == "2.04" then Some((Threats, DebtTriggered))
    else None
  }

  function AddItem(s: Summary<Implication>, item: ParsedItem, date: Option<string>): Summary<Implication> {
    match ImplicationOf(item.code)
    case None => s
    case Some((b, kind)) => s.Add(b, Implication(kind, date))
  }

  function AddItems(s: Summary<Implication>, items: seq<ParsedItem>, date: Option<string>): Summary<Implication>
    decreases |items|
  {
    if |items| == 0 then s else AddItem(AddItems(s, items[..|items| - 1], date), items[|items| - 1], date)
  }

  function AddEvents(s: Summary<Implication>, events: seq<Event>): Summary<Implication>
    decreases |events|
  {
    if |events| == 0 then s
    else
      var last := events[|events| - 1];
      AddItems(AddEvents(s, events[..|events| - 1]), last.items, last.filingDate)
  }

  /** Item `it` of an event dated `date` contributes `x` to `b`. */
  predicate Implies(it: ParsedItem, date: Option<string>, b: Bucket, x: Implication) {
    ImplicationOf(it.code) == Some((b, x.kind)) && x.date == date
  }

  lemma {:induction false} AddItemsMembership(s: Summary<Implication>, items: seq<ParsedItem>, date: Option<string>,
                                              b: Bucket, x: Implication)
    ensures x in AddItems(s, items, date).Get(b) <==>
      x in s.Get(b) || exists k | 0 <= k < |items| :: Implies(items[k], date, b, x)
    decreases |items|
  {
    if |items| > 0 {
      var init := items[..|items| - 1];
      AddItemsMembership(s, init, date, b, x);
      assert forall k | 0 <= k < |init| :: init[k] == items[k];
    }
  }

  lemma {:induction false} AddEventsMembership(events: seq<Event>, b: Bucket, x: Implication)
    ensures x in AddEvents(EmptySummary(), events).Get(b) <==>
      exists k, j | 0 <= k < |events| && 0 <= j < |events[k].items| ::
        Implies(events[k].items[j], events[k].filingDate, b, x)
    decreases |events|
  {
    if |events| > 0 {
      var init := events[..|events| - 1];
      var last := events[|events| - 1];
      AddEventsMembership(init, b, x);
      AddItemsMembership(AddEvents(EmptySummary(), init), last.items, last.filingDate, b, x);
      assert forall k | 0 <= k < |init| :: init[k] == events[k];
    }
  }

  lemma {:induction false} AddItemsOnlyAdverse(s: Summary<Implication>, items: seq<ParsedItem>, date: Option<string>, b: Bucket)
    requires b == Strengths || b == Opportunities
    ensures AddItems(s, items, date).Get(b) == s.Get(b)
    decreases |items|
  {
    if |items| > 0 {
      AddItemsOnlyAdverse(s, items[..|items| - 1], date, b);
    }
  }

  /** Material events never yield strengths or opportunities. */
  lemma {:induction false} AddEventsOnlyAdverse(events: seq<Event>, b: Bucket)
    requires b == Strengths || b == Opportunities
    ensures AddEvents(EmptySummary(), events).Get(b) == []
    decreases |events|
  {
    if |events| > 0 {
      var last := events[|events| - 1];
      AddEventsOnlyAdverse(events[..|events| - 1], b);
      AddItemsOnlyAdverse(AddEvents(EmptySummary(), events[..|events| - 1]), last.items, last.filingDate, b);
    }
  }

  /** The nested loops over the first five high-priority events and their items. */
  method EventImplications(top: seq<Event>) returns (s: Summary<Implication>)
    ensures s == AddEvents(EmptySummary(), top)
  {
    s := EmptySummary();
    for i := 0 to |top|
      invariant s == AddEvents(EmptySummary(), top[..i])
    {
      assert top[..i + 1][..i] == top[..i];
      ghost var before := s;
      var items := top[i].items;
      for j := 0 to |items|
        invariant s == AddItems(before, items[..j], top[i].filingDate)
      {
        assert items[..j + 1][..j] == items[..j];
        s := AddItem(s, items[j], top[i].filingDate);
      }
      assert items[..|items|] == items;
    }
    assert top[..|top|] == top;
  }

  /** What `fetch_material_events` returns beside the ticker, the CIK and
      the timestamps. */
  datatype MaterialEvents = MaterialEvents(total8k: nat, recentEvents: seq<Event>, highPriorityCount: nat,
                                           highPriorityEvents: seq<Event>, implications: Summary<Implication>)

  function CountForm(forms: seq<string>, form: string): nat
    decreases |forms|
  {
    if |forms| == 0 then 0 else CountForm(forms[..|forms| - 1], form) + (if forms[|forms| - 1] == form then 1 else 0)
  }

  function MaterialEventsOf(f: Submissions, limit: int): MaterialEvents {
    var events := EventsUpTo(f, limit, |f.forms|);
    var high := HighOf(events);
    MaterialEvents(CountForm(f.forms, EightK), events, |high|, Take(high, 5), AddEvents(EmptySummary(), Take(high, 5)))
  }

  /** The loop of `fetch_material_events` over the submissions, then the
      implications of the first five high-priority events. */
  method FetchMaterialEvents(f: Submissions, limit: int) returns (r: MaterialEvents)
    ensures r == MaterialEventsOf(f, limit)
  {
    var events: seq<Event> := [];
    var high: seq<Event> := [];
    for i := 0 to |f.forms|
      invariant events == EventsUpTo(f, limit, i)
      invariant high == HighOf(events)
    {
      if f.forms[i] == EightK && |events| < limit {
        var raw := if i < |f.items| then f.items[i] else "";
        var items, isHigh := ParseItemCodes(raw);
        var event := Event(At(f.dates, i), At(f.accessions, i), items, raw, At(f.documents, i), isHigh);
        assert (events + [event])[..|events|] == events;
        events := events + [event];
        if isHigh {
          high := high + [event];
        }
      }
    }
    var top := Take(high, 5);
    var implications := EventImplications(top);
    r := MaterialEvents(CountForm(f.forms, EightK), events, |high|, top, implications);
  }

  /** The report holds at most `limit` events, the first 8-K filings in
      order, and its high-priority events are exactly its flagged ones. */
  lemma MaterialEventsSelection(f: Submissions, limit: int, e: Event)
    ensures var r := MaterialEventsOf(f, limit);
      r.recentEvents == Take(AllEightK(f, |f.forms|), limit)
      && (limit >= 0 ==> |r.recentEvents| <= limit)
      && (e in HighOf(r.recentEvents) <==> e in r.recentEvents && e.highPriority)
      && r.highPriorityEvents == Take(HighOf(r.recentEvents), 5)
      && r.highPriorityCount == |HighOf(r.recentEvents)|
  {
    EventsAreFirstEightK(f, limit, |f.forms|);
    HighOfMembership(MaterialEventsOf(f, limit).recentEvents, e);
  }

  /** Only the first five high-priority events give implications, all of
      them weaknesses or threats, each from a high-priority item of one of
      those events. */
  lemma MaterialEventsImplications(f: Submissions, limit: int, b: Bucket, x: Implication)
    ensures var r := MaterialEventsOf(f, limit);
      |r.highPriorityEvents| <= 5
      && r.implications.strengths == [] && r.implications.opportunities == []
      && (x in r.implications.Get(b) <==>
            exists k, j | 0 <= k < |r.highPriorityEvents| && 0 <= j < |r.highPriorityEvents[k].items| ::
              Implies(r.highPriorityEvents[k].items[j], r.highPriorityEvents[k].filingDate, b, x))
  {
    var top := MaterialEventsOf(f, limit).highPriorityEvents;
    AddEventsMembership(top, b, x);
    AddEventsOnlyAdverse(top, Strengths);
    AddEventsOnlyAdverse(top, Opportunities);
  }

  // ------------------------------------------------------------------ fetch_going_concern

  /** `GOING_CONCERN_KEYWORDS`, in the order they are searched. */
  const GoingConcernKeywords: seq<string> := [
    "going concern", "substantial doubt", "ability to continue", "continue as a going concern",
    "raise substantial doubt", "conditions that raise", "material uncertainty", "liquidity concerns"]

  const SubstantialDoubt := "substantial doubt"
  const RaiseSubstantialDoubt := "raise substantial doubt"

  /** One entry of `keyword_matches`. */
  datatype KeywordMatch = KeywordMatch(keyword: string, count: nat, sampleContext: string)

  function Max(a: int, b: int): int { if a >= b then a else b }
  function Min(a: int, b: int): int { if a <= b then a else b }

  /** The keyword, how often it occurs, and up to 150 characters on each side
      of its first occurrence. */
  function MatchFor(text: string, keyword: string): KeywordMatch
    requires |keyword| > 0 && Contains(text, keyword)
  {
    var idx := Find(text, keyword);
    var start := Max(0, idx - 150);
    var end := Min(|text|, idx + |keyword| + 150);
    KeywordMatch(keyword, Count(text, keyword), "..." + Strip(text[start..end]) + "...")
  }

  predicate NonEmptyKeywords(keywords: seq<string>) {
    forall k | 0 <= k < |keywords| :: |keywords[k]| > 0
  }

  /** The matches after searching `keywords` in order. */
  function MatchesOver(text: string, keywords: seq<string>): seq<KeywordMatch>
    requires NonEmptyKeywords(keywords)
    decreases |keywords|
  {
    if |keywords| == 0 then []
    else
      var prev := MatchesOver(text, keywords[..|keywords| - 1]);
      var keyword := keywords[|keywords| - 1];
      if Contains(text, keyword) then prev + [MatchFor(text, keyword)] else prev
  }

  function KeywordMatches(text: string): seq<KeywordMatch> {
    MatchesOver(text, GoingConcernKeywords)
  }

  /** The keyword loop of `fetch_going_concern` over the cleaned, lower-cased text. */
  method SearchKeywords(text: string) returns (matches: seq<KeywordMatch>)
    ensures matches == KeywordMatches(text)
  {
    var keywords := GoingConcernKeywords;
    matches := [];
    for i := 0 to |keywords|
      invariant matches == MatchesOver(text, keywords[..i])
    {
      var keyword := keywords[i];
      MatchesOverStep(text, keywords, i);
      if Contains(text, keyword) {
        matches := matches + [MatchFor(text, keyword)];
      }
    }
    assert keywords[..|keywords|] == keywords;
  }

  lemma MatchesOverStep(text: string, keywords: seq<string>, i: nat)
    requires NonEmptyKeywords(keywords) && i < |keywords|
    ensures Contains(text, keywords[i]) ==>
      MatchesOver(text, keywords[..i + 1]) == MatchesOver(text, keywords[..i]) + [MatchFor(text, keywords[i])]
    ensures !Contains(text, keywords[i]) ==> MatchesOver(text, keywords[..i + 1]) == MatchesOver(text, keywords[..i])
  {
    assert keywords[..i + 1][..i] == keywords[..i];
  }

  /** A match is the entry of one keyword that occurs in the text, and every
      match is counted at least once. */
  lemma {:induction false} MatchesOverMembership(text: string, keywords: seq<string>, m: KeywordMatch)
    requires NonEmptyKeywords(keywords)
    ensures m in MatchesOver(text, keywords) <==>
      exists k | 0 <= k < |keywords| :: Contains(text, keywords[k]) && m == MatchFor(text, keywords[k])
    ensures forall x | x in MatchesOver(text, keywords) :: x.count >= 1
    decreases |keywords|
  {
    if |keywords| > 0 {
      var init := keywords[..|keywords| - 1];
      MatchesOverMembership(text, init, m);
      assert forall k | 0 <= k < |init| :: init[k] == keywords[k];
      var keyword := keywords[|keywords| - 1];
      if Contains(text, keyword) {
        CountPositive(text, keyword);
      }
    }
  }

  datatype RiskLevel = NoRisk | Low | Medium | High

  function TotalMentions(ms: seq<KeywordMatch>): nat
    decreases |ms|
  {
    if |ms| == 0 then 0 else TotalMentions(ms[..|ms| - 1]) + ms[|ms| - 1].count
  }

  predicate DoubtMatched(ms: seq<KeywordMatch>) {
    exists k | 0 <= k < |ms| :: ms[k].keyword == SubstantialDoubt || ms[k].keyword == RaiseSubstantialDoubt
  }

  /** The risk level of `fetch_going_concern`. */
  function RiskOf(ms: seq<KeywordMatch>): RiskLevel {
    if |ms| == 0 then NoRisk
    else if DoubtMatched(ms) then High
    else if TotalMentions(ms) > 5 then Medium
    else Low
  }

  lemma RaiseContainsDoubt(text: string)
    requires Contains(text, RaiseSubstantialDoubt)
    ensures Contains(text, SubstantialDoubt)
  {
    var i :| 0 <= i <= |text| && OccursAt(text, RaiseSubstantialDoubt, i);
    assert RaiseSubstantialDoubt[6..] == SubstantialDoubt;
    assert text[i + 6..i + 23] == text[i..i + 23][6..];
    assert OccursAt(text, SubstantialDoubt, i + 6);
  }

  /** The level is none exactly when no keyword occurs. */
  lemma RiskNone(text: string)
    ensures RiskOf(KeywordMatches(text)) == NoRisk <==>
      forall k | 0 <= k < |GoingConcernKeywords| :: !Contains(text, GoingConcernKeywords[k])
  {
    MatchesOverEmpty(text, GoingConcernKeywords);
  }

  lemma MatchesOverEmpty(text: string, keywords: seq<string>)
    requires NonEmptyKeywords(keywords)
    ensures MatchesOver(text, keywords) == [] <==> forall k | 0 <= k < |keywords| :: !Contains(text, keywords[k])
  {
    var ms := MatchesOver(text, keywords);
    if exists k | 0 <= k < |keywords| :: Contains(text, keywords[k]) {
      var k :| 0 <= k < |keywords| && Contains(text, keywords[k]);
      MatchesOverMembership(text, keywords, MatchFor(text, keywords[k]));
    }
    if |ms| > 0 {
      MatchesOverMembership(text, keywords, ms[0]);
    }
  }

  /** The level is high exactly when "substantial doubt" occurs in the text. */
  lemma RiskHigh(text: string)
    ensures RiskOf(KeywordMatches(text)) == High <==> Contains(text, SubstantialDoubt)
  {
    var ms := KeywordMatches(text);
    var n := |GoingConcernKeywords|;
    if Contains(text, SubstantialDoubt) {
      assert GoingConcernKeywords[1] == SubstantialDoubt;
      MatchesOverMembership(text, GoingConcernKeywords, MatchFor(text, SubstantialDoubt));
      var j :| 0 <= j < |ms| && ms[j] == MatchFor(text, SubstantialDoubt);
    }
    if DoubtMatched(ms) {
      var j :| 0 <= j < |ms| && (ms[j].keyword == SubstantialDoubt || ms[j].keyword == RaiseSubstantialDoubt);
      MatchesOverMembership(text, GoingConcernKeywords, ms[j]);
      if ms[j].keyword == RaiseSubstantialDoubt {
        RaiseContainsDoubt(text);
      }
    }
  }

  /** Below high, the level is medium above five mentions and low at five
      or fewer; every matched keyword is mentioned at least once. */
  lemma RiskMediumLow(text: string)
    ensures var ms := KeywordMatches(text);
      (RiskOf(ms) == Medium <==> |ms| > 0 && !Contains(text, SubstantialDoubt) && TotalMentions(ms) > 5)
      && (RiskOf(ms) == Low <==> |ms| > 0 && !Contains(text, SubstantialDoubt) && TotalMentions(ms) <= 5)
      && TotalMentions(ms) >= |ms|
  {
    RiskHigh(text);
    var ms := KeywordMatches(text);
    MatchesOverMembership(text, GoingConcernKeywords, KeywordMatch("", 0, ""));
    TotalAtLeastSize(ms);
  }

  lemma {:induction false} TotalAtLeastSize(ms: seq<KeywordMatch>)
    requires forall x | x in ms :: x.count >= 1
    ensures TotalMentions(ms) >= |ms|
    decreases |ms|
  {
    if |ms| > 0 {
      assert forall x | x in ms[..|ms| - 1] :: x in ms;
      TotalAtLeastSize(ms[..|ms| - 1]);
    }
  }

  /** The `swot_implications["threats"]` entry of each level. */
  datatype ConcernThreat = GoingConcernWarning(date: string) | MultipleConcernMentions(date: string)

  function ConcernThreats(risk: RiskLevel, date: string): (r: seq<ConcernThreat>)
    ensures r == [] <==> risk == NoRisk || risk == Low
  {
    match risk
    case High => [GoingConcernWarning(date)]
    case Medium => [MultipleConcernMentions(date)]
    case _ => []
  }

  /** The outcomes of `fetch_going_concern` once the CIK is known. */
  datatype GoingConcern =
    | NoTenK
    | DocumentUnavailable(status: int, filingDate: string)
    | GoingConcernError(message: string)
    | Assessed(found: bool, risk: RiskLevel, filingDate: string, matches: seq<KeywordMatch>, threats: seq<ConcernThreat>)

  /** The first index of `form` in `forms`. */
  function IndexOf(forms: seq<string>, form: string): (r: Option<nat>)
    ensures r.Some? ==> r.value < |forms| && forms[r.value] == form && forall j | 0 <= j < r.value :: forms[j] != form
    ensures r.None? ==> form !in forms
    decreases |forms|
  {
    if |forms| == 0 then None
    else if forms[0] == form then Some(0)
    else match IndexOf(forms[1..], form)
      case None => None
      case Some(k) => Some(k + 1)
  }

  const IndexErrorText := "list index out of range"

  /** `fetch_going_concern`. `fetch` stands for the document request, given
      the accession number without dashes and the primary document; it
      answers with the status and the text with its HTML tags and runs of
      white space already reduced to single spaces. The accession number and
      date of the 10-K are read without a bound check. */
  function FetchGoingConcern(f: Submissions, fetch: (string, Option<string>) -> (int, string)): (r: GoingConcern)
    ensures r == NoTenK <==> TenK !in f.forms
  {
    match IndexOf(f.forms, TenK)
    case None => NoTenK
    case Some(i) =>
      if i >= |f.accessions| || i >= |f.dates| then GoingConcernError(IndexErrorText)
      else
        var date := f.dates[i];
        var (status, body) := fetch(RemoveChar(f.accessions[i], '-'), At(f.documents, i));
        if status != 200 then DocumentUnavailable(status, date)
        else
          var text := Lower(body);
          var ms := KeywordMatches(text);
          Assessed(|ms| > 0, RiskOf(ms), date, ms, ConcernThreats(RiskOf(ms), date))
  }

  /** Something is found exactly when the level is not none, and a threat
      is reported exactly when a doubt keyword matched or the keywords are
      mentioned more than five times. */
  lemma GoingConcernThreats(f: Submissions, fetch: (string, Option<string>) -> (int, string))
    ensures var r := FetchGoingConcern(f, fetch);
      r.Assessed? ==>
        (r.found <==> r.risk != NoRisk)
        && (r.threats != [] <==> (r.risk == High || r.risk == Medium))
        && (r.threats != [] <==> r.found && (DoubtMatched(r.matches) || TotalMentions(r.matches) > 5))
  {
  }

  // ------------------------------------------------------------------ fetch_ownership_filings

  /** `ownership_forms` */
  const OwnershipForms: map<string, string> := map[
    "SC 13D" := "Beneficial ownership >5% (activist/intent to influence)",
    "SC 13D/A" := "Amendment to 13D",
    "SC 13G" := "Beneficial ownership >5% (passive investor)",
    "SC 13G/A" := "Amendment to 13G",
    "4" := "Insider transaction (officer/director/10%+ owner)",
    "4/A" := "Amendment to Form 4",
    "3" := "Initial insider ownership statement",
    "5" := "Annual insider ownership changes"]

  const InsiderForms: set<string> := {"3", "4", "4/A", "5"}
  const ActivistForms: set<string> := {"SC 13D", "SC 13D/A"}
  const BeneficialPrefix := "SC 13"

  datatype OwnershipFiling = OwnershipFiling(form: string, description: string, filingDate: Option<string>,
                                             accession: Option<string>, document: Option<string>)

  function OwnershipFilingAt(f: Submissions, i: nat): OwnershipFiling
    requires i < |f.forms| && f.forms[i] in OwnershipForms
  {
    OwnershipFiling(f.forms[i], OwnershipForms[f.forms[i]], At(f.dates, i), At(f.accessions, i), At(f.documents, i))
  }

  /** The two lists after the first `n` forms, each capped at `limit`. */
  function OwnershipUpTo(f: Submissions, limit: int, n: nat): (seq<OwnershipFiling>, seq<OwnershipFiling>)
    requires n <= |f.forms|
  {
    if n == 0 then ([], [])
    else
      var (big, insider) := OwnershipUpTo(f, limit, n - 1);
      var form := f.forms[n - 1];
      if form !in OwnershipForms then (big, insider)
      else if StartsWith(form, BeneficialPrefix) then
        (if |big| < limit then big + [OwnershipFilingAt(f, n - 1)] else big, insider)
      else if form in InsiderForms then
        (big, if |insider| < limit then insider + [OwnershipFilingAt(f, n - 1)] else insider)
      else (big, insider)
  }

  /** Every ownership filing of one kind among the first `n` forms, uncapped. */
  function OwnershipOfKind(f: Submissions, n: nat, beneficial: bool): seq<OwnershipFiling>
    requires n <= |f.forms|
  {
    if n == 0 then []
    else
      var prev := OwnershipOfKind(f, n - 1, beneficial);
      var form := f.forms[n - 1];
      if form in OwnershipForms && (if beneficial then StartsWith(form, BeneficialPrefix) else form in InsiderForms)
      then prev + [OwnershipFilingAt(f, n - 1)] else prev
  }

  /** Each list is the first `limit` filings of its kind: 13D/13G filings
      are the "SC 13" forms and the insider list holds forms 3, 4, 4/A and 5. */
  lemma {:induction false} OwnershipLists(f: Submissions, limit: int, n: nat)
    requires n <= |f.forms|
    ensures OwnershipUpTo(f, limit, n).0 == Take(OwnershipOfKind(f, n, true), limit)
    ensures OwnershipUpTo(f, limit, n).1 == Take(OwnershipOfKind(f, n, false), limit)
  {
    if n > 0 {
      OwnershipLists(f, limit, n - 1);
      var form := f.forms[n - 1];
      if form in InsiderForms {
        assert !StartsWith(form, BeneficialPrefix);
      }
    }
  }

  /** The activist-interest opportunity: the dates of the first three 13D filings. */
  datatype ActivistInterest = ActivistInterest(dates: seq<string>)

  function Filter13D(fs: seq<OwnershipFiling>): (r: seq<OwnershipFiling>)
    ensures forall x | x in r :: x in fs && x.form in ActivistForms
    ensures forall x | x in fs && x.form in ActivistForms :: x in r
    decreases |fs|
  {
    if |fs| == 0 then []
    else
      var init := Filter13D(fs[..|fs| - 1]);
      assert forall x | x in fs[..|fs| - 1] :: x in fs;
      if fs[|fs| - 1].form in ActivistForms then init + [fs[|fs| - 1]] else init
  }

  /** `[f["filing_date"] for f in recent_13d if f["filing_date"]]` */
  function PresentDates(fs: seq<OwnershipFiling>): seq<string>
    decreases |fs|
  {
    if |fs| == 0 then []
    else
      var init := PresentDates(fs[..|fs| - 1]);
      var d := fs[|fs| - 1].filingDate;
      if d.Some? && d.value != "" then init + [d.value] else init
  }

  function CountWhere(forms: seq<string>, beneficial: bool): nat
    decreases |forms|
  {
    if |forms| == 0 then 0
    else
      var form := forms[|forms| - 1];
      CountWhere(forms[..|forms| - 1], beneficial)
        + (if (if beneficial then StartsWith(form, BeneficialPrefix) else form in InsiderForms) then 1 else 0)
  }

  datatype Ownership = Ownership(beneficial: seq<OwnershipFiling>, beneficialCount: nat,
                                 insider: seq<OwnershipFiling>, insiderCount: nat,
                                 opportunities: seq<ActivistInterest>)

  function OwnershipOf(f: Submissions, limit: int): Ownership {
    var (big, insider) := OwnershipUpTo(f, limit, |f.forms|);
    var recent := Take(Filter13D(big), 3);
    Ownership(SliceTo(big, limit), CountWhere(f.forms, true), SliceTo(insider, limit), CountWhere(f.forms, false),
              if |recent| > 0 then [ActivistInterest(PresentDates(recent))] else [])
  }

  /** The loop of `fetch_ownership_filings`. */
  method FetchOwnershipFilings(f: Submissions, limit: int) returns (r: Ownership)
    ensures r == OwnershipOf(f, limit)
  {
    var big: seq<OwnershipFiling> := [];
    var insider: seq<OwnershipFiling> := [];
    for i := 0 to |f.forms|
      invariant (big, insider) == OwnershipUpTo(f, limit, i)
    {
      var form := f.forms[i];
      if form in OwnershipForms {
        var filing := OwnershipFilingAt(f, i);
        if StartsWith(form, BeneficialPrefix) {
          if |big| < limit {
            big := big + [filing];
          }
        } else if form in InsiderForms {
          if |insider| < limit {
            insider := insider + [filing];
          }
        }
      }
    }
    var recent := Take(Filter13D(big), 3);
    var opportunities: seq<ActivistInterest> := [];
    if |recent| > 0 {
      opportunities := [ActivistInterest(PresentDates(recent))];
    }
    r := Ownership(SliceTo(big, limit), CountWhere(f.forms, true), SliceTo(insider, limit),
                   CountWhere(f.forms, false), opportunities);
  }

  /** Both lists hold at most `limit` filings and are the first filings of
      their kind; the final `[:limit]` changes nothing; the opportunity is
      reported exactly when a 13D filing made it into the list. */
  lemma OwnershipProperties(f: Submissions, limit: int)
    ensures var r := OwnershipOf(f, limit);
      r.beneficial == Take(OwnershipOfKind(f, |f.forms|, true), limit)
      && r.insider == Take(OwnershipOfKind(f, |f.forms|, false), limit)
      && (limit >= 0 ==> |r.beneficial| <= limit && |r.insider| <= limit)
      && (r.opportunities != [] <==> exists x | x in r.beneficial :: x.form in ActivistForms)
  {
    var (big, insider) := OwnershipUpTo(f, limit, |f.forms|);
    OwnershipLists(f, limit, |f.forms|);
    var r := OwnershipOf(f, limit);
    if exists x | x in big :: x.form in ActivistForms {
      var x :| x in big && x.form in ActivistForms;
      assert x in Filter13D(big);
    }
    if Filter13D(big) != [] {
      assert Filter13D(big)[0] in Filter13D(big);
    }
  }

  // ------------------------------------------------------------------ get_sec_fundamentals_basket

  /** What the basket reads from `fetch_financials`: the revenue record
      (`None` when no revenue concept was reported), the three-year growth
      and the two margins, in percent. */
  datatype FinancialsData = FinancialsData(revenue: Option<Latest>, revenueGrowth: Option<real>,
                                           netMargin: Option<real>, operatingMargin: Option<real>)

  /** What it reads from `fetch_debt_metrics`: the debt-to-equity ratio and
      the value of `net_debt`, which is present only when it is not zero. */
  datatype DebtData = DebtData(debtToEquity: Option<real>, netDebt: Option<real>)

  /** What it reads from `fetch_cash_flow`: free cash flow and the R&D record. */
  datatype CashFlowData = CashFlowData(freeCashFlow: Option<real>, rdExpense: Option<Latest>)

  /** The entries of the `swot_summary` lists, with the figure each one quotes. */
  datatype Fundamental =
    | StrongRevenueGrowth(growth: real) | PositiveRevenueGrowth(growth: real) | DecliningRevenue(growth: real)
    | HighProfitability(margin: real) | HealthyNetMargin(margin: real) | Unprofitable(margin: real) | ThinMargins(margin: real)
    | StrongOperatingEfficiency(margin: real)
    | HighLeverage(ratio: real) | ElevatedDebt(ratio: real) | LowLeverage(ratio: real)
    | NetCashPosition
    | PositiveFreeCashFlow(fcf: real) | NegativeFreeCashFlow(fcf: real)
    | HighRnd(percent: real)

  function GrowthSignal(growth: Option<real>): (r: Option<Signal<Fundamental>>)
    ensures r.None? <==> growth.None? || 0.0 <= growth.value <= 5.0
    ensures r.Some? ==> (r.value.impact == Strength || r.value.impact == Weakness)
    ensures r.Some? ==> (r.value.impact == Strength <==> growth.value > 5.0)
  {
    match growth
    case None => None
    case Some(g) =>
      if g > 15.0 then Some(Signal(Strength, StrongRevenueGrowth(g)))
      else if g > 5.0 then Some(Signal(Strength, PositiveRevenueGrowth(g)))
      else if g < 0.0 then Some(Signal(Weakness, DecliningRevenue(g)))
      else None
  }

  function NetMarginSignal(margin: Option<real>): (r: Option<Signal<Fundamental>>)
    ensures r.None? <==> margin.None? || margin.value == 5.0
    ensures r.Some? ==> (r.value.impact == Strength || r.value.impact == Weakness)
    ensures r.Some? ==> (r.value.impact == Strength <==> margin.value > 5.0)
  {
    match margin
    case None => None
    case Some(m) =>
      if m > 15.0 then Some(Signal(Strength, HighProfitability(m)))
      else if m > 5.0 then Some(Signal(Strength, HealthyNetMargin(m)))
      else if m < 0.0 then Some(Signal(Weakness, Unprofitable(m)))
      else if m < 5.0 then Some(Signal(Weakness, ThinMargins(m)))
      else None
  }

  function OperatingMarginSignal(margin: Option<real>): (r: Option<Signal<Fundamental>>)
    ensures r.Some? <==> margin.Some? && margin.value > 20.0
    ensures r.Some? ==> r.value.impact == Strength
  {
    if margin.Some? && margin.value > 20.0 then Some(Signal(Strength, StrongOperatingEfficiency(margin.value))) else None
  }

  function LeverageSignal(ratio: Option<real>): (r: Option<Signal<Fundamental>>)
    ensures r.None? <==> ratio.None? || 0.5 <= ratio.value <= 1.0
    ensures r.Some? ==> (r.value.impact == Threat || r.value.impact == Weakness || r.value.impact == Strength)
    ensures r.Some? ==> (r.value.impact == Threat <==> ratio.value > 2.0)
    ensures r.Some? && r.value.impact == Threat ==> r.value.entry == HighLeverage(ratio.value)
    ensures r.Some? ==> (r.value.impact == Weakness <==> 1.0 < ratio.value <= 2.0)
  {
    match ratio
    case None => None
    case Some(d) =>
      if d > 2.0 then Some(Signal(Threat, HighLeverage(d)))
      else if d > 1.0 then Some(Signal(Weakness, ElevatedDebt(d)))
      else if d < 0.5 then Some(Signal(Strength, LowLeverage(d)))
      else None
  }

  function NetDebtSignal(netDebt: Option<real>): (r: Option<Signal<Fundamental>>)
    ensures r.Some? <==> netDebt.Some? && netDebt.value < 0.0
    ensures r.Some? ==> r.value == Signal(Strength, NetCashPosition)
  {
    if NonZero(netDebt) && netDebt.value < 0.0 then Some(Signal(Strength, NetCashPosition)) else None
  }

  function FreeCashFlowSignal(fcf: Option<real>): (r: Option<Signal<Fundamental>>)
    ensures r.Some? <==> NonZero(fcf)
    ensures r.Some? ==> (r.value.impact == Strength || r.value.impact == Weakness)
    ensures r.Some? ==> (r.value.impact == Strength <==> fcf.value > 0.0)
  {
    if !NonZero(fcf) then None
    else if fcf.value > 0.0 then Some(Signal(Strength, PositiveFreeCashFlow(fcf.value)))
    else Some(Signal(Weakness, NegativeFreeCashFlow(fcf.value)))
  }

  /** `rd and rd.get("value")` */
  predicate RdReported(cash: CashFlowData) {
    cash.rdExpense.Some? && NonZero(cash.rdExpense.value.value)
  }

  function RndSignal(cash: CashFlowData, revenue: Option<real>): (r: Option<Signal<Fundamental>>)
    ensures r.Some? ==> r.value.impact == Opportunity && RdReported(cash) && revenue.Some? && revenue.value > 0.0
    ensures r.Some? <==> RdReported(cash) && revenue.Some? && revenue.value > 0.0
                         && cash.rdExpense.value.value.value / revenue.value * 100.0 > 10.0
  {
    if RdReported(cash) && NonZero(revenue) && revenue.value > 0.0 then
      var pct := cash.rdExpense.value.value.value / revenue.value * 100.0;
      if pct > 10.0 then Some(Signal(Opportunity, HighRnd(pct))) else None
    else None
  }

  const RevenueAttributeError := "'NoneType' object has no attribute 'get'"

  /** `financials.get("revenue", {}).get("value") if financials else None` as
      written: an error record has no revenue key, but a stored `None` has no
      `get` either. */
  function RevenueAsWritten(fin: Result<FinancialsData, string>): Result<Option<real>, string> {
    match fin
    case Err(_) => Ok(None)
    case Ok(data) =>
      match data.revenue
      case None => Err(RevenueAttributeError)
      case Some(l) => Ok(l.value)
  }

  /** The revenue the R&D rule evidently wants: none when none was reported. */
  function Revenue(fin: Result<FinancialsData, string>): (r: Option<real>)
    ensures RevenueAsWritten(fin).Ok? ==> r == RevenueAsWritten(fin).value
    ensures fin.Ok? && fin.value.revenue.None? ==> r == None
  {
    match fin
    case Err(_) => None
    case Ok(data) => if data.revenue.Some? then data.revenue.value.value else None
  }

  /** The seven rules, in the order the basket applies them; a fetch that
      reported an error contributes nothing. */
  function FundamentalSignals(fin: Result<FinancialsData, string>, debt: Result<DebtData, string>,
                              cash: Result<CashFlowData, string>, revenue: Option<real>): seq<Option<Signal<Fundamental>>>
  {
    var f := if fin.Ok? then fin.value else FinancialsData(None, None, None, None);
    var d := if debt.Ok? then debt.value else DebtData(None, None);
    var c := if cash.Ok? then cash.value else CashFlowData(None, None);
    [GrowthSignal(f.revenueGrowth), NetMarginSignal(f.netMargin), OperatingMarginSignal(f.operatingMargin),
     LeverageSignal(d.debtToEquity), NetDebtSignal(d.netDebt),
     FreeCashFlowSignal(c.freeCashFlow), RndSignal(c, revenue)]
  }

  /** The basket as written: it raises when R&D is reported beside a missing revenue. */
  function FundamentalsAsWritten(fin: Result<FinancialsData, string>, debt: Result<DebtData, string>,
                                 cash: Result<CashFlowData, string>): Result<Summary<Fundamental>, string>
  {
    if cash.Ok? && RdReported(cash.value) then
      match RevenueAsWritten(fin)
      case Err(e) => Err(e)
      case Ok(revenue) => Ok(RouteAll(FundamentalSignals(fin, debt, cash, revenue), FullRouting))
    else Ok(RouteAll(FundamentalSignals(fin, debt, cash, None), FullRouting))
  }

  /** The basket with the R&D rule skipped when no revenue was reported. */
  function Fundamentals(fin: Result<FinancialsData, string>, debt: Result<DebtData, string>,
                        cash: Result<CashFlowData, string>): Summary<Fundamental>
  {
    RouteAll(FundamentalSignals(fin, debt, cash, Revenue(fin)), FullRouting)
  }

  method ApplyGrowthRule(s0: Summary<Fundamental>, growth: Option<real>) returns (s: Summary<Fundamental>)
    ensures s == RouteOne(s0, GrowthSignal(growth), FullRouting)
  {
    s := s0;
    if growth.Some? {
      var g := growth.value;
      if g > 15.0 {
        s := s.Add(Strengths, StrongRevenueGrowth(g));
      } else if g > 5.0 {
        s := s.Add(Strengths, PositiveRevenueGrowth(g));
      } else if g < 0.0 {
        s := s.Add(Weaknesses, DecliningRevenue(g));
      }
    }
  }

  method ApplyNetMarginRule(s0: Summary<Fundamental>, margin: Option<real>) returns (s: Summary<Fundamental>)
    ensures s == RouteOne(s0, NetMarginSignal(margin), FullRouting)
  {
    s := s0;
    if margin.Some? {
      var m := margin.value;
      if m > 15.0 {
        s := s.Add(Strengths, HighProfitability(m));
      } else if m > 5.0 {
        s := s.Add(Strengths, HealthyNetMargin(m));
      } else if m < 0.0 {
        s := s.Add(Weaknesses, Unprofitable(m));
      } else if m < 5.0 {
        s := s.Add(Weaknesses, ThinMargins(m));
      }
    }
  }

  /** The growth and margin rules, applied when the financials fetch succeeded. */
  method ApplyFinancialsRules(s0: Summary<Fundamental>, fin: Result<FinancialsData, string>)
    returns (s: Summary<Fundamental>)
    ensures var f := if fin.Ok? then fin.value else FinancialsData(None, None, None, None);
      s == RouteOne(RouteOne(RouteOne(s0, GrowthSignal(f.revenueGrowth), FullRouting),
                             NetMarginSignal(f.netMargin), FullRouting),
                    OperatingMarginSignal(f.operatingMargin), FullRouting)
  {
    s := s0;
    if fin.Ok? {
      var data := fin.value;
      s := ApplyGrowthRule(s, data.revenueGrowth);
      s := ApplyNetMarginRule(s, data.netMargin);
      if data.operatingMargin.Some? && data.operatingMargin.value > 20.0 {
        s := s.Add(Strengths, StrongOperatingEfficiency(data.operatingMargin.value));
      }
    }
  }

  /** The leverage and net-debt rules, applied when the debt fetch succeeded. */
  method ApplyDebtRules(s0: Summary<Fundamental>, debt: Result<DebtData, string>)
    returns (s: Summary<Fundamental>)
    ensures var d := if debt.Ok? then debt.value else DebtData(None, None);
      s == RouteOne(RouteOne(s0, LeverageSignal(d.debtToEquity), FullRouting), NetDebtSignal(d.netDebt), FullRouting)
  {
    s := s0;
    if debt.Ok? {
      var data := debt.value;
      if data.debtToEquity.Some? {
        var d := data.debtToEquity.value;
        if d > 2.0 {
          s := s.Add(Threats, HighLeverage(d));
        } else if d > 1.0 {
          s := s.Add(Weaknesses, ElevatedDebt(d));
        } else if d < 0.5 {
          s := s.Add(Strengths, LowLeverage(d));
        }
      }
      if NonZero(data.netDebt) && data.netDebt.value < 0.0 {
        s := s.Add(Strengths, NetCashPosition);
      }
    }
  }

  /** The free-cash-flow rule and, as written, the R&D rule. */
  method ApplyCashFlowRules(s0: Summary<Fundamental>, fin: Result<FinancialsData, string>, cash: Result<CashFlowData, string>)
    returns (r: Result<Summary<Fundamental>, string>)
    ensures var revenue := if cash.Ok? && RdReported(cash.value) && RevenueAsWritten(fin).Ok? then RevenueAsWritten(fin).value else None;
      var c := if cash.Ok? then cash.value else CashFlowData(None, None);
      if cash.Ok? && RdReported(cash.value) && RevenueAsWritten(fin).Err? then r == Err(RevenueAsWritten(fin).error)
      else r == Ok(RouteOne(RouteOne(s0, FreeCashFlowSignal(c.freeCashFlow), FullRouting), RndSignal(c, revenue), FullRouting))
  {
    var s := s0;
    if cash.Ok? {
      var data := cash.value;
      if NonZero(data.freeCashFlow) {
        var fcf := data.freeCashFlow.value;
        if fcf > 0.0 {
          s := s.Add(Strengths, PositiveFreeCashFlow(fcf));
        } else {
          s := s.Add(Weaknesses, NegativeFreeCashFlow(fcf));
        }
      }
      if RdReported(data) {
        var revenue := RevenueAsWritten(fin);
        if revenue.Err? {
          return Err(revenue.error);
        }
        if NonZero(revenue.value) && revenue.value.value > 0.0 {
          var pct := data.rdExpense.value.value.value / revenue.value.value * 100.0;
          if pct > 10.0 {
            s := s.Add(Opportunities, HighRnd(pct));
          }
        }
      }
    }
    r := Ok(s);
  }

  lemma RouteSeven<T>(m: seq<Option<Signal<T>>>, table: Impact -> Option<Bucket>)
    requires |m| == 7
    ensures RouteAll(m, table) == RouteOne(RouteOne(RouteOne(RouteOne(RouteOne(RouteOne(RouteOne(
      EmptySummary(), m[0], table), m[1], table), m[2], table), m[3], table), m[4], table), m[5], table), m[6], table)
  {
    var e := EmptySummary();
    assert m[..1][..0] == [];
    assert RouteAll(m[..1], table) == RouteOne(e, m[0], table);
    assert m[..2][..1] == m[..1];
    assert RouteAll(m[..2], table) == RouteOne(RouteAll(m[..1], table), m[1], table);
    assert m[..3][..2] == m[..2];
    assert RouteAll(m[..3], table) == RouteOne(RouteAll(m[..2], table), m[2], table);
    assert m[..4][..3] == m[..3];
    assert RouteAll(m[..4], table) == RouteOne(RouteAll(m[..3], table), m[3], table);
    assert m[..5][..4] == m[..4];
    assert RouteAll(m[..5], table) == RouteOne(RouteAll(m[..4], table), m[4], table);
    assert m[..6][..5] == m[..5];
    assert RouteAll(m[..6], table) == RouteOne(RouteAll(m[..5], table), m[5], table);
    assert m[..7] == m && m[..7][..6] == m[..6];
  }

  /** `get_sec_fundamentals_basket` once the four fetches have returned. */
  method SecFundamentalsBasket(fin: Result<FinancialsData, string>, debt: Result<DebtData, string>,
                               cash: Result<CashFlowData, string>) returns (r: Result<Summary<Fundamental>, string>)
    ensures r == FundamentalsAsWritten(fin, debt, cash)
  {
    var s := EmptySummary();
    s := ApplyFinancialsRules(s, fin);
    s := ApplyDebtRules(s, debt);
    r := ApplyCashFlowRules(s, fin, cash);
    ghost var revenue := if cash.Ok? && RdReported(cash.value) && RevenueAsWritten(fin).Ok? then RevenueAsWritten(fin).value else None;
    RouteSeven(FundamentalSignals(fin, debt, cash, revenue), FullRouting);
  }

  /** The basket as written fails exactly when R&D is reported and the
      financials carry no revenue record, and otherwise agrees with the
      corrected basket. */
  lemma FundamentalsAsWrittenAgrees(fin: Result<FinancialsData, string>, debt: Result<DebtData, string>,
                                    cash: Result<CashFlowData, string>)
    ensures FundamentalsAsWritten(fin, debt, cash).Err? <==>
      cash.Ok? && RdReported(cash.value) && fin.Ok? && fin.value.revenue.None?
    ensures FundamentalsAsWritten(fin, debt, cash).Ok? ==>
      FundamentalsAsWritten(fin, debt, cash).value == Fundamentals(fin, debt, cash)
  {
    if !(cash.Ok? && RdReported(cash.value)) {
      assert RndSignal(if cash.Ok? then cash.value else CashFlowData(None, None), Revenue(fin)) == None;
      assert RndSignal(if cash.Ok? then cash.value else CashFlowData(None, None), None) == None;
    }
  }

  /** R&D of 1 beside financials without a revenue record: the basket as
      written raises, while the corrected basket reports nothing for R&D. */
  lemma RndWithoutRevenue(fin: Result<FinancialsData, string>, cash: Result<CashFlowData, string>)
    requires fin == Ok(FinancialsData(None, None, None, None))
    requires cash == Ok(CashFlowData(None, Some(Latest(Some(1.0), None, None, None))))
    ensures FundamentalsAsWritten(fin, Err(""), cash) == Err(RevenueAttributeError)
    ensures Fundamentals(fin, Err(""), cash) == EmptySummary()
  {
    var signals := FundamentalSignals(fin, Err(""), cash, Revenue(fin));
    assert forall k | 0 <= k < |signals| :: signals[k] == None;
    RouteNothing(signals, FullRouting);
  }

  lemma {:induction false} RouteNothing<T>(metrics: seq<Option<Signal<T>>>, table: Impact -> Option<Bucket>)
    requires forall k | 0 <= k < |metrics| :: metrics[k] == None
    ensures RouteAll(metrics, table) == EmptySummary()
    decreases |metrics|
  {
    if |metrics| > 0 {
      RouteNothing(metrics[..|metrics| - 1], table);
    }
  }

  /** The only threat is high leverage. */
  lemma FundamentalsThreats(fin: Result<FinancialsData, string>, debt: Result<DebtData, string>,
                            cash: Result<CashFlowData, string>, x: Fundamental)
    ensures x in Fundamentals(fin, debt, cash).threats <==>
      debt.Ok? && debt.value.debtToEquity.Some? && debt.value.debtToEquity.value > 2.0
      && x == HighLeverage(debt.value.debtToEquity.value)
  {
    var signals := FundamentalSignals(fin, debt, cash, Revenue(fin));
    RouteMembership(signals, FullRouting, Threats, x);
    var d := if debt.Ok? then debt.value else DebtData(None, None);
    assert signals[3] == LeverageSignal(d.debtToEquity);
    forall k | 0 <= k < 7 && k != 3 ensures !Routes(signals[k], FullRouting, Threats, x) {
      if signals[k].Some? {
        assert signals[k].value.impact != Threat && signals[k].value.impact != SevereThreat;
      }
    }
  }

  /** The only opportunity is heavy R&D, and the seven rules add at most
      seven entries. */
  lemma FundamentalsOpportunities(fin: Result<FinancialsData, string>, debt: Result<DebtData, string>,
                                  cash: Result<CashFlowData, string>, x: Fundamental)
    ensures x in Fundamentals(fin, debt, cash).opportunities ==> x.HighRnd? && x.percent > 10.0
    ensures Fundamentals(fin, debt, cash).Size() <= 7
  {
    var signals := FundamentalSignals(fin, debt, cash, Revenue(fin));
    RouteMembership(signals, FullRouting, Opportunities, x);
    forall k | 0 <= k < 6 ensures !Routes(signals[k], FullRouting, Opportunities, x) {
      if signals[k].Some? {
        assert signals[k].value.impact != Opportunity;
      }
    }
    RouteSizeBound(signals, FullRouting);
  }
}
