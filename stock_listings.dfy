/** The US listing loader: the common-stock filter, the parser for the two
    pipe-delimited NASDAQ Trader files, and the first-occurrence
    de-duplication of the combined list. */
module StockListings {
  import opened Wrappers
  import opened Text

  datatype Listing = Listing(symbol: string, name: string, exchange: string)

  // ------------------------------------------------------------------ regular expressions

  /** `\w` on ASCII text. */
  predicate IsWordChar(c: char) {
    'A' <= c <= 'Z' || 'a' <= c <= 'z' || '0' <= c <= '9' || c == '_'
  }

  predicate IsUpperLetter(c: char) {
    'A' <= c <= 'Z'
  }

  /** `\b` before index `i`, for a word that starts with a word character. */
  predicate BoundaryBefore(s: string, i: int)
    requires 0 <= i <= |s|
  {
    i == 0 || !IsWordChar(s[i - 1])
  }

  /** `\b` after index `i`, for a word that ends with a word character. */
  predicate BoundaryAfter(s: string, i: int)
    requires 0 <= i <= |s|
  {
    i == |s| || !IsWordChar(s[i])
  }

  /** `re.search(r'\bW\b', s)` */
  predicate HasWord(s: string, w: string) {
    exists i | 0 <= i <= |s| - |w| :: OccursAt(s, w, i) && BoundaryBefore(s, i) && BoundaryAfter(s, i + |w|)
  }

  /** `re.search(r'W$', s)`: `$` also matches before a final newline. */
  predicate AtEnd(s: string, w: string) {
    EndsWith(s, w) || EndsWith(s, w + "\n")
  }

  /** `re.search(r'\bW\b$', s)` */
  predicate WordAtEnd(s: string, w: string) {
    (EndsWith(s, w) && BoundaryBefore(s, |s| - |w|))
    || (EndsWith(s, w + "\n") && BoundaryBefore(s, |s| - |w| - 1))
  }

  /** The shapes of regular expression in `EXCLUDED_PATTERNS`: `\bW\b`, a
      bare `W`, `W$` (or `WS?$` when `optionalS`) and `\bW\b$`. */
  datatype Pattern = Word(w: string) | Anywhere(w: string) | End(w: string, optionalS: bool) | WordEnd(w: string)

  /** `re.search(p, s)` */
  predicate Matches(s: string, p: Pattern) {
    match p
    case Word(w) => HasWord(s, w)
    case Anywhere(w) => Contains(s, w)
    case End(w, optionalS) => AtEnd(s, w) || (optionalS && AtEnd(s, w + "S"))
    case WordEnd(w) => WordAtEnd(s, w)
  }

  const ExcludedPatterns: seq<Pattern> := [
    Word("ETF"), Word("ETN"), Word("ETP"),
    Word("FUND"), Word("TRUST"), Word("INDEX"),
    Anywhere("WARRANT"), End("RIGHT", true), End("UNIT", true),
    Anywhere("PREFERRED"), Anywhere("PFD"), Anywhere("PRF"),
    WordEnd("LP"), WordEnd("LLC"),
    Anywhere("DEPOSITARY"), End("ADR", false), End("ADS", false)
  ]

  /** The name hits one of `EXCLUDED_PATTERNS`. */
  predicate Excluded(n: string) {
    exists k | 0 <= k < |ExcludedPatterns| :: Matches(n, ExcludedPatterns[k])
  }

  /** `[A-Z]+\.[A-Z]` filling the whole string. */
  predicate ShareClassCore(t: string) {
    |t| >= 3 && t[|t| - 2] == '.' && IsUpperLetter(t[|t| - 1])
    && forall i | 0 <= i < |t| - 2 :: IsUpperLetter(t[i])
  }

  /** `re.match(r'^[A-Z]+\.[A-Z]$', symbol)`, e.g. BRK.A */
  predicate IsShareClass(symbol: string) {
    ShareClassCore(symbol) || (|symbol| > 0 && symbol[|symbol| - 1] == '\n' && ShareClassCore(symbol[..|symbol| - 1]))
  }

  predicate HasSpecialChar(symbol: string) {
    '+' in symbol || '.' in symbol || '-' in symbol || '$' in symbol
  }

  /** `_is_common_stock(name, symbol)`: no excluded pattern in the upper-cased
      name, no special character in the symbol unless it is a share class,
      and a name of at least three characters. */
  predicate IsCommonStock(name: string, symbol: string) {
    !Excluded(Upper(name)) && (!HasSpecialChar(symbol) || IsShareClass(symbol)) && |name| >= 3
  }

  /** A name carrying one of the excluded patterns is never a common stock,
      whatever its symbol, and neither is a name shorter than three characters. */
  lemma ExcludedNamesRejected(name: string, symbol: string, k: nat)
    requires k < |ExcludedPatterns| && Matches(Upper(name), ExcludedPatterns[k])
    ensures !IsCommonStock(name, symbol)
  {
  }

  /** A share-class symbol passes the symbol rule and a plain one has no special character. */
  lemma ShareClassSymbols()
    ensures IsShareClass("BRK.A") && HasSpecialChar("BRK.A")
    ensures !IsShareClass("BRK-A") && HasSpecialChar("BRK-A")
    ensures !IsShareClass("AB.CD")
  {
    assert "BRK.A"[3] == '.';
    assert "AB.CD"[3] == 'C';
    assert "BRK-A"[3] == '-';
  }

  // ------------------------------------------------------------------ the file parser

  /** Which of the two NASDAQ Trader files is being read. */
  datatype ListingFile = NasdaqListed | OtherListed

  const NasdaqFile := "NASDAQ"
  const FooterPrefix := "File Creation Time"
  const MajorExchanges: set<string> := {"NYSE", "AMEX", "NYSE ARCA"}

  /** The `exchange` argument `_fetch_listings` passes for each file. */
  function FileArgument(file: ListingFile): string {
    if file == NasdaqListed then NasdaqFile else "OTHER"
  }

  /** The exchange code table of the other-listed file; unknown codes stand for themselves. */
  function ExchangeName(code: string): (e: string)
    ensures e == "AMEX" <==> code == "A" || code == "AMEX"
    ensures e == "NYSE" <==> code == "N" || code == "NYSE"
    ensures e == "NYSE ARCA" <==> code == "P" || code == "NYSE ARCA"
    ensures code == "Z" ==> e == "BATS"
    ensures code == "V" ==> e == "IEX"
    ensures code !in {"A", "N", "P", "Z", "V"} ==> e == code
  {
    if code == "A" then "AMEX"
    else if code == "N" then "NYSE"
    else if code == "P" then "NYSE ARCA"
    else if code == "Z" then "BATS"
    else if code == "V" then "IEX"
    else code
  }

  /** `fields[i].strip().upper() == 'Y' if len(fields) > i else False` */
  predicate Flag(fields: seq<string>, i: nat) {
    |fields| > i && Upper(Strip(fields[i])) == "Y"
  }

  /** The listing one data line yields, if any, with the file kind kept apart
      from the row's exchange (see `ScanLine` for the code as written). A
      line of the other-listed file with fewer than three fields is skipped. */
  function ParseRow(line: string, file: ListingFile): Option<Listing> {
    var fields := Split(line, '|');
    if StartsWith(line, FooterPrefix) || |fields| < 2 then None
    else
      var symbol := Strip(fields[0]);
      var name := Strip(fields[1]);
      if file == NasdaqListed then
        if Flag(fields, 6) || Flag(fields, 3) || !IsCommonStock(name, symbol) then None
        else Some(Listing(symbol, name, NasdaqFile))
      else if |fields| < 3 then None
      else
        var exchange := ExchangeName(Strip(fields[2]));
        if Flag(fields, 4) || Flag(fields, 6) || exchange !in MajorExchanges || !IsCommonStock(name, symbol) then None
        else Some(Listing(symbol, name, exchange))
  }

  /** A row is a common stock on an exchange its file may contribute, and
      the footer line is never a row. */
  lemma RowIsFiltered(line: string, file: ListingFile)
    ensures var r := ParseRow(line, file);
      (r.Some? ==> IsCommonStock(r.value.name, r.value.symbol))
      && (r.Some? && file == NasdaqListed ==> r.value.exchange == NasdaqFile)
      && (r.Some? && file == OtherListed ==> r.value.exchange in MajorExchanges)
      && (StartsWith(line, FooterPrefix) ==> r.None?)
  {
  }

  /** ETF and test-issue rows never become listings. */
  lemma EtfAndTestRowsSkipped(line: string, file: ListingFile)
    requires var fields := Split(line, '|');
      if file == NasdaqListed then Flag(fields, 6) || Flag(fields, 3) else Flag(fields, 4) || Flag(fields, 6)
    ensures ParseRow(line, file).None?
  {
  }

  /** The listing one line contributes, as a sequence of length at most one. */
  function RowOf(line: string, file: ListingFile): seq<Listing> {
    match ParseRow(line, file)
    case None => []
    case Some(l) => [l]
  }

  function NasdaqRow(line: string): seq<Listing> {
    RowOf(line, NasdaqListed)
  }

  function OtherRow(line: string): seq<Listing> {
    RowOf(line, OtherListed)
  }

  function RowFunction(file: ListingFile): string -> seq<Listing> {
    if file == NasdaqListed then NasdaqRow else OtherRow
  }

  /** What `row` contributes for each of `lines`, in order. */
  function Collect(row: string -> seq<Listing>, lines: seq<string>): seq<Listing>
    decreases |lines|
  {
    if |lines| == 0 then [] else Collect(row, lines[..|lines| - 1]) + row(lines[|lines| - 1])
  }

  /** `Collect` read from the front. */
  lemma {:induction false} CollectCons(row: string -> seq<Listing>, x: string, rest: seq<string>)
    ensures Collect(row, [x] + rest) == row(x) + Collect(row, rest)
    decreases |rest|
  {
    if |rest| == 0 {
      assert ([x] + rest)[..0] == [];
    } else {
      var lines := [x] + rest;
      assert lines[..|lines| - 1] == [x] + rest[..|rest| - 1];
      CollectCons(row, x, rest[..|rest| - 1]);
    }
  }

  /** The listings of `lines`, in order. */
  function Rows(lines: seq<string>, file: ListingFile): seq<Listing> {
    Collect(RowFunction(file), lines)
  }

  /** The data lines: `content.strip().split('\n')` without the header line. */
  function DataLines(content: string): seq<string> {
    Split(Strip(content), '\n')[1..]
  }

  /** `_parse_nasdaq_file(content, exchange)`, with the exchange of each row
      kept separate from the file kind (see `ParseAsWritten`). */
  method ParseNasdaqFile(content: string, file: ListingFile) returns (stocks: seq<Listing>)
    ensures stocks == Rows(DataLines(content), file)
  {
    var lines := DataLines(content);
    stocks := [];
    for i := 0 to |lines|
      invariant stocks == Rows(lines[..i], file)
    {
      assert lines[..i + 1][..i] == lines[..i];
      var row := ParseRow(lines[i], file);
      if row.Some? {
        stocks := stocks + [row.value];
      } else {
        assert stocks + [] == stocks;
      }
    }
    assert lines[..|lines|] == lines;
  }

  /** Every parsed listing is a common stock on an exchange the file may contribute. */
  lemma {:induction false} RowsAreFiltered(lines: seq<string>, file: ListingFile)
    ensures forall l | l in Rows(lines, file) ::
      IsCommonStock(l.name, l.symbol)
      && (file == NasdaqListed ==> l.exchange == NasdaqFile)
      && (file == OtherListed ==> l.exchange in MajorExchanges)
    ensures |Rows(lines, file)| <= |lines|
    decreases |lines|
  {
    if |lines| > 0 {
      RowsAreFiltered(lines[..|lines| - 1], file);
      RowIsFiltered(lines[|lines| - 1], file);
    }
  }

  // ------------------------------------------------------------------ the parser as written

  /** What one line does to the loop of `_parse_nasdaq_file` as written: it
      raises, or it goes on with a (possibly reassigned) `exchange` and the
      rows it appended. */
  datatype LineOutcome = Raise(message: string) | Continue(exchange: string, added: seq<Listing>)

  const IndexErrorMessage := "IndexError: list index out of range"

  /** One iteration as written: the `exchange` parameter is reassigned by
      every other-listed row that gets past the ETF and test checks, and a
      two-field line of that file indexes `fields[2]` and raises. */
  function ScanLine(line: string, exchange: string): LineOutcome {
    var fields := Split(line, '|');
    if StartsWith(line, FooterPrefix) || |fields| < 2 then Continue(exchange, [])
    else
      var symbol := Strip(fields[0]);
      var name := Strip(fields[1]);
      if exchange == NasdaqFile then
        if Flag(fields, 6) || Flag(fields, 3) || !IsCommonStock(name, symbol) then Continue(exchange, [])
        else Continue(exchange, [Listing(symbol, name, exchange)])
      else if |fields| < 3 then Raise(IndexErrorMessage)
      else if Flag(fields, 4) || Flag(fields, 6) then Continue(exchange, [])
      else
        var mapped := ExchangeName(Strip(fields[2]));
        if mapped !in MajorExchanges || !IsCommonStock(name, symbol) then Continue(mapped, [])
        else Continue(mapped, [Listing(symbol, name, mapped)])
  }

  /** A loop over `lines` whose body is `step`, threading the exchange and
      the rows appended so far; the first raise ends it. */
  function ScanWith(step: (string, string) -> LineOutcome, lines: seq<string>, exchange: string,
                    stocks: seq<Listing>): Result<seq<Listing>, string>
    decreases |lines|
  {
    if |lines| == 0 then Ok(stocks)
    else
      match step(lines[0], exchange)
      case Raise(m) => Err(m)
      case Continue(next, added) => ScanWith(step, lines[1..], next, stocks + added)
  }

  /** The loop of `_parse_nasdaq_file` as written, from `stocks` on. */
  function ScanAsWritten(lines: seq<string>, exchange: string, stocks: seq<Listing>): Result<seq<Listing>, string> {
    ScanWith(ScanLine, lines, exchange, stocks)
  }

  /** `_parse_nasdaq_file(content, exchange)` as written. */
  function ParseAsWritten(content: string, file: ListingFile): Result<seq<Listing>, string> {
    ScanAsWritten(DataLines(content), FileArgument(file), [])
  }

  /** While every state the loop can reach (`good`) makes each line append
      what `row` gives it and lead to another such state, the loop appends
      exactly `Collect(row, lines)`. */
  lemma {:induction false} ScanCollects(step: (string, string) -> LineOutcome, row: string -> seq<Listing>,
                                        good: string -> bool, lines: seq<string>, exchange: string, stocks: seq<Listing>)
    requires good(exchange)
    requires forall l, e | l in lines && good(e) ::
      step(l, e).Continue? && step(l, e).added == row(l) && good(step(l, e).exchange)
    ensures ScanWith(step, lines, exchange, stocks) == Ok(stocks + Collect(row, lines))
    decreases |lines|
  {
    if |lines| == 0 {
      assert stocks + [] == stocks;
    } else {
      var next := step(lines[0], exchange);
      assert next.Continue? && next.added == row(lines[0]) && good(next.exchange);
      ScanCollects(step, row, good, lines[1..], next.exchange, stocks + row(lines[0]));
      assert lines == [lines[0]] + lines[1..];
      CollectCons(row, lines[0], lines[1..]);
      assert stocks + row(lines[0]) + Collect(row, lines[1..]) == stocks + Collect(row, lines);
    }
  }

  /** A NASDAQ-file line as written adds what `ParseRow` yields and keeps the exchange. */
  lemma NasdaqScanLine(line: string)
    ensures ScanLine(line, NasdaqFile) == Continue(NasdaqFile, NasdaqRow(line))
  {
  }

  /** On the NASDAQ-listed file the exchange is never reassigned, and the
      parser as written agrees with `Rows`. */
  lemma NasdaqScanAgrees(content: string)
    ensures ParseAsWritten(content, NasdaqListed) == Ok(Rows(DataLines(content), NasdaqListed))
  {
    var lines := DataLines(content);
    var good := (e: string) => e == NasdaqFile;
    forall l, e | l in lines && good(e)
      ensures ScanLine(l, e).Continue? && ScanLine(l, e).added == NasdaqRow(l) && good(ScanLine(l, e).exchange)
    {
      NasdaqScanLine(l);
    }
    ScanCollects(ScanLine, NasdaqRow, good, lines, NasdaqFile, []);
    assert [] + Rows(lines, NasdaqListed) == Rows(lines, NasdaqListed);
  }

  /** A line of the other-listed file on which the parser as written neither
      raises nor switches to the NASDAQ layout. */
  predicate SafeOtherLine(line: string) {
    var fields := Split(line, '|');
    StartsWith(line, FooterPrefix) || |fields| < 2
    || (|fields| >= 3 && (Flag(fields, 4) || Flag(fields, 6) || ExchangeName(Strip(fields[2])) != NasdaqFile))
  }

  /** A safe other-listed line as written adds what `ParseRow` yields and
      leaves an exchange other than "NASDAQ". */
  lemma OtherScanLine(line: string, exchange: string)
    requires SafeOtherLine(line) && exchange != NasdaqFile
    ensures ScanLine(line, exchange).Continue?
    ensures ScanLine(line, exchange).exchange != NasdaqFile
    ensures ScanLine(line, exchange).added == OtherRow(line)
  {
  }

  /** On an other-listed file of safe lines the parser as written agrees with `Rows`. */
  lemma OtherScanAgrees(content: string)
    requires forall l | l in DataLines(content) :: SafeOtherLine(l)
    ensures ParseAsWritten(content, OtherListed) == Ok(Rows(DataLines(content), OtherListed))
  {
    var lines := DataLines(content);
    var good := (e: string) => e != NasdaqFile;
    forall l, e | l in lines && good(e)
      ensures ScanLine(l, e).Continue? && ScanLine(l, e).added == OtherRow(l) && good(ScanLine(l, e).exchange)
    {
      OtherScanLine(l, e);
    }
    ScanCollects(ScanLine, OtherRow, good, lines, "OTHER", []);
    assert [] + Rows(lines, OtherListed) == Rows(lines, OtherListed);
  }

  /** A word followed by `suffix` at the end occurs just before the suffix. */
  lemma EndOccurs(s: string, w: string, suffix: string)
    requires EndsWith(s, w + suffix)
    ensures OccursAt(s, w, |s| - |w| - |suffix|)
  {
    var i := |s| - |w| - |suffix|;
    assert s[i..i + |w|] == s[i..][..|w|];
  }

  lemma AtEndOccurs(s: string, w: string)
    requires AtEnd(s, w)
    ensures exists i :: OccursAt(s, w, i)
  {
    if EndsWith(s, w) {
      EndOccurs(s, w, "");
    } else {
      EndOccurs(s, w, "\n");
    }
  }

  /** A pattern matches only where its word occurs. */
  lemma MatchOccurs(s: string, p: Pattern)
    ensures Matches(s, p) ==> exists i :: OccursAt(s, p.w, i)
  {
    match p
    case Word(w) =>
    case Anywhere(w) =>
    case End(w, optionalS) =>
      if AtEnd(s, w) {
        AtEndOccurs(s, w);
      } else if optionalS && AtEnd(s, w + "S") {
        AtEndOccurs(s, w + "S");
        var i :| OccursAt(s, w + "S", i);
        assert s[i..i + |w|] == s[i..i + |w| + 1][..|w|];
        assert OccursAt(s, w, i);
      }
    case WordEnd(w) =>
      if WordAtEnd(s, w) {
        AtEndOccurs(s, w);
      }
  }

  /** A pattern whose word holds a character the text lacks does not match it. */
  lemma ForeignLetterNoMatch(s: string, p: Pattern, j: nat)
    requires j < |p.w| && p.w[j] !in s
    ensures !Matches(s, p)
  {
    assert forall i | OccursAt(s, p.w, i) :: s[i..i + |p.w|][j] == p.w[j] && s[i + j] in s;
    MatchOccurs(s, p);
  }

  /** A three-letter name with no excluded word is a common stock under a plain symbol. */
  lemma AbcIsCommonStock()
    ensures IsCommonStock("Abc", "AB")
  {
    assert Upper("Abc") == "ABC";
    var n := "ABC";
    forall k | 0 <= k < |ExcludedPatterns| ensures !Matches(n, ExcludedPatterns[k]) {
      var w := ExcludedPatterns[k].w;
      if w[0] in n {
        ForeignLetterNoMatch(n, ExcludedPatterns[k], 1);
      } else {
        ForeignLetterNoMatch(n, ExcludedPatterns[k], 0);
      }
    }
    assert "AB"[0] == 'A' && "AB"[1] == 'B';
  }

  /** The pieces of a three-field line. */
  lemma ThreeFields(a: string, b: string, c: string)
    requires '|' !in a && '|' !in b && '|' !in c
    ensures Split(a + "|" + b + "|" + c, '|') == [a, b, c]
  {
    assert a + "|" + b + "|" + c == a + ['|'] + (b + ['|'] + c);
    SplitFirstPiece(a, '|', b + ['|'] + c);
    SplitFirstPiece(b, '|', c);
    SplitNoSeparator(c, '|');
  }

  const RebindingContent := "H\nX|Xyz|NASDAQ\nAB|Abc|Q"

  /** The data lines of a three-line file. */
  lemma ThreeLines(h: string, a: string, b: string)
    requires |h| > 0 && !IsSpace(h[0]) && |b| > 0 && !IsSpace(b[|b| - 1])
    requires '\n' !in h && '\n' !in a && '\n' !in b
    ensures DataLines(h + "\n" + a + "\n" + b) == [a, b]
  {
    var c := h + "\n" + a + "\n" + b;
    assert c[0] == h[0] && c[|c| - 1] == b[|b| - 1];
    StripUntouched(c);
    assert c == h + ['\n'] + (a + ['\n'] + b);
    SplitFirstPiece(h, '\n', a + ['\n'] + b);
    SplitFirstPiece(a, '\n', b);
    SplitNoSeparator(b, '\n');
  }

  /** The first line of the other-listed file: code "NASDAQ" is not a major
      exchange, and the scan as written carries it on as the exchange. */
  lemma RebindingFirstLine(l1: string)
    requires Split(l1, '|') == ["X", "Xyz", "NASDAQ"] && !StartsWith(l1, FooterPrefix)
    ensures ParseRow(l1, OtherListed) == None
    ensures ScanLine(l1, "OTHER") == Continue(NasdaqFile, [])
  {
    StripUntouched("NASDAQ");
    var fields := Split(l1, '|');
    assert !Flag(fields, 4) && !Flag(fields, 6);
    assert ExchangeName(Strip(fields[2])) == NasdaqFile;
  }

  /** The second line: code "Q" is no major exchange, but under the NASDAQ
      layout the row is kept. */
  lemma RebindingSecondLine(l2: string)
    requires Split(l2, '|') == ["AB", "Abc", "Q"] && !StartsWith(l2, FooterPrefix)
    ensures ScanLine(l2, NasdaqFile) == Continue(NasdaqFile, [Listing("AB", "Abc", NasdaqFile)])
  {
    StripUntouched("AB");
    StripUntouched("Abc");
    AbcIsCommonStock();
    var fields := Split(l2, '|');
    assert !Flag(fields, 3) && !Flag(fields, 6);
    assert Strip(fields[0]) == "AB" && Strip(fields[1]) == "Abc";
  }

  lemma RebindingSecondRow(l2: string)
    requires Split(l2, '|') == ["AB", "Abc", "Q"]
    ensures ParseRow(l2, OtherListed) == None
  {
    StripUntouched("Q");
    assert ExchangeName(Strip(Split(l2, '|')[2])) == "Q";
  }

  lemma RebindingLines(content: string)
    requires content == RebindingContent
    ensures DataLines(content) == ["X|Xyz|NASDAQ", "AB|Abc|Q"]
  {
    var l1, l2 := "X|Xyz|NASDAQ", "AB|Abc|Q";
    ThreeLines("H", l1, l2);
    assert content == "H" + "\n" + l1 + "\n" + l2;
  }

  lemma FieldsOfThree(line: string, a: string, b: string, c: string)
    requires '|' !in a && '|' !in b && '|' !in c && line == a + "|" + b + "|" + c
    requires |line| < |FooterPrefix|
    ensures Split(line, '|') == [a, b, c] && !StartsWith(line, FooterPrefix)
  {
    ThreeFields(a, b, c);
  }

  /** The fields of the two data lines of `RebindingContent` (`RebindingLines`). */
  lemma RebindingInput(l1: string, l2: string)
    requires l1 == "X|Xyz|NASDAQ" && l2 == "AB|Abc|Q"
    ensures Split(l1, '|') == ["X", "Xyz", "NASDAQ"] && !StartsWith(l1, FooterPrefix)
    ensures Split(l2, '|') == ["AB", "Abc", "Q"] && !StartsWith(l2, FooterPrefix)
  {
    FieldsOfThree(l1, "X", "Xyz", "NASDAQ");
    FieldsOfThree(l2, "AB", "Abc", "Q");
  }

  /** The data line of a two-line file. */
  lemma TwoLines(h: string, a: string)
    requires |h| > 0 && !IsSpace(h[0]) && |a| > 0 && !IsSpace(a[|a| - 1])
    requires '\n' !in h && '\n' !in a
    ensures DataLines(h + "\n" + a) == [a]
  {
    var c := h + "\n" + a;
    assert c[0] == h[0] && c[|c| - 1] == a[|a| - 1];
    StripUntouched(c);
    assert c == h + ['\n'] + a;
    SplitFirstPiece(h, '\n', a);
    SplitNoSeparator(a, '\n');
  }

  lemma TwoFields(line: string, a: string, b: string)
    requires '|' !in a && '|' !in b && line == a + "|" + b
    requires |line| < |FooterPrefix|
    ensures Split(line, '|') == [a, b] && !StartsWith(line, FooterPrefix)
  {
    assert line == a + ['|'] + b;
    SplitFirstPiece(a, '|', b);
    SplitNoSeparator(b, '|');
  }

  /** A line of the other-listed file whose code is literally "NASDAQ"
      switches the later lines to the NASDAQ layout, so a row on no major
      exchange is listed as NASDAQ; the data lines of `RebindingContent` are
      such a pair (`RebindingLines`, `RebindingInput`). */
  lemma RebindingCounterexample(l1: string, l2: string)
    requires Split(l1, '|') == ["X", "Xyz", "NASDAQ"] && !StartsWith(l1, FooterPrefix)
    requires Split(l2, '|') == ["AB", "Abc", "Q"] && !StartsWith(l2, FooterPrefix)
    ensures ScanAsWritten([l1, l2], "OTHER", []) == Ok([Listing("AB", "Abc", NasdaqFile)])
    ensures Rows([l1, l2], OtherListed) == []
  {
    RebindingFirstLine(l1);
    RebindingSecondLine(l2);
    RebindingSecondRow(l2);
    var none: seq<Listing> := [];
    var listed := [Listing("AB", "Abc", NasdaqFile)];
    assert [l1, l2][1..] == [l2] && [l2][1..] == [];
    assert ScanWith(ScanLine, [l1, l2], "OTHER", []) == ScanWith(ScanLine, [l2], NasdaqFile, none + none);
    assert ScanWith(ScanLine, [l2], NasdaqFile, none) == ScanWith(ScanLine, [], NasdaqFile, none + listed);
    assert none + listed == listed;
    assert [l1, l2][..1] == [l1] && [l1][..0] == [];
    assert Collect(OtherRow, [l1]) == [];
  }

  /** The file `RebindingContent` read as the other-listed file. */
  lemma RebindingFile(content: string, l1: string, l2: string)
    requires content == RebindingContent && l1 == "X|Xyz|NASDAQ" && l2 == "AB|Abc|Q"
    ensures ParseAsWritten(content, OtherListed) == Ok([Listing("AB", "Abc", NasdaqFile)])
    ensures Rows(DataLines(content), OtherListed) == []
  {
    RebindingLines(content);
    RebindingInput(l1, l2);
    RebindingCounterexample(l1, l2);
  }

  const ShortLineContent := "H\nAB|Abc"

  lemma ShortLineLines(content: string)
    requires content == ShortLineContent
    ensures DataLines(content) == ["AB|Abc"]
  {
    TwoLines("H", "AB|Abc");
    assert content == "H" + "\n" + "AB|Abc";
  }

  lemma ShortLineInput(line: string)
    requires line == "AB|Abc"
    ensures Split(line, '|') == ["AB", "Abc"] && !StartsWith(line, FooterPrefix)
  {
    TwoFields(line, "AB", "Abc");
  }

  /** A two-field line in the other-listed file passes the `len(fields) < 2`
      guard and raises, where the corrected parser skips it; the data line of
      `ShortLineContent` is one (`ShortLineLines`, `ShortLineInput`). */
  lemma ShortLineCounterexample(line: string)
    requires Split(line, '|') == ["AB", "Abc"] && !StartsWith(line, FooterPrefix)
    ensures ScanAsWritten([line], "OTHER", []) == Err(IndexErrorMessage)
    ensures Rows([line], OtherListed) == []
  {
    assert ScanLine(line, "OTHER") == Raise(IndexErrorMessage);
    assert [line][0] == line && [line][..0] == [];
    assert ParseRow(line, OtherListed) == None;
    assert Collect(OtherRow, [line]) == Collect(OtherRow, []) + OtherRow(line);
  }

  /** The file `ShortLineContent` read as the other-listed file. */
  lemma ShortLineFile(content: string, line: string)
    requires content == ShortLineContent && line == "AB|Abc"
    ensures ParseAsWritten(content, OtherListed) == Err(IndexErrorMessage)
    ensures Rows(DataLines(content), OtherListed) == []
  {
    ShortLineLines(content);
    ShortLineInput(line);
    ShortLineCounterexample(line);
  }

  // ------------------------------------------------------------------ de-duplication

  function Symbols(stocks: seq<Listing>): set<string> {
    set i | 0 <= i < |stocks| :: stocks[i].symbol
  }

  /** The first-occurrence de-duplication by symbol. */
  function Dedup(stocks: seq<Listing>): seq<Listing>
    decreases |stocks|
  {
    if |stocks| == 0 then []
    else
      var init := stocks[..|stocks| - 1];
      var last := stocks[|stocks| - 1];
      if last.symbol in Symbols(init) then Dedup(init) else Dedup(init) + [last]
  }

  /** The `seen` / `unique_stocks` loop of `_fetch_listings`. */
  method DedupListings(stocks: seq<Listing>) returns (unique: seq<Listing>)
    ensures unique == Dedup(stocks)
  {
    var seen: set<string> := {};
    unique := [];
    for i := 0 to |stocks|
      invariant unique == Dedup(stocks[..i])
      invariant seen == Symbols(stocks[..i])
    {
      assert stocks[..i + 1][..i] == stocks[..i];
      assert Symbols(stocks[..i + 1]) == Symbols(stocks[..i]) + {stocks[i].symbol};
      if stocks[i].symbol !in seen {
        seen := seen + {stocks[i].symbol};
        unique := unique + [stocks[i]];
      }
    }
    assert stocks[..|stocks|] == stocks;
  }

  lemma SymbolsSnoc(s: seq<Listing>, x: Listing)
    ensures Symbols(s + [x]) == Symbols(s) + {x.symbol}
  {
    var t := s + [x];
    assert forall i | 0 <= i < |s| :: t[i] == s[i];
    assert t[|s|] == x;
  }

  /** The symbol at `i` has not been seen before `i`. */
  predicate FirstOfSymbol(stocks: seq<Listing>, i: int) {
    0 <= i < |stocks| && stocks[i].symbol !in Symbols(stocks[..i])
  }

  /** No symbol occurs twice. */
  predicate UniqueSymbols(stocks: seq<Listing>) {
    forall i, j | 0 <= i < j < |stocks| :: stocks[i].symbol != stocks[j].symbol
  }

  /** De-duplication keeps every symbol. */
  lemma {:induction false} DedupSymbols(stocks: seq<Listing>)
    ensures Symbols(Dedup(stocks)) == Symbols(stocks)
    decreases |stocks|
  {
    if |stocks| > 0 {
      var init, last := stocks[..|stocks| - 1], stocks[|stocks| - 1];
      DedupSymbols(init);
      assert init + [last] == stocks;
      SymbolsSnoc(init, last);
      if last.symbol !in Symbols(init) {
        SymbolsSnoc(Dedup(init), last);
      }
    }
  }

  /** De-duplication leaves each symbol once. */
  lemma {:induction false} DedupUnique(stocks: seq<Listing>)
    ensures UniqueSymbols(Dedup(stocks))
    decreases |stocks|
  {
    if |stocks| > 0 {
      var init, last := stocks[..|stocks| - 1], stocks[|stocks| - 1];
      DedupUnique(init);
      if last.symbol !in Symbols(init) {
        DedupSymbols(init);
        var d := Dedup(init);
        forall i | 0 <= i < |d| ensures d[i].symbol != last.symbol {
          assert d[i].symbol in Symbols(d);
        }
      }
    }
  }

  /** The listings kept are exactly the first listing of each symbol. */
  lemma {:induction false} DedupKeepsFirst(stocks: seq<Listing>, x: Listing)
    ensures x in Dedup(stocks) <==> exists i | FirstOfSymbol(stocks, i) :: stocks[i] == x
    decreases |stocks|
  {
    if |stocks| > 0 {
      var init, last := stocks[..|stocks| - 1], stocks[|stocks| - 1];
      DedupKeepsFirst(init, x);
      forall i | 0 <= i < |init| ensures FirstOfSymbol(stocks, i) == FirstOfSymbol(init, i) && stocks[i] == init[i] {
        assert stocks[..i] == init[..i];
      }
      assert stocks[..|init|] == init;
      if x in Dedup(stocks) && x !in Dedup(init) {
        assert x == last && FirstOfSymbol(stocks, |init|);
      }
      if exists i | FirstOfSymbol(stocks, i) :: stocks[i] == x {
        var i :| FirstOfSymbol(stocks, i) && stocks[i] == x;
        if i == |init| {
          assert last.symbol !in Symbols(init);
        } else {
          assert FirstOfSymbol(init, i);
        }
      }
    }
  }

  /** A list with no repeated symbol is left as it is. */
  lemma {:induction false} DedupOfUnique(stocks: seq<Listing>)
    requires UniqueSymbols(stocks)
    ensures Dedup(stocks) == stocks
    decreases |stocks|
  {
    if |stocks| > 0 {
      var init, last := stocks[..|stocks| - 1], stocks[|stocks| - 1];
      DedupOfUnique(init);
      forall i | 0 <= i < |init| ensures init[i].symbol != last.symbol {
        assert init[i] == stocks[i];
      }
      assert init + [last] == stocks;
    }
  }

  /** De-duplicating twice changes nothing. */
  lemma DedupIdempotent(stocks: seq<Listing>)
    ensures Dedup(Dedup(stocks)) == Dedup(stocks)
  {
    DedupUnique(stocks);
    DedupOfUnique(Dedup(stocks));
  }

  /** The combined list `_fetch_listings` returns: the NASDAQ-listed rows,
      then the other-listed rows, de-duplicated by symbol. */
  function FetchListings(nasdaqContent: string, otherContent: string): seq<Listing> {
    Dedup(Rows(DataLines(nasdaqContent), NasdaqListed) + Rows(DataLines(otherContent), OtherListed))
  }

  /** The fetched list has one listing per symbol, the first one seen of each. */
  lemma FetchListingsProperties(nasdaqContent: string, otherContent: string)
    ensures var all := Rows(DataLines(nasdaqContent), NasdaqListed) + Rows(DataLines(otherContent), OtherListed);
      var r := FetchListings(nasdaqContent, otherContent);
      UniqueSymbols(r) && Symbols(r) == Symbols(all)
      && forall x :: x in r <==> exists i | FirstOfSymbol(all, i) :: all[i] == x
  {
    var all := Rows(DataLines(nasdaqContent), NasdaqListed) + Rows(DataLines(otherContent), OtherListed);
    DedupUnique(all);
    DedupSymbols(all);
    forall x ensures x in Dedup(all) <==> exists i | FirstOfSymbol(all, i) :: all[i] == x {
      DedupKeepsFirst(all, x);
    }
  }
}
