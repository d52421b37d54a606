/** The search half of the US listing module: `search_stocks`, which
    classifies every listing against a query, ranks the hits by match kind,
    market cap and symbol and keeps the first few, and `highlight_match`,
    which wraps the first case-insensitive occurrence of the query in a
    `<mark>` element. */
module StockSearch {
  import opened Wrappers
  import opened Text

  /** A listing as the search sees it; `marketCap` is absent for a listing
      that was never enriched. */
  datatype Stock = Stock(symbol: string, name: string, exchange: string, marketCap: Option<real>)

  /** The five match kinds, best first. */
  datatype MatchType = ExactSymbol | SymbolPrefix | SymbolContains | NamePrefix | NameContains

  /** The ranking table `priority`. */
  function Priority(m: MatchType): nat {
    match m
    case ExactSymbol => 0
    case SymbolPrefix => 1
    case SymbolContains => 2
    case NamePrefix => 3
    case NameContains => 4
  }

  /** A result: the listing with `match_type` and `match_indices`. */
  datatype Hit = Hit(stock: Stock, matchType: MatchType, matchIndices: seq<int>)

  /** `list(range(a, b))` */
  function Range(a: int, b: int): (r: seq<int>)
    ensures |r| == if b > a then b - a else 0
    ensures forall k | 0 <= k < |r| :: r[k] == a + k
  {
    seq(if b > a then b - a else 0, k => a + k)
  }

  /** The query forms compared against the upper-cased symbol and the
      lower-cased name. */
  function QueryUpper(query: string): string {
    Strip(Upper(query))
  }

  function QueryLower(query: string): string {
    Strip(Lower(query))
  }

  /** Whether the listing matches the query in the way `m` describes, each
      kind on its own. */
  predicate Holds(m: MatchType, stock: Stock, query: string) {
    var symbol := Upper(stock.symbol);
    var name := Lower(stock.name);
    match m
    case ExactSymbol => symbol == QueryUpper(query)
    case SymbolPrefix => StartsWith(symbol, QueryUpper(query))
    case SymbolContains => Contains(symbol, QueryUpper(query))
    case NamePrefix => StartsWith(name, QueryLower(query))
    case NameContains => Contains(name, QueryLower(query))
  }

  lemma PrefixContains(s: string, p: string)
    requires StartsWith(s, p)
    ensures Contains(s, p)
  {
    assert OccursAt(s, p, 0);
  }

  /** The body of the loop of `search_stocks` for one listing: the first
      match kind that holds, in priority order, with the indices to
      highlight, or nothing. */
  function Classify(stock: Stock, query: string): (r: Option<Hit>)
    ensures r.None? <==> forall m :: !Holds(m, stock, query)
    ensures r.Some? ==>
      r.value.stock == stock && Holds(r.value.matchType, stock, query)
      && (forall m | Priority(m) < Priority(r.value.matchType) :: !Holds(m, stock, query))
      && |r.value.matchIndices| == |query|
  {
    var symbol := Upper(stock.symbol);
    var name := Lower(stock.name);
    var qU := QueryUpper(query);
    var qL := QueryLower(query);
    if symbol == qU then
      assert Holds(ExactSymbol, stock, query);
      Some(Hit(stock, ExactSymbol, Range(0, |query|)))
    else if StartsWith(symbol, qU) then
      assert Holds(SymbolPrefix, stock, query);
      Some(Hit(stock, SymbolPrefix, Range(0, |query|)))
    else if Contains(symbol, qU) then
      assert Holds(SymbolContains, stock, query);
      var start := Find(symbol, qU);
      Some(Hit(stock, SymbolContains, Range(start, start + |query|)))
    else if StartsWith(name, qL) then
      assert Holds(NamePrefix, stock, query);
      Some(Hit(stock, NamePrefix, Range(0, |query|)))
    else if Contains(name, qL) then
      assert Holds(NameContains, stock, query);
      var start := Find(name, qL);
      Some(Hit(stock, NameContains, Range(start, start + |query|)))
    else
      assert forall m :: !Holds(m, stock, query) by {
        if StartsWith(name, qL) { PrefixContains(name, qL); }
      }
      None
  }

  /** The hits of `stocks`, in listing order. */
  function Matches(stocks: seq<Stock>, query: string): seq<Hit>
    decreases |stocks|
  {
    if |stocks| == 0 then []
    else
      var init := Matches(stocks[..|stocks| - 1], query);
      match Classify(stocks[|stocks| - 1], query)
      case None => init
      case Some(h) => init + [h]
  }

  lemma {:induction false} MatchesSound(stocks: seq<Stock>, query: string, h: Hit)
    requires h in Matches(stocks, query)
    ensures h.stock in stocks && Classify(h.stock, query) == Some(h)
    decreases |stocks|
  {
    var init := stocks[..|stocks| - 1];
    var last := stocks[|stocks| - 1];
    if h in Matches(init, query) {
      MatchesSound(init, query, h);
      assert h.stock in init;
    } else {
      assert Classify(last, query) == Some(h);
    }
  }

  lemma {:induction false} MatchesComplete(stocks: seq<Stock>, query: string, i: nat)
    requires i < |stocks| && Classify(stocks[i], query).Some?
    ensures Classify(stocks[i], query).value in Matches(stocks, query)
    decreases |stocks|
  {
    var init := stocks[..|stocks| - 1];
    if i < |init| {
      MatchesComplete(init, query, i);
      assert init[i] == stocks[i];
    }
  }

  lemma {:induction false} MatchesLength(stocks: seq<Stock>, query: string)
    ensures |Matches(stocks, query)| <= |stocks|
    decreases |stocks|
  {
    if |stocks| > 0 {
      MatchesLength(stocks[..|stocks| - 1], query);
    }
  }

  /** Every hit comes from a listing it classifies, and every listing that
      matches yields its hit. */
  lemma MatchesSoundComplete(stocks: seq<Stock>, query: string)
    ensures forall h | h in Matches(stocks, query) :: h.stock in stocks && Classify(h.stock, query) == Some(h)
    ensures forall i | 0 <= i < |stocks| && Classify(stocks[i], query).Some? ::
      Classify(stocks[i], query).value in Matches(stocks, query)
    ensures |Matches(stocks, query)| <= |stocks|
  {
    forall h | h in Matches(stocks, query) ensures h.stock in stocks && Classify(h.stock, query) == Some(h) {
      MatchesSound(stocks, query, h);
    }
    forall i | 0 <= i < |stocks| && Classify(stocks[i], query).Some?
      ensures Classify(stocks[i], query).value in Matches(stocks, query)
    {
      MatchesComplete(stocks, query, i);
    }
    MatchesLength(stocks, query);
  }

  // ------------------------------------------------------------------ ranking

  function Cap(h: Hit): real {
    h.stock.marketCap.GetOr(0.0)
  }

  /** The sort key `(priority, -market_cap, symbol)` compared with `<=`. */
  predicate KeyLe(a: Hit, b: Hit) {
    var pa, pb := Priority(a.matchType), Priority(b.matchType);
    pa < pb || (pa == pb && (Cap(a) > Cap(b) || (Cap(a) == Cap(b) && StrLe(a.stock.symbol, b.stock.symbol))))
  }

  lemma KeyLeTotal(a: Hit, b: Hit)
    ensures KeyLe(a, b) || KeyLe(b, a)
  {
    StrLeTotal(a.stock.symbol, b.stock.symbol);
  }

  lemma KeyLeTrans(a: Hit, b: Hit, c: Hit)
    requires KeyLe(a, b) && KeyLe(b, c)
    ensures KeyLe(a, c)
  {
    if Priority(a.matchType) == Priority(b.matchType) == Priority(c.matchType) && Cap(a) == Cap(b) == Cap(c) {
      StrLeTrans(a.stock.symbol, b.stock.symbol, c.stock.symbol);
    }
  }

  predicate Sorted(s: seq<Hit>) {
    forall i, j | 0 <= i < j < |s| :: KeyLe(s[i], s[j])
  }

  /** Places `x` after every element of `s` whose key is not greater, as a
      stable sort does. */
  function Insert(x: Hit, s: seq<Hit>): seq<Hit>
    decreases |s|
  {
    if |s| == 0 then [x]
    else if !KeyLe(s[0], x) then [x] + s
    else [s[0]] + Insert(x, s[1..])
  }

  lemma {:induction false} InsertPermutes(x: Hit, s: seq<Hit>)
    ensures multiset(Insert(x, s)) == multiset(s) + multiset{x}
    decreases |s|
  {
    if |s| > 0 && KeyLe(s[0], x) {
      InsertPermutes(x, s[1..]);
      assert s == [s[0]] + s[1..];
    }
  }

  lemma SortedCons(a: Hit, r: seq<Hit>)
    requires Sorted(r) && forall j | 0 <= j < |r| :: KeyLe(a, r[j])
    ensures Sorted([a] + r)
  {
    var t := [a] + r;
    forall i, j | 0 <= i < j < |t| ensures KeyLe(t[i], t[j]) {
      assert t[j] == r[j - 1];
      if i > 0 {
        assert t[i] == r[i - 1];
      }
    }
  }

  lemma SortedTail(s: seq<Hit>)
    requires Sorted(s) && |s| > 0
    ensures Sorted(s[1..])
    ensures forall j | 0 <= j < |s| - 1 :: KeyLe(s[0], s[1..][j])
  {
    var tail := s[1..];
    forall i, j | 0 <= i < j < |tail| ensures KeyLe(tail[i], tail[j]) {
      assert tail[i] == s[i + 1] && tail[j] == s[j + 1];
    }
    forall j | 0 <= j < |tail| ensures KeyLe(s[0], tail[j]) {
      assert tail[j] == s[j + 1];
    }
  }

  /** A lower bound of `x` and of every element of `s` bounds the insertion. */
  lemma InsertBounded(x: Hit, s: seq<Hit>, a: Hit)
    requires KeyLe(a, x) && forall j | 0 <= j < |s| :: KeyLe(a, s[j])
    ensures forall j | 0 <= j < |Insert(x, s)| :: KeyLe(a, Insert(x, s)[j])
  {
    var ins := Insert(x, s);
    InsertPermutes(x, s);
    forall j | 0 <= j < |ins| ensures KeyLe(a, ins[j]) {
      assert ins[j] in multiset(ins);
      if ins[j] != x {
        assert ins[j] in multiset(s);
        var k :| 0 <= k < |s| && s[k] == ins[j];
      }
    }
  }

  lemma {:induction false} InsertSorted(x: Hit, s: seq<Hit>)
    requires Sorted(s)
    ensures Sorted(Insert(x, s))
    decreases |s|
  {
    if |s| > 0 {
      if !KeyLe(s[0], x) {
        KeyLeTotal(s[0], x);
        forall j | 0 <= j < |s| ensures KeyLe(x, s[j]) {
          if j > 0 {
            KeyLeTrans(x, s[0], s[j]);
          }
        }
        SortedCons(x, s);
      } else {
        var tail := s[1..];
        SortedTail(s);
        InsertSorted(x, tail);
        InsertBounded(x, tail, s[0]);
        SortedCons(s[0], Insert(x, tail));
      }
    }
  }

  /** `results.sort(key=...)`: insertion of each hit in turn. */
  function SortHits(s: seq<Hit>): seq<Hit>
    decreases |s|
  {
    if |s| == 0 then [] else Insert(s[|s| - 1], SortHits(s[..|s| - 1]))
  }

  /** The sorted hits are ordered by the key and are the same hits. */
  lemma {:induction false} SortHitsCorrect(s: seq<Hit>)
    ensures Sorted(SortHits(s))
    ensures multiset(SortHits(s)) == multiset(s)
    decreases |s|
  {
    if |s| > 0 {
      var init := s[..|s| - 1];
      SortHitsCorrect(init);
      InsertSorted(s[|s| - 1], SortHits(init));
      InsertPermutes(s[|s| - 1], SortHits(init));
      assert s == init + [s[|s| - 1]];
    }
  }

  // ------------------------------------------------------------------ search

  /** What `search_stocks(query, stocks, max_results, min_query_length)` returns. */
  function Search(query: string, stocks: seq<Stock>, maxResults: int, minQueryLength: int): seq<Hit> {
    if query == "" || |query| < minQueryLength then []
    else SliceTo(SortHits(Matches(stocks, query)), maxResults)
  }

  /** The promises of the search: nothing for an empty or short query, at
      most `max_results` hits, in key order, each one the classification of
      one of the listings, and every match once there is room for all. */
  lemma SearchProperties(query: string, stocks: seq<Stock>, maxResults: int, minQueryLength: int)
    ensures var r := Search(query, stocks, maxResults, minQueryLength);
      ((query == "" || |query| < minQueryLength) ==> r == [])
      && (maxResults >= 0 ==> |r| <= maxResults)
      && Sorted(r)
      && (forall h | h in r :: h.stock in stocks && Classify(h.stock, query) == Some(h))
      && (query != "" && |query| >= minQueryLength && |Matches(stocks, query)| <= maxResults ==>
            multiset(r) == multiset(Matches(stocks, query)))
  {
    if query != "" && |query| >= minQueryLength {
      var all := Matches(stocks, query);
      var sorted := SortHits(all);
      SortHitsCorrect(all);
      MatchesSoundComplete(stocks, query);
      var r := SliceTo(sorted, maxResults);
      var k := SliceIndex(maxResults, |sorted|);
      assert r == sorted[..k];
      assert |sorted| == |all| by {
        assert |multiset(sorted)| == |multiset(all)|;
      }
      forall h | h in r ensures h.stock in stocks && Classify(h.stock, query) == Some(h) {
        assert h in multiset(sorted);
        assert h in multiset(all);
      }
      if |all| <= maxResults {
        assert r == sorted;
      }
    }
  }

  /** `search_stocks`: the loop over the listings, then the sort and the cut. */
  method SearchStocks(query: string, stocks: seq<Stock>, maxResults: int, minQueryLength: int)
    returns (results: seq<Hit>)
    ensures results == Search(query, stocks, maxResults, minQueryLength)
    ensures (query == "" || |query| < minQueryLength) ==> results == []
    ensures maxResults >= 0 ==> |results| <= maxResults
    ensures Sorted(results)
    ensures forall h | h in results :: h.stock in stocks && Classify(h.stock, query) == Some(h)
  {
    SearchProperties(query, stocks, maxResults, minQueryLength);
    if query == "" || |query| < minQueryLength {
      return [];
    }
    var hits: seq<Hit> := [];
    for i := 0 to |stocks|
      invariant hits == Matches(stocks[..i], query)
    {
      assert stocks[..i + 1][..i] == stocks[..i];
      var hit := Classify(stocks[i], query);
      if hit.Some? {
        hits := hits + [hit.value];
      }
    }
    assert stocks[..|stocks|] == stocks;
    var sorted := SortHits(hits);
    results := SliceTo(sorted, maxResults);
  }

  /** A query of white space only strips to the empty string, so every
      listing with a non-empty symbol matches it as a symbol prefix. */
  lemma BlankQueryMatchesEverySymbol(stock: Stock, query: string)
    requires |query| > 0 && forall k | 0 <= k < |query| :: query[k] == ' '
    requires stock.symbol != ""
    ensures Classify(stock, query).Some? && Classify(stock, query).value.matchType == SymbolPrefix
  {
    assert StripLeft(Upper(query)) == "" by {
      BlankStrips(Upper(query));
    }
    assert QueryUpper(query) == "";
    assert Upper(stock.symbol) != "";
    assert StartsWith(Upper(stock.symbol), "");
  }

  lemma {:induction false} BlankStrips(s: string)
    requires forall k | 0 <= k < |s| :: s[k] == ' '
    ensures StripLeft(s) == ""
    decreases |s|
  {
    if |s| > 0 {
      BlankStrips(s[1..]);
    }
  }

  // ------------------------------------------------------------------ highlighting

  const Open := "<mark>"
  const Close := "</mark>"

  /** `highlight_match(text, query)` */
  function HighlightMatch(text: string, query: string): string {
    HighlightAt(text, query, Find(Lower(text), Lower(query)))
  }

  /** The highlight given where the lower-cased query first occurs, -1 when
      it does not (`find` gives -1 exactly when `in` is false). */
  function HighlightAt(text: string, query: string, start: int): string
    requires start == -1 || (0 <= start && start + |query| <= |text|)
  {
    if query == "" || start == -1 then text else Wrap(text, start, start + |query|)
  }

  /** `text` with `text[start..end]` enclosed in the tags. */
  function Wrap(text: string, start: nat, end: nat): string
    requires start <= end <= |text|
  {
    text[..start] + Open + text[start..end] + Close + text[end..]
  }

  /** An empty query or one that does not occur leaves the text as it is. */
  lemma HighlightUnmatched(text: string, query: string)
    requires query == "" || !Contains(Lower(text), Lower(query))
    ensures HighlightMatch(text, query) == text
  {
  }

  /** Otherwise the first case-insensitive occurrence of the query is the
      part wrapped in the tags. */
  lemma HighlightMatched(text: string, query: string)
    requires query != "" && Contains(Lower(text), Lower(query))
    ensures var s := Find(Lower(text), Lower(query));
      0 <= s && s + |query| <= |text|
      && Lower(text[s..s + |query|]) == Lower(query)
      && (forall j | 0 <= j < s :: !OccursAt(Lower(text), Lower(query), j))
      && HighlightMatch(text, query) == Wrap(text, s, s + |query|)
  {
    var s := HighlightStart(text, query);
    LowerAt(text, query, s);
  }

  lemma LowerAt(text: string, query: string, s: int)
    requires OccursAt(Lower(text), Lower(query), s)
    ensures 0 <= s && s + |query| <= |text| && Lower(text[s..s + |query|]) == Lower(query)
  {
    LowerSlice(text, s, s + |query|);
  }

  /** Where the highlight starts. */
  lemma HighlightStart(text: string, query: string) returns (s: nat)
    requires query != "" && Contains(Lower(text), Lower(query))
    ensures s == Find(Lower(text), Lower(query))
    ensures s + |query| <= |text| && HighlightMatch(text, query) == Wrap(text, s, s + |query|)
  {
    var lt, lq := Lower(text), Lower(query);
    var r := Find(lt, lq);
    assert r != -1 && r + |query| <= |text| by {
      assert OccursAt(lt, lq, r);
      assert |lt| == |text| && |lq| == |query|;
    }
    s := r;
  }


  /** Removes the first `<mark>` … `</mark>` pair, keeping what it encloses. */
  function Unmark(h: string): string {
    UnmarkWith(h, Open, Close)
  }

  /** Removes the first `open` … `close` pair. */
  function UnmarkWith(h: string, open: string, close: string): string {
    var a := Find(h, open);
    if a == -1 then h else CutTags(h, a, a + |open|, FindFrom(h, close, a + |open|), |close|)
  }

  /** `h` without the opening tag at `a .. from` and the closing tag found at
      `b` (-1 when there is none, and then `h` itself). */
  function CutTags(h: string, a: nat, from: nat, b: int, closeLength: nat): string
    requires a <= from <= |h| && (b == -1 || (from <= b && b + closeLength <= |h|))
  {
    if b == -1 then h else h[..a] + h[from..b] + h[b + closeLength..]
  }

  /** No `<`, so no tag begins anywhere in `s`. */
  lemma NoTagIn(s: string, tag: string)
    requires '<' !in s && |tag| > 0 && tag[0] == '<'
    ensures forall j :: !OccursAt(s, tag, j)
  {
    forall j ensures !OccursAt(s, tag, j) {
      if 0 <= j && j + |tag| <= |s| {
        assert s[j..j + |tag|][0] == s[j];
        assert s[j] in s;
      }
    }
  }

  /** No tag starting with `<` begins in `h` between `lo` and `hi`. */
  lemma NoTagBetween(h: string, tag: string, lo: nat, hi: nat)
    requires |tag| > 0 && tag[0] == '<' && hi <= |h|
    requires forall k | lo <= k < hi :: h[k] != '<'
    ensures forall j | lo <= j < hi :: !OccursAt(h, tag, j)
  {
    forall j | lo <= j < hi ensures !OccursAt(h, tag, j) {
      if j + |tag| <= |h| {
        assert h[j..j + |tag|][0] == h[j];
      }
    }
  }

  /** Concatenation regroups freely. */
  lemma Assoc(x: string, y: string, z: string)
    ensures x + (y + z) == (x + y) + z
  {
  }

  /** The three parts of `x + t + y` are found where they were put. */
  lemma ThreeParts(h: string, x: string, t: string, y: string)
    requires h == x + t + y
    ensures h[..|x|] == x && h[|x|..|x| + |t|] == t && h[|x| + |t|..] == y
    ensures forall k | 0 <= k < |x| :: h[k] == x[k]
    ensures forall k | |x| <= k < |x| + |t| :: h[k] == t[k - |x|]
  {
  }

  lemma UnmarkWrappedWith(pre: string, mid: string, post: string, open: string, close: string)
    requires '<' !in pre && '<' !in mid
    requires |open| > 0 && open[0] == '<' && |close| > 0 && close[0] == '<'
    ensures UnmarkWith(pre + open + mid + close + post, open, close) == pre + mid + post
  {
    var h := pre + open + mid + close + post;
    var a := |pre|;
    var from := a + |open|;
    var b := from + |mid|;
    assert h == pre + open + (mid + close + post) by {
      Assoc(pre + open, mid + close, post);
      Assoc(pre + open, mid, close);
    }
    assert h == (pre + open) + mid + (close + post) by {
      Assoc(pre + open + mid, close, post);
    }
    ThreeParts(h, pre, open, mid + close + post);
    ThreeParts(h, pre + open, mid, close + post);
    ThreeParts(h, pre + open + mid, close, post);
    assert Find(h, open) == a by {
      NoTagBetween(h, open, 0, a);
      FindAt(h, open, a);
    }
    assert FindFrom(h, close, from) == b by {
      NoTagBetween(h, close, from, b);
      FindFromAt(h, close, from, b);
    }
  }

  lemma UnmarkWrapped(pre: string, mid: string, post: string)
    requires '<' !in pre && '<' !in mid
    ensures Unmark(pre + Open + mid + Close + post) == pre + mid + post
  {
    UnmarkWrappedWith(pre, mid, post, Open, Close);
  }

  /** Wrapping `text[s..e]` in the tags and removing them again gives `text`. */
  lemma UnmarkAt(text: string, s: nat, e: nat, h: string)
    requires '<' !in text && s <= e <= |text| && h == Wrap(text, s, e)
    ensures Unmark(h) == text
  {
    var pre, mid, post := text[..s], text[s..e], text[e..];
    NoOpenIn(text, 0, s);
    NoOpenIn(text, s, e);
    UnmarkWrapped(pre, mid, post);
    SplitThree(text, s, e);
  }

  lemma SplitThree(text: string, s: nat, e: nat)
    requires s <= e <= |text|
    ensures text[..s] + text[s..e] + text[e..] == text
  {
  }

  lemma NoOpenIn(text: string, i: nat, j: nat)
    requires '<' !in text && i <= j <= |text|
    ensures '<' !in text[i..j]
  {
    forall k | 0 <= k < j - i ensures text[i..j][k] != '<' {
      assert text[i..j][k] == text[i + k];
    }
  }

  lemma UnmarkHighlightMatched(text: string, query: string)
    requires '<' !in text && query != "" && Contains(Lower(text), Lower(query))
    ensures Unmark(HighlightMatch(text, query)) == text
  {
    var s := HighlightStart(text, query);
    UnmarkAt(text, s, s + |query|, HighlightMatch(text, query));
  }

  /** On a text without `<`, removing the tags gives the original back. */
  lemma UnmarkHighlight(text: string, query: string)
    requires '<' !in text
    ensures Unmark(HighlightMatch(text, query)) == text
  {
    if query == "" || !Contains(Lower(text), Lower(query)) {
      HighlightUnmatched(text, query);
      NoTagIn(text, Open);
    } else {
      UnmarkHighlightMatched(text, query);
    }
  }
}
