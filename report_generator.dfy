/**
 * The report generator's handler: a full scan of the table store that follows
 * continuation tokens, a short cut for an empty table, a one-metric summary
 * written as CSV text, and an object key derived from the UTC run date.
 */
module ReportGenerator {
  import opened Wrappers
  import opened Lambda
  import opened Decimal

  // ---------------------------------------------------------------------------
  // The table store, as the chain of replies a full scan walks through
  // ---------------------------------------------------------------------------

  /** A `LastEvaluatedKey`: the key attributes of the last item a page evaluated. */
  type Key = Row

  /** One scan response: its `Items` (possibly absent) and its `LastEvaluatedKey`. */
  datatype Page = Page(items: Option<seq<Row>>, lastKey: Option<Key>)

  /** What the store answers to one scan request: a page, or an error it raises. */
  datatype Reply = Served(page: Page) | Failed(error: string)

  /**
   * The replies a store gives, in order, to a scan that follows its tokens.
   * Every page but the last hands out a token, the last one hands out none
   * (or the last request fails), and no token is handed out twice, so that
   * a token names one position in the table.
   */
  predicate Chain(store: seq<Reply>) {
    && |store| > 0
    && (forall i :: 0 <= i < |store| - 1 ==> store[i].Served? && store[i].page.lastKey.Some?)
    && (store[|store| - 1].Served? ==> store[|store| - 1].page.lastKey.None?)
    && (forall i, j :: 0 <= i < j < |store| - 1 ==> TokenAt(store, i) != TokenAt(store, j))
  }

  /** The token reply `i` hands out, if it is a page that hands one out. */
  function TokenAt(store: seq<Reply>, i: nat): Option<Key>
    requires i < |store|
  {
    if store[i].Served? then store[i].page.lastKey else None
  }

  /** The position, from `from` on, of the first page that handed out token `k`. */
  function FindToken(store: seq<Reply>, k: Key, from: nat): (r: Option<nat>)
    ensures r.Some? ==> from <= r.value < |store| - 1
    decreases |store| - from
  {
    if from + 1 >= |store| then None
    else if store[from].Served? && store[from].page.lastKey == Some(k) then Some(from)
    else FindToken(store, k, from + 1)
  }

  /** The search finds a page that handed out `k` whenever there is one before the last reply. */
  lemma {:induction false} FindTokenFinds(store: seq<Reply>, k: Key, from: nat)
    ensures var r := FindToken(store, k, from);
            && (r.Some? ==> TokenAt(store, r.value) == Some(k))
            && (r.None? ==> forall m :: from <= m < |store| - 1 ==> TokenAt(store, m) != Some(k))
    decreases |store| - from
  {
    if from + 1 < |store| && !(store[from].Served? && store[from].page.lastKey == Some(k)) {
      FindTokenFinds(store, k, from + 1);
    }
  }

  /**
   * `table.scan()` and `table.scan(ExclusiveStartKey=k)`: the first reply, or
   * the reply that follows the page that handed out `k`. A token the store
   * never handed out is rejected.
   */
  function Scan(store: seq<Reply>, start: Option<Key>): Reply
    requires |store| > 0
  {
    match start
    case None => store[0]
    case Some(k) =>
      match FindToken(store, k, 0)
      case Some(i) => store[i + 1]
      case None => Failed("ValidationException: the provided starting key is invalid")
  }

  /** Following the token of page `j` leads to reply `j + 1`. */
  lemma TokenLeadsToNext(store: seq<Reply>, j: nat)
    requires Chain(store) && j < |store| - 1
    ensures Scan(store, store[j].page.lastKey) == store[j + 1]
  {
    var k := store[j].page.lastKey.value;
    FindTokenFinds(store, k, 0);
    var r := FindToken(store, k, 0);
    assert TokenAt(store, j) == Some(k);
    assert r.Some? && TokenAt(store, r.value) == TokenAt(store, j);
  }

  // ---------------------------------------------------------------------------
  // What a full scan collects
  // ---------------------------------------------------------------------------

  /** `response.get('Items', [])`: a page without `Items` contributes nothing. */
  function ItemsOf(p: Page): seq<Row> {
    match p.items
    case None => []
    case Some(xs) => xs
  }

  /** The items of all pages, concatenated in page order. */
  function Flatten(pages: seq<Page>): seq<Row> {
    if pages == [] then [] else Flatten(pages[..|pages| - 1]) + ItemsOf(pages[|pages| - 1])
  }

  /** The number of items of each page, summed page by page (a fold over the pages). */
  function PageSizeSum(pages: seq<Page>): nat {
    if pages == [] then 0 else |ItemsOf(pages[0])| + PageSizeSum(pages[1..])
  }

  predicate AllServed(replies: seq<Reply>) {
    forall i :: 0 <= i < |replies| ==> replies[i].Served?
  }

  /** The first `n` replies are all pages. */
  predicate ServedUpTo(store: seq<Reply>, n: nat) {
    n <= |store| && forall i :: 0 <= i < n ==> store[i].Served?
  }

  function PagesOf(replies: seq<Reply>): seq<Page>
    requires AllServed(replies)
  {
    seq(|replies|, i requires 0 <= i < |replies| => replies[i].page)
  }

  /** The scan ran to its end: no request failed. */
  predicate Completes(store: seq<Reply>)
    requires |store| > 0
  {
    store[|store| - 1].Served?
  }

  lemma {:induction false} FlattenConcat(a: seq<Page>, b: seq<Page>)
    ensures Flatten(a + b) == Flatten(a) + Flatten(b)
    decreases |b|
  {
    if b == [] {
      assert a + b == a;
    } else {
      var b' := b[..|b| - 1];
      assert (a + b)[..|a + b| - 1] == a + b';
      FlattenConcat(a, b');
    }
  }

  /** The total count is the sum of the page sizes, however the items are paged. */
  lemma {:induction false} CountIsSumOfPageSizes(pages: seq<Page>)
    ensures |Flatten(pages)| == PageSizeSum(pages)
    decreases |pages|
  {
    if pages != [] {
      assert pages == [pages[0]] + pages[1..];
      FlattenConcat([pages[0]], pages[1..]);
      FlattenOne(pages[0]);
      CountIsSumOfPageSizes(pages[1..]);
    }
  }

  lemma FlattenOne(p: Page)
    ensures Flatten([p]) == ItemsOf(p)
  {
    assert [p][..0] == [];
  }

  lemma RejoinAt<T>(s: seq<T>, i: nat)
    requires i < |s|
    ensures s[..i] + [s[i]] + s[i + 1..] == s
  {
    assert s == s[..i] + s[i..];
    assert s[i..] == [s[i]] + s[i + 1..];
  }

  /** Splitting one page's items over two pages changes neither the items nor their count. */
  lemma SplitPageKeepsItems(pages: seq<Page>, i: nat, p1: Page, p2: Page)
    requires i < |pages| && ItemsOf(p1) + ItemsOf(p2) == ItemsOf(pages[i])
    ensures Flatten(pages[..i] + [p1, p2] + pages[i + 1..]) == Flatten(pages)
    ensures PageSizeSum(pages[..i] + [p1, p2] + pages[i + 1..]) == PageSizeSum(pages)
  {
    var before, after := pages[..i], pages[i + 1..];
    var split := before + [p1, p2] + after;
    calc {
      Flatten(split);
      { FlattenConcat(before + [p1, p2], after); }
      Flatten(before + [p1, p2]) + Flatten(after);
      { FlattenConcat(before, [p1, p2]); }
      Flatten(before) + Flatten([p1, p2]) + Flatten(after);
      { FlattenConcat([p1], [p2]); FlattenOne(p1); FlattenOne(p2); assert [p1] + [p2] == [p1, p2]; }
      Flatten(before) + ItemsOf(pages[i]) + Flatten(after);
      { FlattenOne(pages[i]); FlattenConcat(before, [pages[i]]); }
      Flatten(before + [pages[i]]) + Flatten(after);
      { FlattenConcat(before + [pages[i]], after); RejoinAt(pages, i); }
      Flatten(pages);
    }
    CountIsSumOfPageSizes(split);
    CountIsSumOfPageSizes(pages);
  }

  /** The items of the first `n` replies, which are all pages. */
  function Collected(store: seq<Reply>, n: nat): seq<Row>
    requires ServedUpTo(store, n)
  {
    if n == 0 then [] else Collected(store, n - 1) + ItemsOf(store[n - 1].page)
  }

  lemma {:induction false} CollectedIsFlatten(store: seq<Reply>, n: nat)
    requires ServedUpTo(store, n)
    ensures AllServed(store[..n])
    ensures Collected(store, n) == Flatten(PagesOf(store[..n]))
    decreases n
  {
    assert forall i :: 0 <= i < n ==> store[..n][i] == store[i];
    if n > 0 {
      CollectedIsFlatten(store, n - 1);
      var pages := PagesOf(store[..n]);
      assert pages[..n - 1] == PagesOf(store[..n - 1]);
    }
  }

  /** Once every reply is a page, the collected items are the concatenation of all pages. */
  lemma CollectedAll(store: seq<Reply>)
    requires ServedUpTo(store, |store|)
    ensures AllServed(store) && Collected(store, |store|) == Flatten(PagesOf(store))
  {
    CollectedIsFlatten(store, |store|);
    assert store[..|store|] == store;
  }

  /**
   * The start keys of the first `n` scans of a walk along the chain: none
   * for the first, then the `LastEvaluatedKey` of each page in turn.
   */
  function StartKeys(store: seq<Reply>, n: nat): (keys: seq<Option<Key>>)
    requires 0 < n <= |store| && ServedUpTo(store, n - 1)
    ensures |keys| == n
  {
    if n == 1 then [None] else StartKeys(store, n - 1) + [store[n - 2].page.lastKey]
  }

  /** The first scan has no start key; scan `i` starts at the token page `i - 1` handed out. */
  lemma {:induction false} StartKeysAt(store: seq<Reply>, n: nat)
    requires 0 < n <= |store| && ServedUpTo(store, n - 1)
    ensures StartKeys(store, n)[0] == None
    ensures forall i :: 0 < i < n ==> StartKeys(store, n)[i] == store[i - 1].page.lastKey
    decreases n
  {
    if n > 1 {
      StartKeysAt(store, n - 1);
      var prev := StartKeys(store, n - 1);
      assert StartKeys(store, n) == prev + [store[n - 2].page.lastKey];
    }
  }

  /** Each of the walk's requests is answered by the reply at its position. */
  lemma StartKeysFollowTokens(store: seq<Reply>, n: nat)
    requires Chain(store) && 0 < n <= |store|
    ensures ServedUpTo(store, n - 1)
    ensures forall i :: 0 <= i < n ==> Scan(store, StartKeys(store, n)[i]) == store[i]
  {
    assert ServedUpTo(store, n - 1);
    StartKeysAt(store, n);
    var keys := StartKeys(store, n);
    forall i | 0 <= i < n
      ensures Scan(store, keys[i]) == store[i]
    {
      if i > 0 {
        TokenLeadsToNext(store, i - 1);
      }
    }
  }

  /**
   * The pagination loop: one scan without a start key, then one scan per
   * `LastEvaluatedKey`, each with that key as `ExclusiveStartKey`, until a
   * response carries no `LastEvaluatedKey`. `requests` records the start key
   * of each scan issued; a failed scan is raised out of the loop.
   */
  method ScanAll(store: seq<Reply>) returns (items: seq<Row>, requests: seq<Option<Key>>, failure: Option<string>)
    requires Chain(store)
    ensures ServedUpTo(store, |store| - 1) && requests == StartKeys(store, |store|)
    ensures failure.None? <==> Completes(store)
    ensures failure.Some? ==> failure.value == store[|store| - 1].error
    ensures failure.None? ==> ServedUpTo(store, |store|) && items == Collected(store, |store|)
  {
    var response := Scan(store, None);
    requests := [None];
    if response.Failed? {
      assert |store| == 1 by {
        assert response == store[0];
      }
      return [], requests, Some(response.error);
    }
    var page := response.page;
    items := ItemsOf(page);
    ghost var n := 1;
    while page.lastKey.Some?
      invariant 0 < n <= |store| && ServedUpTo(store, n) && store[n - 1] == Served(page)
      invariant requests == StartKeys(store, n) && items == Collected(store, n)
      decreases |store| - n
    {
      TokenLeadsToNext(store, n - 1);
      var start := page.lastKey;
      response := Scan(store, start);
      requests := requests + [start];
      n := n + 1;
      if response.Failed? {
        assert n == |store|;
        return items, requests, Some(response.error);
      }
      page := response.page;
      items := items + ItemsOf(page);
    }
    assert n == |store|;
    failure := None;
  }

  // ---------------------------------------------------------------------------
  // The summary table and its CSV text
  // ---------------------------------------------------------------------------

  /** One row of the summary: `{'metric': name, 'value': value}`. */
  datatype Metric = Metric(name: string, value: nat)

  const TotalRecordsMetric := "Total Records Processed"
  const Header := "metric,value"
  /** The line terminator of the `csv` module's default dialect. */
  const LineEnd := "\r\n"

  /** The summary of the collected items: their count, as the one metric. */
  function Summarize(items: seq<Row>): seq<Metric> {
    [Metric(TotalRecordsMetric, |items|)]
  }

  /** A field the CSV writer emits without quoting: no delimiter, quote or line break. */
  predicate PlainField(s: string) {
    forall i :: 0 <= i < |s| ==> s[i] != ',' && s[i] != '"' && s[i] != '\r' && s[i] != '\n'
  }

  predicate PlainNames(summary: seq<Metric>) {
    forall i :: 0 <= i < |summary| ==> PlainField(summary[i].name)
  }

  /**
   * The text `csv.DictWriter` writes for the summary: nothing for an empty
   * summary, otherwise the header row and one row per metric.
   */
  function SummaryCsv(summary: seq<Metric>): string
    requires PlainNames(summary)
  {
    if summary == [] then "" else Header + LineEnd + MetricRows(summary)
  }

  function MetricRows(ms: seq<Metric>): string
    requires PlainNames(ms)
  {
    if ms == [] then ""
    else ms[0].name + ("," + (NatToString(ms[0].value) + (LineEnd + MetricRows(ms[1..]))))
  }

  /** The position of the first `c` in `s`, or `|s|` when there is none. */
  function IndexOf(s: string, c: char): (i: nat)
    ensures i <= |s| && (i < |s| ==> s[i] == c)
    ensures forall j :: 0 <= j < i ==> s[j] != c
  {
    if s == [] then 0 else if s[0] == c then 0 else 1 + IndexOf(s[1..], c)
  }

  /** Reads one row `name,digits\r\n` off the front of `t`, with what follows it. */
  function ParseRow(t: string): (r: Option<(Metric, string)>)
    ensures r.Some? ==> |r.value.1| < |t|
  {
    var comma := IndexOf(t, ',');
    if comma == |t| then None
    else
      var rest := t[comma + 1..];
      var cr := IndexOf(rest, '\r');
      if cr == 0 || cr + 1 >= |rest| || rest[cr + 1] != '\n' || !AllDigits(rest[..cr]) then None
      else Some((Metric(t[..comma], DigitsValue(rest[..cr])), rest[cr + 2..]))
  }

  /** Reads metric rows back from CSV text, one `name,digits\r\n` row at a time. */
  function ParseMetricRows(t: string): Option<seq<Metric>>
    decreases |t|
  {
    if t == [] then Some([])
    else
      match ParseRow(t)
      case None => None
      case Some((m, rest)) =>
        match ParseMetricRows(rest)
        case None => None
        case Some(ms) => Some([m] + ms)
  }

  /** Reads a summary back from the text of a report file. */
  function ParseSummaryCsv(text: string): Option<seq<Metric>> {
    if text == [] then Some([])
    else if |text| < |Header + LineEnd| || text[..|Header + LineEnd|] != Header + LineEnd then None
    else
      match ParseMetricRows(text[|Header + LineEnd|..])
      case Some(ms) => if ms == [] then None else Some(ms)
      case None => None
  }

  lemma IndexOfAfter(a: string, c: char, b: string)
    requires forall j :: 0 <= j < |a| ==> a[j] != c
    ensures IndexOf(a + ([c] + b), c) == |a|
  {
    var s := a + ([c] + b);
    assert s[|a|] == c;
    assert forall j :: 0 <= j < |a| ==> s[j] == a[j];
  }

  /** Reading the digits and the line end that follow the comma of a row. */
  lemma ParseDigitsOf(value: nat, tail: string)
    ensures var rest := NatToString(value) + (LineEnd + tail);
            var cr := IndexOf(rest, '\r');
            && cr == |NatToString(value)| && 0 < cr && cr + 1 < |rest| && rest[cr + 1] == '\n'
            && rest[..cr] == NatToString(value) && rest[cr + 2..] == tail
  {
    var digits := NatToString(value);
    var rest := digits + (LineEnd + tail);
    assert LineEnd + tail == ['\r'] + (['\n'] + tail);
    IndexOfAfter(digits, '\r', ['\n'] + tail);
    assert rest[..|digits|] == digits;
    assert rest[|digits|..] == LineEnd + tail;
    assert rest[|digits| + 2..] == (LineEnd + tail)[2..] == tail;
  }

  /** Reading one row `name,digits\r\n` off the front of the text. */
  lemma ParseRowOf(name: string, value: nat, tail: string)
    requires PlainField(name)
    ensures ParseRow(name + ("," + (NatToString(value) + (LineEnd + tail)))) == Some((Metric(name, value), tail))
  {
    var digits := NatToString(value);
    var rest := digits + (LineEnd + tail);
    var t := name + ("," + rest);
    assert "," + rest == [','] + rest;
    IndexOfAfter(name, ',', rest);
    assert t[..|name|] == name;
    assert t[|name| + 1..] == rest;
    ParseDigitsOf(value, tail);
    NatToStringRoundTrip(value);
    assert AllDigits(rest[..|digits|]) && DigitsValue(rest[..|digits|]) == value;
  }

  lemma {:induction false} MetricRowsRoundTrip(ms: seq<Metric>)
    requires PlainNames(ms)
    ensures ParseMetricRows(MetricRows(ms)) == Some(ms)
    decreases |ms|
  {
    if ms != [] {
      ParseRowOf(ms[0].name, ms[0].value, MetricRows(ms[1..]));
      MetricRowsRoundTrip(ms[1..]);
      assert [ms[0]] + ms[1..] == ms;
    }
  }

  /** Reading the report text back gives the summary it was written from. */
  lemma SummaryCsvRoundTrip(summary: seq<Metric>)
    requires PlainNames(summary)
    ensures ParseSummaryCsv(SummaryCsv(summary)) == Some(summary)
  {
    if summary != [] {
      var text := SummaryCsv(summary);
      assert text[..|Header + LineEnd|] == Header + LineEnd;
      assert text[|Header + LineEnd|..] == MetricRows(summary);
      MetricRowsRoundTrip(summary);
    }
  }

  lemma TotalRecordsMetricIsPlain()
    ensures PlainField(TotalRecordsMetric)
  {
  }

  /** A one-metric summary writes a single row. */
  lemma OneRow(m: Metric)
    requires PlainField(m.name)
    ensures MetricRows([m]) == m.name + ("," + (NatToString(m.value) + LineEnd))
  {
    assert [m][1..] == [];
    assert LineEnd + "" == LineEnd;
  }

  /**
   * The report text is the header `metric,value` and the one row
   * `Total Records Processed,<count>`, each ended by the line terminator.
   */
  lemma SummaryText(items: seq<Row>)
    ensures PlainNames(Summarize(items))
    ensures SummaryCsv(Summarize(items))
            == Header + LineEnd + (TotalRecordsMetric + ("," + (NatToString(|items|) + LineEnd)))
  {
    TotalRecordsMetricIsPlain();
    OneRow(Metric(TotalRecordsMetric, |items|));
  }

  /** Read back, the report holds exactly one data row: the count of the collected items. */
  lemma ReportHasOneDataRow(items: seq<Row>)
    ensures PlainNames(Summarize(items))
    ensures ParseSummaryCsv(SummaryCsv(Summarize(items))) == Some([Metric(TotalRecordsMetric, |items|)])
  {
    TotalRecordsMetricIsPlain();
    SummaryCsvRoundTrip(Summarize(items));
  }

  // ---------------------------------------------------------------------------
  // The report's object key
  // ---------------------------------------------------------------------------

  /** A calendar date in the range of Python's `datetime`. */
  datatype Date = Date(year: nat, month: nat, day: nat)

  predicate IsLeapYear(year: nat) {
    year % 4 == 0 && (year % 100 != 0 || year % 400 == 0)
  }

  function DaysInMonth(year: nat, month: nat): nat
    requires 1 <= month <= 12
  {
    if month == 2 then (if IsLeapYear(year) then 29 else 28)
    else if month == 4 || month == 6 || month == 9 || month == 11 then 30
    else 31
  }

  predicate ValidDate(d: Date) {
    1 <= d.year <= 9999 && 1 <= d.month <= 12 && 1 <= d.day <= DaysInMonth(d.year, d.month)
  }

  /** `strftime('%Y-%m-%d')`. */
  function DateText(d: Date): string
    requires ValidDate(d)
  {
    PadDigits(d.year, 4) + "-" + PadDigits(d.month, 2) + "-" + PadDigits(d.day, 2)
  }

  const ReportPrefix := "reports/summary-"
  const ReportSuffix := ".csv"

  /** `f"reports/summary-{today_str}.csv"`. */
  function ReportKey(d: Date): (k: string)
    requires ValidDate(d)
    ensures |k| == 30 && k[..16] == ReportPrefix && k[26..] == ReportSuffix
  {
    ReportPrefix + DateText(d) + ReportSuffix
  }

  /** Reads a date back from its `YYYY-MM-DD` text. */
  function ParseDate(u: string): Option<Date> {
    if |u| == 10 && u[4] == '-' && u[7] == '-' && AllDigits(u[..4]) && AllDigits(u[5..7]) && AllDigits(u[8..])
    then
      var d := Date(DigitsValue(u[..4]), DigitsValue(u[5..7]), DigitsValue(u[8..]));
      if ValidDate(d) then Some(d) else None
    else None
  }

  /** Reads the run date back from a report key. */
  function ParseReportKey(k: string): Option<Date> {
    if |k| == 30 && k[..16] == ReportPrefix && k[26..] == ReportSuffix then ParseDate(k[16..26]) else None
  }

  lemma ParseDateRoundTrip(d: Date)
    requires ValidDate(d)
    ensures ParseDate(DateText(d)) == Some(d)
  {
    var u := DateText(d);
    assert u[..4] == PadDigits(d.year, 4);
    assert u[5..7] == PadDigits(d.month, 2);
    assert u[8..] == PadDigits(d.day, 2);
    PadDigitsRoundTrip(d.year, 4);
    PadDigitsRoundTrip(d.month, 2);
    PadDigitsRoundTrip(d.day, 2);
  }

  /** A ten-character date text is its three fields joined by dashes. */
  lemma DateTextParts(u: string)
    requires |u| == 10 && u[4] == '-' && u[7] == '-'
    ensures u == u[..4] + "-" + u[5..7] + "-" + u[8..]
  {
  }

  /** Every text the date parser accepts is the text of the date it reads. */
  lemma ParseDateSound(u: string)
    requires ParseDate(u).Some?
    ensures ValidDate(ParseDate(u).value) && DateText(ParseDate(u).value) == u
  {
    DigitsValueRoundTrip(u[..4]);
    DigitsValueRoundTrip(u[5..7]);
    DigitsValueRoundTrip(u[8..]);
    DateTextParts(u);
  }

  lemma ReportKeyRoundTrip(d: Date)
    requires ValidDate(d)
    ensures ParseReportKey(ReportKey(d)) == Some(d)
  {
    var k := ReportKey(d);
    assert k[16..26] == DateText(d);
    ParseDateRoundTrip(d);
  }

  /** Every key the parser accepts is the report key of the date it reads. */
  lemma ParseReportKeySound(k: string)
    requires ParseReportKey(k).Some?
    ensures ValidDate(ParseReportKey(k).value) && ReportKey(ParseReportKey(k).value) == k
  {
    ParseDateSound(k[16..26]);
    SplitInThree(k, 16, 26);
  }

  lemma SplitInThree<T>(s: seq<T>, i: nat, j: nat)
    requires i <= j <= |s|
    ensures s == s[..i] + s[i..j] + s[j..]
  {
  }

  /** Two runs share a report key exactly when they run on the same date. */
  lemma ReportKeyInjective(d1: Date, d2: Date)
    requires ValidDate(d1) && ValidDate(d2)
    ensures ReportKey(d1) == ReportKey(d2) <==> d1 == d2
  {
    ReportKeyRoundTrip(d1);
    ReportKeyRoundTrip(d2);
  }

  // ---------------------------------------------------------------------------
  // The handler
  // ---------------------------------------------------------------------------

  /** The report file as uploaded: bucket, key and text. */
  datatype Upload = Upload(bucket: string, key: string, text: string)

  const NoDataBody := "\"No data to report.\""
  const ReportBody := "\"Daily summary report generated successfully!\""
  const MissingBucketError := "ParamValidationError: the bucket name is not configured"

  /**
   * `lambda_handler`: scan the whole table; return "No data to report." for
   * an empty one; otherwise upload the summary under the day's key. The
   * bucket comes from the configuration (absent when unset); `uploadError`
   * is the upload's failure, if it fails. Every failure is raised, and a
   * failed run uploads nothing.
   */
  method GenerateReport(store: seq<Reply>, today: Date, bucket: Option<string>, uploadError: Option<string>)
    returns (outcome: Outcome, uploads: seq<Upload>)
    requires Chain(store) && ValidDate(today)
    ensures !Completes(store) ==> outcome == Raised(store[|store| - 1].error) && uploads == []
    ensures Completes(store) ==> AllServed(store)
    ensures Completes(store) && Flatten(PagesOf(store)) == [] ==>
              outcome == Returned(Response(StatusOk, NoDataBody)) && uploads == []
    ensures Completes(store) && Flatten(PagesOf(store)) != [] ==>
              && (bucket.None? ==> outcome == Raised(MissingBucketError) && uploads == [])
              && (bucket.Some? && uploadError.Some? ==> outcome == Raised(uploadError.value) && uploads == [])
              && (bucket.Some? && uploadError.None? ==>
                    && outcome == Returned(Response(StatusOk, ReportBody))
                    && uploads == [Upload(bucket.value, ReportKey(today),
                                          SummaryCsv(Summarize(Flatten(PagesOf(store)))))])
    ensures outcome.Returned? ==> outcome.response.statusCode == StatusOk
  {
    var items, requests, failure := ScanAll(store);
    if failure.Some? {
      return Raised(failure.value), [];
    }
    CollectedAll(store);
    if items == [] {
      return Returned(Response(StatusOk, NoDataBody)), [];
    }
    ReportHasOneDataRow(items);
    var text := SummaryCsv(Summarize(items));
    var key := ReportKey(today);
    if bucket.None? {
      return Raised(MissingBucketError), [];
    }
    if uploadError.Some? {
      return Raised(uploadError.value), [];
    }
    uploads := [Upload(bucket.value, key, text)];
    outcome := Returned(Response(StatusOk, ReportBody));
  }
}
