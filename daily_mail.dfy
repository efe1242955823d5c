/** The digest rules of `daily_mail.py` (`StockEmailer`): parsing a fetched
    daily series, trimming news lines, price-threshold alerts, the block
    structure of the e-mail body and the per-user assembly of the daily job.
    What the quote provider, the search provider and the mail server return
    is taken as input; numbers in the body are kept as typed pieces rather
    than rendered digits. */
module DailyMail {
  import opened Common
  import opened Text
  import Db

  // ---------------------------------------------------------------------
  // get_stock_data, after the HTTP response

  /** One daily bar, its text fields already read as numbers. */
  datatype Bar = Bar(open: real, high: real, low: real, close: real, volume: int)

  /** The decoded TIME_SERIES_DAILY reply: the "Time Series (Daily)"
      object, when present, as its (date, bar) entries in order; the dates
      are distinct, as the keys of a dict are. */
  datatype DailyReply = DailyReply(timeSeries: Option<seq<(string, Bar)>>)

  /** The dictionary `get_stock_data` returns: a quote or an error payload. */
  datatype StockData =
    | Quote(symbol: string, date: string, close: real, open: real, high: real, low: real,
            volume: int, change: real, changePercent: real)
    | ErrorPayload(symbol: string, error: string)

  const NoDataMessage: string := "No data found for this symbol."
  /** `str(e)` of the IndexError of `sorted([], reverse=True)[0]`. */
  const IndexErrorMessage: string := "list index out of range"
  /** `str(e)` of the ZeroDivisionError of dividing by an opening price 0. */
  const ZeroDivisionMessage: string := "float division by zero"

  /** `d` is a date key of the series and no key is greater. */
  ghost predicate IsLatestDate(ts: seq<(string, Bar)>, d: string)
  {
    (exists i :: 0 <= i < |ts| && ts[i].0 == d) && forall i :: 0 <= i < |ts| ==> LexLe(ts[i].0, d)
  }

  /** The entry chosen by `sorted(time_series.keys(), reverse=True)[0]`:
      the one with the greatest date key. */
  function LatestIndex(ts: seq<(string, Bar)>): (k: nat)
    requires |ts| > 0
    ensures k < |ts|
    ensures forall i :: 0 <= i < |ts| ==> LexLe(ts[i].0, ts[k].0)
    ensures forall i :: 0 <= i < k ==> ts[i].0 != ts[k].0
  {
    if |ts| == 1 then
      LexLeReflexive(ts[0].0);
      0
    else
      var k' := LatestIndex(ts[1..]) + 1;
      assert forall i :: 1 <= i < |ts| ==> ts[i] == ts[1..][i - 1];
      LexLeTotal(ts[0].0, ts[k'].0);
      if LexLe(ts[k'].0, ts[0].0) then
        LatestStep(ts, k');
        0
      else
        LexLeReflexive(ts[0].0);
        k'
  }

  lemma LatestStep(ts: seq<(string, Bar)>, k: nat)
    requires 0 < k < |ts| && LexLe(ts[k].0, ts[0].0)
    requires forall i :: 1 <= i < |ts| ==> LexLe(ts[i].0, ts[k].0)
    ensures forall i :: 0 <= i < |ts| ==> LexLe(ts[i].0, ts[0].0)
  {
    forall i | 0 <= i < |ts| ensures LexLe(ts[i].0, ts[0].0) {
      if i == 0 { LexLeReflexive(ts[0].0); } else { LexLeTransitive(ts[i].0, ts[k].0, ts[0].0); }
    }
  }

  /** `get_stock_data(symbol)` once the reply is in: an exception while
      fetching or decoding, a missing series, an empty series and a zero
      opening price become error payloads; otherwise the latest bar, with
      `change = close - open` and `change_percent = change / open * 100`. */
  function StockDataOf(symbol: string, fetched: Outcome<DailyReply>): (r: StockData)
    ensures r.symbol == symbol
    ensures fetched.Raised? ==> r == ErrorPayload(symbol, fetched.error)
    ensures fetched.Value? && fetched.value.timeSeries.None? ==> r == ErrorPayload(symbol, NoDataMessage)
    ensures fetched == Value(DailyReply(Some([]))) ==> r == ErrorPayload(symbol, IndexErrorMessage)
    ensures r.Quote? ==>
      && fetched.Value? && fetched.value.timeSeries.Some?
      && IsLatestDate(fetched.value.timeSeries.value, r.date)
      && (r.date, Bar(r.open, r.high, r.low, r.close, r.volume)) in fetched.value.timeSeries.value
      && r.change == r.close - r.open
      && r.open != 0.0 && r.changePercent == r.change / r.open * 100.0
    ensures fetched.Value? && fetched.value.timeSeries.Some? && fetched.value.timeSeries.value != [] ==>
      var ts := fetched.value.timeSeries.value;
      var (date, bar) := ts[LatestIndex(ts)];
      && (r.Quote? <==> bar.open != 0.0)
      && (bar.open == 0.0 ==> r == ErrorPayload(symbol, ZeroDivisionMessage))
      && (r.Quote? ==> r.date == date && Bar(r.open, r.high, r.low, r.close, r.volume) == bar)
  {
    match fetched
    case Raised(e) => ErrorPayload(symbol, e)
    case Value(reply) =>
      match reply.timeSeries
      case None => ErrorPayload(symbol, NoDataMessage)
      case Some(ts) =>
        if ts == [] then ErrorPayload(symbol, IndexErrorMessage)
        else
          var k := LatestIndex(ts);
          var (date, bar) := ts[k];
          if bar.open == 0.0 then ErrorPayload(symbol, ZeroDivisionMessage)
          else
            Quote(symbol, date, bar.close, bar.open, bar.high, bar.low, bar.volume,
                  bar.close - bar.open, (bar.close - bar.open) / bar.open * 100.0)
  }

  // ---------------------------------------------------------------------
  // get_stock_news, after the search

  /** How many search lines `get_stock_news` looks at. */
  const MaxNews: nat := 5

  /** A news entry: a headline with its 1-based line position, or the
      `{'error': str(e)}` entry of a failed search. */
  datatype NewsItem = Headline(title: string, index: int) | NewsError(error: string)

  /** `lines[:5]`. */
  function FirstLines(lines: seq<string>): (r: seq<string>)
  {
    if |lines| <= MaxNews then lines else lines[..MaxNews]
  }

  /** `item` is the headline of one non-blank line of `lines`: its title is
      that line stripped and its index the line's 1-based position. */
  predicate HeadlineOf(lines: seq<string>, item: NewsItem)
  {
    && item.Headline? && 1 <= item.index <= |lines|
    && item.title == Strip(lines[item.index - 1]) && item.title != []
  }

  /** The headlines of `enumerate(lines)`: the stripped non-blank lines,
      each with its 1-based position. */
  function Headlines(lines: seq<string>): (items: seq<NewsItem>)
    ensures |items| <= |lines|
    ensures forall k :: 0 <= k < |items| ==> HeadlineOf(lines, items[k])
    ensures forall k, l :: 0 <= k < l < |items| ==>
      HeadlineOf(lines, items[k]) && HeadlineOf(lines, items[l]) && items[k].index < items[l].index
  {
    if lines == [] then []
    else
      var init := lines[..|lines| - 1];
      var prev := Headlines(init);
      HeadlinesExtend(init, lines, prev);
      var line := Strip(lines[|lines| - 1]);
      prev + (if line != [] then [Headline(line, |lines|)] else [])
  }

  lemma HeadlinesExtend(init: seq<string>, lines: seq<string>, items: seq<NewsItem>)
    requires init <= lines
    requires forall k :: 0 <= k < |items| ==> HeadlineOf(init, items[k])
    ensures forall k :: 0 <= k < |items| ==> HeadlineOf(lines, items[k]) && items[k].index <= |init|
  {
    forall k | 0 <= k < |items| ensures HeadlineOf(lines, items[k]) && items[k].index <= |init| {
      assert lines[items[k].index - 1] == init[items[k].index - 1];
    }
  }

  /** Every non-blank line gives a headline. */
  lemma {:induction false} HeadlinesComplete(lines: seq<string>, i: nat)
    requires i < |lines| && Strip(lines[i]) != []
    ensures Headline(Strip(lines[i]), i + 1) in Headlines(lines)
  {
    if i < |lines| - 1 {
      var init := lines[..|lines| - 1];
      assert init[i] == lines[i];
      HeadlinesComplete(init, i);
    }
  }

  /** What `get_stock_news` returns for a search outcome. */
  function NewsOf(search: Outcome<string>): seq<NewsItem>
  {
    match search
    case Raised(e) => [NewsError(e)]
    case Value(s) => if s == [] then [] else Headlines(FirstLines(Split(s, '\n')))
  }

  /** `get_stock_news(symbol)`, from the search result on. */
  method GetStockNews(search: Outcome<string>) returns (news: seq<NewsItem>)
    ensures news == NewsOf(search)
    ensures |news| <= MaxNews
    ensures search.Value? ==> forall k :: 0 <= k < |news| ==>
      news[k].Headline? && 1 <= news[k].index <= MaxNews && news[k].title != []
    ensures search == Value([]) ==> news == []
    ensures search.Value? && search.value != [] ==>
      forall k :: 0 <= k < |news| ==> HeadlineOf(FirstLines(Split(search.value, '\n')), news[k])
  {
    if search.Raised? {
      return [NewsError(search.error)];
    }
    news := [];
    var results := search.value;
    if results != [] {
      var lines := Split(results, '\n');
      var first := FirstLines(lines);
      for i := 0 to |first|
        invariant news == Headlines(first[..i])
      {
        assert first[..i + 1][..i] == first[..i];
        var line := Strip(first[i]);
        if line != [] {
          news := news + [Headline(line, i + 1)];
        }
      }
      assert first[..|first|] == first;
    }
  }

  // ---------------------------------------------------------------------
  // check_price_alerts

  /** The fixed texts of the e-mail, each named once; `FragmentText`
      gives its exact characters. */
  datatype Fragment =
    | Greeting | GreetingEnd | Separator | Dash | Newline | ErrorLabel
    | CloseLabel | Space | OpenLabel | ChangeLabel | PercentOpen | PercentClose | VolumeLabel
    | AlertsHeading | NewsHeading | NoNews | IndexDot
    | FooterRule | Farewell | Signature
    | Dropped | Rose | ClosedAt | BelowLow | AboveHigh | Period

  /** `'=' * 50`. */
  const Rule: string := "=================================================="

  function FragmentText(f: Fragment): string
  {
    match f
    case Greeting => "Good Evening!\n        \n        Heres is your daily stock update for "
    case GreetingEnd => ":\n\n\n        "
    case Separator => "\n" + Rule + "\n"
    case Dash => " - "
    case Newline => "\n"
    case ErrorLabel => "\nError: "
    case CloseLabel => "Close: "
    case Space => " "
    case OpenLabel => "Open: "
    case ChangeLabel => "Change: "
    case PercentOpen => " ("
    case PercentClose => "%)\n"
    case VolumeLabel => "Volume: "
    case AlertsHeading => "\nAlerts:\n"
    case NewsHeading => "\nLatest News:\n"
    case NoNews => "No news found.\n"
    case IndexDot => ". "
    // a plain string, not an f-string: the braces are printed as they stand
    case FooterRule => "\n{'='*50}\n"
    case Farewell => "Have a great evening & keep on crushing it!\n"
    case Signature => "Your Financial Agent"
    case Dropped => "PRICE DROPPED: "
    case Rose => "PRICE ROSE: "
    case ClosedAt => " closed at "
    case BelowLow => ", below your low threshold of "
    case AboveHigh => ", above your high threshold of "
    case Period => "."
  }

  /** A piece of the e-mail text: a fixed text, a variable text, or a
      number. Numbers stay numbers: `Price` is how Python prints a float or
      a decimal, `Percent` the `:.2f` rendering, `Count` an integer, `Trend`
      the up or down emoji. */
  datatype Piece = Fixed(f: Fragment) | Lit(s: string) | Price(x: real) | Percent(x: real) | Count(n: int) | Trend(rising: bool)

  /** Python truthiness of an optional threshold: None and 0 are unset. */
  predicate Truthy(t: Option<real>)
  {
    t.Some? && t.value != 0.0
  }

  /** `stock_data.get('close', 0)`. */
  function CloseOrZero(sd: StockData): real
  {
    if sd.Quote? then sd.close else 0.0
  }

  predicate LowFires(sd: StockData, low: Option<real>)
  {
    Truthy(low) && CloseOrZero(sd) <= low.value
  }

  predicate HighFires(sd: StockData, high: Option<real>)
  {
    Truthy(high) && CloseOrZero(sd) >= high.value
  }

  function LowAlert(symbol: string, close: real, low: real): seq<Piece>
  {
    [Fixed(Dropped), Lit(symbol), Fixed(ClosedAt), Price(close), Fixed(BelowLow), Price(low), Fixed(Period)]
  }

  function HighAlert(symbol: string, close: real, high: real): seq<Piece>
  {
    [Fixed(Rose), Lit(symbol), Fixed(ClosedAt), Price(close), Fixed(AboveHigh), Price(high), Fixed(Period)]
  }

  /** `str(e)` of the KeyError raised by `stock_data['close']`. */
  const KeyErrorClose: string := "'close'"

  /** The alerts `check_price_alerts` reports, stated case by case: None
      when neither threshold fires; the low alert, the high alert, or both
      joined by a newline, low first. Rendering a message needs
      `stock_data['close']`, which an error payload lacks. */
  function PriceAlerts(sd: StockData, low: Option<real>, high: Option<real>): Outcome<Option<seq<Piece>>>
  {
    if !LowFires(sd, low) && !HighFires(sd, high) then Value(None)
    else if sd.ErrorPayload? then Raised(KeyErrorClose)
    else if LowFires(sd, low) && HighFires(sd, high) then
      Value(Some(LowAlert(sd.symbol, sd.close, low.value) + [Fixed(Newline)] + HighAlert(sd.symbol, sd.close, high.value)))
    else if LowFires(sd, low) then Value(Some(LowAlert(sd.symbol, sd.close, low.value)))
    else Value(Some(HighAlert(sd.symbol, sd.close, high.value)))
  }

  /** `check_price_alerts(stock_data, low, high)`. */
  method CheckPriceAlerts(sd: StockData, low: Option<real>, high: Option<real>) returns (r: Outcome<Option<seq<Piece>>>)
    ensures r == PriceAlerts(sd, low, high)
    ensures sd.Quote? ==> r.Value?
    ensures r.Value? ==> (r.value.None? <==> !LowFires(sd, low) && !HighFires(sd, high))
  {
    var alerts: seq<seq<Piece>> := [];
    if Truthy(low) && CloseOrZero(sd) <= low.value {
      if sd.ErrorPayload? {
        return Raised(KeyErrorClose);
      }
      alerts := alerts + [LowAlert(sd.symbol, sd.close, low.value)];
    }
    if Truthy(high) && CloseOrZero(sd) >= high.value {
      if sd.ErrorPayload? {
        return Raised(KeyErrorClose);
      }
      alerts := alerts + [HighAlert(sd.symbol, sd.close, high.value)];
    }
    if |alerts| == 2 {
      assert alerts[..1] == [alerts[0]];
      assert Join(alerts, [Fixed(Newline)]) == alerts[0] + [Fixed(Newline)] + alerts[1];
    } else if |alerts| == 1 {
      assert Join(alerts, [Fixed(Newline)]) == alerts[0];
    }
    r := if alerts != [] then Value(Some(Join(alerts, [Fixed(Newline)]))) else Value(None);
  }

  /** A threshold that is None or 0 never fires, whatever the price. */
  lemma UnsetThresholdNeverFires(sd: StockData, t: Option<real>)
    requires t == None || t == Some(0.0)
    ensures !LowFires(sd, t) && !HighFires(sd, t)
  {
  }

  /** On a quote, the low alert fires iff the low threshold is set and the
      close is at or below it, the high alert iff the high threshold is set
      and the close is at or above it; both fire exactly when
      `high <= close <= low`, the low alert first. */
  lemma AlertsOnQuote(sd: StockData, low: Option<real>, high: Option<real>)
    requires sd.Quote?
    ensures PriceAlerts(sd, low, high).Value?
    ensures var a := PriceAlerts(sd, low, high).value;
      && (a.Some? && Fixed(Dropped) in a.value <==> Truthy(low) && sd.close <= low.value)
      && (a.Some? && Fixed(Rose) in a.value <==> Truthy(high) && sd.close >= high.value)
      && (a.Some? ==> a.value[0] == Fixed(Dropped) || a.value[0] == Fixed(Rose))
  {
  }

  // ---------------------------------------------------------------------
  // format_stock_email

  /** One element of `favorites_data`. `alerts` is None when no threshold
      fired, `Some([])` for the empty string the job stores after an error. */
  datatype Entry = Entry(symbol: string, stockData: StockData, news: seq<NewsItem>, alerts: Option<seq<Piece>>)

  /** Python truthiness of the `alerts` field. */
  predicate AlertsTruthy(a: Option<seq<Piece>>)
  {
    a.Some? && a.value != []
  }

  /** The closing lines. */
  const Footer: seq<Piece> := [Fixed(FooterRule), Fixed(Farewell), Fixed(Signature)]
  /** `str(e)` of the KeyError raised by `item['index']` on an error entry. */
  const KeyErrorIndex: string := "'index'"

  function Header(today: string): seq<Piece>
  {
    [Fixed(Greeting), Lit(today), Fixed(GreetingEnd)]
  }

  /** The concatenated pieces of `f` over `xs`, or the first exception. */
  function Collect<T>(xs: seq<T>, f: T -> Outcome<seq<Piece>>): Outcome<seq<Piece>>
  {
    if xs == [] then Value([])
    else
      match Collect(xs[..|xs| - 1], f)
      case Raised(e) => Raised(e)
      case Value(p) =>
        match f(xs[|xs| - 1])
        case Raised(e) => Raised(e)
        case Value(q) => Value(p + q)
  }

  lemma AppendAssociates<T>(a: seq<T>, b: seq<T>, c: seq<T>)
    ensures a + b + c == a + (b + c)
  {
  }

  /** Extending the parts by one that does not raise extends the pieces by
      its own; one that raises makes the whole raise its exception. */
  lemma CollectStep<T>(xs: seq<T>, f: T -> Outcome<seq<Piece>>, i: nat)
    requires i < |xs| && Collect(xs[..i], f).Value?
    ensures f(xs[i]).Value? ==> Collect(xs[..i + 1], f) == Value(Collect(xs[..i], f).value + f(xs[i]).value)
    ensures f(xs[i]).Raised? ==> Collect(xs[..i + 1], f) == Raised(f(xs[i]).error)
  {
    assert xs[..i + 1][..i] == xs[..i];
  }

  /** Once a prefix raised, the whole raises the same exception. */
  lemma {:induction false} CollectRaisedStays<T>(xs: seq<T>, f: T -> Outcome<seq<Piece>>, k: nat)
    requires k <= |xs| && Collect(xs[..k], f).Raised?
    ensures Collect(xs, f) == Collect(xs[..k], f)
    decreases |xs|
  {
    if k < |xs| {
      var init := xs[..|xs| - 1];
      assert init[..k] == xs[..k];
      CollectRaisedStays(init, f, k);
    } else {
      assert xs[..k] == xs;
    }
  }

  /** The concatenation raises exactly when one of its parts does. */
  lemma {:induction false} CollectRaisedIff<T>(xs: seq<T>, f: T -> Outcome<seq<Piece>>)
    ensures Collect(xs, f).Raised? <==> exists i :: 0 <= i < |xs| && f(xs[i]).Raised?
  {
    if xs != [] {
      var init := xs[..|xs| - 1];
      CollectRaisedIff(init, f);
      assert forall i :: 0 <= i < |init| ==> init[i] == xs[i];
      if exists i :: 0 <= i < |xs| && f(xs[i]).Raised? {
        var i :| 0 <= i < |xs| && f(xs[i]).Raised?;
        if i < |init| { assert f(init[i]).Raised?; }
      }
    }
  }

  /** The line of one news item: `f"{item['index']}. {item['title']}\n"`. */
  function NewsLine(item: NewsItem): Outcome<seq<Piece>>
  {
    match item
    case Headline(title, index) => Value([Count(index), Fixed(IndexDot), Lit(title), Fixed(Newline)])
    case NewsError(_) => Raised(KeyErrorIndex)
  }

  /** The block of a favorite whose quote failed. */
  function ErrorLines(symbol: string, message: string): seq<Piece>
  {
    [Fixed(Separator), Lit(symbol), Fixed(ErrorLabel), Lit(message), Fixed(Newline)]
  }

  /** The heading and figures of a favorite whose quote came in, one
      function per line appended. */
  function QuoteLines(sd: StockData): seq<Piece>
    requires sd.Quote?
  {
    [Fixed(Separator)] + TitleLine(sd) + [Fixed(Separator)] + CloseLine(sd) + OpenLine(sd) + ChangeLine(sd) + VolumeLine(sd)
  }

  function TitleLine(sd: StockData): seq<Piece>
    requires sd.Quote?
  {
    [Lit(sd.symbol), Fixed(Dash), Lit(sd.date), Fixed(Newline)]
  }

  /** The close, with the up emoji when the change is positive. */
  function CloseLine(sd: StockData): seq<Piece>
    requires sd.Quote?
  {
    [Fixed(CloseLabel), Price(sd.close), Fixed(Space), Trend(sd.change > 0.0), Fixed(Newline)]
  }

  function OpenLine(sd: StockData): seq<Piece>
    requires sd.Quote?
  {
    [Fixed(OpenLabel), Price(sd.open), Fixed(Newline)]
  }

  function ChangeLine(sd: StockData): seq<Piece>
    requires sd.Quote?
  {
    [Fixed(ChangeLabel), Price(sd.change), Fixed(PercentOpen), Percent(sd.changePercent), Fixed(PercentClose)]
  }

  function VolumeLine(sd: StockData): seq<Piece>
    requires sd.Quote?
  {
    [Fixed(VolumeLabel), Count(sd.volume), Fixed(Newline)]
  }

  /** The alerts section, present only when the alerts are truthy. */
  function AlertLines(alerts: Option<seq<Piece>>): seq<Piece>
  {
    if AlertsTruthy(alerts) then [Fixed(AlertsHeading)] + alerts.value + [Fixed(Newline)] else []
  }

  /** Everything of a quote's block up to its news lines. */
  function QuoteHead(e: Entry): seq<Piece>
    requires e.stockData.Quote?
  {
    QuoteLines(e.stockData) + AlertLines(e.alerts) + [Fixed(NewsHeading)]
  }

  /** The block of one favorite in the body. */
  function EntryBlock(e: Entry): Outcome<seq<Piece>>
  {
    if e.stockData.ErrorPayload? then Value(ErrorLines(e.symbol, e.stockData.error))
    else if e.news == [] then Value(QuoteHead(e) + [Fixed(NoNews)])
    else
      match Collect(e.news, NewsLine)
      case Raised(x) => Raised(x)
      case Value(lines) => Value(QuoteHead(e) + lines)
  }

  /** The body `format_stock_email` builds, or the exception it raises. */
  function EmailBody(today: string, entries: seq<Entry>): Outcome<seq<Piece>>
  {
    match Collect(entries, EntryBlock)
    case Raised(x) => Raised(x)
    case Value(blocks) => Value(Header(today) + blocks + Footer)
  }

  /** One pass of the loop of `format_stock_email`: the block of
      `favorite` appended to `body`, or the KeyError of a news error entry. */
  method AppendFavorite(body: seq<Piece>, favorite: Entry) returns (r: Outcome<seq<Piece>>)
    ensures EntryBlock(favorite).Value? ==> r == Value(body + EntryBlock(favorite).value)
    ensures EntryBlock(favorite).Raised? ==> r == EntryBlock(favorite)
  {
    var text := body;
    var stockData := favorite.stockData;
    if stockData.ErrorPayload? {
      text := text + [Fixed(Separator)];
      text := text + [Lit(favorite.symbol)];
      text := text + [Fixed(ErrorLabel), Lit(stockData.error), Fixed(Newline)];
      assert text == body + ErrorLines(favorite.symbol, stockData.error);
      return Value(text);
    }
    text := AppendQuoteHead(text, favorite);
    if favorite.news == [] {
      AppendAssociates(body, QuoteHead(favorite), [Fixed(NoNews)]);
      text := text + [Fixed(NoNews)];
      return Value(text);
    }
    r := AppendNews(text, favorite.news);
    if r.Value? {
      AppendAssociates(body, QuoteHead(favorite), Collect(favorite.news, NewsLine).value);
    }
  }

  /** The quote's heading, figures, alerts and news heading, appended one
      line after another. */
  method AppendQuoteHead(body: seq<Piece>, favorite: Entry) returns (text: seq<Piece>)
    requires favorite.stockData.Quote?
    ensures text == body + QuoteHead(favorite)
  {
    var stockData := favorite.stockData;
    text := body;
    text := text + [Fixed(Separator)];
    text := text + TitleLine(stockData);
    text := text + [Fixed(Separator)];
    text := text + CloseLine(stockData);
    text := text + OpenLine(stockData);
    text := text + ChangeLine(stockData);
    text := text + VolumeLine(stockData);
    assert text == body + QuoteLines(stockData);
    if AlertsTruthy(favorite.alerts) {
      text := text + ([Fixed(AlertsHeading)] + favorite.alerts.value + [Fixed(Newline)]);
    }
    text := text + [Fixed(NewsHeading)];
  }

  /** The news lines, one per item; an error item raises KeyError. */
  method AppendNews(body: seq<Piece>, news: seq<NewsItem>) returns (r: Outcome<seq<Piece>>)
    ensures Collect(news, NewsLine).Value? ==> r == Value(body + Collect(news, NewsLine).value)
    ensures Collect(news, NewsLine).Raised? ==> r == Collect(news, NewsLine)
  {
    var text := body;
    for j := 0 to |news|
      invariant Collect(news[..j], NewsLine).Value?
      invariant text == body + Collect(news[..j], NewsLine).value
    {
      CollectStep(news, NewsLine, j);
      match news[j]
      case NewsError(_) =>
        CollectRaisedStays(news, NewsLine, j + 1);
        return Raised(KeyErrorIndex);
      case Headline(title, index) =>
        text := text + [Count(index), Fixed(IndexDot), Lit(title), Fixed(Newline)];
        AppendAssociates(body, Collect(news[..j], NewsLine).value, NewsLine(news[j]).value);
    }
    assert news[..|news|] == news;
    r := Value(text);
  }

  /** `format_stock_email(user_email, favorites_data)`, with `today` the
      date it reads from the clock. */
  method FormatStockEmail(userEmail: string, favoritesData: seq<Entry>, today: string) returns (body: Outcome<seq<Piece>>)
    ensures body == EmailBody(today, favoritesData)
  {
    var text := Header(today);
    for i := 0 to |favoritesData|
      invariant Collect(favoritesData[..i], EntryBlock).Value?
      invariant text == Header(today) + Collect(favoritesData[..i], EntryBlock).value
    {
      var favorite := favoritesData[i];
      CollectStep(favoritesData, EntryBlock, i);
      var next := AppendFavorite(text, favorite);
      if next.Raised? {
        CollectRaisedStays(favoritesData, EntryBlock, i + 1);
        return Raised(next.error);
      }
      AppendAssociates(Header(today), Collect(favoritesData[..i], EntryBlock).value, EntryBlock(favorite).value);
      text := next.value;
    }
    assert favoritesData[..|favoritesData|] == favoritesData;
    ghost var blocks := text;
    text := text + [Fixed(FooterRule)];
    text := text + [Fixed(Farewell)];
    text := text + [Fixed(Signature)];
    assert text == blocks + Footer;
    body := Value(text);
  }

  /** A block raises exactly when the quote came in and one of its news
      items is the error entry of a failed search. */
  lemma EntryBlockRaisesIff(e: Entry)
    ensures EntryBlock(e).Raised? <==> e.stockData.Quote? && exists j :: 0 <= j < |e.news| && e.news[j].NewsError?
  {
    CollectRaisedIff(e.news, NewsLine);
  }

  /** The body is produced unless some favorite whose quote came in has a
      failed news search; then `format_stock_email` raises KeyError. */
  lemma EmailBodyRaisesIff(today: string, entries: seq<Entry>)
    ensures EmailBody(today, entries).Raised? <==>
      exists i :: 0 <= i < |entries| && entries[i].stockData.Quote? && exists j :: 0 <= j < |entries[i].news| && entries[i].news[j].NewsError?
  {
    CollectRaisedIff(entries, EntryBlock);
    forall i | 0 <= i < |entries| { EntryBlockRaisesIff(entries[i]); }
  }

  /** A produced body opens with the greeting and ends with the signature
      "Your Financial Agent". */
  lemma EmailBodyFrame(today: string, entries: seq<Entry>)
    requires EmailBody(today, entries).Value?
    ensures var b := EmailBody(today, entries).value;
      b[..3] == Header(today) && b[|b| - 3..] == Footer
  {
  }

  /** The block of a favorite whose quote failed holds only the separator,
      the symbol and the error line: no price, no alerts, no news. */
  lemma ErrorEntryBlock(e: Entry)
    requires e.stockData.ErrorPayload?
    ensures EntryBlock(e).Value?
    ensures var b := EntryBlock(e).value;
      b == [Fixed(Separator), Lit(e.symbol), Fixed(ErrorLabel), Lit(e.stockData.error), Fixed(Newline)]
  {
  }

  /** The block of a quote with no news says "No news found." last. */
  lemma EmptyNewsBlock(e: Entry)
    requires e.stockData.Quote? && e.news == []
    ensures EntryBlock(e).Value?
    ensures var b := EntryBlock(e).value; b[|b| - 2..] == [Fixed(NewsHeading), Fixed(NoNews)]
  {
  }

  // ---------------------------------------------------------------------
  // send_email

  /** A JSON-like value of the dictionary `send_email` returns. */
  datatype Json = JBool(b: bool) | JStr(s: string)

  /** The dictionary `send_email` returns, given the SMTP failure, if any. */
  function SendEmailResult(recipient: string, smtpError: Option<string>): map<string, Json>
  {
    match smtpError
    case None => map["success" := JBool(true), "message" := JStr("Email sent successfully to " + recipient + ".")]
    case Some(e) => map["success" := JBool(false), "message" := JStr("Failed to send email: " + e)]
  }

  /** Python truthiness of a dictionary. */
  predicate DictTruthy(d: map<string, Json>)
  {
    |d| > 0
  }

  /** `send_email`'s dictionary is never empty, so `if self.send_email(...)`
      takes its first branch even when sending failed. */
  lemma SendResultAlwaysTruthy(recipient: string, smtpError: Option<string>)
    ensures DictTruthy(SendEmailResult(recipient, smtpError))
    ensures "success" in SendEmailResult(recipient, smtpError)
    ensures SendEmailResult(recipient, smtpError)["success"] == JBool(smtpError.None?)
  {
    var d := SendEmailResult(recipient, smtpError);
    assert "success" in d.Keys;
  }

  // ---------------------------------------------------------------------
  // daily_email_job

  /** A stored favorite together with what the providers answer for it. */
  datatype FavoriteInput = FavoriteInput(symbol: string, low: Option<real>, high: Option<real>,
                                         quote: Outcome<DailyReply>, search: Outcome<string>)

  /** A user as the job sees it: id, e-mail, favorites, and the SMTP
      failure, if any, of the message sent to them. */
  datatype JobUser = JobUser(userId: int, email: string, favorites: seq<FavoriteInput>, smtpError: Option<string>)

  /** A message handed to `send_email`; `delivered` says whether the mail
      server accepted it. */
  datatype Email = Email(recipient: string, subject: string, body: seq<Piece>, delivered: bool)
  /** A call to a provider the job makes. */
  datatype Request = QuoteRequest(symbol: string) | NewsRequest(symbol: string)
  datatype Digest = Digest(userId: int, email: Email)

  /** What a run of the job does: the digests it sends and logs, the
      provider requests it makes, and whether it returned normally. */
  datatype JobRun = JobRun(digests: seq<Digest>, requests: seq<Request>, completed: bool)

  const DigestQueryText: string := "Automated daily email sent"
  const DigestResponseText: string := "Daily email sent"
  const DigestTools: seq<string> := ["email", "stock_data", "news"]

  /** `datetime.now().weekday() > 4`: Saturday or Sunday. */
  predicate IsWeekend(weekday: int)
  {
    weekday > 4
  }

  function Subject(today: string): string
  {
    "Daily Stock Update for " + today
  }

  /** The `favorites_data` entry of one favorite: alerts are checked only
      when the quote has no error, and are `""` otherwise. */
  function EntryFor(f: FavoriteInput): Entry
  {
    var sd := StockDataOf(f.symbol, f.quote);
    Entry(f.symbol, sd, NewsOf(f.search), if sd.ErrorPayload? then Some([]) else PriceAlerts(sd, f.low, f.high).value)
  }

  function FavoritesData(fs: seq<FavoriteInput>): (es: seq<Entry>)
  {
    seq(|fs|, i requires 0 <= i < |fs| => EntryFor(fs[i]))
  }

  /** One entry per favorite, in order, for that favorite's symbol; an
      entry whose quote failed carries `""` as alerts. */
  lemma FavoritesDataShape(fs: seq<FavoriteInput>)
    ensures |FavoritesData(fs)| == |fs|
    ensures forall i :: 0 <= i < |fs| ==>
      var e := FavoritesData(fs)[i];
      && e.symbol == fs[i].symbol && e.stockData.symbol == fs[i].symbol
      && (e.stockData.ErrorPayload? ==> e.alerts == Some([]))
      && (e.stockData.Quote? ==> (e.alerts.None? <==> !LowFires(e.stockData, fs[i].low) && !HighFires(e.stockData, fs[i].high)))
  {
  }

  /** Taking one more favorite adds its entry and its two requests. */
  lemma FavoritesStep(fs: seq<FavoriteInput>, j: nat)
    requires j < |fs|
    ensures FavoritesData(fs[..j + 1]) == FavoritesData(fs[..j]) + [EntryFor(fs[j])]
    ensures RequestsFor(fs[..j + 1]) == RequestsFor(fs[..j]) + [QuoteRequest(fs[j].symbol), NewsRequest(fs[j].symbol)]
  {
    assert fs[..j + 1][..j] == fs[..j];
  }

  /** The provider calls for a user's favorites: quote, then news, per
      favorite. */
  function RequestsFor(fs: seq<FavoriteInput>): seq<Request>
  {
    if fs == [] then []
    else RequestsFor(fs[..|fs| - 1]) + [QuoteRequest(fs[|fs| - 1].symbol), NewsRequest(fs[|fs| - 1].symbol)]
  }

  /** The body of `u`'s digest, or the exception building it raises. */
  function DigestBody(u: JobUser, today: string): Outcome<seq<Piece>>
  {
    EmailBody(today, FavoritesData(u.favorites))
  }

  /** The job on a weekday, user by user: users without favorites are
      skipped; for the others every favorite is fetched, the body built and
      the digest sent and logged; a body that raises ends the run. */
  function Run(users: seq<JobUser>, today: string): JobRun
  {
    if users == [] then JobRun([], [], true)
    else RunStep(Run(users[..|users| - 1], today), users[|users| - 1], today)
  }

  /** One pass of the job's loop, for user `u`, after the run `prev`. */
  function RunStep(prev: JobRun, u: JobUser, today: string): JobRun
  {
    if !prev.completed || u.favorites == [] then prev
    else
      var requests := prev.requests + RequestsFor(u.favorites);
      match DigestBody(u, today)
      case Raised(_) => JobRun(prev.digests, requests, false)
      case Value(body) => JobRun(prev.digests + [Digest(u.userId, Email(u.email, Subject(today), body, u.smtpError.None?))], requests, true)
  }

  /** Once the run stopped, later users change nothing. */
  lemma {:induction false} RunStopped(users: seq<JobUser>, today: string, k: nat)
    requires k <= |users| && !Run(users[..k], today).completed
    ensures Run(users, today) == Run(users[..k], today)
    decreases |users|
  {
    if k < |users| {
      var init := users[..|users| - 1];
      assert init[..k] == users[..k];
      RunStopped(init, today, k);
    } else {
      assert users[..k] == users;
    }
  }

  /** The ids of the users with favorites, in order. */
  function Recipients(users: seq<JobUser>): seq<int>
  {
    if users == [] then []
    else
      var u := users[|users| - 1];
      Recipients(users[..|users| - 1]) + (if u.favorites != [] then [u.userId] else [])
  }

  function DigestUsers(ds: seq<Digest>): seq<int>
  {
    seq(|ds|, i requires 0 <= i < |ds| => ds[i].userId)
  }

  /** The digest body of `u` can be built: `u` has no favorites, or no
      favorite whose quote came in has a failed news search. */
  predicate BodyBuilds(u: JobUser, today: string)
  {
    u.favorites == [] || DigestBody(u, today).Value?
  }

  /** The run sends to users with favorites, in order, and to no one else;
      when it returns normally every user with favorites gets exactly one
      digest. */
  lemma {:induction false} RunDigests(users: seq<JobUser>, today: string)
    ensures DigestUsers(Run(users, today).digests) <= Recipients(users)
    ensures Run(users, today).completed ==> DigestUsers(Run(users, today).digests) == Recipients(users)
  {
    if users != [] {
      var init := users[..|users| - 1];
      var u := users[|users| - 1];
      RunDigests(init, today);
      var prev := Run(init, today);
      var run := Run(users, today);
      if prev.completed && u.favorites != [] && DigestBody(u, today).Value? {
        assert DigestUsers(run.digests) == DigestUsers(prev.digests) + [u.userId];
      }
    }
  }

  /** The run returns normally iff every user's digest body can be built. */
  lemma {:induction false} RunCompletedIff(users: seq<JobUser>, today: string)
    ensures Run(users, today).completed <==> forall i :: 0 <= i < |users| ==> BodyBuilds(users[i], today)
  {
    if users != [] {
      var init := users[..|users| - 1];
      var u := users[|users| - 1];
      RunCompletedIff(init, today);
      assert forall i :: 0 <= i < |init| ==> init[i] == users[i];
      if !Run(init, today).completed {
        var i :| 0 <= i < |init| && !BodyBuilds(init[i], today);
        assert !BodyBuilds(users[i], today);
      } else {
        assert Run(users, today).completed == BodyBuilds(u, today);
      }
    }
  }

  /** The e-mails of a run's digests, in order. */
  function Emails(ds: seq<Digest>): seq<Email>
  {
    if ds == [] then [] else Emails(ds[..|ds| - 1]) + [ds[|ds| - 1].email]
  }

  /** The digest queries the job logs: one per digest, numbered on from
      `base`, with the clock reading `now` as query type. */
  function DigestQueries(ds: seq<Digest>, base: int, now: string): seq<Db.Query>
  {
    if ds == [] then []
    else DigestQueries(ds[..|ds| - 1], base, now) + [Db.Query(base + |ds|, ds[|ds| - 1].userId, DigestQueryText, now)]
  }

  /** The digest responses the job logs: the k-th answers the k-th digest
      query. */
  function DigestResponses(n: nat, queryBase: int, responseBase: int): seq<Db.Response>
  {
    if n == 0 then []
    else DigestResponses(n - 1, queryBase, responseBase) + [Db.Response(responseBase + n, queryBase + n, DigestResponseText, DigestTools, 0)]
  }

  /** One pass of the inner loop of `daily_email_job`: the quote, the
      news, and the alerts when the quote has no error. */
  method FavoriteEntry(favorite: FavoriteInput) returns (entry: Entry)
    ensures entry == EntryFor(favorite)
  {
    var stockData := StockDataOf(favorite.symbol, favorite.quote);
    var news := GetStockNews(favorite.search);
    var alerts: Option<seq<Piece>> := Some([]);
    if !stockData.ErrorPayload? {
      var checked := CheckPriceAlerts(stockData, favorite.low, favorite.high);
      alerts := checked.value;
    }
    entry := Entry(favorite.symbol, stockData, news, alerts);
  }

  /** `StockEmailer`: the store it logs to, and what it sends and asks for. */
  class StockEmailer {
    const db: Db.FinancialAgentDB
    /** Every send attempt, in order, with its outcome. */
    var outbox: seq<Email>
    /** Every provider call, in order. */
    var requests: seq<Request>

    constructor (db: Db.FinancialAgentDB)
      ensures this.db == db && outbox == [] && requests == []
    {
      this.db := db;
      outbox := [];
      requests := [];
    }

    /** The inner loop of `daily_email_job`: one `favorites_data` entry per
        favorite, the quote fetched before the news. */
    method GatherFavorites(favorites: seq<FavoriteInput>) returns (favoritesData: seq<Entry>)
      modifies this
      ensures favoritesData == FavoritesData(favorites)
      ensures requests == old(requests) + RequestsFor(favorites)
      ensures outbox == old(outbox)
    {
      favoritesData := [];
      for j := 0 to |favorites|
        invariant favoritesData == FavoritesData(favorites[..j])
        invariant requests == old(requests) + RequestsFor(favorites[..j])
        invariant outbox == old(outbox)
      {
        FavoritesStep(favorites, j);
        var favorite := favorites[j];
        requests := requests + [QuoteRequest(favorite.symbol), NewsRequest(favorite.symbol)];
        var entry := FavoriteEntry(favorite);
        favoritesData := favoritesData + [entry];
      }
      assert favorites[..|favorites|] == favorites;
    }

    /** The body of the loop of `daily_email_job` for a user with
        favorites: gather their favorites, build the body, send it, and log
        the digest, which the always-truthy result of `send_email` lets
        through even when sending failed. */
    method MailUser(user: JobUser, today: string, now: string) returns (body: Outcome<seq<Piece>>)
      requires db.Valid() && db.Ready()
      modifies this, db
      ensures body == DigestBody(user, today)
      ensures requests == old(requests) + RequestsFor(user.favorites)
      ensures db.Valid() && db.Ready()
      ensures db.users == old(db.users) && db.favorites == old(db.favorites) && db.queryStocks == old(db.queryStocks)
      ensures body.Raised? ==>
        && outbox == old(outbox) && db.queries == old(db.queries) && db.responses == old(db.responses)
        && db.counters == old(db.counters)
      ensures body.Value? ==>
        var queryId := old(db.counters)[Db.QueriesTable] + 1;
        var responseId := old(db.counters)[Db.ResponsesTable] + 1;
        && outbox == old(outbox) + [Email(user.email, Subject(today), body.value, user.smtpError.None?)]
        && db.queries == old(db.queries) + [Db.Query(queryId, user.userId, DigestQueryText, now)]
        && db.responses == old(db.responses) + [Db.Response(responseId, queryId, DigestResponseText, DigestTools, 0)]
        && db.counters == old(db.counters)[Db.QueriesTable := queryId][Db.ResponsesTable := responseId]
    {
      var favoritesData := GatherFavorites(user.favorites);
      var subject := Subject(today);
      body := FormatStockEmail(user.email, favoritesData, today);
      if body.Raised? {
        return;
      }
      SendAndLog(user, subject, body.value, now);
    }

    /** `send_email` and the test of its result: the attempt is recorded
        with its outcome, and the digest logged, since the result is
        always truthy. */
    method SendAndLog(user: JobUser, subject: string, body: seq<Piece>, now: string)
      requires db.Valid() && db.Ready()
      modifies this, db
      ensures requests == old(requests)
      ensures outbox == old(outbox) + [Email(user.email, subject, body, user.smtpError.None?)]
      ensures db.Valid() && db.Ready()
      ensures db.users == old(db.users) && db.favorites == old(db.favorites) && db.queryStocks == old(db.queryStocks)
      ensures
        var queryId := old(db.counters)[Db.QueriesTable] + 1;
        var responseId := old(db.counters)[Db.ResponsesTable] + 1;
        && db.queries == old(db.queries) + [Db.Query(queryId, user.userId, DigestQueryText, now)]
        && db.responses == old(db.responses) + [Db.Response(responseId, queryId, DigestResponseText, DigestTools, 0)]
        && db.counters == old(db.counters)[Db.QueriesTable := queryId][Db.ResponsesTable := responseId]
    {
      var sent := SendEmailResult(user.email, user.smtpError);
      SendResultAlwaysTruthy(user.email, user.smtpError);
      outbox := outbox + [Email(user.email, subject, body, sent["success"] == JBool(true))];
      if DictTruthy(sent) {
        LogDigest(user.userId, now);
      }
    }

    /** The `log_query` and `log_response` pair recording one sent digest. */
    method LogDigest(userId: int, now: string)
      requires db.Valid() && db.Ready()
      modifies db
      ensures db.Valid() && db.Ready()
      ensures db.users == old(db.users) && db.favorites == old(db.favorites) && db.queryStocks == old(db.queryStocks)
      ensures
        var queryId := old(db.counters)[Db.QueriesTable] + 1;
        var responseId := old(db.counters)[Db.ResponsesTable] + 1;
        && db.queries == old(db.queries) + [Db.Query(queryId, userId, DigestQueryText, now)]
        && db.responses == old(db.responses) + [Db.Response(responseId, queryId, DigestResponseText, DigestTools, 0)]
        && db.counters == old(db.counters)[Db.QueriesTable := queryId][Db.ResponsesTable := responseId]
    {
      var queryId := db.LogQuery(userId, DigestQueryText, now);
      db.LogResponse(queryId, DigestResponseText, DigestTools, 0);
    }

    /** One pass of the job's loop for a user with favorites: the run so
        far, `run`, becomes `RunStep(run, user, today)` in the outbox, the
        requests and the store; `sent` says whether the body was built. */
    method MailNext(user: JobUser, today: string, now: string, ghost run: JobRun,
                    ghost outbox0: seq<Email>, ghost requests0: seq<Request>, ghost queries0: seq<Db.Query>,
                    ghost responses0: seq<Db.Response>, ghost counters0: map<Db.Table, int>)
      returns (sent: bool, ghost next: JobRun)
      requires db.Valid() && db.Ready() && run.completed && user.favorites != []
      requires Mailed(outbox, requests, outbox0, requests0, run)
      requires Logged(db.queries, db.responses, db.counters, queries0, responses0, counters0, run.digests, now)
      modifies this, db
      ensures next == RunStep(run, user, today) && sent == next.completed
      ensures db.Valid() && db.Ready()
      ensures db.users == old(db.users) && db.favorites == old(db.favorites) && db.queryStocks == old(db.queryStocks)
      ensures Mailed(outbox, requests, outbox0, requests0, next)
      ensures Logged(db.queries, db.responses, db.counters, queries0, responses0, counters0, next.digests, now)
    {
      ghost var (outbox1, requests1) := (outbox, requests);
      ghost var (queries1, responses1, counters1) := (db.queries, db.responses, db.counters);
      var body := MailUser(user, today, now);
      if body.Raised? {
        MailedRaised(outbox1, requests1, outbox0, requests0, run, RequestsFor(user.favorites));
        next := JobRun(run.digests, run.requests + RequestsFor(user.favorites), false);
        return false, next;
      }
      ghost var queryId := counters1[Db.QueriesTable] + 1;
      ghost var responseId := counters1[Db.ResponsesTable] + 1;
      assert db.counters == counters1[Db.QueriesTable := queryId][Db.ResponsesTable := responseId];
      assert db.queries == queries1 + [Db.Query(queryId, user.userId, DigestQueryText, now)];
      assert db.responses == responses1 + [Db.Response(responseId, queryId, DigestResponseText, DigestTools, 0)];
      var digest := Digest(user.userId, Email(user.email, Subject(today), body.value, user.smtpError.None?));
      MailedSent(outbox1, requests1, outbox0, requests0, run, RequestsFor(user.favorites), digest);
      LoggedStep(queries1, responses1, counters1, queries0, responses0, counters0, run.digests, digest, now);
      next := JobRun(run.digests + [digest], run.requests + RequestsFor(user.favorites), true);
      sent := true;
    }

    /** `daily_email_job`, with the clock readings `weekday`, `today` and
        `now` and the users and their favorites given. It returns false when
        it ends by an exception. */
    method DailyEmailJob(weekday: int, today: string, now: string, users: seq<JobUser>) returns (completed: bool)
      requires db.Valid() && db.Ready()
      modifies this, db
      ensures db.Valid() && db.Ready()
      ensures db.users == old(db.users) && db.favorites == old(db.favorites) && db.queryStocks == old(db.queryStocks)
      ensures IsWeekend(weekday) ==>
        && completed && outbox == old(outbox) && requests == old(requests)
        && db.queries == old(db.queries) && db.responses == old(db.responses) && db.counters == old(db.counters)
      ensures !IsWeekend(weekday) ==>
        && completed == Run(users, today).completed
        && Mailed(outbox, requests, old(outbox), old(requests), Run(users, today))
        && Logged(db.queries, db.responses, db.counters, old(db.queries), old(db.responses), old(db.counters), Run(users, today).digests, now)
    {
      if IsWeekend(weekday) {
        return true;
      }
      ghost var run := JobRun([], [], true);
      for i := 0 to |users|
        invariant run == Run(users[..i], today) && run.completed
        invariant db.Valid() && db.Ready()
        invariant db.users == old(db.users) && db.favorites == old(db.favorites) && db.queryStocks == old(db.queryStocks)
        invariant Mailed(outbox, requests, old(outbox), old(requests), run)
        invariant Logged(db.queries, db.responses, db.counters, old(db.queries), old(db.responses), old(db.counters), run.digests, now)
      {
        assert users[..i + 1][..i] == users[..i];
        var user := users[i];
        if user.favorites == [] {
          continue;
        }
        var sent;
        sent, run := MailNext(user, today, now, run, old(outbox), old(requests), old(db.queries), old(db.responses), old(db.counters));
        if !sent {
          RunStopped(users, today, i + 1);
          return false;
        }
      }
      assert users[..|users|] == users;
      completed := true;
    }
  }

  /** The mail sent and the provider calls made are those of `run`, after
      `outbox0` and `requests0`. */
  ghost predicate Mailed(outbox: seq<Email>, requests: seq<Request>, outbox0: seq<Email>, requests0: seq<Request>, run: JobRun)
  {
    outbox == outbox0 + Emails(run.digests) && requests == requests0 + run.requests
  }

  /** The logged queries, responses and counters are those of the digests
      `ds`, after `queries0`, `responses0` and `counters0`: one query and one
      response per digest, numbered on from the counters. */
  ghost predicate Logged(queries: seq<Db.Query>, responses: seq<Db.Response>, counters: map<Db.Table, int>,
                         queries0: seq<Db.Query>, responses0: seq<Db.Response>, counters0: map<Db.Table, int>,
                         ds: seq<Digest>, now: string)
  {
    && Db.QueriesTable in counters0 && Db.ResponsesTable in counters0
    && var queryBase := counters0[Db.QueriesTable];
       var responseBase := counters0[Db.ResponsesTable];
       && queries == queries0 + DigestQueries(ds, queryBase, now)
       && responses == responses0 + DigestResponses(|ds|, queryBase, responseBase)
       && counters == counters0[Db.QueriesTable := queryBase + |ds|][Db.ResponsesTable := responseBase + |ds|]
  }

  /** Mailing one more user with favorites whose body raised adds their
      requests and no mail. */
  lemma MailedRaised(outbox: seq<Email>, requests: seq<Request>, outbox0: seq<Email>, requests0: seq<Request>,
                        run: JobRun, more: seq<Request>)
    requires Mailed(outbox, requests, outbox0, requests0, run)
    ensures Mailed(outbox, requests + more, outbox0, requests0, JobRun(run.digests, run.requests + more, false))
  {
    AppendAssociates(requests0, run.requests, more);
  }

  /** Mailing one more user with favorites adds their requests and their
      digest's e-mail. */
  lemma MailedSent(outbox: seq<Email>, requests: seq<Request>, outbox0: seq<Email>, requests0: seq<Request>,
                      run: JobRun, more: seq<Request>, d: Digest)
    requires Mailed(outbox, requests, outbox0, requests0, run)
    ensures Mailed(outbox + [d.email], requests + more, outbox0, requests0, JobRun(run.digests + [d], run.requests + more, true))
  {
    DigestLogsGrow(run.digests, d, 0, 0, "");
    AppendAssociates(outbox0, Emails(run.digests), [d.email]);
    AppendAssociates(requests0, run.requests, more);
  }

  /** Logging one more digest keeps the logs those of the digests. */
  lemma LoggedStep(queries: seq<Db.Query>, responses: seq<Db.Response>, counters: map<Db.Table, int>,
                   queries0: seq<Db.Query>, responses0: seq<Db.Response>, counters0: map<Db.Table, int>,
                   ds: seq<Digest>, d: Digest, now: string)
    requires Logged(queries, responses, counters, queries0, responses0, counters0, ds, now)
    ensures Db.QueriesTable in counters && Db.ResponsesTable in counters
    ensures
      var queryId := counters[Db.QueriesTable] + 1;
      var responseId := counters[Db.ResponsesTable] + 1;
      Logged(queries + [Db.Query(queryId, d.userId, DigestQueryText, now)],
             responses + [Db.Response(responseId, queryId, DigestResponseText, DigestTools, 0)],
             counters[Db.QueriesTable := queryId][Db.ResponsesTable := responseId],
             queries0, responses0, counters0, ds + [d], now)
  {
    var queryBase := counters0[Db.QueriesTable];
    var responseBase := counters0[Db.ResponsesTable];
    DigestLogsGrow(ds, d, queryBase, responseBase, now);
    AppendAssociates(queries0, DigestQueries(ds, queryBase, now), [Db.Query(queryBase + 1 + |ds|, d.userId, DigestQueryText, now)]);
    AppendAssociates(responses0, DigestResponses(|ds|, queryBase, responseBase),
                     [Db.Response(responseBase + 1 + |ds|, queryBase + 1 + |ds|, DigestResponseText, DigestTools, 0)]);
    CountersStep(counters0, queryBase, responseBase, |ds|);
  }

  /** Logging one more digest moves both counters on by one. */
  lemma CountersStep(m: map<Db.Table, int>, queryBase: int, responseBase: int, n: int)
    ensures
      var before := m[Db.QueriesTable := queryBase + n][Db.ResponsesTable := responseBase + n];
      before[Db.QueriesTable := before[Db.QueriesTable] + 1][Db.ResponsesTable := before[Db.ResponsesTable] + 1]
      == m[Db.QueriesTable := queryBase + n + 1][Db.ResponsesTable := responseBase + n + 1]
  {
  }

  /** Sending one more digest logs one more query and one more response,
      each numbered next. */
  lemma DigestLogsGrow(ds: seq<Digest>, d: Digest, queryBase: int, responseBase: int, now: string)
    ensures Emails(ds + [d]) == Emails(ds) + [d.email]
    ensures DigestQueries(ds + [d], queryBase, now)
         == DigestQueries(ds, queryBase, now) + [Db.Query(queryBase + 1 + |ds|, d.userId, DigestQueryText, now)]
    ensures DigestResponses(|ds| + 1, queryBase, responseBase)
         == DigestResponses(|ds|, queryBase, responseBase)
            + [Db.Response(responseBase + 1 + |ds|, queryBase + 1 + |ds|, DigestResponseText, DigestTools, 0)]
  {
    assert (ds + [d])[..|ds|] == ds;
  }
}
