/**
 * `ExchangeRates.get_rates` (Web_chat/server.py:17-47): one lookup per
 * date, newest first, and one chunk of text per quote whose currency code
 * is among the requested ones.
 *
 * Dates are day numbers as `date.toordinal()` gives them: 0001-01-01 is
 * day 1, the earliest date `datetime` can represent.
 *
 * The HTTP lookup `fetch` is an oracle from a date (a day number) to the
 * reply the rate source gives for it; `json.loads` is folded into that
 * reply: its body is the decoded list of quotes, or None when the text
 * does not decode to quotes that carry a `ccy` field.
 */
module Rates {
  import opened Basics

  /** One decoded record of the rate source: currency code, sale and buy rate (kept as text). */
  datatype Quote = Quote(ccy: string, sale: string, buy: string)

  /** The rate source's answer for one date. */
  datatype Reply = Reply(status: int, body: Option<seq<Quote>>)

  /**
   * Why `get_rates` raised: a date of the range fell before day 1
   * (`OverflowError`), or a lookup got a status other than 200 or a body
   * that does not decode to quotes.
   */
  datatype RateError = DateOverflow(days: int) | BadStatus(date: int, status: int) | Unreadable(date: int)

  /**
   * The text appended per matching quote. The source writes it as a plain
   * string literal, not an f-string, so the placeholders stay as they are.
   */
  const Template: string :=
    "{date:%d.%m.%Y}, Курс {currency[\"ccy\"]}:\nПродаж {currency[\"sale\"]}, Купівля {currency[\"buy\"]}\n"

  /** `ExchangeRates.DATE_RANGE`: declared, but never consulted by `get_rates`. */
  const DateRangeLimit: int := 10

  /** The day number of 0001-01-01, the earliest date `datetime` represents. */
  const FirstDay: int := 1
  /** The day number of 9999-12-31, the latest date `datetime` represents. */
  const LastDay: int := 3652059

  /**
   * Building the range would step before day 1, so `today - timedelta(days=x)`
   * raises `OverflowError` for the oldest date, before anything is looked up.
   */
  predicate OutOfCalendar(days: int, today: int) {
    days > 0 && today - (days - 1) < FirstDay
  }

  /** `[today - timedelta(days=x) for x in range(days)]`, with dates as day numbers. */
  function DateRange(days: int, today: int): (dates: seq<int>)
    ensures |dates| == if days <= 0 then 0 else days
    ensures forall x | 0 <= x < |dates| :: dates[x] == today - x
    decreases days
  {
    if days <= 0 then [] else [today] + DateRange(days - 1, today - 1)
  }

  /** The dates start at today and strictly descend. */
  lemma DateRangeDescends(days: int, today: int)
    ensures forall i, j | 0 <= i < j < |DateRange(days, today)| ::
              DateRange(days, today)[i] > DateRange(days, today)[j]
  {
  }

  /** When the range can be built, every date in it is a day of the calendar. */
  lemma DateRangeInCalendar(days: int, today: int)
    requires !OutOfCalendar(days, today)
    ensures forall x | 0 <= x < |DateRange(days, today)| :: DateRange(days, today)[x] >= FirstDay
  {
  }

  /** `DATE_RANGE` bounds nothing: eleven days, from the eleventh day of the calendar on, mean eleven lookups. */
  lemma DateRangeUnbounded(today: int)
    requires today >= FirstDay + DateRangeLimit
    ensures !OutOfCalendar(DateRangeLimit + 1, today)
    ensures |DateRange(DateRangeLimit + 1, today)| == 11
  {
  }

  // ---------------------------------------------------------------------
  // The text contributed by one date

  /** `s` written `n` times. */
  function Repeat(s: string, n: nat): string {
    if n == 0 then "" else Repeat(s, n - 1) + s
  }

  lemma {:induction false} RepeatAdd(s: string, m: nat, n: nat)
    ensures Repeat(s, m) + Repeat(s, n) == Repeat(s, m + n)
  {
    if n > 0 {
      RepeatAdd(s, m, n - 1);
    } else {
      assert Repeat(s, m) + "" == Repeat(s, m);
    }
  }

  lemma {:induction false} RepeatLength(s: string, n: nat)
    ensures |Repeat(s, n)| == n * |s|
  {
    if n > 0 {
      RepeatLength(s, n - 1);
    }
  }

  /** The quotes whose currency code is requested, in the reply's order. */
  function Matching(codes: seq<string>, quotes: seq<Quote>): seq<Quote>
  {
    if quotes == [] then []
    else if quotes[0].ccy in codes then [quotes[0]] + Matching(codes, quotes[1..])
    else Matching(codes, quotes[1..])
  }

  /** A quote is kept exactly when it is in the reply and its code is requested. */
  lemma {:induction false} MatchingMembers(codes: seq<string>, quotes: seq<Quote>, q: Quote)
    ensures q in Matching(codes, quotes) <==> q in quotes && q.ccy in codes
  {
    if quotes != [] {
      MatchingMembers(codes, quotes[1..], q);
      assert quotes == [quotes[0]] + quotes[1..];
    }
  }

  lemma {:induction false} MatchingAppend(codes: seq<string>, a: seq<Quote>, b: seq<Quote>)
    ensures Matching(codes, a + b) == Matching(codes, a) + Matching(codes, b)
  {
    if a != [] {
      assert (a + b)[0] == a[0] && (a + b)[1..] == a[1..] + b;
      MatchingAppend(codes, a[1..], b);
      if a[0].ccy in codes {
        assert [a[0]] + Matching(codes, a[1..]) + Matching(codes, b)
               == [a[0]] + (Matching(codes, a[1..]) + Matching(codes, b));
      }
    } else {
      assert a + b == b;
    }
  }

  /** The inner loop of `get_rates`: one `Template` per quote with a requested code. */
  function Chunks(codes: seq<string>, quotes: seq<Quote>): string {
    if quotes == [] then ""
    else
      var last := quotes[|quotes| - 1];
      Chunks(codes, quotes[..|quotes| - 1]) + (if last.ccy in codes then Template else "")
  }

  /** A date's text is the template once per matching quote, and nothing for the others. */
  lemma {:induction false} ChunksRepeat(codes: seq<string>, quotes: seq<Quote>)
    ensures Chunks(codes, quotes) == Repeat(Template, |Matching(codes, quotes)|)
  {
    if quotes != [] {
      var init, last := quotes[..|quotes| - 1], quotes[|quotes| - 1];
      assert quotes == init + [last];
      ChunksRepeat(codes, init);
      MatchingAppend(codes, init, [last]);
      assert Matching(codes, [last]) == if last.ccy in codes then [last] else [];
      if last.ccy in codes {
        RepeatAdd(Template, |Matching(codes, init)|, 1);
      } else {
        assert Chunks(codes, quotes) == Chunks(codes, init) + "";
      }
    }
  }

  /**
   * `a + b + c == a + (b + c)`, stated over variables so that the long
   * literal `Template` is not unfolded character by character.
   */
  lemma Associative(a: string, b: string, c: string)
    ensures a + b + c == a + (b + c)
  {
  }

  /** One pass of the inner loop. */
  lemma ChunksStep(codes: seq<string>, quotes: seq<Quote>, j: nat)
    requires j < |quotes|
    ensures Chunks(codes, quotes[..j + 1])
            == Chunks(codes, quotes[..j]) + (if quotes[j].ccy in codes then Template else "")
  {
    assert quotes[..j + 1][..j] == quotes[..j];
  }

  /** `fetch` raises for this reply. */
  predicate Fails(reply: Reply) {
    reply.status != 200 || reply.body.None?
  }

  /** The exception `fetch` (or decoding) raises for a failing reply at `date`. */
  function ErrorOf(date: int, reply: Reply): RateError
    requires Fails(reply)
  {
    if reply.status != 200 then BadStatus(date, reply.status) else Unreadable(date)
  }

  /** One iteration of the outer loop: the date's text, or the error that ends the query. */
  function Harvest(codes: seq<string>, date: int, reply: Reply): Result<string, RateError> {
    if Fails(reply) then Failure(ErrorOf(date, reply))
    else Success(Chunks(codes, reply.body.value))
  }

  // ---------------------------------------------------------------------
  // The whole query

  /** The outcome of the outer loop over `dates`: the texts joined in date order, or the first error. */
  function Collect(codes: seq<string>, dates: seq<int>, fetch: int -> Reply): (r: Result<string, RateError>)
    ensures r.Failure? ==> !r.error.DateOverflow? && r.error.date in dates
  {
    if dates == [] then Success("")
    else
      var last := dates[|dates| - 1];
      match Collect(codes, dates[..|dates| - 1], fetch)
      case Failure(e) => Failure(e)
      case Success(text) =>
        match Harvest(codes, last, fetch(last))
        case Failure(e) => Failure(e)
        case Success(chunk) => Success(text + chunk)
  }

  /** One pass of the outer loop over a date whose lookup succeeds. */
  lemma CollectStep(codes: seq<string>, dates: seq<int>, fetch: int -> Reply, i: nat)
    requires i < |dates| && !Fails(fetch(dates[i]))
    ensures Collect(codes, dates[..i + 1], fetch)
            == match Collect(codes, dates[..i], fetch)
               case Failure(e) => Failure(e)
               case Success(text) => Success(text + Chunks(codes, fetch(dates[i]).body.value))
  {
    assert dates[..i + 1][..i] == dates[..i];
  }

  /** The position of the first date whose lookup raises, or `|dates|` when none does. */
  function FirstFailure(dates: seq<int>, fetch: int -> Reply): (k: nat)
    ensures k <= |dates|
    ensures forall i | 0 <= i < k :: !Fails(fetch(dates[i]))
    ensures k < |dates| ==> Fails(fetch(dates[k]))
  {
    if dates == [] then 0
    else if Fails(fetch(dates[0])) then 0
    else 1 + FirstFailure(dates[1..], fetch)
  }

  /** The dates looked up, in order: up to and including the first failing one. */
  function Requests(dates: seq<int>, fetch: int -> Reply): seq<int> {
    var k := FirstFailure(dates, fetch);
    if k < |dates| then dates[..k + 1] else dates
  }

  /** All quotes of all dates, date by date, each date's quotes in reply order. */
  function AllQuotes(dates: seq<int>, fetch: int -> Reply): seq<Quote> {
    if dates == [] then []
    else
      var reply := fetch(dates[0]);
      (if Fails(reply) then [] else reply.body.value) + AllQuotes(dates[1..], fetch)
  }

  lemma {:induction false} AllQuotesSnoc(dates: seq<int>, fetch: int -> Reply)
    requires dates != []
    ensures var last := fetch(dates[|dates| - 1]);
            AllQuotes(dates, fetch)
            == AllQuotes(dates[..|dates| - 1], fetch) + (if Fails(last) then [] else last.body.value)
  {
    if |dates| > 1 {
      AllQuotesSnoc(dates[1..], fetch);
      assert dates[1..][..|dates[1..]| - 1] == dates[..|dates| - 1][1..];
    }
  }

  /**
   * The query fails exactly when some lookup fails, and then with the error
   * of the first failing date; no partial text survives.
   */
  lemma {:induction false} CollectFailure(codes: seq<string>, dates: seq<int>, fetch: int -> Reply)
    ensures var k := FirstFailure(dates, fetch);
            Collect(codes, dates, fetch)
            == if k < |dates| then Failure(ErrorOf(dates[k], fetch(dates[k]))) else Collect(codes, dates, fetch)
    ensures Collect(codes, dates, fetch).Failure? <==> FirstFailure(dates, fetch) < |dates|
  {
    if dates != [] {
      var init := dates[..|dates| - 1];
      CollectFailure(codes, init, fetch);
      var k, k' := FirstFailure(dates, fetch), FirstFailure(init, fetch);
      if k' < |init| {
        assert k == k' by {
          assert forall i | 0 <= i < k' :: init[i] == dates[i];
        }
      } else {
        assert forall i | 0 <= i < |init| :: init[i] == dates[i];
        assert k >= |init|;
      }
    }
  }

  /**
   * A successful query is the template written once per matching quote,
   * over all dates in order; its length is that count times the template's.
   */
  lemma {:induction false} CollectSuccess(codes: seq<string>, dates: seq<int>, fetch: int -> Reply)
    requires Collect(codes, dates, fetch).Success?
    ensures Collect(codes, dates, fetch).value == Repeat(Template, |Matching(codes, AllQuotes(dates, fetch))|)
    ensures |Collect(codes, dates, fetch).value| == |Matching(codes, AllQuotes(dates, fetch))| * |Template|
  {
    var n := |Matching(codes, AllQuotes(dates, fetch))|;
    if dates != [] {
      var init, last := dates[..|dates| - 1], dates[|dates| - 1];
      CollectSuccess(codes, init, fetch);
      var reply := fetch(last);
      assert !Fails(reply);
      AllQuotesSnoc(dates, fetch);
      MatchingAppend(codes, AllQuotes(init, fetch), reply.body.value);
      ChunksRepeat(codes, reply.body.value);
      RepeatAdd(Template, |Matching(codes, AllQuotes(init, fetch))|, |Matching(codes, reply.body.value)|);
    }
    RepeatLength(Template, n);
  }

  /** What `get_rates(days)` returns on day `today`: the overflow, or the outcome of the lookups. */
  function Query(codes: seq<string>, days: int, today: int, fetch: int -> Reply): Result<string, RateError> {
    if OutOfCalendar(days, today) then Failure(DateOverflow(days))
    else Collect(codes, DateRange(days, today), fetch)
  }

  /** The dates `get_rates(days)` fetches on day `today`, in order. */
  function Lookups(days: int, today: int, fetch: int -> Reply): seq<int> {
    if OutOfCalendar(days, today) then [] else Requests(DateRange(days, today), fetch)
  }

  /**
   * The query overflows exactly when the range steps before day 1, and then
   * nothing is looked up; the lookups themselves never raise an overflow.
   */
  lemma QueryOverflow(codes: seq<string>, days: int, today: int, fetch: int -> Reply)
    ensures Query(codes, days, today, fetch) == Failure(DateOverflow(days)) <==> OutOfCalendar(days, today)
    ensures OutOfCalendar(days, today) ==> Lookups(days, today, fetch) == []
  {
    var dates := DateRange(days, today);
    CollectFailure(codes, dates, fetch);
  }

  /** A day count past the last day of the calendar overflows on every day, with no lookup. */
  lemma QueryBeyondCalendar(codes: seq<string>, today: int, fetch: int -> Reply)
    requires FirstDay <= today <= LastDay
    ensures Query(codes, LastDay + 1, today, fetch) == Failure(DateOverflow(LastDay + 1))
    ensures Lookups(LastDay + 1, today, fetch) == []
  {
  }

  /** Zero or negative `days`: nothing is looked up and the result is empty. */
  lemma NoDaysNoLookups(codes: seq<string>, days: int, today: int, fetch: int -> Reply)
    requires days <= 0
    ensures Query(codes, days, today, fetch) == Success("")
    ensures Lookups(days, today, fetch) == []
  {
  }

  /** A successful query looked up every date of the range, today first. */
  lemma RequestsOnSuccess(codes: seq<string>, dates: seq<int>, fetch: int -> Reply)
    requires Collect(codes, dates, fetch).Success?
    ensures Requests(dates, fetch) == dates
  {
    CollectFailure(codes, dates, fetch);
  }

  /** A failed query looked up nothing after the failing date. */
  lemma RequestsOnFailure(codes: seq<string>, dates: seq<int>, fetch: int -> Reply)
    requires Collect(codes, dates, fetch).Failure?
    ensures var r := Requests(dates, fetch);
            r != [] && r <= dates && Fails(fetch(r[|r| - 1]))
            && (forall i | 0 <= i < |r| - 1 :: !Fails(fetch(r[i])))
            && Collect(codes, dates, fetch).error == ErrorOf(r[|r| - 1], fetch(r[|r| - 1]))
  {
    CollectFailure(codes, dates, fetch);
  }

  /** When the first `i` lookups succeed and lookup `i` fails, the query and its requests end there. */
  lemma FailsAt(codes: seq<string>, dates: seq<int>, fetch: int -> Reply, i: nat)
    requires i < |dates|
    requires forall j | 0 <= j < i :: !Fails(fetch(dates[j]))
    requires Fails(fetch(dates[i]))
    ensures Collect(codes, dates, fetch) == Failure(ErrorOf(dates[i], fetch(dates[i])))
    ensures Requests(dates, fetch) == dates[..i + 1]
  {
    CollectFailure(codes, dates, fetch);
  }

  /** Rates for the configured currency codes (`ExchangeRates` with its HTTP session left out). */
  class ExchangeRates {
    const currencyCodes: seq<string>

    constructor (codes: seq<string>)
      ensures currencyCodes == codes
    {
      currencyCodes := codes;
    }

    /**
     * `get_rates(days)` run at day `today` against the rate source `fetch`.
     * `requested` lists the dates whose URL was fetched, in order.
     */
    method GetRates(days: int, today: int, fetch: int -> Reply)
      returns (result: Result<string, RateError>, requested: seq<int>)
      ensures result == Query(currencyCodes, days, today, fetch)
      ensures requested == Lookups(days, today, fetch)
    {
      if OutOfCalendar(days, today) {
        return Failure(DateOverflow(days)), [];
      }
      result, requested := LookUpDates(DateRange(days, today), fetch);
    }

    /**
     * The `for date in date_range` loop of `get_rates`: look each date up in
     * order, stop at the first failure, and append one chunk per matching quote.
     */
    method LookUpDates(dates: seq<int>, fetch: int -> Reply)
      returns (result: Result<string, RateError>, requested: seq<int>)
      ensures result == Collect(currencyCodes, dates, fetch)
      ensures requested == Requests(dates, fetch)
    {
      var text := "";
      requested := [];
      var i := 0;
      while i < |dates|
        invariant 0 <= i <= |dates|
        invariant Collect(currencyCodes, dates[..i], fetch) == Success(text)
        invariant requested == dates[..i]
        invariant forall j | 0 <= j < i :: !Fails(fetch(dates[j]))
      {
        var date := dates[i];
        requested := requested + [date];
        var reply := fetch(date);
        assert dates[..i + 1][..i] == dates[..i];
        assert requested == dates[..i + 1];
        if reply.status != 200 {
          result := Failure(BadStatus(date, reply.status));
          FailsAt(currencyCodes, dates, fetch, i);
          return;
        }
        if reply.body.None? {
          result := Failure(Unreadable(date));
          FailsAt(currencyCodes, dates, fetch, i);
          return;
        }
        text := AppendChunks(text, reply.body.value);
        CollectStep(currencyCodes, dates, fetch, i);
        i := i + 1;
      }
      assert dates[..i] == dates;
      CollectFailure(currencyCodes, dates, fetch);
      result := Success(text);
    }

    /** The `for currency in response_json` loop: one `Template` per quote with a requested code. */
    method AppendChunks(text: string, quotes: seq<Quote>) returns (text': string)
      ensures text' == text + Chunks(currencyCodes, quotes)
    {
      text' := text;
      var j := 0;
      while j < |quotes|
        invariant 0 <= j <= |quotes|
        invariant text' == text + Chunks(currencyCodes, quotes[..j])
      {
        ChunksStep(currencyCodes, quotes, j);
        if quotes[j].ccy in currencyCodes {
          Associative(text, Chunks(currencyCodes, quotes[..j]), Template);
          text' := text' + Template;
        }
        j := j + 1;
      }
      assert quotes[..j] == quotes;
    }
  }
}