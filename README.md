# Web chat relay with exchange-rate lookups, modelled in Dafny

`Web_chat/server.py` is a websocket chat server. Every connection is
registered under a display name. Every text a client sends is handled in
one of three ways:

- a text starting with `exchange` (in any case) asks for the PrivatBank
  cash rates of USD and EUR over the last N days. N is the second
  whitespace-separated word, or 1 when that word is missing or not an
  integer. The result is broadcast to every client and appended, with a
  timestamp, to `chat.log`;
- the exact text `Hi Server` is echoed with the sender's name, then
  answered with a fixed reply;
- any other text is relayed to everyone as `"<name>: <text>"`.

The model has five modules:

- `Basics`: `Option` and `Result`.
- `Text`: the three Python string operations the router uses, with proved
  laws. They are `str.lower` (`Lower`), `str.split()` (`Split`, with
  `Unsplit` as its partner) and `int(...)` on a string (`ParseInt`, with
  `ShowInt` as its partner).
- `Commands`: the pure branch selection of `distrubute`, as
  `Classify(name, message)`, and the day count `DayCount`.
- `Rates`: `ExchangeRates.get_rates`. A class `ExchangeRates` has a method
  `GetRates` with the source's nested loops. The method is proved equal to
  the specification `Query`: an overflowing date range, or else the
  recursive `Collect` over the dates. Lemmas about them state when the
  range overflows, which dates are looked up, what text comes out and when
  the lookup fails.
- `Chat`: the class `Server`. It has the registry `clients`, the name each
  connection was given, one outbox per connection, and the log. Its methods
  are `Register`, `Unregister`, `SendToClients`, `Dispatch` (one pass of
  the receive loop, split into `ShareRates` and `Greet` for two of its
  branches), `Distribute` and `WsHandler`. What a session does when every
  send succeeds is also given as a function, `Play`, over the stream of
  texts. `Distribute` and `WsHandler` are proved against it.
The environment is passed in as parameters:

- the rate source, as an oracle from a day number to a `Reply`: `GetRates`
  takes it as `fetch`, and in a session each inbound text carries the
  replies as they are while it is handled (`Inbound.rates`), so two queries
  may see different rates for the same day;
- which connections fail when sent to while each inbound text is handled,
  as `fault(i)` for the `i`-th text, so a peer may close part-way through a
  session;
- how the inbound stream ends (`end`);
- the clock readings taken while a text is handled (`Inbound.today`, a day
  number with 0001-01-01 as day 1, and `Inbound.stamp`).

The model follows the code where a tidier design would differ:

- The text appended per matching rate record (`Web_chat/server.py:45`) is
  a plain string literal, not an f-string. So every matching record
  contributes the same `Template`, with its `{...}` placeholders left as
  they are.
- `DATE_RANGE` is declared but never read. The only bound on the day count
  is the calendar: a count that reaches back before 0001-01-01 makes
  `today - timedelta(days=x)` raise `OverflowError` while the date list is
  built, before any lookup. A zero or negative count gives no lookups and
  an empty result.
- `int` refuses a numeral of more than 4300 digits (CPython's default
  limit), and the bare `except` turns that into one day.
- A failing send to any client raises out of `send_to_clients`, and the
  remaining clients are skipped.
- A failed rate query (an overflowing range, a status other than 200, or a
  body that does not decode to rate records) raises out of `distrubute`
  and ends the session. `ws_handler` catches only `ConnectionClosedOK`; it
  unregisters the connection in `finally` and lets every other exception
  through.
- A `ConnectionClosedOK` raised while sending to *another* client ends the
  sender's session silently, because `ws_handler` swallows it.

A design that would bound the day count at ten, skip failed recipients, or
keep a session alive after a failed lookup disagrees with the code on these
points. The model does what the code does.

## Model

| member | source | states |
|---|---|---|
| Text.LowerAt | Web_chat/server.py:82 | lowering keeps the length and lowers each character on its own |
| Text.StartsWithIff | Web_chat/server.py:82 | `startswith` holds if and only if the prefix is an initial segment of the text |
| Text.LowerStartsWithIff | Web_chat/server.py:82 | testing the prefix while lowering character by character agrees with `s.lower().startswith(prefix)` |
| Text.SplitWords | Web_chat/server.py:84 | every token `split()` yields is non-empty and free of whitespace |
| Text.SplitFromWords | Web_chat/server.py:84 | the tokens of the split scan are whitespace-free, given a whitespace-free token in progress |
| Text.SplitFromSkip | Web_chat/server.py:84 | non-whitespace characters extend the token being read |
| Text.SplitFromSpaces | Web_chat/server.py:84 | whitespace between tokens is skipped by the split scan |
| Text.SplitSkipsSpace | Web_chat/server.py:84 | leading whitespace does not change the result of `split()` |
| Text.SplitCons | Web_chat/server.py:84 | a word, whitespace and more text split into that word followed by the split of the rest |
| Text.SplitWord | Web_chat/server.py:84 | a single word splits into itself |
| Text.SplitUnsplit | Web_chat/server.py:84 | splitting words joined by single spaces gives back exactly those words |
| Text.DigitsAreNumeral | Web_chat/server.py:84 | a non-empty run of decimal digits is accepted as an integer numeral |
| Text.NumeralShape | Web_chat/server.py:84 | an accepted numeral holds only digits and underscores and ends in a digit |
| Text.DigitCountOfDigits | Web_chat/server.py:84 | in a run of digits every character counts towards the digit limit |
| Text.ParseIntTooManyDigits | Web_chat/server.py:84-86 | a run of more than 4300 digits is refused by `int`, however well formed |
| Text.ShowNat | Web_chat/server.py:84 | the decimal form of a natural number is non-empty and all digits |
| Text.NumeralValueShowNat | Web_chat/server.py:84 | reading back the decimal form of a natural number gives that number |
| Text.ParseShowInt | Web_chat/server.py:84 | `int(str(n)) == n` for every integer of at most 4300 digits, negative ones included |
| Text.ShowIntIsWord | Web_chat/server.py:84 | `str(n)` is a single `split()` token |
| Text.ParseIntAccepts | Web_chat/server.py:84 | whatever `int` accepts is a sign and digits with underscores, ending in a digit, with at most 4300 digits |
| Commands.DayCount | Web_chat/server.py:83-86 | any day count other than the fallback 1 is the value `int` reads from the second token |
| Commands.Classify | Web_chat/server.py:82-96 | a text is a rate query exactly when it passes the `exchange` test, and the greeting exactly when it fails that test and is `Hi Server` |
| Commands.IsExchangeIff | Web_chat/server.py:82 | a text is a rate query if and only if its first eight characters, lowered, are `exchange` |
| Commands.IsExchangeIgnoresCase | Web_chat/server.py:82 | two texts equal up to letter case are both rate queries or both not |
| Commands.ExchangeInCapitals | Web_chat/server.py:82 | `EXCHANGE 3` is a rate query |
| Commands.ExchangeInMixedCase | Web_chat/server.py:82 | `ExChAnGe` is a rate query |
| Commands.ExchangeFollowedByLetters | Web_chat/server.py:82 | `exchanged` is a rate query: anything may follow the prefix |
| Commands.ExchangeTooShort | Web_chat/server.py:82 | `exchang` is not a rate query |
| Commands.ExchangeAfterSpace | Web_chat/server.py:82 | leading whitespace is not skipped: ` exchange` is not a rate query |
| Commands.DayCountReadsSecondToken | Web_chat/server.py:83-86 | a word, whitespace, an integer of at most 4300 digits and any further words ask for exactly that integer's days |
| Commands.DayCountOfPair | Web_chat/server.py:83-86 | the day count of two words is the second word's value, or 1 when it is not an integer |
| Commands.DayCountNonNumeric | Web_chat/server.py:83-86 | `exchange abc` asks for one day |
| Commands.DayCountMissing | Web_chat/server.py:83-86 | a bare `exchange` asks for one day |
| Commands.DayCountTooManyDigits | Web_chat/server.py:83-86 | `exchange` followed by more than 4300 digits asks for one day, since `int` raises |
| Commands.DayCountUnderscore | Web_chat/server.py:84 | `exchange 1_0` asks for ten days, since `int` accepts underscores between digits |
| Commands.ClassifyQuery | Web_chat/server.py:82-86 | `exchange N` is a rate query for exactly N days, for every integer N of at most 4300 digits |
| Commands.ClassifyGreeting | Web_chat/server.py:92-93 | the exact greeting is echoed as `"<name>: Hi Server"` |
| Commands.ClassifyRelay | Web_chat/server.py:95-96 | exactly the texts that are neither queries nor the greeting are relayed, and the relayed line is the name, `": "` and the text unchanged |
| Commands.GreetingIsCaseSensitive | Web_chat/server.py:92-96 | `hi server` is not the greeting and is relayed as chat |
| Rates.DateRange | Web_chat/server.py:35-36 | there are `max(days, 0)` dates, and the x-th is today − x |
| Rates.DateRangeDescends | Web_chat/server.py:35-36 | the dates start at today and strictly descend |
| Rates.DateRangeInCalendar | Web_chat/server.py:35-36 | when the range does not overflow, every date in it is a calendar day, 0001-01-01 or later |
| Rates.DateRangeUnbounded | Web_chat/server.py:19 | from the eleventh day of the calendar on, eleven days give eleven dates: `DATE_RANGE` bounds nothing |
| Rates.RepeatAdd | Web_chat/server.py:44-46 | the template written m times and then n times is the template written m + n times |
| Rates.RepeatLength | Web_chat/server.py:44-46 | the template written n times is n times as long |
| Rates.MatchingMembers | Web_chat/server.py:42-43 | a record is selected if and only if it was returned and its code is among the requested codes |
| Rates.MatchingAppend | Web_chat/server.py:42-43 | records are selected one date after another, in response order |
| Rates.ChunksRepeat | Web_chat/server.py:42-46 | one date contributes the template once per matching record |
| Rates.Collect | Web_chat/server.py:37-46 | the loop over the dates fails only with a lookup error, never an overflow, and only at a date of the range |
| Rates.FirstFailure | Web_chat/server.py:30-41 | the first date whose lookup fails: every earlier one succeeds |
| Rates.AllQuotesSnoc | Web_chat/server.py:38-42 | the records seen over the dates are those of the earlier dates, then those of the last |
| Rates.CollectFailure | Web_chat/server.py:30-41 | the loop fails if and only if some lookup fails, with the error of the first failing date |
| Rates.CollectSuccess | Web_chat/server.py:37-47 | a successful result is the template once per matching record over all dates, of length matches × template length |
| Rates.QueryOverflow | Web_chat/server.py:35-36 | `get_rates` raises `OverflowError` exactly when the range reaches before day 1, and then nothing is looked up |
| Rates.QueryBeyondCalendar | Web_chat/server.py:35-36 | a day count beyond the last day of the calendar overflows on every day, with no lookup |
| Rates.NoDaysNoLookups | Web_chat/server.py:35-38 | zero or negative days look nothing up and give the empty text |
| Rates.RequestsOnSuccess | Web_chat/server.py:38-40 | a successful loop looked up every date, today first |
| Rates.RequestsOnFailure | Web_chat/server.py:30-41 | a failed loop looked up nothing after the failing date, and its error is that date's |
| Rates.FailsAt | Web_chat/server.py:30-41 | when lookup i is the first to fail, the loop fails with its error and dates after it are not looked up |
| Rates.ExchangeRates.constructor | Web_chat/server.py:21-23 | the rate source keeps the currency codes it is given |
| Rates.ExchangeRates.GetRates | Web_chat/server.py:34-47 | `get_rates` returns `Query`: the overflow when the range reaches before day 1, otherwise the outcome of the loop; it fetches exactly `Lookups` |
| Rates.ExchangeRates.LookUpDates | Web_chat/server.py:37-46 | the loop over the dates computes `Collect` and fetches exactly the dates up to the first failure |
| Rates.ExchangeRates.AppendChunks | Web_chat/server.py:42-46 | the loop over one reply's records appends that reply's chunks |
| Chat.LogEntryReadsBack | Web_chat/server.py:90-91 | the logged block is the stamp, `:` and a newline, the broadcast text unchanged, and a closing newline |
| Chat.DeliverConcat | Web_chat/server.py:67-69 | two broadcasts to the same clients deliver both messages, in order |
| Chat.DeliverNothing | Web_chat/server.py:67-69 | broadcasting nothing changes no outbox |
| Chat.FirstFault | Web_chat/server.py:67-69 | the first text during which a registered connection fails: during every earlier one, all sends succeed |
| Chat.React | Web_chat/server.py:82-96 | a text broadcasts one or two lines and logs at most one block; only a rate query can log or raise |
| Chat.ReactionsAt | Web_chat/server.py:81 | there is one reaction per inbound text, the reaction to that text |
| Chat.ReactionsLength | Web_chat/server.py:81 | there are as many reactions as texts |
| Chat.ReactionsAppend | Web_chat/server.py:81 | the reactions to two streams one after the other are the two lists of reactions joined |
| Chat.Swallow | Web_chat/server.py:75-76 | a session ends normally exactly when `distrubute` returned or raised `ConnectionClosedOK`; any other exception passes unchanged |
| Chat.CleanCloseSwallowed | Web_chat/server.py:67-76 | when every failing recipient closed cleanly, the handler returns normally |
| Chat.BrokenCloseRaised | Web_chat/server.py:67-76 | when every failing recipient broke, the handler raises `ConnectionClosedError` |
| Chat.FoldStops | Web_chat/server.py:81-87 | once a lookup has failed, later texts are not handled |
| Chat.FoldAppend | Web_chat/server.py:81-96 | a session without failure followed by another gives both transcripts joined |
| Chat.PlayAppend | Web_chat/server.py:81-96 | sessions compose: the second part of a stream continues where the first left off, unless the first failed |
| Chat.PlayStopsAt | Web_chat/server.py:81-87 | after the text whose rate query failed, the texts that follow change nothing |
| Chat.HandledStep | Web_chat/server.py:81-96 | a text handled without raising, before any recipient failed, extends the outboxes and the log exactly as `Play` does |
| Chat.RaiseEndsSession | Web_chat/server.py:81-96 | a text that raises before any earlier recipient failed ends the session on its rate error or on a recipient's close |
| Chat.RateErrorEndsSession | Web_chat/server.py:81-91 | a failed rate query before any recipient failed ends the session with the outboxes and log `Play` gives |
| Chat.ReactGreeting | Web_chat/server.py:92-94 | the greeting broadcasts `"<name>: Hi Server"`, then the fixed reply, and logs nothing |
| Chat.ReactQuery | Web_chat/server.py:82-91 | a rate query aborts exactly when the range overflows or a lookup fails; otherwise it broadcasts the template once per matching record and logs exactly that text, stamped |
| Chat.ReactRelay | Web_chat/server.py:95-96 | any text that is neither a query nor the greeting makes exactly one broadcast, `"<name>: <text>"`, and logs nothing |
| Chat.ReactWithoutQuery | Web_chat/server.py:92-96 | a text that is not a query broadcasts one or two lines and logs nothing |
| Chat.PlayWithoutQueries | Web_chat/server.py:81-96 | without rate queries a session never fails, logs nothing, and broadcasts one or two lines per text |
| Chat.Server.constructor | Web_chat/server.py:53-56 | a new server has no clients, an empty log, and rates for USD and EUR |
| Chat.Server.Register | Web_chat/server.py:58-61 | the connection is added to the registry and given its name; nothing else changes |
| Chat.Server.Unregister | Web_chat/server.py:63-65 | the connection is removed; removing an absent one raises and changes nothing |
| Chat.Server.SendToClients | Web_chat/server.py:67-69 | every reached client gets exactly one copy and no one else gets anything; it succeeds if and only if no client fails, and otherwise raises that client's close |
| Chat.Server.Dispatch | Web_chat/server.py:81-96 | one text is `Handled`: a rate error raises before anything is sent; otherwise every broadcast reaches every client and the log grows, or a failing recipient's close is raised from the first broadcast, which reached only clients whose sends succeed, and the log is left alone |
| Chat.Server.ShareRates | Web_chat/server.py:87-91 | the rate text is broadcast before it is logged; a failed query raises before any broadcast or log write; a failing recipient's close is raised, the rate text reached only clients whose sends succeed, and nothing is logged |
| Chat.Server.Greet | Web_chat/server.py:92-94 | the echo, then the fixed reply, reach every client; a failing recipient interrupts the echo, which reached only clients whose sends succeed, and its close is raised |
| Chat.Server.Distribute | Web_chat/server.py:80-96 | `SessionRun`: up to the first text during which a recipient fails, the outboxes and log follow `Play`, ending as the stream or the first failed query ends it; that text then raises its rate error or a failing recipient's close, after a first broadcast that reached only clients whose sends succeed; each text's query sees the rates as they are when it is handled |
| Chat.Server.WsHandler | Web_chat/server.py:71-78 | the connection is registered for the session and unregistered afterwards; the session runs as `SessionRun` says, and the result is `Swallow` of how it ended |

## Left out

- The websocket transport, the asyncio event loop and `main`. The inbound stream is a sequence handled one text at a time. Concurrent sessions mutating the shared `clients` set while it is being iterated are not modelled.
- The order in which `send_to_clients` visits the set is chosen nondeterministically; the model does not fix Python's set iteration order.
- A connection's state (`fault(i)`) is fixed while one inbound text is handled: a recipient that closes between the greeting's echo and its reply is not modelled, only one that fails from some text on.
- The aiohttp session, `create_session`, `close`, the HTTP GET and URL building with `strftime`. They are replaced by an oracle that gives each day number's status and decoded body: `fetch` for `GetRates`, `Inbound.rates` for the text being handled.
- `json.loads` and record access: a body that does not decode to records carrying a `ccy` field is `None` and raises `Unreadable`. The `sale` and `buy` fields are opaque text.
- `datetime.now` and `timedelta`: dates are integer day numbers, and the log timestamp is an opaque string carried by each inbound text. `Inbound.today` is not constrained to the calendar (days 1 to 3652059); a real clock reading always is.
- `names.get_full_name`: the display name is a parameter of `WsHandler` and `Register`.
- Writing `chat.log` through aiofile, and the `logging` calls: the log is an append-only sequence field, and the `remote_address` messages are not modelled.
- `clients` as a class attribute shared by every `Server` instance: each modelled server has its own registry.
- Text.Lower: lowers only A–Z, where Python lowers all of Unicode. No other character lowers into a letter of `exchange`, so the rate-query test is unaffected.
- Text.ParseInt: accepts ASCII digits only, where Python's `int` also accepts other Unicode decimal digits. With such digits the model falls back to one day where Python would parse the number. The digit limit is CPython's default of 4300 (Python 3.11 on); a Python without the limit, or one where `sys.set_int_max_str_digits` changed it, reads longer numerals.
- Binary frames: the inbound stream is a sequence of strings. A binary frame would make `message.lower().startswith('exchange')` raise `TypeError` and end the session; that path is not modelled.
- run.py is not part of this model: it is a script that fetches a fixed ten days and prints matching lines.
