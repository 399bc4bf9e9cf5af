/**
 * How `Server.distrubute` sorts one inbound text (Web_chat/server.py:82-96):
 * a rate query, the greeting, or plain chat.
 */
module Commands {
  import opened Basics
  import opened Text

  /** What one inbound message asks of the server. */
  datatype Command =
    | RateQuery(days: int)      // look up rates for `days` dates and broadcast them
    | Greeting(echo: string)    // broadcast `echo`, then the fixed reply
    | Relay(line: string)       // broadcast `line`

  const ExchangePrefix: string := "exchange"
  const GreetingText: string := "Hi Server"
  /** The fixed reply broadcast after a greeting. */
  const GreetingReply: string := "Привіт мої любі!"

  /** `message.lower().startswith('exchange')` (see `LowerStartsWithIff`). */
  predicate IsExchange(message: string) {
    LowerStartsWith(message, ExchangePrefix)
  }

  /**
   * `int(message.split()[1])`, falling back to 1 when the second token is
   * missing (IndexError) or not an integer (ValueError).
   */
  function DayCount(message: string): (days: int)
    ensures days != 1 ==> |Split(message)| >= 2 && ParseInt(Split(message)[1]) == Some(days)
  {
    var words := Split(message);
    if |words| < 2 then 1
    else match ParseInt(words[1])
      case Some(n) => n
      case None => 1
  }

  /** `"<name>: <message>"`. */
  function Said(name: string, message: string): string {
    name + ": " + message
  }

  /** The branch `distrubute` takes for `message` from the client called `name`. */
  function Classify(name: string, message: string): (c: Command)
    ensures c.RateQuery? <==> IsExchange(message)
    ensures c.Greeting? <==> !IsExchange(message) && message == GreetingText
  {
    if IsExchange(message) then RateQuery(DayCount(message))
    else if message == GreetingText then Greeting(Said(name, message))
    else Relay(Said(name, message))
  }

  /** The exchange test looks at the first eight characters only, ignoring the case of letters. */
  lemma IsExchangeIff(message: string)
    ensures IsExchange(message) <==>
              |message| >= 8 && forall i | 0 <= i < 8 :: LowerChar(message[i]) == ExchangePrefix[i]
  {
    var low := Lower(message);
    LowerAt(message);
    LowerStartsWithIff(message, ExchangePrefix);
    StartsWithIff(low, ExchangePrefix);
    if |message| >= 8 && forall i | 0 <= i < 8 :: LowerChar(message[i]) == ExchangePrefix[i] {
      assert low[..8] == ExchangePrefix;
    }
  }

  /** Two messages that agree up to the case of letters are both queries or both not. */
  lemma IsExchangeIgnoresCase(a: string, b: string)
    requires |a| == |b| && forall i | 0 <= i < |a| :: LowerChar(a[i]) == LowerChar(b[i])
    ensures IsExchange(a) == IsExchange(b)
  {
    IsExchangeIff(a);
    IsExchangeIff(b);
  }

  /** The prefix may be written in any case. */
  lemma ExchangeInCapitals()
    ensures IsExchange("EXCHANGE 3")
  {
    IsExchangeIff("EXCHANGE 3");
  }

  lemma ExchangeInMixedCase()
    ensures IsExchange("ExChAnGe")
  {
    IsExchangeIff("ExChAnGe");
  }

  /** Anything may follow the prefix, even letters. */
  lemma ExchangeFollowedByLetters()
    ensures IsExchange("exchanged")
  {
    IsExchangeIff("exchanged");
  }

  /** A message shorter than the prefix is not a query. */
  lemma ExchangeTooShort()
    ensures !IsExchange("exchang")
  {
    IsExchangeIff("exchang");
  }

  /** Leading whitespace is not skipped. */
  lemma ExchangeAfterSpace()
    ensures !IsExchange(" exchange")
  {
    IsExchangeIff(" exchange");
    assert LowerChar(" exchange"[0]) == ' ';
  }

  /**
   * A query word followed by whitespace and an integer of at most
   * `MaxStrDigits` digits asks for that many days, whatever tokens come after.
   */
  lemma DayCountReadsSecondToken(first: string, sp: string, n: int, rest: seq<string>)
    requires IsWord(first)
    requires |ShowNat(if n < 0 then -n else n)| <= MaxStrDigits
    requires sp != [] && forall i | 0 <= i < |sp| :: IsSpace(sp[i])
    requires forall k | 0 <= k < |rest| :: IsWord(rest[k])
    ensures DayCount(first + sp + Unsplit([ShowInt(n)] + rest)) == n
  {
    ShowIntIsWord(n);
    var tail := [ShowInt(n)] + rest;
    assert forall k | 0 <= k < |tail| :: IsWord(tail[k]);
    SplitUnsplit(tail);
    SplitCons(first, sp, Unsplit(tail));
    ParseShowInt(n);
  }

  /** The day count of two words is read from the second alone. */
  lemma DayCountOfPair(first: string, second: string)
    requires IsWord(first) && IsWord(second)
    ensures DayCount(first + " " + second) == match ParseInt(second) case Some(n) => n case None => 1
  {
    SplitCons(first, " ", second);
    SplitWord(second);
  }

  /** `exchange abc` falls back to one day. */
  lemma DayCountNonNumeric()
    ensures DayCount("exchange abc") == 1
  {
    assert IsWord("exchange") && IsWord("abc");
    DayCountOfPair("exchange", "abc");
    assert "exchange" + " " + "abc" == "exchange abc";
    assert !IsDigit("abc"[0]);
  }

  /** A bare `exchange` falls back to one day. */
  lemma DayCountMissing()
    ensures DayCount("exchange") == 1
  {
    SplitWord("exchange");
  }

  /**
   * A second token of more than `MaxStrDigits` digits makes `int` raise,
   * so the query falls back to one day.
   */
  lemma DayCountTooManyDigits(digits: string)
    requires |digits| > MaxStrDigits && forall i | 0 <= i < |digits| :: IsDigit(digits[i])
    ensures DayCount("exchange " + digits) == 1
  {
    assert IsWord("exchange");
    assert IsWord(digits) by {
      forall i | 0 <= i < |digits| ensures !IsSpace(digits[i]) {
        assert IsDigit(digits[i]);
      }
    }
    DayCountOfPair("exchange", digits);
    assert "exchange" + " " + digits == "exchange " + digits;
    ParseIntTooManyDigits(digits);
    assert !IsDigit('+') && !IsDigit('-');
  }

  /** `int` accepts underscores between digits, so `exchange 1_0` asks for ten days. */
  lemma DayCountUnderscore()
    ensures DayCount("exchange 1_0") == 10
  {
    var t := "1_0";
    assert IsWord("exchange") && IsWord(t);
    DayCountOfPair("exchange", t);
    assert "exchange" + " " + t == "exchange 1_0";
    assert IsNumeral(t);
    assert t[..2] == "1_" && "1_"[..1] == "1" && "1"[..0] == [];
    assert NumeralValue("1") == 1;
    assert NumeralValue("1_") == 1;
    assert NumeralValue(t) == 10;
  }

  /** Sending `exchange N` yields a query for exactly N days, when N has at most `MaxStrDigits` digits. */
  lemma ClassifyQuery(name: string, n: int)
    requires |ShowNat(if n < 0 then -n else n)| <= MaxStrDigits
    ensures Classify(name, ExchangePrefix + " " + ShowInt(n)) == RateQuery(n)
  {
    var m := ExchangePrefix + " " + ShowInt(n);
    IsExchangeIff(m);
    DayCountReadsSecondToken(ExchangePrefix, " ", n, []);
    assert Unsplit([ShowInt(n)] + []) == ShowInt(n);
  }

  /** The exact greeting is echoed with the sender's name. */
  lemma ClassifyGreeting(name: string)
    ensures Classify(name, GreetingText) == Greeting(name + ": Hi Server")
  {
    IsExchangeIff(GreetingText);
  }

  /**
   * Exactly the messages that are neither queries nor the greeting are
   * relayed, and the relayed line gives back the sender's name and the
   * message unchanged.
   */
  lemma ClassifyRelay(name: string, message: string)
    ensures Classify(name, message).Relay? <==> !IsExchange(message) && message != GreetingText
    ensures Classify(name, message).Relay? ==>
              var line := Classify(name, message).line;
              |line| == |name| + 2 + |message| && line[..|name|] == name
              && line[|name|..|name| + 2] == ": " && line[|name| + 2..] == message
  {
    if Classify(name, message).Relay? {
      var line := Classify(name, message).line;
      assert line == name + ": " + message;
      assert line[..|name|] == name;
      assert line[|name|..|name| + 2] == ": ";
      assert line[|name| + 2..] == message;
    }
  }

  /** The greeting is case-sensitive. */
  lemma GreetingIsCaseSensitive(name: string)
    ensures Classify(name, "hi server") == Relay(name + ": hi server")
  {
    IsExchangeIff("hi server");
  }
}
