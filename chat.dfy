/**
 * The chat server of Web_chat/server.py:53-96 with the transport erased:
 * a registry of connections with display names, a fan-out that appends a
 * message to every registered connection's outbox, and the per-session
 * handler that registers, dispatches each inbound text and unregisters.
 *
 * What the environment decides is passed in: which connections fail when
 * sent to while each inbound text is handled (`fault`), how the inbound
 * stream ends (`end`), and, carried by each inbound text, the clock and
 * the rate source's replies as they are while that text is handled
 * (`Inbound.today`, `Inbound.stamp`, `Inbound.rates`).
 */
module Chat {
  import opened Basics
  import opened Commands
  import opened Rates

  /** A connection handle: the identity of one websocket. */
  type Conn = nat

  /** How a connection was closed: cleanly (`ConnectionClosedOK`) or not (`ConnectionClosedError`). */
  datatype CloseKind = ClosedOK | ClosedError

  /** The exceptions that can leave a session. */
  datatype Exc =
    | Closed(kind: CloseKind)    // a send to a closed connection, or a broken receive
    | RateLookup(err: RateError) // `get_rates` raised
    | NotRegistered              // `clients.remove` of an absent connection (KeyError)

  datatype Outcome = Done | Raised(exc: Exc)

  /**
   * One inbound text, with what the environment gives while it is handled:
   * the day number and the formatted time read from the clock, and the rate
   * source's reply for each day number, as `get_rates` would fetch it then.
   */
  datatype Inbound = Inbound(text: string, today: int, stamp: string, rates: int -> Reply)

  /** The block appended to `chat.log` for one rate query. */
  function LogEntry(stamp: string, result: string): string {
    stamp + ":\n" + result + "\n"
  }

  /** The logged block holds the stamp, then the broadcast text unchanged, then a closing newline. */
  lemma LogEntryReadsBack(stamp: string, result: string)
    ensures var entry := LogEntry(stamp, result);
            |entry| == |stamp| + |result| + 3
            && entry[..|stamp|] == stamp && entry[|stamp|..|stamp| + 2] == ":\n"
            && entry[|stamp| + 2..|entry| - 1] == result && entry[|entry| - 1] == '\n'
  {
  }

  function Deliver(box: map<Conn, seq<string>>, to: set<Conn>, messages: seq<string>): map<Conn, seq<string>> {
    map c | c in box :: if c in to then box[c] + messages else box[c]
  }

  lemma DeliverConcat(box: map<Conn, seq<string>>, to: set<Conn>, a: seq<string>, b: seq<string>)
    ensures Deliver(Deliver(box, to, a), to, b) == Deliver(box, to, a + b)
  {
    var lhs, rhs := Deliver(Deliver(box, to, a), to, b), Deliver(box, to, a + b);
    assert forall c | c in box && c in to :: box[c] + a + b == box[c] + (a + b);
    assert lhs.Keys == rhs.Keys;
  }

  lemma DeliverNothing(box: map<Conn, seq<string>>, to: set<Conn>)
    ensures Deliver(box, to, []) == box
  {
    assert forall c | c in box :: box[c] + [] == box[c];
  }

  /** No registered connection fails when sent to. */
  predicate Healthy(clients: set<Conn>, fault: Conn -> Option<CloseKind>) {
    forall c | c in clients :: fault(c).None?
  }

  /** `res` is the close raised by a send to one of `clients` that fails. */
  predicate ClosedBy(res: Outcome, clients: set<Conn>, fault: Conn -> Option<CloseKind>) {
    res.Raised? && res.exc.Closed? && exists c | c in clients :: fault(c) == Some(res.exc.kind)
  }

  /**
   * The first of the first `n` texts during which some connection of
   * `clients` fails when sent to (`fault(i)` gives the connections' state
   * while text `i` is handled), or `n` when there is none.
   */
  function FirstFault(clients: set<Conn>, n: nat, fault: nat -> Conn -> Option<CloseKind>): (k: nat)
    ensures k <= n
    ensures forall i | 0 <= i < k :: Healthy(clients, fault(i))
    ensures k < n ==> !Healthy(clients, fault(k))
  {
    if n == 0 then 0
    else
      var k := FirstFault(clients, n - 1, fault);
      if k < n - 1 || !Healthy(clients, fault(n - 1)) then k else n
  }

  // ---------------------------------------------------------------------
  // What a session does when every send succeeds

  /** The effect of one inbound text: broadcasts and log entries, in order, or the rate error it raised. */
  datatype Reaction = Reaction(broadcasts: seq<string>, entries: seq<string>) | Aborted(err: RateError)

  function React(codes: seq<string>, name: string, m: Inbound): (r: Reaction)
    ensures r.Reaction? ==> 1 <= |r.broadcasts| <= 2 && |r.entries| <= 1
    ensures r.Aborted? || r.entries != [] ==> IsExchange(m.text)
  {
    match Classify(name, m.text)
    case RateQuery(days) => QueryReaction(codes, days, m)
    case Greeting(echo) => Reaction([echo, GreetingReply], [])
    case Relay(line) => Reaction([line], [])
  }

  /** A rate query broadcasts the rates and logs them, stamped, or aborts with the error of `get_rates`. */
  function QueryReaction(codes: seq<string>, days: int, m: Inbound): Reaction {
    match Query(codes, days, m.today, m.rates)
    case Success(result) => Reaction([result], [LogEntry(m.stamp, result)])
    case Failure(e) => Aborted(e)
  }

  /** The first broadcast a message makes, if any: the one a failing recipient interrupts. */
  function Lead(r: Reaction): seq<string> {
    if r.Reaction? && r.broadcasts != [] then r.broadcasts[..1] else []
  }

  /**
   * How handling one text whose reaction is `r` can leave things, with
   * `clients` registered and `fault` their state: a rate error raises
   * before anything is sent; otherwise every broadcast reaches every client
   * and the log grows, or, when some recipient fails, its close is raised
   * from the first broadcast, which reached some clients, and the log is
   * left alone.
   */
  ghost predicate Handled(r: Reaction, clients: set<Conn>, fault: Conn -> Option<CloseKind>,
                          box0: map<Conn, seq<string>>, log0: seq<string>,
                          res: Outcome, box: map<Conn, seq<string>>, log: seq<string>)
  {
    match r
    case Aborted(e) =>
      res == Raised(RateLookup(e)) && box == box0 && log == log0
    case Reaction(bs, es) =>
      if Healthy(clients, fault) then
        res == Done && box == Deliver(box0, clients, bs) && log == log0 + es
      else
        ClosedBy(res, clients, fault) && log == log0
        && exists reached | reached <= clients && Healthy(reached, fault) :: box == Deliver(box0, reached, Lead(r))
  }

  /** Everything broadcast and logged over a stream of texts, and the rate error that ended it, if any. */
  datatype Transcript = Transcript(broadcasts: seq<string>, entries: seq<string>, failure: Option<RateError>)

  /** The transcript of a stream of reactions: stop at the first aborted one. */
  function Fold(rs: seq<Reaction>): Transcript {
    if rs == [] then Transcript([], [], None)
    else
      var t := Fold(rs[..|rs| - 1]);
      if t.failure.Some? then t
      else match rs[|rs| - 1]
        case Aborted(e) => Transcript(t.broadcasts, t.entries, Some(e))
        case Reaction(bs, es) => Transcript(t.broadcasts + bs, t.entries + es, None)
  }

  /** The reaction to each inbound text, in order. */
  function Reactions(codes: seq<string>, name: string, inbox: seq<Inbound>): seq<Reaction> {
    if |inbox| == 0 then []
    else Reactions(codes, name, inbox[..|inbox| - 1]) + [React(codes, name, inbox[|inbox| - 1])]
  }

  /** There is one reaction per text, the reaction to that text. */
  lemma {:induction false} ReactionsAt(codes: seq<string>, name: string, inbox: seq<Inbound>, i: nat)
    requires i < |inbox|
    ensures |Reactions(codes, name, inbox)| == |inbox|
    ensures Reactions(codes, name, inbox)[i] == React(codes, name, inbox[i])
  {
    var n := |inbox| - 1;
    if i < n {
      ReactionsAt(codes, name, inbox[..n], i);
    } else {
      ReactionsLength(codes, name, inbox[..n]);
    }
  }

  lemma {:induction false} ReactionsLength(codes: seq<string>, name: string, inbox: seq<Inbound>)
    ensures |Reactions(codes, name, inbox)| == |inbox|
  {
    if inbox != [] {
      ReactionsLength(codes, name, inbox[..|inbox| - 1]);
    }
  }

  lemma {:induction false} ReactionsAppend(codes: seq<string>, name: string, a: seq<Inbound>, b: seq<Inbound>)
    ensures Reactions(codes, name, a + b) == Reactions(codes, name, a) + Reactions(codes, name, b)
  {
    if b == [] {
      assert a + b == a;
    } else {
      var ab, front := a + b, b[..|b| - 1];
      assert ab[..|ab| - 1] == a + front;
      assert ab[|ab| - 1] == b[|b| - 1];
      var last := [React(codes, name, b[|b| - 1])];
      assert Reactions(codes, name, ab) == Reactions(codes, name, a + front) + last;
      assert Reactions(codes, name, b) == Reactions(codes, name, front) + last;
      ReactionsAppend(codes, name, a, front);
    }
  }

  /** What a session of `name` does over `inbox` when every send succeeds. */
  function Play(codes: seq<string>, name: string, inbox: seq<Inbound>): Transcript {
    Fold(Reactions(codes, name, inbox))
  }

  /** How `distrubute` ends: by the rate error, by a broken receive, or normally. */
  function SessionOutcome(t: Transcript, end: CloseKind): Outcome {
    if t.failure.Some? then Raised(RateLookup(t.failure.value))
    else if end == ClosedError then Raised(Closed(ClosedError))
    else Done
  }

  /** `except ConnectionClosedOK: pass`. */
  function Swallow(o: Outcome): (r: Outcome)
    ensures r.Done? <==> o.Done? || o == Raised(Closed(ClosedOK))
    ensures r.Raised? ==> r == o
  {
    if o == Raised(Closed(ClosedOK)) then Done else o
  }

  /**
   * `ws_handler` after a send failed: when every failing connection closed
   * cleanly, the handler returns normally.
   */
  lemma CleanCloseSwallowed(raised: Outcome, clients: set<Conn>, fault: Conn -> Option<CloseKind>)
    requires ClosedBy(raised, clients, fault)
    requires forall c | c in clients :: fault(c) != Some(ClosedError)
    ensures Swallow(raised) == Done
  {
    var c :| c in clients && fault(c) == Some(raised.exc.kind);
    assert raised.exc.kind == ClosedOK;
    assert raised == Raised(Closed(ClosedOK));
  }

  /** When every failing connection broke, the handler raises `ConnectionClosedError`. */
  lemma BrokenCloseRaised(raised: Outcome, clients: set<Conn>, fault: Conn -> Option<CloseKind>)
    requires ClosedBy(raised, clients, fault)
    requires forall c | c in clients :: fault(c) != Some(ClosedOK)
    ensures Swallow(raised) == Raised(Closed(ClosedError))
  {
    var c :| c in clients && fault(c) == Some(raised.exc.kind);
    assert raised.exc.kind == ClosedError;
    assert raised == Raised(Closed(ClosedError));
  }

  /**
   * How `distrubute` over `inbox`, run while `clients` are registered, can
   * leave things: `res` is its outcome, `box0` and `log0` the outboxes and
   * log before, `box` and `log` after. Up to the first text during which a
   * recipient fails, everything follows `Play`; that text then either
   * raises its rate error untouched or has its first broadcast cut short
   * by a recipient's close.
   */
  ghost predicate SessionRun(codes: seq<string>, name: string, inbox: seq<Inbound>, end: CloseKind,
                             fault: nat -> Conn -> Option<CloseKind>, clients: set<Conn>,
                             box0: map<Conn, seq<string>>, log0: seq<string>,
                             res: Outcome, box: map<Conn, seq<string>>, log: seq<string>)
  {
    var k := FirstFault(clients, |inbox|, fault);
    var t := Play(codes, name, inbox[..k]);
    log == log0 + t.entries
    && if k == |inbox| || t.failure.Some? then
         res == SessionOutcome(t, end) && box == Deliver(box0, clients, t.broadcasts)
       else
         var r := React(codes, name, inbox[k]);
         match r
         case Aborted(e) =>
           res == Raised(RateLookup(e)) && box == Deliver(box0, clients, t.broadcasts)
         case Reaction(_, _) =>
           ClosedBy(res, clients, fault(k))
           && exists reached | reached <= clients && Healthy(reached, fault(k)) ::
                box == Deliver(Deliver(box0, clients, t.broadcasts), reached, Lead(r))
  }

  /** A connection's outbox once it is registered: kept if known, empty otherwise. */
  function Opened(box: map<Conn, seq<string>>, ws: Conn): map<Conn, seq<string>> {
    if ws in box then box else box[ws := []]
  }

  // ---------------------------------------------------------------------
  // The server

  class Server {
    /** `Server.clients`: the registered connections. */
    var clients: set<Conn>
    /** The `name` attribute `register` attaches to each connection. */
    var names: map<Conn, string>
    /** What each connection has been sent, oldest first. */
    var outbox: map<Conn, seq<string>>
    /** The blocks appended to `chat.log`, oldest first. */
    var log: seq<string>
    const exchangeRates: ExchangeRates

    ghost predicate Valid()
      reads this
    {
      clients <= names.Keys && clients <= outbox.Keys
    }

    /** A server with no clients, an empty log, and rates for USD and EUR. */
    constructor ()
      ensures Valid()
      ensures clients == {} && names == map[] && outbox == map[] && log == []
      ensures exchangeRates.currencyCodes == ["USD", "EUR"]
    {
      clients := {};
      names := map[];
      outbox := map[];
      log := [];
      exchangeRates := new ExchangeRates(["USD", "EUR"]);
    }

    /** `register`: name the connection and add it to the registry. */
    method Register(ws: Conn, name: string)
      requires Valid()
      modifies this
      ensures Valid()
      ensures clients == old(clients) + {ws}
      ensures names == old(names)[ws := name]
      ensures outbox == Opened(old(outbox), ws)
      ensures log == old(log)
    {
      names := names[ws := name];
      clients := clients + {ws};
      outbox := Opened(outbox, ws);
    }

    /** `unregister`: `clients.remove(ws)`, which raises when `ws` is absent. */
    method Unregister(ws: Conn) returns (res: Outcome)
      requires Valid()
      modifies this
      ensures Valid()
      ensures res == if ws in old(clients) then Done else Raised(NotRegistered)
      ensures clients == old(clients) - {ws}
      ensures names == old(names) && outbox == old(outbox) && log == old(log)
    {
      if ws !in clients {
        return Raised(NotRegistered);
      }
      clients := clients - {ws};
      res := Done;
    }

    /**
     * `send_to_clients`: send `message` to every registered connection, in
     * some order. The first failing send raises and ends the loop, so the
     * connections reached before it have the message and no others do.
     */
    method SendToClients(message: string, fault: Conn -> Option<CloseKind>)
      returns (res: Outcome, ghost reached: set<Conn>)
      requires Valid()
      modifies this
      ensures Valid()
      ensures clients == old(clients) && names == old(names) && log == old(log)
      ensures reached <= clients && Healthy(reached, fault)
      ensures outbox == Deliver(old(outbox), reached, [message])
      ensures res.Done? <==> Healthy(clients, fault)
      ensures res.Done? ==> reached == clients
      ensures clients == {} ==> res == Done && outbox == old(outbox)
      ensures res.Raised? ==>
                res.exc.Closed? && exists c | c in clients && c !in reached :: fault(c) == Some(res.exc.kind)
    {
      reached := {};
      if clients != {} {
        var pending := clients;
        while pending != {}
          invariant Valid()
          invariant clients == old(clients) && names == old(names) && log == old(log)
          invariant pending <= clients && reached == clients - pending
          invariant Healthy(reached, fault)
          invariant outbox == Deliver(old(outbox), reached, [message])
          decreases pending
        {
          var c :| c in pending;
          if fault(c).Some? {
            return Raised(Closed(fault(c).value)), reached;
          }
          outbox := outbox[c := outbox[c] + [message]];
          pending := pending - {c};
          reached := reached + {c};
        }
      }
      res := Done;
    }

    /**
     * One pass of the `async for` loop of `distrubute`: classify the text,
     * then for a rate query broadcast the result and append it to the log
     * (in that order), for the greeting broadcast the echo and the reply,
     * and otherwise broadcast the named line. A failed rate lookup raises
     * before anything is sent; a failing recipient raises its close from
     * the first broadcast and leaves the log alone.
     */
    method Dispatch(ws: Conn, m: Inbound, fault: Conn -> Option<CloseKind>)
      returns (res: Outcome)
      requires Valid() && ws in names
      modifies this
      ensures Valid()
      ensures clients == old(clients) && names == old(names)
      ensures Handled(React(exchangeRates.currencyCodes, names[ws], m), clients, fault,
                      old(outbox), old(log), res, outbox, log)
    {
      match Classify(names[ws], m.text) {
      case RateQuery(days) =>
        res := ShareRates(days, m, fault);
      case Greeting(echo) =>
        res := Greet(echo, fault);
        assert Lead(Reaction([echo, GreetingReply], [])) == [echo];
      case Relay(line) =>
        ghost var reached;
        res, reached := SendToClients(line, fault);
        assert Lead(Reaction([line], [])) == [line];
      }
    }

    /** The rate-query branch of `distrubute`: look the rates up, broadcast them, then log them. */
    method ShareRates(days: int, m: Inbound, fault: Conn -> Option<CloseKind>)
      returns (res: Outcome)
      requires Valid()
      modifies this
      ensures Valid()
      ensures clients == old(clients) && names == old(names)
      ensures Handled(QueryReaction(exchangeRates.currencyCodes, days, m), clients, fault,
                      old(outbox), old(log), res, outbox, log)
    {
      var result, _ := exchangeRates.GetRates(days, m.today, m.rates);
      if result.Failure? {
        return Raised(RateLookup(result.error));
      }
      assert Lead(Reaction([result.value], [LogEntry(m.stamp, result.value)])) == [result.value];
      ghost var reached;
      res, reached := SendToClients(result.value, fault);
      if res.Done? {
        log := log + [LogEntry(m.stamp, result.value)];
      }
    }

    /** The greeting branch of `distrubute`: broadcast the echo, then the fixed reply. */
    method Greet(echo: string, fault: Conn -> Option<CloseKind>) returns (res: Outcome)
      requires Valid()
      modifies this
      ensures Valid()
      ensures clients == old(clients) && names == old(names) && log == old(log)
      ensures Healthy(clients, fault) ==> res == Done && outbox == Deliver(old(outbox), clients, [echo, GreetingReply])
      ensures !Healthy(clients, fault) ==>
                ClosedBy(res, clients, fault)
                && exists reached | reached <= clients && Healthy(reached, fault) :: outbox == Deliver(old(outbox), reached, [echo])
    {
      ghost var reached;
      res, reached := SendToClients(echo, fault);
      if res.Done? {
        res, reached := SendToClients(GreetingReply, fault);
        DeliverConcat(old(outbox), clients, [echo], [GreetingReply]);
        assert [echo] + [GreetingReply] == [echo, GreetingReply];
      }
    }

    /**
     * `distrubute`: dispatch the inbound texts in order until one raises;
     * a clean close of the stream ends the loop quietly, a broken one
     * raises. Up to the first text during which a recipient fails, the
     * outboxes and the log follow `Play`; that text then either raises its
     * rate error untouched or has its first broadcast cut short by the close.
     */
    method Distribute(ws: Conn, inbox: seq<Inbound>, end: CloseKind,
                      fault: nat -> Conn -> Option<CloseKind>)
      returns (res: Outcome)
      requires Valid() && ws in names
      modifies this
      ensures Valid()
      ensures clients == old(clients) && names == old(names)
      ensures SessionRun(exchangeRates.currencyCodes, names[ws], inbox, end, fault, clients,
                         old(outbox), old(log), res, outbox, log)
    {
      var codes := exchangeRates.currencyCodes;
      var name := names[ws];
      var i := 0;
      DeliverNothing(old(outbox), clients);
      assert old(log) + [] == old(log);
      while i < |inbox|
        invariant 0 <= i <= |inbox|
        invariant Valid() && clients == old(clients) && names == old(names)
        invariant i <= FirstFault(clients, |inbox|, fault)
        invariant Play(codes, name, inbox[..i]).failure.None?
        invariant outbox == Deliver(old(outbox), clients, Play(codes, name, inbox[..i]).broadcasts)
        invariant log == old(log) + Play(codes, name, inbox[..i]).entries
      {
        ghost var box, log0 := outbox, log;
        res := Dispatch(ws, inbox[i], fault(i));
        if res.Raised? {
          RaiseEndsSession(codes, name, inbox, end, fault, clients, old(outbox), old(log), i, res, outbox, log);
          return;
        }
        HandledStep(codes, name, inbox, fault, clients, old(outbox), old(log), i, outbox, log);
        i := i + 1;
      }
      assert inbox[..i] == inbox;
      if end == ClosedError {
        res := Raised(Closed(ClosedError));
      } else {
        res := Done;
      }
    }

    /**
     * `ws_handler`: register under `name`, run `distrubute`, swallow a clean
     * close, and unregister in `finally`; any other exception propagates.
     * `raised` is how `distrubute` ended, before the handler swallowed it.
     */
    method WsHandler(ws: Conn, name: string, inbox: seq<Inbound>, end: CloseKind,
                     fault: nat -> Conn -> Option<CloseKind>)
      returns (res: Outcome, ghost raised: Outcome)
      requires Valid()
      modifies this
      ensures Valid()
      ensures clients == old(clients) - {ws}
      ensures names == old(names)[ws := name]
      ensures SessionRun(exchangeRates.currencyCodes, name, inbox, end, fault, old(clients) + {ws},
                         Opened(old(outbox), ws), old(log), raised, outbox, log)
      ensures res == Swallow(raised)
    {
      Register(ws, name);
      var outcome := Distribute(ws, inbox, end, fault);
      raised := outcome;
      res := Swallow(outcome);
      var unregistered := Unregister(ws);
      if unregistered.Raised? {
        res := unregistered;
      }
    }
  }

  // ---------------------------------------------------------------------
  // Properties of a session

  /** One unfolding of `Fold` at the last reaction. */
  lemma FoldSnoc(rs: seq<Reaction>)
    requires rs != []
    ensures var t := Fold(rs[..|rs| - 1]);
            Fold(rs)
            == if t.failure.Some? then t
               else match rs[|rs| - 1]
                 case Aborted(e) => Transcript(t.broadcasts, t.entries, Some(e))
                 case Reaction(bs, es) => Transcript(t.broadcasts + bs, t.entries + es, None)
  {
  }

  /** Handling text `i` extends the session over the texts before it by that text's reaction. */
  lemma PlayStep(codes: seq<string>, name: string, inbox: seq<Inbound>, i: nat)
    requires i < |inbox|
    ensures var t := Play(codes, name, inbox[..i]);
            Play(codes, name, inbox[..i + 1])
            == if t.failure.Some? then t
               else match React(codes, name, inbox[i])
                 case Aborted(e) => Transcript(t.broadcasts, t.entries, Some(e))
                 case Reaction(bs, es) => Transcript(t.broadcasts + bs, t.entries + es, None)
  {
    var front := inbox[..i + 1];
    assert front[..i] == inbox[..i] && front[i] == inbox[i];
    var rs := Reactions(codes, name, front);
    ReactionsLength(codes, name, inbox[..i]);
    assert rs[..|rs| - 1] == Reactions(codes, name, inbox[..i]);
    FoldSnoc(rs);
  }

  /**
   * A text handled without raising, before any recipient failed, extends
   * the outboxes and the log as `Play` does.
   */
  lemma HandledStep(codes: seq<string>, name: string, inbox: seq<Inbound>,
                    fault: nat -> Conn -> Option<CloseKind>, clients: set<Conn>,
                    box0: map<Conn, seq<string>>, log0: seq<string>, i: nat,
                    box: map<Conn, seq<string>>, log: seq<string>)
    requires i < |inbox| && i <= FirstFault(clients, |inbox|, fault)
    requires Play(codes, name, inbox[..i]).failure.None?
    requires var t := Play(codes, name, inbox[..i]);
             Handled(React(codes, name, inbox[i]), clients, fault(i),
                     Deliver(box0, clients, t.broadcasts), log0 + t.entries, Done, box, log)
    ensures i + 1 <= FirstFault(clients, |inbox|, fault)
    ensures var t := Play(codes, name, inbox[..i + 1]);
            t.failure.None? && box == Deliver(box0, clients, t.broadcasts) && log == log0 + t.entries
  {
    var t := Play(codes, name, inbox[..i]);
    PlayStep(codes, name, inbox, i);
    var r := React(codes, name, inbox[i]);
    DeliverConcat(box0, clients, t.broadcasts, r.broadcasts);
    assert log0 + t.entries + r.entries == log0 + (t.entries + r.entries);
  }

  /**
   * When text `i`, reached before any recipient failed, raises, the session
   * ends as `SessionRun` says: on its rate error, or on the close of a
   * recipient that fails while it is handled.
   */
  lemma RaiseEndsSession(codes: seq<string>, name: string, inbox: seq<Inbound>, end: CloseKind,
                         fault: nat -> Conn -> Option<CloseKind>, clients: set<Conn>,
                         box0: map<Conn, seq<string>>, log0: seq<string>, i: nat,
                         res: Outcome, box: map<Conn, seq<string>>, log: seq<string>)
    requires i < |inbox| && i <= FirstFault(clients, |inbox|, fault)
    requires Play(codes, name, inbox[..i]).failure.None?
    requires var t := Play(codes, name, inbox[..i]);
             Handled(React(codes, name, inbox[i]), clients, fault(i),
                     Deliver(box0, clients, t.broadcasts), log0 + t.entries, res, box, log)
    requires res.Raised?
    ensures SessionRun(codes, name, inbox, end, fault, clients, box0, log0, res, box, log)
  {
    var k := FirstFault(clients, |inbox|, fault);
    if Healthy(clients, fault(i)) {
      assert i < k;
      RateErrorEndsSession(codes, name, inbox, end, fault, clients, box0, log0, i, res, box, log);
    } else {
      assert k == i;
    }
  }

  /** A rate error before any recipient failed ends the session as `Play` does. */
  lemma RateErrorEndsSession(codes: seq<string>, name: string, inbox: seq<Inbound>, end: CloseKind,
                             fault: nat -> Conn -> Option<CloseKind>, clients: set<Conn>,
                             box0: map<Conn, seq<string>>, log0: seq<string>, i: nat,
                             res: Outcome, box: map<Conn, seq<string>>, log: seq<string>)
    requires i < FirstFault(clients, |inbox|, fault)
    requires Play(codes, name, inbox[..i]).failure.None?
    requires React(codes, name, inbox[i]).Aborted?
    requires var t := Play(codes, name, inbox[..i]);
             res == Raised(RateLookup(React(codes, name, inbox[i]).err))
             && box == Deliver(box0, clients, t.broadcasts) && log == log0 + t.entries
    ensures SessionRun(codes, name, inbox, end, fault, clients, box0, log0, res, box, log)
  {
    var k := FirstFault(clients, |inbox|, fault);
    PlayStep(codes, name, inbox, i);
    PlayStopsAt(codes, name, inbox, i, k);
  }

  /** After the text whose lookup failed, the texts that follow change nothing. */
  lemma PlayStopsAt(codes: seq<string>, name: string, inbox: seq<Inbound>, i: nat, k: nat)
    requires i < k <= |inbox|
    requires Play(codes, name, inbox[..i + 1]).failure.Some?
    ensures Play(codes, name, inbox[..k]) == Play(codes, name, inbox[..i + 1])
  {
    var front, back := inbox[..i + 1], inbox[i + 1..k];
    PlayAppend(codes, name, front, back);
    assert front + back == inbox[..k];
  }

  /** Once a rate query has failed, later texts are not handled. */
  lemma {:induction false} FoldStops(a: seq<Reaction>, b: seq<Reaction>)
    requires Fold(a).failure.Some?
    ensures Fold(a + b) == Fold(a)
  {
    if b != [] {
      var ab := a + b;
      assert ab[..|ab| - 1] == a + b[..|b| - 1];
      FoldStops(a, b[..|b| - 1]);
      FoldSnoc(ab);
    } else {
      assert a + b == a;
    }
  }

  /** A session is its two halves one after the other, unless the first half failed. */
  lemma {:induction false} FoldAppend(a: seq<Reaction>, b: seq<Reaction>)
    requires Fold(a).failure.None?
    ensures var ta, tb := Fold(a), Fold(b);
            Fold(a + b) == Transcript(ta.broadcasts + tb.broadcasts, ta.entries + tb.entries, tb.failure)
  {
    var ta := Fold(a);
    if b == [] {
      assert a + b == a;
      assert ta.broadcasts + [] == ta.broadcasts && ta.entries + [] == ta.entries;
    } else {
      var ab := a + b;
      var b', last := b[..|b| - 1], b[|b| - 1];
      assert ab[..|ab| - 1] == a + b';
      assert ab[|ab| - 1] == last;
      FoldAppend(a, b');
      var tb' := Fold(b');
      FoldSnoc(b);
      FoldSnoc(ab);
      if tb'.failure.None? {
        match last
        case Aborted(e) =>
        case Reaction(bs, es) =>
          assert ta.broadcasts + tb'.broadcasts + bs == ta.broadcasts + (tb'.broadcasts + bs);
          assert ta.entries + tb'.entries + es == ta.entries + (tb'.entries + es);
      }
    }
  }

  /** Sessions compose: the second part of a stream continues where the first left off. */
  lemma PlayAppend(codes: seq<string>, name: string, a: seq<Inbound>, b: seq<Inbound>)
    ensures var ta, tb := Play(codes, name, a), Play(codes, name, b);
            Play(codes, name, a + b)
            == if ta.failure.Some? then ta
               else Transcript(ta.broadcasts + tb.broadcasts, ta.entries + tb.entries, tb.failure)
  {
    var ra, rb := Reactions(codes, name, a), Reactions(codes, name, b);
    ReactionsAppend(codes, name, a, b);
    if Fold(ra).failure.Some? {
      FoldStops(ra, rb);
    } else {
      FoldAppend(ra, rb);
    }
  }

  /** Handling one more reaction extends an unfailed transcript by it. */
  lemma FoldStep(rs: seq<Reaction>, i: nat)
    requires i < |rs|
    requires Fold(rs[..i]).failure.None?
    ensures var t := Fold(rs[..i]);
            Fold(rs[..i + 1])
            == match rs[i]
               case Aborted(e) => Transcript(t.broadcasts, t.entries, Some(e))
               case Reaction(bs, es) => Transcript(t.broadcasts + bs, t.entries + es, None)
  {
    assert rs[..i + 1][..i] == rs[..i];
  }

  /** The exact greeting broadcasts the named echo and then the fixed reply, and logs nothing. */
  lemma ReactGreeting(codes: seq<string>, name: string, m: Inbound)
    requires m.text == GreetingText
    ensures React(codes, name, m)
            == Reaction([name + ": Hi Server", GreetingReply], [])
  {
    ClassifyGreeting(name);
  }

  /**
   * A rate query broadcasts one text, the template once per matching
   * record over the whole date range, and logs exactly that text, stamped.
   * It aborts exactly when the range overflows or some lookup fails.
   */
  lemma ReactQuery(codes: seq<string>, name: string, m: Inbound)
    requires IsExchange(m.text)
    ensures var days := DayCount(m.text);
            var dates := DateRange(days, m.today);
            var r := React(codes, name, m);
            (r.Aborted? <==> OutOfCalendar(days, m.today) || FirstFailure(dates, m.rates) < |dates|)
            && (r.Reaction? ==>
                  |r.broadcasts| == 1 && r.entries == [LogEntry(m.stamp, r.broadcasts[0])]
                  && r.broadcasts[0] == Repeat(Template, |Matching(codes, AllQuotes(dates, m.rates))|))
  {
    var days := DayCount(m.text);
    var dates := DateRange(days, m.today);
    CollectFailure(codes, dates, m.rates);
    if !OutOfCalendar(days, m.today) && Collect(codes, dates, m.rates).Success? {
      CollectSuccess(codes, dates, m.rates);
    }
  }

  /** Any other text is relayed: one broadcast, `"<name>: <text>"`, and nothing logged. */
  lemma ReactRelay(codes: seq<string>, name: string, m: Inbound)
    requires !IsExchange(m.text) && m.text != GreetingText
    ensures React(codes, name, m) == Reaction([name + ": " + m.text], [])
  {
    ClassifyRelay(name, m.text);
    var line := Classify(name, m.text).line;
    assert line == line[..|name|] + line[|name|..|name| + 2] + line[|name| + 2..];
  }

  /** A text that is not a rate query broadcasts one or two lines and logs nothing. */
  lemma ReactWithoutQuery(codes: seq<string>, name: string, m: Inbound)
    requires !IsExchange(m.text)
    ensures var r := React(codes, name, m);
            r.Reaction? && r.entries == [] && 1 <= |r.broadcasts| <= 2
  {
  }

  /** Without rate queries a session never fails, logs nothing, and broadcasts one or two lines per text. */
  lemma {:induction false} PlayWithoutQueries(codes: seq<string>, name: string, inbox: seq<Inbound>)
    requires forall k | 0 <= k < |inbox| :: !IsExchange(inbox[k].text)
    ensures var t := Play(codes, name, inbox);
            t.failure.None? && t.entries == []
            && |inbox| <= |t.broadcasts| <= 2 * |inbox|
  {
    if inbox != [] {
      var n := |inbox| - 1;
      var rs := Reactions(codes, name, inbox);
      PlayWithoutQueries(codes, name, inbox[..n]);
      assert rs[..n] == Reactions(codes, name, inbox[..n]) by {
        ReactionsLength(codes, name, inbox[..n]);
      }
      ReactionsAt(codes, name, inbox, n);
      ReactWithoutQuery(codes, name, inbox[n]);
      FoldStep(rs, n);
      assert rs[..n + 1] == rs;
    }
  }
}
