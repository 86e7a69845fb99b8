/** The two rule sets of the streaming client that do not touch the network:
    the order-parameter validator with the gate in front of the broker call,
    and the reconnect counter with its exponential backoff. Python's dynamic
    argument values are a small datatype; the broker's reply and the
    outcome of each connection attempt are inputs. */
module FeedClient {
  import opened Numeric

  // ----- Order validation -----

  /** The Python values an order parameter can take. */
  datatype PyValue = PyNone | PyBool(b: bool) | PyInt(i: int) | PyFloat(f: real) | PyStr(s: string)

  /** The integer value of an `int`, where `bool` counts as `int`. */
  function IntValue(v: PyValue): Option<int>
  {
    match v
    case PyBool(b) => Some(if b then 1 else 0)
    case PyInt(i) => Some(i)
    case _ => None
  }

  /** The numeric value of an `int` or a `float`. */
  function NumberValue(v: PyValue): Option<real>
  {
    match v
    case PyFloat(f) => Some(f)
    case _ => if IntValue(v).Some? then Some(IntValue(v).value as real) else None
  }

  /** Python truthiness. */
  predicate Truthy(v: PyValue)
  {
    match v
    case PyNone => false
    case PyBool(b) => b
    case PyInt(i) => i != 0
    case PyFloat(f) => f != 0.0
    case PyStr(s) => s != ""
  }

  /** A non-empty string. */
  predicate ValidSymbol(v: PyValue)
  {
    v.PyStr? && v.s != ""
  }

  predicate ValidTransactionType(v: PyValue)
  {
    v == PyStr("BUY") || v == PyStr("SELL")
  }

  /** A positive integer. */
  predicate ValidQuantity(v: PyValue)
  {
    IntValue(v).Some? && IntValue(v).value > 0
  }

  /** Absent, or a positive number. */
  predicate ValidPrice(v: PyValue)
  {
    v == PyNone || (NumberValue(v).Some? && NumberValue(v).value > 0.0)
  }

  /** One validation error; each carries the offending value its message
      shows. */
  datatype OrderError =
    | InvalidSymbol
    | InvalidTransactionType(transactionType: PyValue)
    | InvalidQuantity(quantity: PyValue)
    | InvalidPrice(price: PyValue)

  /** The position of each kind of error in the error list. */
  function Rank(e: OrderError): nat
  {
    match e
    case InvalidSymbol => 0
    case InvalidTransactionType(_) => 1
    case InvalidQuantity(_) => 2
    case InvalidPrice(_) => 3
  }

  /** The checks run in a fixed order, each appending its error. The list
      is empty exactly when all four parameters are valid, names each
      invalid one, and keeps the order symbol, type, quantity, price. */
  function ValidateOrderParams(symbol: PyValue, transactionType: PyValue, quantity: PyValue, price: PyValue)
    : (errors: seq<OrderError>)
    ensures |errors| <= 4
    ensures errors == [] <==>
              ValidSymbol(symbol) && ValidTransactionType(transactionType)
              && ValidQuantity(quantity) && ValidPrice(price)
    ensures InvalidSymbol in errors <==> !ValidSymbol(symbol)
    ensures InvalidTransactionType(transactionType) in errors <==> !ValidTransactionType(transactionType)
    ensures InvalidQuantity(quantity) in errors <==> !ValidQuantity(quantity)
    ensures InvalidPrice(price) in errors <==> !ValidPrice(price)
    ensures forall i, j :: 0 <= i < j < |errors| ==> Rank(errors[i]) < Rank(errors[j])
  {
    var e1: seq<OrderError> := if !ValidSymbol(symbol) then [InvalidSymbol] else [];
    var e2 := if !ValidTransactionType(transactionType) then [InvalidTransactionType(transactionType)] else [];
    var e3 := if !ValidQuantity(quantity) then [InvalidQuantity(quantity)] else [];
    var e4 := if price != PyNone && !(NumberValue(price).Some? && NumberValue(price).value > 0.0)
              then [InvalidPrice(price)] else [];
    RankedConcat(e1, e2, e3, e4);
    e1 + e2 + e3 + e4
  }

  /** Four lists of at most one error each, of ranks 0 to 3, concatenate to
      a list ordered by rank that holds exactly their elements. */
  lemma RankedConcat(e1: seq<OrderError>, e2: seq<OrderError>, e3: seq<OrderError>, e4: seq<OrderError>)
    requires |e1| <= 1 && |e2| <= 1 && |e3| <= 1 && |e4| <= 1
    requires forall e :: e in e1 ==> Rank(e) == 0
    requires forall e :: e in e2 ==> Rank(e) == 1
    requires forall e :: e in e3 ==> Rank(e) == 2
    requires forall e :: e in e4 ==> Rank(e) == 3
    ensures var s := e1 + e2 + e3 + e4;
      |s| <= 4 && (forall i, j :: 0 <= i < j < |s| ==> Rank(s[i]) < Rank(s[j]))
      && (forall e :: e in s <==> e in e1 || e in e2 || e in e3 || e in e4)
  {
    var s := e1 + e2 + e3 + e4;
    forall k | 0 <= k < |s|
      ensures Rank(s[k]) == (if k < |e1| then 0 else if k < |e1| + |e2| then 1
                             else if k < |e1| + |e2| + |e3| then 2 else 3)
      ensures Rank(s[k]) >= k
    {
      if k < |e1| {
        assert s[k] in e1;
      } else if k < |e1| + |e2| {
        assert s[k] == e2[k - |e1|];
      } else if k < |e1| + |e2| + |e3| {
        assert s[k] == e3[k - |e1| - |e2|];
      } else {
        assert s[k] == e4[k - |e1| - |e2| - |e3|];
      }
    }
  }

  /** `True` passes as a quantity of one and as a price of one, because
      `bool` is a subclass of `int`; `False` fails both. */
  lemma BoolPassesAsNumber()
    ensures ValidateOrderParams(PyStr("NSE_FO|61755"), PyStr("BUY"), PyBool(true), PyBool(true)) == []
    ensures ValidateOrderParams(PyStr("NSE_FO|61755"), PyStr("BUY"), PyBool(false), PyNone)
            == [InvalidQuantity(PyBool(false))]
  {
  }

  /** Every parameter invalid gives all four errors in order. */
  lemma AllInvalid()
    ensures ValidateOrderParams(PyStr(""), PyStr("buy"), PyFloat(1.0), PyInt(0))
            == [InvalidSymbol, InvalidTransactionType(PyStr("buy")),
                InvalidQuantity(PyFloat(1.0)), InvalidPrice(PyInt(0))]
  {
  }

  // ----- The order gate -----

  /** What the broker answers to an order it receives. */
  datatype BrokerReply =
    | Accepted(orderId: string)
    | ApiError(status: int, reason: string)
    | Unexpected(message: string)

  /** The request handed to the broker. */
  datatype OrderRequest = OrderRequest(
    quantity: PyValue, price: PyValue, instrumentToken: string,
    orderType: string, transactionType: string, triggerPrice: PyValue)

  datatype OrderResult =
    | Placed(orderId: string)
    | ValidationFailed(errors: seq<OrderError>)
    | BrokerError(code: Option<int>, message: string)

  /** The result, and the request sent to the broker if one was sent. */
  datatype Placement = Placement(result: OrderResult, sent: Option<OrderRequest>)

  /** Validation first; only valid parameters reach the broker, as a LIMIT
      order when a price is given and a MARKET order otherwise. */
  function PlaceOrder(symbol: PyValue, transactionType: PyValue, quantity: PyValue, price: PyValue,
                      triggerPrice: PyValue, reply: BrokerReply): (r: Placement)
    ensures ValidateOrderParams(symbol, transactionType, quantity, price) != [] ==>
              r == Placement(ValidationFailed(ValidateOrderParams(symbol, transactionType, quantity, price)), None)
    ensures ValidateOrderParams(symbol, transactionType, quantity, price) == [] ==>
              r.sent.Some?
              && r.sent.value.instrumentToken == symbol.s
              && r.sent.value.transactionType == transactionType.s
              && r.sent.value.quantity == quantity && r.sent.value.price == price
              && (r.sent.value.orderType == "LIMIT" <==> price != PyNone)
              && (r.result.Placed? <==> reply.Accepted?)
  {
    var errors := ValidateOrderParams(symbol, transactionType, quantity, price);
    if errors != [] then Placement(ValidationFailed(errors), None)
    else
      var request := OrderRequest(
        quantity, price, symbol.s,
        if Truthy(price) then "LIMIT" else "MARKET",
        transactionType.s,
        if Truthy(triggerPrice) then triggerPrice else PyInt(0));
      var result :=
        match reply
        case Accepted(orderId) => Placed(orderId)
        case ApiError(status, reason) => BrokerError(Some(status), reason)
        case Unexpected(message) => BrokerError(None, message);
      Placement(result, Some(request))
  }

  /** A rejected order is rejected whatever the broker would have said: the
      broker is not reached. */
  lemma GateIgnoresBroker(symbol: PyValue, transactionType: PyValue, quantity: PyValue, price: PyValue,
                          triggerPrice: PyValue, reply1: BrokerReply, reply2: BrokerReply)
    requires ValidateOrderParams(symbol, transactionType, quantity, price) != []
    ensures PlaceOrder(symbol, transactionType, quantity, price, triggerPrice, reply1)
            == PlaceOrder(symbol, transactionType, quantity, price, triggerPrice, reply2)
    ensures PlaceOrder(symbol, transactionType, quantity, price, triggerPrice, reply1).result.ValidationFailed?
  {
  }

  // ----- Reconnect and backoff -----

  const MaxReconnectAttempts: nat := 10
  const ReconnectDelay: nat := 5
  const MaxDelay: nat := 300

  function Pow2(n: nat): (p: nat)
    ensures p >= 1
  {
    if n == 0 then 1 else 2 * Pow2(n - 1)
  }

  lemma {:induction false} Pow2Monotone(a: nat, b: nat)
    requires a <= b
    ensures Pow2(a) <= Pow2(b)
    decreases b
  {
    if a < b {
      Pow2Monotone(a, b - 1);
    }
  }

  /** `min(5 * 2 ** attempts, 300)` seconds. */
  function Backoff(attempts: nat): (d: nat)
    ensures d <= MaxDelay
  {
    var raw := ReconnectDelay * Pow2(attempts);
    if raw < MaxDelay then raw else MaxDelay
  }

  /** The delay never shrinks as the counter grows. */
  lemma BackoffMonotone(a: nat, b: nat)
    requires a <= b
    ensures Backoff(a) <= Backoff(b)
  {
    Pow2Monotone(a, b);
  }

  /** The first retry waits 10 s; from the sixth on the cap of 300 s holds. */
  lemma {:induction false} BackoffValues(n: nat)
    ensures Backoff(1) == 10 && Backoff(5) == 160
    ensures n >= 6 ==> Backoff(n) == MaxDelay
  {
    assert Pow2(5) == 32;
    if n >= 6 {
      assert Pow2(6) == 64;
      Pow2Monotone(6, n);
    }
  }

  /** Where the connect loop is: trying to connect (or about to), reading
      messages from an open connection, or returned. */
  datatype Phase = Attempting | Streaming | Stopped

  /** Connected: an attempt opened the connection. Failed: an attempt raised
      before connecting, or an open connection ended (closed, ping failed or
      an error). Disconnect: the user called disconnect. */
  datatype Event = Connected | Failed | Disconnect

  datatype Client = Client(running: bool, attempts: nat, phase: Phase)

  datatype Sleep = NoSleep | SleepFor(seconds: nat)

  datatype StepResult = StepResult(next: Client, sleep: Sleep)

  /** A new client is not running and has no failed attempts. */
  const Initial: Client := Client(false, 0, Attempting)

  /** After an attempt or a session ended: when still running, count the
      failure and sleep the backoff, and leave the loop once the counter
      reaches the maximum; when not running, leave without retrying. */
  function Retry(c: Client): (r: StepResult)
    ensures r.next.phase == Stopped <==> !c.running || c.attempts + 1 >= MaxReconnectAttempts
    ensures r.next.running == c.running
    ensures c.running ==> r.next.attempts == c.attempts + 1 && r.sleep.SleepFor? && r.sleep.seconds <= MaxDelay
    ensures !c.running ==> r.next.attempts == c.attempts && r.sleep == NoSleep
  {
    if c.running then
      var a := c.attempts + 1;
      StepResult(Client(true, a, if a < MaxReconnectAttempts then Attempting else Stopped), SleepFor(Backoff(a)))
    else StepResult(c.(phase := Stopped), NoSleep)
  }

  /** One event of the connect loop. */
  function Step(c: Client, e: Event): (r: StepResult)
    ensures c.phase == Stopped ==> r.next.phase == Stopped && r.sleep == NoSleep
    ensures e == Connected && c.phase == Attempting ==> r.next == Client(true, 0, Streaming)
    ensures e == Disconnect ==> !r.next.running && r.next.attempts == c.attempts && r.sleep == NoSleep
    ensures e == Failed && c.phase != Stopped && c.running ==>
              r.next.attempts == c.attempts + 1 && r.sleep == SleepFor(Backoff(c.attempts + 1))
              && (r.next.phase == Stopped <==> c.attempts + 1 >= MaxReconnectAttempts)
    ensures e == Failed && !c.running ==> r == StepResult(c.(phase := Stopped), NoSleep)
  {
    match e
    case Connected =>
      if c.phase == Attempting then StepResult(Client(true, 0, Streaming), NoSleep)
      else StepResult(c, NoSleep)
    case Failed =>
      if c.phase == Stopped then StepResult(c, NoSleep) else Retry(c)
    case Disconnect =>
      // An open connection's message loop ends at its next check, and the
      // retry logic then sees the flag cleared.
      if c.phase == Streaming then StepResult(Client(false, c.attempts, Stopped), NoSleep)
      else StepResult(c.(running := false), NoSleep)
  }

  /** The counter stays within the maximum, is zero on an open connection,
      and a loop that is still trying has attempts left. */
  predicate Inv(c: Client)
  {
    c.attempts <= MaxReconnectAttempts
    && (c.phase == Attempting ==> c.attempts < MaxReconnectAttempts)
    && (c.phase == Streaming ==> c.running && c.attempts == 0)
  }

  lemma StepKeepsInv(c: Client, e: Event)
    requires Inv(c)
    ensures Inv(Step(c, e).next)
  {
  }

  /** Disconnecting twice is disconnecting once. */
  lemma DisconnectIdempotent(c: Client)
    ensures Step(Step(c, Disconnect).next, Disconnect).next == Step(c, Disconnect).next
  {
  }

  /** A client that never connected does not retry its failed first attempt. */
  lemma FirstFailureStops()
    ensures Step(Initial, Failed) == StepResult(Client(false, 0, Stopped), NoSleep)
  {
  }

  /** A disconnect while an attempt is under way is overridden when that
      attempt connects. */
  lemma DisconnectLostOnConnect(c: Client)
    requires c.phase == Attempting
    ensures Step(Step(c, Disconnect).next, Connected).next == Client(true, 0, Streaming)
  {
  }

  datatype RunResult = RunResult(final: Client, delays: seq<nat>)

  function Slept(s: Sleep): seq<nat>
  {
    match s
    case NoSleep => []
    case SleepFor(seconds) => [seconds]
  }

  /** The state and the sleeps after a sequence of events. */
  function Run(c: Client, events: seq<Event>): (r: RunResult)
    ensures |r.delays| <= |events|
    ensures events == [] ==> r == RunResult(c, [])
  {
    if events == [] then RunResult(c, [])
    else
      var prev := Run(c, events[..|events| - 1]);
      var st := Step(prev.final, events[|events| - 1]);
      RunResult(st.next, prev.delays + Slept(st.sleep))
  }

  predicate NonDecreasing(s: seq<nat>)
  {
    forall i, j :: 0 <= i < j < |s| ==> s[i] <= s[j]
  }

  /** Between two connections the sleeps never get shorter, never exceed
      300 s, and the invariant holds throughout. */
  lemma {:induction false} DelaysNonDecreasing(c: Client, events: seq<Event>)
    requires Inv(c)
    requires forall k :: 0 <= k < |events| ==> events[k] != Connected
    ensures var r := Run(c, events);
      Inv(r.final) && NonDecreasing(r.delays)
      && r.final.attempts >= c.attempts
      && forall k :: 0 <= k < |r.delays| ==> r.delays[k] <= Backoff(r.final.attempts)
  {
    if events != [] {
      var init := events[..|events| - 1];
      assert forall k :: 0 <= k < |init| ==> init[k] == events[k];
      DelaysNonDecreasing(c, init);
      DelayStep(c.attempts, Run(c, init), events[|events| - 1]);
      RunLast(c, events);
    }
  }

  /** One more event other than a connection keeps the properties of the
      sleeps so far. */
  lemma DelayStep(start: nat, prev: RunResult, e: Event)
    requires e != Connected
    requires Inv(prev.final) && NonDecreasing(prev.delays) && prev.final.attempts >= start
    requires forall k :: 0 <= k < |prev.delays| ==> prev.delays[k] <= Backoff(prev.final.attempts)
    ensures var st := Step(prev.final, e);
      var ds := prev.delays + Slept(st.sleep);
      Inv(st.next) && NonDecreasing(ds) && st.next.attempts >= start
      && forall k :: 0 <= k < |ds| ==> ds[k] <= Backoff(st.next.attempts)
  {
    var st := Step(prev.final, e);
    StepKeepsInv(prev.final, e);
    BackoffMonotone(prev.final.attempts, st.next.attempts);
    var ds := prev.delays + Slept(st.sleep);
    assert forall k :: 0 <= k < |prev.delays| ==> ds[k] == prev.delays[k];
  }

  /** A script of failures only. */
  predicate AllFailed(events: seq<Event>)
  {
    forall k :: 0 <= k < |events| ==> events[k] == Failed
  }

  /** One failure while running and not stopped: the counter goes up by
      one, the loop sleeps the backoff of the new count, and stops when the
      count reaches the maximum. */
  lemma FailedWhileRunning(c: Client)
    requires c.running && c.phase != Stopped
    ensures var a := c.attempts + 1;
      Step(c, Failed) == StepResult(Client(true, a, if a < MaxReconnectAttempts then Attempting else Stopped),
                                    SleepFor(Backoff(a)))
  {
  }

  /** The last event of a script is one more step. */
  lemma RunLast(c: Client, events: seq<Event>)
    requires events != []
    ensures var prev := Run(c, events[..|events| - 1]);
      var st := Step(prev.final, events[|events| - 1]);
      Run(c, events) == RunResult(st.next, prev.delays + Slept(st.sleep))
  {
  }

  lemma AppendKeepsPrefix(ds: seq<nat>, b: nat)
    ensures forall k :: 0 <= k < |ds| ==> (ds + [b])[k] == ds[k]
    ensures (ds + [b])[|ds|] == b
  {
  }

  /** What `n` consecutive failures from `c` lead to: the counter went up
      by `n`, the flag is still set, the loop stopped exactly when the count
      reached the maximum, and the i-th sleep was the backoff of count
      c.attempts + i + 1. */
  predicate FailuresOutcome(c: Client, n: nat, r: RunResult)
  {
    r.final.running && r.final.attempts == c.attempts + n
    && (n > 0 ==> (r.final.phase == Stopped <==> c.attempts + n == MaxReconnectAttempts))
    && (n == 0 ==> r.final == c)
    && |r.delays| == n
    && forall k :: 0 <= k < n ==> r.delays[k] == Backoff(c.attempts + k + 1)
  }

  /** Consecutive failures while running count up one by one, sleep the
      backoff of each new count, and stop the loop exactly when the counter
      reaches 10. */
  lemma {:induction false} FailuresUntilStop(c: Client, events: seq<Event>)
    requires Inv(c) && c.running && c.phase != Stopped
    requires AllFailed(events) && c.attempts + |events| <= MaxReconnectAttempts
    ensures FailuresOutcome(c, |events|, Run(c, events))
    decreases |events|
  {
    if events != [] {
      var init := events[..|events| - 1];
      assert forall k :: 0 <= k < |init| ==> init[k] == events[k];
      FailuresUntilStop(c, init);
      OneMoreFailure(c, init, Run(c, init));
      RunLast(c, events);
    }
  }

  /** The inductive step of FailuresUntilStop: one more failure after the
      outcome `prev` of the earlier ones. */
  lemma OneMoreFailure(c: Client, init: seq<Event>, prev: RunResult)
    requires c.running && c.phase != Stopped && c.attempts + |init| + 1 <= MaxReconnectAttempts
    requires FailuresOutcome(c, |init|, prev)
    ensures var st := Step(prev.final, Failed);
      FailuresOutcome(c, |init| + 1, RunResult(st.next, prev.delays + Slept(st.sleep)))
  {
    FailedWhileRunning(prev.final);
    AppendKeepsPrefix(prev.delays, Backoff(c.attempts + |init| + 1));
  }

  /** After a connection drops, ten failures in a row sleep 10, 20, 40, 80,
      160 and then 300 s five times, and end the loop. */
  lemma TenFailuresAfterConnect()
    ensures var r := Run(Client(true, 0, Streaming), [Failed, Failed, Failed, Failed, Failed,
                                                      Failed, Failed, Failed, Failed, Failed]);
      r.final == Client(true, 10, Stopped)
      && r.delays == [10, 20, 40, 80, 160, 300, 300, 300, 300, 300]
  {
    var c := Client(true, 0, Streaming);
    var fs := [Failed, Failed, Failed, Failed, Failed, Failed, Failed, Failed, Failed, Failed];
    FailuresUntilStop(c, fs);
    var r := Run(c, fs);
    assert Pow2(1) == 2 && Pow2(2) == 4 && Pow2(3) == 8 && Pow2(4) == 16;
    assert Backoff(2) == 20 && Backoff(3) == 40 && Backoff(4) == 80;
    BackoffValues(6);
    BackoffValues(7);
    BackoffValues(8);
    BackoffValues(9);
    BackoffValues(10);
    var expected: seq<nat> := [10, 20, 40, 80, 160, 300, 300, 300, 300, 300];
    assert forall k :: 0 <= k < 10 ==> expected[k] == Backoff(k + 1);
    assert r.delays == expected;
  }

  // ----- The connection object -----

  /** The client's connection state, updated as the connect loop and the
      user's disconnect call would update it. */
  class FeedConnection {
    var running: bool
    var reconnectAttempts: nat
    var phase: Phase

    function State(): Client
      reads this
    {
      Client(running, reconnectAttempts, phase)
    }

    constructor ()
      ensures State() == Initial
    {
      running := false;
      reconnectAttempts := 0;
      phase := Attempting;
    }

    /** The attempt opened the connection. */
    method OnConnected()
      modifies this
      ensures State() == Step(old(State()), Connected).next
    {
      if phase == Attempting {
        running := true;
        reconnectAttempts := 0;
        phase := Streaming;
      }
    }

    /** The attempt failed or the connection ended: the retry logic, which
        returns how long to sleep. */
    method OnFailed() returns (sleep: Sleep)
      modifies this
      ensures StepResult(State(), sleep) == Step(old(State()), Failed)
    {
      sleep := NoSleep;
      if phase == Stopped {
        return;
      }
      if running {
        reconnectAttempts := reconnectAttempts + 1;
        var delay := ReconnectDelay * Pow2(reconnectAttempts);
        if delay > MaxDelay {
          delay := MaxDelay;
        }
        sleep := SleepFor(delay);
        phase := if reconnectAttempts < MaxReconnectAttempts then Attempting else Stopped;
      } else {
        phase := Stopped;
      }
    }

    /** Clears the running flag; an open connection's loop then ends. */
    method Disconnect()
      modifies this
      ensures State() == Step(old(State()), Event.Disconnect).next
    {
      running := false;
      if phase == Streaming {
        phase := Stopped;
      }
    }

    /** Feeds a script of events to the loop and collects the sleeps. */
    method RunEvents(events: seq<Event>) returns (delays: seq<nat>)
      modifies this
      ensures RunResult(State(), delays) == Run(old(State()), events)
    {
      delays := [];
      var i := 0;
      while i < |events|
        invariant 0 <= i <= |events|
        invariant RunResult(State(), delays) == Run(old(State()), events[..i])
      {
        assert events[..i + 1][..i] == events[..i];
        match events[i] {
          case Connected =>
            OnConnected();
          case Failed =>
            var sleep := OnFailed();
            delays := delays + Slept(sleep);
          case Disconnect =>
            Disconnect();
        }
        i := i + 1;
      }
      assert events[..i] == events;
    }
  }
}
