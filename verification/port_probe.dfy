/**
 The port-reachability probe `scanPort` as a one-shot state machine.

 The source wraps a TCP socket in a Promise and installs three handlers:
 `connect` resolves with "open" and calls `destroy()`, `timeout` resolves
 with "closed" and calls `destroy()`, `error` resolves with "closed" and
 calls nothing else. A Promise settles at most once, so only the first handler to run
 decides the result; later handlers still run their other statements.
 The events a socket emits are an input: a finite trace in firing order.
 */
module PortProbe {

  datatype SocketEvent = Connect | Timeout | Error

  /** The two strings `scanPort` can resolve with. */
  datatype PortStatus = Open | Closed

  /** The state of the Promise returned by `scanPort`. */
  datatype Settlement = Pending | Settled(status: PortStatus)

  /** What the handlers can change: the Promise, and whether one of them has
      called `destroy()`. */
  datatype SocketState = SocketState(promise: Settlement, destroyCalled: bool)

  const Start := SocketState(Pending, false)

  /** The value each handler passes to `resolve`. */
  function Verdict(e: SocketEvent): PortStatus {
    if e == Connect then Open else Closed
  }

  /** Whether the handler for `e` calls `socket.destroy()`. */
  predicate Destroys(e: SocketEvent) {
    e == Connect || e == Timeout
  }

  /** `resolve(v)`: only a pending Promise takes the value. */
  function Resolve(p: Settlement, v: PortStatus): Settlement {
    if p.Pending? then Settled(v) else p
  }

  /** Run the handler installed for `e`. */
  function Handle(s: SocketState, e: SocketEvent): SocketState {
    SocketState(Resolve(s.promise, Verdict(e)), s.destroyCalled || Destroys(e))
  }

  /** Deliver the events of `trace` in order. */
  function Run(s: SocketState, trace: seq<SocketEvent>): SocketState
    decreases |trace|
  {
    if |trace| == 0 then s else Run(Handle(s, trace[0]), trace[1..])
  }

  /** The Promise returned by `scanPort` once the events of `trace` have fired. */
  function ScanPort(trace: seq<SocketEvent>): Settlement {
    Run(Start, trace).promise
  }

  /** The string the Promise resolves with. */
  function StatusText(v: PortStatus): (r: string)
    ensures r == "open" || r == "closed"
    ensures r == "open" <==> v == Open
  {
    match v
    case Open => "open"
    case Closed => "closed"
  }

  /** Once settled, no further event changes the Promise. */
  lemma {:induction false} SettledIsFinal(s: SocketState, trace: seq<SocketEvent>)
    requires s.promise.Settled?
    ensures Run(s, trace).promise == s.promise
    decreases |trace|
  {
    if |trace| > 0 {
      SettledIsFinal(Handle(s, trace[0]), trace[1..]);
    }
  }

  /** The first event decides: connect gives open, timeout or error gives closed;
      with no event at all the Promise stays pending. */
  lemma FirstEventWins(trace: seq<SocketEvent>)
    ensures |trace| == 0 ==> ScanPort(trace) == Pending
    ensures |trace| > 0 ==> ScanPort(trace) == Settled(Verdict(trace[0]))
  {
    if |trace| > 0 {
      SettledIsFinal(Handle(Start, trace[0]), trace[1..]);
    }
  }

  /** Events after the first one do not change the result. */
  lemma LaterEventsIgnored(trace: seq<SocketEvent>, later: seq<SocketEvent>)
    requires |trace| > 0
    ensures ScanPort(trace + later) == ScanPort(trace)
  {
    FirstEventWins(trace);
    FirstEventWins(trace + later);
    assert (trace + later)[0] == trace[0];
  }

  /** The Promise changes state exactly once: it is pending before any event
      and holds one and the same value after every non-empty prefix. */
  lemma SettlesOnce(trace: seq<SocketEvent>, k: nat)
    requires 1 <= k <= |trace|
    ensures ScanPort(trace[..0]) == Pending
    ensures ScanPort(trace[..k]) == ScanPort(trace)
    ensures ScanPort(trace).Settled?
  {
    FirstEventWins(trace[..0]);
    FirstEventWins(trace[..k]);
    FirstEventWins(trace);
  }

  /** A handler has called `destroy()` iff some connect or timeout event fired;
      the error handler never calls it. */
  lemma {:induction false} DestroyCalledIff(s: SocketState, trace: seq<SocketEvent>)
    ensures Run(s, trace).destroyCalled <==> s.destroyCalled || Connect in trace || Timeout in trace
    decreases |trace|
  {
    if |trace| > 0 {
      DestroyCalledIff(Handle(s, trace[0]), trace[1..]);
      assert trace == [trace[0]] + trace[1..];
    }
  }

  /** A probe that only sees errors settles "closed" and no handler calls
      `destroy()`. */
  lemma ErrorsNeverCallDestroy(trace: seq<SocketEvent>)
    requires |trace| > 0
    requires forall i :: 0 <= i < |trace| ==> trace[i] == Error
    ensures ScanPort(trace) == Settled(Closed)
    ensures !Run(Start, trace).destroyCalled
  {
    FirstEventWins(trace);
    DestroyCalledIff(Start, trace);
  }
}
