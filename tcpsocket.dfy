/**
 * The TCP socket experiment API (src/experiments/tcpsocket/api.js).
 *
 * `EventQueue` is the state that `listenForEventsOnSocket` keeps in closure
 * variables: the socket's callbacks become the handler methods, and the three
 * waits either settle at once, install the single pending waiter, or throw.
 * A waiter settled later is the `Fired` result of the handler that settles it.
 *
 * `SendDNSQuery` drives one connection over an abstract trace of socket
 * inputs; it is proved equal to `QueryOutcome` and `QueryActions`, which read
 * the answer and the socket actions directly off the trace.
 */
module TcpSocket {
  import opened Wrappers
  import opened JsRuntime

  const DNS_PORT: nat := 53
  const CONCURRENT_WAIT_MESSAGE: string := "only one wait allowed at a time."
  const NO_OPEN_MESSAGE: string := "Didn't get open event for TCP socket"
  const SEND_ERROR_MESSAGE: string := "Error while sending TCP query"

  /** `concatUint8Arrays(a, b)`: a fresh array holding `a` followed by `b`. */
  function ConcatUint8Arrays(a: seq<byte>, b: seq<byte>): (r: seq<byte>)
    ensures |r| == |a| + |b|
    ensures forall i :: 0 <= i < |a| ==> r[i] == a[i]
    ensures forall j :: 0 <= j < |b| ==> r[|a| + j] == b[j]
  {
    a + b
  }

  /** The type of a non-data socket event. */
  datatype SocketEvent = Open | Drain | Error | Close

  /** One callback the socket makes: a non-data event or a chunk of received bytes. */
  datatype SocketInput = Event(event: SocketEvent) | Data(bytes: seq<byte>)

  /** The value a waiter is resolved with: an event, a byte buffer, or `null`. */
  datatype Resolution = EventValue(event: SocketEvent) | DataValue(data: seq<byte>) | NullValue

  /** What a wait operation does when called. */
  datatype WaitOutcome =
    | Immediate(value: Resolution)   // a promise that is already resolved
    | Waiting                       // the pending waiter is installed
    | Thrown(message: string)       // the call throws

  /** What a handler does to the pending waiter. */
  datatype Fired =
    | NotFired
    | Resolved(value: Resolution)
    | TypeError                     // the handler calls a `null` pendingResolve

  /** The buffer after a data event: the new bytes appended, or just them if nothing was buffered. */
  function Accumulate(buffer: Option<seq<byte>>, bytes: seq<byte>): seq<byte>
  {
    match buffer
    case None => bytes
    case Some(prior) => ConcatUint8Arrays(prior, bytes)
  }

  function AsResolution(buffer: Option<seq<byte>>): Resolution
  {
    match buffer
    case None => NullValue
    case Some(d) => DataValue(d)
  }

  /** The closure state of one `listenForEventsOnSocket` call. */
  class EventQueue {
    var wantDataLength: Option<nat>
    var wantDataAndClose: bool
    var pending: bool                       // pendingResolve !== null
    var receivedEvents: seq<SocketEvent>
    var receivedData: Option<seq<byte>>

    constructor ()
      ensures wantDataLength == None && !wantDataAndClose && !pending
      ensures receivedEvents == [] && receivedData == None
    {
      wantDataLength := None;
      wantDataAndClose := false;
      pending := false;
      receivedEvents := [];
      receivedData := None;
    }

    /** `handleGenericEvent`: settle a waiter not waiting for data, else queue the event. */
    method HandleGenericEvent(event: SocketEvent) returns (fired: Fired)
      modifies this
      ensures old(pending) && old(wantDataLength).None? ==>
        fired == Resolved(EventValue(event)) && !pending && receivedEvents == old(receivedEvents)
      ensures !(old(pending) && old(wantDataLength).None?) ==>
        fired == NotFired && pending == old(pending) && receivedEvents == old(receivedEvents) + [event]
      ensures wantDataLength == old(wantDataLength) && wantDataAndClose == old(wantDataAndClose)
      ensures receivedData == old(receivedData)
    {
      if pending && wantDataLength.None? {
        fired := Resolved(EventValue(event));
        pending := false;
      } else {
        fired := NotFired;
        receivedEvents := receivedEvents + [event];
      }
    }

    /** `socket.onclose`: a generic event, unless a close-mode wait has begun. */
    method OnClose() returns (fired: Fired)
      modifies this
      ensures !old(wantDataAndClose) && old(pending) && old(wantDataLength).None? ==>
        fired == Resolved(EventValue(Close)) && !pending && receivedEvents == old(receivedEvents)
      ensures !old(wantDataAndClose) && !(old(pending) && old(wantDataLength).None?) ==>
        fired == NotFired && pending == old(pending) && receivedEvents == old(receivedEvents) + [Close]
      ensures old(wantDataAndClose) && old(pending) ==>
        fired == Resolved(AsResolution(old(receivedData))) && !pending
      ensures old(wantDataAndClose) && !old(pending) ==> fired == NotFired && !pending
      ensures old(wantDataAndClose) ==> receivedEvents == old(receivedEvents)
      ensures wantDataAndClose == (old(wantDataAndClose) && !old(pending))
      ensures wantDataLength == old(wantDataLength) && receivedData == old(receivedData)
    {
      if !wantDataAndClose {
        fired := HandleGenericEvent(Close);
      } else if pending {
        fired := Resolved(AsResolution(receivedData));
        pending := false;
        wantDataAndClose := false;
      } else {
        fired := NotFired;
      }
    }

    /** `socket.ondata`: accumulate the bytes; settle a length wait once enough have arrived. */
    method OnData(bytes: seq<byte>) returns (fired: Fired)
      modifies this
      ensures var buffered := Accumulate(old(receivedData), bytes);
        var reached := old(wantDataLength).Some? && |buffered| >= old(wantDataLength).value;
        && (!reached ==>
              fired == NotFired && receivedData == Some(buffered)
              && pending == old(pending) && wantDataLength == old(wantDataLength))
        && (reached && old(pending) ==>
              fired == Resolved(DataValue(buffered)) && receivedData == None
              && !pending && wantDataLength == None)
        && (reached && !old(pending) ==>
              fired == TypeError && receivedData == Some(buffered)
              && !pending && wantDataLength == old(wantDataLength))
      ensures wantDataAndClose == old(wantDataAndClose) && receivedEvents == old(receivedEvents)
    {
      if receivedData.None? {
        receivedData := Some(bytes);
      } else {
        receivedData := Some(ConcatUint8Arrays(receivedData.value, bytes));
      }
      if wantDataLength.Some? && |receivedData.value| >= wantDataLength.value {
        if !pending {
          fired := TypeError;
          return;
        }
        fired := Resolved(DataValue(receivedData.value));
        pending := false;
        receivedData := None;
        wantDataLength := None;
      } else {
        fired := NotFired;
      }
    }

    /** `waitForEvent`: the oldest queued event, or a pending waiter when none is queued. */
    method WaitForEvent() returns (w: WaitOutcome)
      modifies this
      ensures old(pending) ==> w == Thrown(CONCURRENT_WAIT_MESSAGE) && unchanged(this)
      ensures !old(pending) && old(receivedEvents) != [] ==>
        w == Immediate(EventValue(old(receivedEvents)[0]))
        && receivedEvents == old(receivedEvents)[1..] && !pending
      ensures !old(pending) && old(receivedEvents) == [] ==>
        w == Waiting && pending && receivedEvents == []
      ensures wantDataLength == old(wantDataLength) && wantDataAndClose == old(wantDataAndClose)
      ensures receivedData == old(receivedData)
    {
      if pending {
        return Thrown(CONCURRENT_WAIT_MESSAGE);
      }
      if |receivedEvents| > 0 {
        w := Immediate(EventValue(receivedEvents[0]));
        receivedEvents := receivedEvents[1..];
        return;
      }
      w := Waiting;
      pending := true;
    }

    /** `waitForDataWithAtLeastLength`: the buffer at once if it is long enough, else a length wait. */
    method WaitForDataWithAtLeastLength(length: nat) returns (w: WaitOutcome)
      modifies this
      ensures old(pending) ==> w == Thrown(CONCURRENT_WAIT_MESSAGE) && unchanged(this)
      ensures !old(pending) && old(receivedData).Some? && |old(receivedData).value| >= length ==>
        w == Immediate(DataValue(old(receivedData).value)) && receivedData == None
        && !pending && wantDataLength == old(wantDataLength)
      ensures !old(pending) && !(old(receivedData).Some? && |old(receivedData).value| >= length) ==>
        w == Waiting && pending && wantDataLength == Some(length) && receivedData == old(receivedData)
      ensures wantDataAndClose == old(wantDataAndClose) && receivedEvents == old(receivedEvents)
    {
      if pending {
        return Thrown(CONCURRENT_WAIT_MESSAGE);
      }
      if receivedData.Some? && |receivedData.value| >= length {
        w := Immediate(DataValue(receivedData.value));
        receivedData := None;
        return;
      }
      w := Waiting;
      pending := true;
      wantDataLength := Some(length);
    }

    /** `waitForAnyDataAndClose`: empty the buffer and wait for the close. */
    method WaitForAnyDataAndClose() returns (w: WaitOutcome)
      modifies this
      ensures old(pending) ==> w == Thrown(CONCURRENT_WAIT_MESSAGE) && unchanged(this)
      ensures !old(pending) ==>
        w == Waiting && pending && receivedData == Some([]) && wantDataAndClose
      ensures wantDataLength == old(wantDataLength) && receivedEvents == old(receivedEvents)
    {
      if pending {
        return Thrown(CONCURRENT_WAIT_MESSAGE);
      }
      w := Waiting;
      pending := true;
      receivedData := Some([]);
      wantDataAndClose := true;
    }
  }

  /**
   * A client of the queue showing that its handlers can reach a call of a null
   * `pendingResolve`: a generic event settles a close-mode waiter without leaving
   * close mode, the close then settles the length waiter installed next but keeps
   * its length, and the following data event finds no waiter.
   */
  method StaleLengthWaitScenario() returns (fired: Fired)
    ensures fired == TypeError
  {
    var q := new EventQueue();
    var w := q.WaitForAnyDataAndClose();
    assert w == Waiting;
    var f := q.HandleGenericEvent(Drain);
    assert f == Resolved(EventValue(Drain)) && q.wantDataAndClose;
    w := q.WaitForDataWithAtLeastLength(2);
    assert w == Waiting && q.wantDataLength == Some(2);
    f := q.OnClose();
    assert f == Resolved(DataValue([])) && !q.pending && q.wantDataLength == Some(2);
    fired := q.OnData([1, 2]);
  }

  // ---------------------------------------------------------------------------
  // sendDNSQuery over an abstract connection

  /**
   * What one connection attempt to a nameserver does: whether the TCPSocket
   * constructor throws (and with which message), whether `send` throws, and the
   * callbacks the socket makes, in order.
   */
  datatype TcpPeer = TcpPeer(
    constructorError: Option<string>,
    sendError: Option<string>,
    inputs: seq<SocketInput>)

  /** What the driver does to the socket. */
  datatype SocketAction = Connect(address: string, port: nat) | Send(bytes: seq<byte>) | CloseSocket

  /** How `sendDNSQuery` ends: it returns bytes, throws, or waits forever on a wait nothing settles. */
  datatype QueryResult = Answer(bytes: seq<byte>) | Raised(message: string) | Hung

  function Payload(input: SocketInput): seq<byte>
  {
    match input
    case Data(b) => b
    case Event(_) => []
  }

  /** All bytes the data callbacks in `inputs` deliver, in arrival order. */
  function DataOf(inputs: seq<SocketInput>): seq<byte>
  {
    if inputs == [] then [] else DataOf(inputs[..|inputs| - 1]) + Payload(inputs[|inputs| - 1])
  }

  /** Some data callback occurs in `inputs`. */
  predicate HasData(inputs: seq<SocketInput>)
  {
    inputs != [] && (inputs[|inputs| - 1].Data? || HasData(inputs[..|inputs| - 1]))
  }

  /** What `receivedData` holds after `inputs`, as long as no wait consumed it. */
  function BufferAfter(inputs: seq<SocketInput>): Option<seq<byte>>
  {
    if HasData(inputs) then Some(DataOf(inputs)) else None
  }

  /** The position of the first non-data input at or after `from`, or `|inputs|` if there is none. */
  function NextEvent(inputs: seq<SocketInput>, from: nat): (k: nat)
    requires from <= |inputs|
    ensures from <= k <= |inputs|
    ensures forall j :: from <= j < k ==> inputs[j].Data?
    ensures k < |inputs| ==> inputs[k].Event?
    decreases |inputs| - from
  {
    if from == |inputs| || inputs[from].Event? then from else NextEvent(inputs, from + 1)
  }

  /** The position of the first non-data input: the event that settles the first `waitForEvent`. */
  function FirstEvent(inputs: seq<SocketInput>): nat
  {
    NextEvent(inputs, 0)
  }

  /**
   * The first position at or after `from` holding a data input after which at
   * least `n` bytes have arrived in all, or `|inputs|` if there is none.
   */
  function FirstReach(inputs: seq<SocketInput>, from: nat, n: nat): (k: nat)
    requires from <= |inputs|
    ensures from <= k <= |inputs|
    ensures k < |inputs| ==> inputs[k].Data? && |DataOf(inputs[..k + 1])| >= n
    decreases |inputs| - from
  {
    if from == |inputs| then from
    else if inputs[from].Data? && |DataOf(inputs[..from + 1])| >= n then from
    else FirstReach(inputs, from + 1, n)
  }

  /** No data input between `from` and `FirstReach` brings the total to `n` bytes. */
  lemma {:induction false} FirstReachIsFirst(inputs: seq<SocketInput>, from: nat, n: nat)
    requires from <= |inputs|
    ensures forall j :: from <= j < FirstReach(inputs, from, n) ==>
      !(inputs[j].Data? && |DataOf(inputs[..j + 1])| >= n)
    decreases |inputs| - from
  {
    if from < |inputs| && !(inputs[from].Data? && |DataOf(inputs[..from + 1])| >= n) {
      FirstReachIsFirst(inputs, from + 1, n);
    }
  }

  /** The connection opened: the constructor did not throw and the first event is `open`. */
  predicate Opened(peer: TcpPeer)
  {
    var o := FirstEvent(peer.inputs);
    peer.constructorError.None? && o < |peer.inputs| && peer.inputs[o].event == Open
  }

  /**
   * The bytes a length wait for `n` bytes, issued right after the `open` event at
   * position `o`, resolves with: what was buffered before `open` if that is
   * already `n` bytes, otherwise everything up to the first data input that
   * brings the total to `n`; `None` if the trace ends first.
   */
  function AnswerAfterOpen(inputs: seq<SocketInput>, o: nat, n: nat): (r: Option<seq<byte>>)
    requires o < |inputs|
    ensures r.Some? ==> |r.value| >= n
  {
    if HasData(inputs[..o]) && |DataOf(inputs[..o])| >= n then Some(DataOf(inputs[..o]))
    else
      var k := FirstReach(inputs, o + 1, n);
      if k < |inputs| then Some(DataOf(inputs[..k + 1])) else None
  }

  /** What `sendDNSQuery(addr, buf)` ends with, read off the connection's trace. */
  function QueryOutcome(buf: seq<byte>, peer: TcpPeer): (r: QueryResult)
    ensures r.Answer? && peer.sendError.None? ==> |r.bytes| >= |buf|
    ensures r.Answer? ==> Opened(peer)
  {
    var inputs := peer.inputs;
    var o := FirstEvent(inputs);
    if peer.constructorError.Some? then Raised(peer.constructorError.value)
    else if o == |inputs| then Hung
    else if inputs[o].event != Open then Raised(NO_OPEN_MESSAGE)
    else if peer.sendError.Some? then
      if peer.sendError.value != CONCURRENT_WAIT_MESSAGE then Raised(SEND_ERROR_MESSAGE) else Answer([])
    else
      match AnswerAfterOpen(inputs, o, |buf|)
      case Some(bytes) => Answer(bytes)
      case None => Hung
  }

  /** The socket actions `sendDNSQuery(addr, buf)` performs, in order. */
  function QueryActions(addr: string, buf: seq<byte>, peer: TcpPeer): (r: seq<SocketAction>)
    ensures peer.constructorError.Some? <==> r == []
    ensures r != [] ==> r[0] == Connect(addr, DNS_PORT)
    ensures Send(buf) in r <==> Opened(peer) && peer.sendError.None?
    ensures r != [] && !QueryOutcome(buf, peer).Hung? ==> r[|r| - 1] == CloseSocket
    ensures QueryOutcome(buf, peer).Hung? ==> CloseSocket !in r
  {
    var inputs := peer.inputs;
    var o := FirstEvent(inputs);
    var connect := Connect(addr, DNS_PORT);
    if peer.constructorError.Some? then []
    else if o == |inputs| then [connect]
    else if inputs[o].event != Open || peer.sendError.Some? then [connect, CloseSocket]
    else if QueryOutcome(buf, peer).Hung? then [connect, Send(buf)]
    else [connect, Send(buf), CloseSocket]
  }

  lemma BufferStep(inputs: seq<SocketInput>, i: nat)
    requires i < |inputs|
    ensures DataOf(inputs[..i + 1]) == DataOf(inputs[..i]) + Payload(inputs[i])
    ensures BufferAfter(inputs[..i + 1]) ==
      if inputs[i].Data? then Some(Accumulate(BufferAfter(inputs[..i]), inputs[i].bytes))
      else BufferAfter(inputs[..i])
  {
    var pre, next := inputs[..i], inputs[..i + 1];
    assert next[..i] == pre;
    assert next[i] == inputs[i];
    assert DataOf(next) == DataOf(pre) + Payload(inputs[i]);
    assert HasData(next) == (inputs[i].Data? || HasData(pre));
    if inputs[i].Data? {
      assert Payload(inputs[i]) == inputs[i].bytes;
      if HasData(pre) {
        assert BufferAfter(pre) == Some(DataOf(pre));
      } else {
        NoDataIsEmpty(pre);
        assert DataOf(next) == inputs[i].bytes;
      }
    } else {
      assert Payload(inputs[i]) == [];
      assert DataOf(next) == DataOf(pre);
    }
  }

  /**
   * A data input at `i` leaves the whole of `DataOf` buffered, and the length
   * wait either settles on it or looks further.
   */
  lemma ReachStep(inputs: seq<SocketInput>, i: nat, n: nat)
    requires i < |inputs|
    ensures inputs[i].Data? ==> BufferAfter(inputs[..i + 1]) == Some(DataOf(inputs[..i + 1]))
    ensures FirstReach(inputs, i, n)
         == if inputs[i].Data? && |DataOf(inputs[..i + 1])| >= n then i else FirstReach(inputs, i + 1, n)
  {
    var next := inputs[..i + 1];
    assert next[..i] == inputs[..i];
    assert next[|next| - 1] == inputs[i];
  }

  lemma {:induction false} NoDataIsEmpty(inputs: seq<SocketInput>)
    requires !HasData(inputs)
    ensures DataOf(inputs) == []
  {
    if inputs != [] {
      NoDataIsEmpty(inputs[..|inputs| - 1]);
    }
  }

  /** The bytes received up to any point are a prefix of all bytes received. */
  lemma {:induction false} DataOfPrefix(inputs: seq<SocketInput>, k: nat)
    requires k <= |inputs|
    ensures DataOf(inputs[..k]) <= DataOf(inputs)
    decreases |inputs| - k
  {
    if k < |inputs| {
      BufferStep(inputs, k);
      DataOfPrefix(inputs, k + 1);
    } else {
      assert inputs[..k] == inputs;
    }
  }

  lemma AnswerAfterOpenIsPrefix(inputs: seq<SocketInput>, o: nat, n: nat)
    requires o < |inputs|
    ensures AnswerAfterOpen(inputs, o, n).Some? ==> AnswerAfterOpen(inputs, o, n).value <= DataOf(inputs)
  {
    var r := AnswerAfterOpen(inputs, o, n);
    if r.Some? {
      var cut := if HasData(inputs[..o]) && |DataOf(inputs[..o])| >= n then o
                 else FirstReach(inputs, o + 1, n) + 1;
      assert r.value == DataOf(inputs[..cut]);
      DataOfPrefix(inputs, cut);
    }
  }

  /**
   * A length wait issued after `open` stays unsettled exactly when `n` bytes
   * were not buffered before `open` and no data callback after it brings the
   * total to `n`.
   */
  lemma AnswerAfterOpenNone(inputs: seq<SocketInput>, o: nat, n: nat)
    requires o < |inputs|
    ensures AnswerAfterOpen(inputs, o, n).None? <==>
      && !(HasData(inputs[..o]) && |DataOf(inputs[..o])| >= n)
      && forall j :: o < j < |inputs| ==> !(inputs[j].Data? && |DataOf(inputs[..j + 1])| >= n)
  {
    FirstReachIsFirst(inputs, o + 1, n);
  }

  /**
   * A connection that opened and took the query hangs exactly when the peer
   * never delivers `|buf|` bytes: neither before `open` nor at any data
   * callback after it.
   */
  lemma HungMeansShortReply(buf: seq<byte>, peer: TcpPeer)
    requires Opened(peer) && peer.sendError.None?
    ensures var inputs, o := peer.inputs, FirstEvent(peer.inputs);
      QueryOutcome(buf, peer).Hung? <==>
        && !(HasData(inputs[..o]) && |DataOf(inputs[..o])| >= |buf|)
        && forall j :: o < j < |inputs| ==> !(inputs[j].Data? && |DataOf(inputs[..j + 1])| >= |buf|)
  {
    AnswerAfterOpenNone(peer.inputs, FirstEvent(peer.inputs), |buf|);
  }

  /** A TCP answer is exactly the bytes received up to some point, in arrival order. */
  lemma AnswerIsReceivedPrefix(buf: seq<byte>, peer: TcpPeer)
    requires QueryOutcome(buf, peer).Answer?
    ensures QueryOutcome(buf, peer).bytes <= DataOf(peer.inputs)
  {
    if peer.sendError.None? {
      AnswerAfterOpenIsPrefix(peer.inputs, FirstEvent(peer.inputs), |buf|);
    }
  }

  /** The socket delivers one callback to the queue's handlers. */
  method Deliver(queue: EventQueue, input: SocketInput) returns (fired: Fired)
    modifies queue
    ensures input.Data? ==>
      var buffered := Accumulate(old(queue.receivedData), input.bytes);
      var reached := old(queue.wantDataLength).Some? && |buffered| >= old(queue.wantDataLength).value;
      && (!reached ==>
            fired == NotFired && queue.receivedData == Some(buffered)
            && queue.pending == old(queue.pending) && queue.wantDataLength == old(queue.wantDataLength))
      && (reached && old(queue.pending) ==>
            fired == Resolved(DataValue(buffered)) && queue.receivedData == None
            && !queue.pending && queue.wantDataLength == None)
      && (reached && !old(queue.pending) ==> fired == TypeError)
      && queue.receivedEvents == old(queue.receivedEvents)
    ensures input.Event? && !old(queue.wantDataAndClose) ==>
      && queue.receivedData == old(queue.receivedData)
      && queue.wantDataLength == old(queue.wantDataLength)
      && (old(queue.pending) && old(queue.wantDataLength).None? ==>
            fired == Resolved(EventValue(input.event)) && !queue.pending
            && queue.receivedEvents == old(queue.receivedEvents))
      && (!(old(queue.pending) && old(queue.wantDataLength).None?) ==>
            fired == NotFired && queue.pending == old(queue.pending)
            && queue.receivedEvents == old(queue.receivedEvents) + [input.event])
    ensures queue.wantDataAndClose == old(queue.wantDataAndClose) || (input.Event? && input.event == Close)
    ensures !old(queue.wantDataAndClose) ==> !queue.wantDataAndClose
  {
    match input {
      case Data(b) =>
        fired := queue.OnData(b);
      case Event(e) =>
        if e == Close {
          fired := queue.OnClose();
        } else {
          fired := queue.HandleGenericEvent(e);
        }
    }
  }

  /** Deliver callbacks until the first non-data event settles the `waitForEvent` waiter. */
  method AwaitFirstEvent(queue: EventQueue, inputs: seq<SocketInput>) returns (next: nat, fired: Fired)
    requires queue.pending && queue.wantDataLength.None? && !queue.wantDataAndClose
    requires queue.receivedEvents == [] && queue.receivedData == None
    modifies queue
    ensures var o := FirstEvent(inputs);
      && (o == |inputs| ==> fired.NotFired?)
      && (o < |inputs| ==>
            fired == Resolved(EventValue(inputs[o].event)) && next == o + 1
            && !queue.pending && queue.receivedData == BufferAfter(inputs[..o]))
    ensures queue.wantDataLength.None? && !queue.wantDataAndClose && queue.receivedEvents == []
  {
    var i := 0;
    fired := NotFired;
    while i < |inputs| && fired.NotFired?
      invariant 0 <= i <= |inputs|
      invariant queue.wantDataLength.None? && !queue.wantDataAndClose && queue.receivedEvents == []
      invariant fired.NotFired? ==>
        FirstEvent(inputs) == NextEvent(inputs, i) && queue.pending
        && queue.receivedData == BufferAfter(inputs[..i])
      invariant !fired.NotFired? ==>
        0 < i && i - 1 == FirstEvent(inputs) && fired == Resolved(EventValue(inputs[i - 1].event))
        && !queue.pending && queue.receivedData == BufferAfter(inputs[..i - 1])
      decreases |inputs| - i
    {
      BufferStep(inputs, i);
      fired := Deliver(queue, inputs[i]);
      i := i + 1;
    }
    next := i;
  }

  /** Deliver callbacks from position `from` until a length wait for `n` bytes is settled. */
  method AwaitLength(queue: EventQueue, inputs: seq<SocketInput>, from: nat, n: nat) returns (fired: Fired)
    requires from <= |inputs|
    requires queue.pending && queue.wantDataLength == Some(n) && !queue.wantDataAndClose
    requires queue.receivedData == BufferAfter(inputs[..from])
    modifies queue
    ensures var k := FirstReach(inputs, from, n);
      && (k == |inputs| ==> fired.NotFired?)
      && (k < |inputs| ==> fired == Resolved(DataValue(DataOf(inputs[..k + 1]))))
    decreases |inputs| - from
  {
    if from == |inputs| {
      return NotFired;
    }
    fired := AwaitLengthStep(queue, inputs, from, n);
    if fired.NotFired? {
      fired := AwaitLength(queue, inputs, from + 1, n);
    }
  }

  /** One callback while a length wait for `n` bytes is pending: it settles the wait exactly at `FirstReach`. */
  method AwaitLengthStep(queue: EventQueue, inputs: seq<SocketInput>, i: nat, n: nat) returns (fired: Fired)
    requires i < |inputs|
    requires queue.pending && queue.wantDataLength == Some(n) && !queue.wantDataAndClose
    requires queue.receivedData == BufferAfter(inputs[..i])
    modifies queue
    ensures !queue.wantDataAndClose
    ensures FirstReach(inputs, i, n) == i ==> fired == Resolved(DataValue(DataOf(inputs[..i + 1])))
    ensures FirstReach(inputs, i, n) != i ==>
      && fired.NotFired? && queue.pending && queue.wantDataLength == Some(n)
      && queue.receivedData == BufferAfter(inputs[..i + 1])
      && FirstReach(inputs, i, n) == FirstReach(inputs, i + 1, n)
  {
    BufferStep(inputs, i);
    ReachStep(inputs, i, n);
    fired := Deliver(queue, inputs[i]);
  }

  /**
   * After the `open` event at position `o`: wait for at least `n` bytes, which
   * either settles at once from the buffer or after further callbacks.
   */
  method AwaitAnswer(queue: EventQueue, inputs: seq<SocketInput>, o: nat, n: nat)
    returns (answer: Option<seq<byte>>)
    requires o < |inputs| && inputs[o].Event?
    requires !queue.pending && queue.wantDataLength.None? && !queue.wantDataAndClose
    requires queue.receivedData == BufferAfter(inputs[..o])
    modifies queue
    ensures answer == AnswerAfterOpen(inputs, o, n)
  {
    var w := queue.WaitForDataWithAtLeastLength(n);
    if w.Immediate? {
      return Some(w.value.data);
    }
    BufferStep(inputs, o);
    var fired := AwaitLength(queue, inputs, o + 1, n);
    if fired.NotFired? {
      return None;
    }
    answer := Some(fired.value.data);
  }

  /**
   * `sendDNSQuery(addr, buf)`: open a socket to `addr` on port 53, wait for the
   * first event, send `buf` once it is `open`, wait for at least `|buf|` bytes,
   * and close the socket on every exit after the connection exists.
   */
  method SendDNSQuery(addr: string, buf: seq<byte>, peer: TcpPeer)
    returns (result: QueryResult, actions: seq<SocketAction>)
    ensures result == QueryOutcome(buf, peer)
    ensures actions == QueryActions(addr, buf, peer)
  {
    if peer.constructorError.Some? {
      return Raised(peer.constructorError.value), [];
    }
    actions := [Connect(addr, DNS_PORT)];
    var inputs := peer.inputs;
    var queue := new EventQueue();
    var w := queue.WaitForEvent();
    var next, fired := AwaitFirstEvent(queue, inputs);
    if fired.NotFired? {
      return Hung, actions;
    }
    if fired.value.event != Open {
      actions := actions + [CloseSocket];
      return Raised(NO_OPEN_MESSAGE), actions;
    }
    if peer.sendError.Some? {
      actions := actions + [CloseSocket];
      if peer.sendError.value != CONCURRENT_WAIT_MESSAGE {
        return Raised(SEND_ERROR_MESSAGE), actions;
      }
      return Answer([]), actions;
    }
    actions := actions + [Send(buf)];
    var answer := AwaitAnswer(queue, inputs, next - 1, |buf|);
    if answer.None? {
      return Hung, actions;
    }
    actions := actions + [CloseSocket];
    result := Answer(answer.value);
  }

  // ---------------------------------------------------------------------------
  // closeSocket, the extension context's close hook

  /** What the close hook does with `tcp_socket`, the socket the last `sendDNSQuery` created. */
  datatype CloseEffect = ClosesSocket(socket: nat) | NoEffect | CloseTypeError

  /**
   * `closeSocket` as written: the guard is negated, so it calls `close` on an
   * absent socket (a TypeError) and leaves an existing socket alone.
   */
  function CloseHookAsWritten(last: Option<nat>): (r: CloseEffect)
    ensures !r.ClosesSocket?
    ensures r.CloseTypeError? <==> last.None?
  {
    if last.None? then CloseTypeError else NoEffect
  }

  /** The hook as intended: close the socket if there is one, and never throw. */
  function CloseHook(last: Option<nat>): (r: CloseEffect)
    ensures !r.CloseTypeError?
    ensures r.ClosesSocket? <==> last.Some?
    ensures r.ClosesSocket? ==> r.socket == last.value
  {
    if last.Some? then ClosesSocket(last.value) else NoEffect
  }

  /** The written hook differs from the intended one on every input. */
  lemma CloseHookAsWrittenAlwaysWrong(last: Option<nat>)
    ensures CloseHookAsWritten(last) != CloseHook(last)
  {
  }
}
