/**
 The TypeScript client's requests (sdk/typescript/src/client.ts): queueing, sending, replies,
 lost sockets, resending and rejection, as a state and the handlers that change it. A handler
 runs to completion; the network, the timers and the application choose which one runs next.
 */
module SdkModel {
  import opened Wrappers
  import opened Jobs

  type ReqId = nat
  type MsgId = nat
  type SocketId = nat

  datatype Link = Disconnected | Connecting | Connected | Reconnecting

  /** What the caller asked for: a print always has a key (`#print`). */
  datatype Ask = Ask(key: Option<Key>, isPrint: bool, resendable: bool)

  datatype Pending = Pending(ask: Ask, socket: Option<SocketId>)

  /** How a request's promise ended; the outcome is `details.outcome`. */
  datatype Verdict = Resolved | Refused | Rejected(outcome: Outcome)

  /** One request message handed to a socket. */
  datatype Frame = Frame(socket: SocketId, msg: MsgId, req: ReqId, key: Option<Key>)

  datatype Client = Client(
    link: Link,
    ws: Option<SocketId>,
    closing: bool,                       // #intentionalClose
    counter: MsgId,                      // #requestCounter
    queue: seq<ReqId>,
    inFlight: map<MsgId, ReqId>,
    pendings: map<ReqId, Pending>,       // the Pending object of every request ever made
    settled: map<ReqId, Verdict>,        // promises that are settled
    wire: seq<Frame>,                    // history: everything given to ws.send
    requeued: set<ReqId>,                // history: requests put back by a lost socket
    nextReq: ReqId,
    nextSocket: SocketId)

  function NewClient(): Client {
    Client(Disconnected, None, false, 0, [], map[], map[], map[], [], {}, 0, 0)
  }

  datatype Action =
    | Call(ask: Ask)                     // #request
    | Reply(ws: SocketId, msg: MsgId, ok: bool)
    | Lost(ws: SocketId)                 // #onClose
    | Connect
    | Opened                             // the handshake of a new socket succeeded
    | Ready                              // #afterConnect
    | GiveUp                             // connect failed, or the reconnect loop ended
    | Expire(req: ReqId)                 // the request's timer
    | Disconnect

  predicate Acceptable(a: Ask) {
    a.isPrint ==> a.key.Some?
  }

  predicate CanAct(c: Client, a: Action) {
    match a
    case Call(ask) => Acceptable(ask)
    case Expire(r) => r in c.pendings && r !in c.settled
    case _ => true
  }

  function Enqueue(c: Client, r: ReqId): Client {
    c.(queue := c.queue + [r])
  }

  /** `#send`. */
  function Send(c: Client, r: ReqId): Client
    requires r in c.pendings
  {
    if c.ws.None? then Enqueue(c, r)
    else
      var m := c.counter + 1;
      c.(counter := m,
         pendings := c.pendings[r := c.pendings[r].(socket := c.ws)],
         inFlight := c.inFlight[m := r],
         wire := c.wire + [Frame(c.ws.value, m, r, c.pendings[r].ask.key)])
  }

  function Label(p: Pending): Verdict {
    Rejected(if !p.ask.isPrint then Unstated else if p.socket.None? then NotPrinted else Unknown)
  }

  /** `#request`. */
  function Request(c: Client, ask: Ask): Client {
    var r := c.nextReq;
    var c1 := c.(nextReq := r + 1, pendings := c.pendings[r := Pending(ask, None)]);
    if c.link == Disconnected then c1.(settled := c.settled[r := Label(Pending(ask, None))])
    else if c.link == Connected && c.ws.Some? then Send(c1, r)
    else Enqueue(c1, r)
  }

  /** `#onMessage` for a response. */
  function OnReply(c: Client, ws: SocketId, m: MsgId, ok: bool): Client {
    if m in c.inFlight && c.inFlight[m] in c.pendings && c.pendings[c.inFlight[m]].socket == Some(ws) then
      c.(inFlight := c.inFlight - {m}, settled := c.settled[c.inFlight[m] := if ok then Resolved else Refused])
    else c
  }

  /** One turn of the loop in `#onClose`, for the entry `m` of the in-flight map. */
  function Recover(c: Client, ws: SocketId, m: MsgId, reconnect: bool): Client {
    if m in c.inFlight && c.inFlight[m] in c.pendings && c.pendings[c.inFlight[m]].socket == Some(ws) then
      var r := c.inFlight[m];
      var p := c.pendings[r];
      var c1 := c.(inFlight := c.inFlight - {m}, pendings := c.pendings[r := p.(socket := None)]);
      if p.ask.resendable && !c.closing && reconnect then Enqueue(c1, r).(requeued := c.requeued + {r})
      else c1.(settled := c.settled[r := Rejected(if p.ask.isPrint then Unknown else Unstated)])
    else c
  }

  /** The loop of `#onClose` over the first `n` message numbers; a Map iterates in that order. */
  function RecoverAll(c: Client, ws: SocketId, n: nat, reconnect: bool): Client {
    if n == 0 then c else Recover(RecoverAll(c, ws, n - 1, reconnect), ws, n - 1, reconnect)
  }

  /** Requests in the queue or in flight. */
  function Waiting(c: Client): set<ReqId> {
    (set r | r in c.queue) + c.inFlight.Values
  }

  /** `#failAll`. */
  function FailAll(c: Client): Client {
    c.(queue := [], inFlight := map[],
       settled := map r | r in c.settled.Keys + (Waiting(c) * c.pendings.Keys) ::
                    if r in Waiting(c) && r in c.pendings then Label(c.pendings[r]) else c.settled[r])
  }

  /** `#onClose`. */
  function OnClose(c: Client, ws: SocketId, reconnect: bool): Client {
    if c.ws != Some(ws) then c
    else
      var c1 := RecoverAll(c.(ws := None), ws, c.counter + 1, reconnect);
      if c1.closing || !reconnect then FailAll(c1.(link := Disconnected)) else c1.(link := Reconnecting)
  }

  function SendAll(c: Client, rs: seq<ReqId>): Client {
    if rs == [] then c
    else
      var c1 := SendAll(c, rs[..|rs| - 1]);
      var r := rs[|rs| - 1];
      if r in c1.pendings then Send(c1, r) else c1
  }

  /** `#afterConnect`. */
  function AfterConnect(c: Client): Client {
    SendAll(c.(link := Connected, queue := []), c.queue)
  }

  /** The timer callback of `#request`. */
  function Timeout(c: Client, r: ReqId): Client
    requires r in c.pendings
  {
    c.(queue := Without(c.queue, r),
       inFlight := map m | m in c.inFlight && c.inFlight[m] != r :: c.inFlight[m],
       settled := c.settled[r := Label(c.pendings[r])])
  }

  function Without(s: seq<ReqId>, r: ReqId): seq<ReqId> {
    if s == [] then []
    else Without(s[..|s| - 1], r) + if s[|s| - 1] == r then [] else [s[|s| - 1]]
  }

  function Act(c: Client, a: Action, reconnect: bool): Client
    requires CanAct(c, a)
  {
    match a
    case Call(ask) => Request(c, ask)
    case Reply(ws, m, ok) => OnReply(c, ws, m, ok)
    case Lost(ws) => OnClose(c, ws, reconnect)
    case Connect => if c.link == Connected then c else c.(closing := false, link := Connecting)
    case Opened => c.(ws := Some(c.nextSocket), nextSocket := c.nextSocket + 1)
    case Ready => AfterConnect(c)
    case GiveUp => FailAll(c.(link := Disconnected))
    case Expire(r) => Timeout(c, r)
    case Disconnect => FailAll(c.(closing := true, ws := None, link := Disconnected))
  }

  ghost predicate Acts(c: Client, actions: seq<Action>, reconnect: bool)
    decreases |actions|
  {
    actions == [] || (CanAct(c, actions[0]) && Acts(Act(c, actions[0], reconnect), actions[1..], reconnect))
  }

  ghost function ActAll(c: Client, actions: seq<Action>, reconnect: bool): Client
    requires Acts(c, actions, reconnect)
    decreases |actions|
  {
    if actions == [] then c else ActAll(Act(c, actions[0], reconnect), actions[1..], reconnect)
  }
}
