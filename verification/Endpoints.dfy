/** One end of the proxy: relay_manager with the relays it owns. The same code
    runs at the local and at the remote end. Handlers of the manager's strand
    are functions from endpoint to endpoint; what they post to a relay lands in
    that relay's inbox. The fields `dest`, `input`, `emitted` and `handled` are
    histories. */
module Endpoints {
  import opened Bytes
  import opened RelayData
  import opened RelayQueue
  import A = Addresses
  import U = UdpTables

  datatype Role = LocalServer | RemoteServer | LocalTransparent

  /** A relay's read loop. */
  datatype Loop = NotStarted | Reading | Over

  /** A raw_tcp or raw_udp with what its strand has posted to the manager. */
  datatype Obj = Obj(
    session: nat,
    relay: Relay,
    loop: Loop,
    replying: bool,          // the SOCKS connect reply is being written
    outbox: seq<Frame>,      // add_request calls not yet handled
    dest: Option<A.Dest>,    // history: where the relay is to connect
    input: seq<byte>,        // history: bytes read from the socket
    emitted: seq<Frame>)     // history: START_TCP and DATA_TCP frames posted

  datatype Endpoint = Endpoint(
    role: Role,
    running: bool,                     // _state
    timing: bool,                      // the timer waits; it looked at _state before
    faulted: bool,                     // a null relay was used or an exception left a handler
    ssl: Option<nat>,                  // _ssl
    ssls: seq<Relay>,                  // every ssl_relay this end has had
    relays: map<nat, Option<nat>>,     // _relays; None is a null pointer
    objs: seq<Obj>,                    // every raw relay this end has had
    udp: U.Udp,
    handled: seq<Frame>)               // history: frames given to add_response

  function NewLocal(role: Role): Endpoint {
    Endpoint(role, true, true, false, None, [], map[], [], U.NEW_UDP, [])
  }

  /** A remote end, created for one accepted TLS connection. */
  function NewRemote(): Endpoint {
    Endpoint(RemoteServer, true, true, false, Some(0), [Fresh(Ssl, false)], map[], [], U.NEW_UDP, [])
  }

  // -------------------------------------------------------- talking to relays

  function PostObj(e: Endpoint, i: nat, m: Message): Endpoint
    requires i < |e.objs|
  {
    e.(objs := e.objs[i := e.objs[i].(relay := Post(e.objs[i].relay, m))])
  }

  function SendObj(e: Endpoint, i: nat, f: Frame): Endpoint
    requires i < |e.objs|
  {
    PostObj(e, i, Send(Load(e.objs[i].relay.kind, f)))
  }

  function PostSsl(e: Endpoint, k: nat, f: Frame): Endpoint
    requires k < |e.ssls|
  {
    e.(ssls := e.ssls[k := Post(e.ssls[k], Send(Load(Ssl, f)))])
  }

  function OpenSsl(e: Endpoint): Endpoint {
    e.(ssl := Some(|e.ssls|), ssls := e.ssls + [Fresh(Ssl, true)])
  }

  /** Object i is what _relays holds for its session. */
  predicate InTable(e: Endpoint, i: nat)
    requires i < |e.objs|
  {
    e.objs[i].session in e.relays && e.relays[e.objs[i].session] == Some(i)
  }

  /** Entries of _relays point to relays of their session. */
  predicate TableOk(e: Endpoint) {
    forall s | s in e.relays && e.relays[s].Some? :: e.relays[s].value < |e.objs| && e.objs[e.relays[s].value].session == s
  }

  predicate SslOk(e: Endpoint) {
    e.ssl.Some? ==> e.ssl.value < |e.ssls|
  }

  function HaltAll(e: Endpoint): seq<Obj> {
    seq(|e.objs|, i requires 0 <= i < |e.objs| =>
      if InTable(e, i) then e.objs[i].(relay := Post(e.objs[i].relay, Halt)) else e.objs[i])
  }

  function StopManager(e: Endpoint): Endpoint {
    e.(objs := HaltAll(e), relays := map[], running := false)
  }

  // ------------------------------------------------------------- add_request

  /** No connection, or one that has stopped. */
  predicate SslDown(e: Endpoint)
    requires SslOk(e)
  {
    e.ssl.None? || e.ssls[e.ssl.value].state == Stop
  }

  /** The remote end gives up; a local one dials again. */
  function AddRequest(e: Endpoint, f: Frame): Endpoint
    requires SslOk(e)
  {
    if SslDown(e) then
      if e.role == RemoteServer then StopManager(RefuseSsl(e, f))
      else PostSsl(OpenSsl(e), |e.ssls|, f)
    else PostSsl(e, e.ssl.value, f)
  }

  /** History only: the frame counts as offered to the stopped connection. */
  function RefuseSsl(e: Endpoint, f: Frame): Endpoint
    requires SslOk(e)
  {
    if e.ssl.None? then e
    else e.(ssls := e.ssls[e.ssl.value := Refuse(e.ssls[e.ssl.value], Load(Ssl, f))])
  }

  // ------------------------------------------------------------ add_response

  function Fault(e: Endpoint): Endpoint {
    e.(faulted := true)
  }

  function StopFrame(s: nat): Frame {
    Frame(s, StopTcp, [])
  }

  function OnDataTcp(e: Endpoint, f: Frame): Endpoint
    requires TableOk(e) && SslOk(e)
  {
    var s := f.session;
    if s !in e.relays then e
    else if e.relays[s].None? then Fault(e)
    else if e.objs[e.relays[s].value].relay.state == Stop then AddRequest(e.(relays := e.relays - {s}), StopFrame(s))
    else SendObj(e, e.relays[s].value, f)
  }

  /** What operator[] and the null checks see. */
  function Lookup(e: Endpoint, s: nat): Option<nat> {
    if s in e.relays then e.relays[s] else None
  }

  /** add_remote_raw_udp. */
  function AddRawUdp(e: Endpoint, s: nat): Endpoint {
    var o := Obj(s, Fresh(RawUdp, false), Reading, false, [], None, [], []);
    e.(objs := e.objs + [o], relays := e.relays[s := Some(|e.objs|)])
  }

  /** remote_server_send_udp: a TCP relay under the same number is used too. */
  function RemoteSendUdp(e: Endpoint, f: Frame): Endpoint
    requires TableOk(e)
  {
    var v := Lookup(e, f.session);
    if v.None? || e.objs[v.value].relay.state == Stop then SendObj(AddRawUdp(e, f.session), |e.objs|, f)
    else SendObj(e, v.value, f)
  }

  /** add_remote_raw_tcp. */
  function AddRawTcp(e: Endpoint, s: nat, d: A.Dest): Endpoint {
    var o := Obj(s, Fresh(RawTcp, e.role == RemoteServer), NotStarted, false, [], Some(d), [], []);
    e.(objs := e.objs + [o], relays := e.relays[s := Some(|e.objs|)])
  }

  /** remote_server_start_tcp: an address that does not parse throws, leaving
      the entry that operator[] made. */
  function StartRemoteTcp(e: Endpoint, f: Frame): Endpoint
    requires TableOk(e) && |f.data| <= READ_BUFFER_SIZE
  {
    var v := Lookup(e, f.session);
    var e1 := if v.Some? then PostObj(e, v.value, Halt) else e;
    match DestOf(f.data)
    case Ok(d) => AddRawTcp(e1, f.session, d)
    case Err(_) => Fault(e1.(relays := e1.relays[f.session := v]))
  }

  function OnStopTcp(e: Endpoint, f: Frame): Endpoint
    requires TableOk(e)
  {
    var s := f.session;
    if s !in e.relays then e
    else if e.relays[s].None? then Fault(e)
    else
      var h := PostObj(e, e.relays[s].value, Halt);
      h.(relays := e.relays - {s})
  }

  function OnDataUdp(e: Endpoint, f: Frame): Endpoint
    requires TableOk(e)
  {
    match e.role
    case LocalTransparent => if e.udp.senders == [] then Fault(e) else e.(udp := U.ToClient(e.udp, f))
    case RemoteServer => RemoteSendUdp(e, f)
    case LocalServer => e
  }

  /** add_response can be called on f. */
  predicate CanHandle(e: Endpoint, f: Frame) {
    TableOk(e) && SslOk(e) && |f.data| <= READ_BUFFER_SIZE
  }

  function AddResponse(e: Endpoint, f: Frame): Endpoint
    requires CanHandle(e, f)
  {
    var h := e.(handled := e.handled + [f]);
    match f.cmd
    case DataTcp => OnDataTcp(h, f)
    case DataUdp => OnDataUdp(h, f)
    case StartTcp => StartRemoteTcp(h, f)
    case StopTcp => OnStopTcp(h, f)
    case StopUdp => h
    case Unknown(_) => h
  }

  // -------------------------------------------------- sessions and the timer

  /** add_local_raw_tcp: the new relay's socket is already open. */
  function AddLocalTcp(e: Endpoint): Endpoint {
    var s := e.udp.session;
    var e1 := e.(udp := U.NextTcp(e.udp));
    if s in e.relays then e1
    else
      var o := Obj(s, Fresh(RawTcp, false), NotStarted, false, [], None, [], []);
      e1.(objs := e.objs + [o], relays := e.relays[s := Some(|e.objs|)])
  }

  /** send_udp_data. */
  function SendUdpData(e: Endpoint, src: U.Client, data: seq<byte>): Endpoint
    requires SslOk(e) && e.udp.senders != []
  {
    var u := U.FromClient(e.udp, src);
    AddRequest(e.(udp := u), Frame(U.SessionOf(u, src), DataUdp, data))
  }

  /** The tick's loop over _relays: stop and drop what has been idle. */
  function TickObjs(e: Endpoint): seq<Obj> {
    seq(|e.objs|, i requires 0 <= i < |e.objs| =>
      if InTable(e, i) then e.objs[i].(relay := TimeoutDown(e.objs[i].relay)) else e.objs[i])
  }

  predicate Survives(e: Endpoint, s: nat)
    requires TableOk(e) && s in e.relays
  {
    e.relays[s].Some? && TimeoutDown(e.objs[e.relays[s].value].relay).timeout != 0
  }

  function TickRelays(e: Endpoint): Endpoint
    requires TableOk(e)
  {
    e.(objs := TickObjs(e), relays := map s | s in e.relays && Survives(e, s) :: e.relays[s])
  }

  function TickSsl(e: Endpoint): Endpoint
    requires SslOk(e)
  {
    if e.ssl.None? then e else e.(ssls := e.ssls[e.ssl.value := TimeoutDown(e.ssls[e.ssl.value])])
  }

  /** Whether _ssl->timeout_down() just returned 0. */
  predicate SslIdle(e: Endpoint)
    requires SslOk(e)
  {
    e.ssl.Some? && TickSsl(e).ssls[e.ssl.value].timeout == 0
  }

  /** The UDP sources a tick's loop runs over. */
  function TickSources(e: Endpoint): map<U.Client, U.Src>
    requires SslOk(e)
  {
    if SslIdle(e) then map[] else e.udp.srcs
  }

  /** The body of the timer's loop. `order` is the order in which the loop over
      _srcs meets the entries that expire. */
  function TimerBody(e: Endpoint, order: seq<U.Client>): Endpoint
    requires TableOk(e) && SslOk(e) && e.udp.senders != []
    requires forall i | 0 <= i < |order| :: order[i] in TickSources(e)
  {
    var e1 := TickSsl(e);
    if SslIdle(e) && e.role == RemoteServer then StopManager(e1)
    else
      var u := if SslIdle(e) then U.Clear(e.udp) else e.udp;
      assert u.srcs == TickSources(e);
      TickRelays(e1.(udp := U.Expire(u, order)))
  }

  /** One turn of the loop: the wait ends, and the next one begins unless _state
      is STOP by now. */
  function TimerTurn(e: Endpoint, order: seq<U.Client>): Endpoint
    requires TableOk(e) && SslOk(e) && e.udp.senders != []
    requires forall i | 0 <= i < |order| :: order[i] in TickSources(e)
  {
    var t := TimerBody(e, order);
    t.(timing := t.running)
  }

  // -------------------------------------------------- steps of the other strands

  datatype Step =
    | ObjStep(i: nat, st: RelayQueue.Step)      // relay i's own strand and socket
    | EmitStart(i: nat, data: seq<byte>)        // a local relay knows its destination
    | ReadSome(i: nat, data: seq<byte>)         // relay i's read loop
    | ReadFails(i: nat)
    | StartFails(i: nat)
    | ReplyEnds(i: nat, ok: bool)               // relay i's SOCKS reply is out, or its write throws
    | RecvFrom(i: nat, peer: A.SockAddr, stale: seq<byte>, data: seq<byte>)
    | Request(i: nat)                           // the manager handles relay i's next add_request
    | SslStep(k: nat, st: RelayQueue.Step)
    | AcceptTcp
    | AcceptUdp(src: U.Client, data: seq<byte>)
    | TimerTick(order: seq<U.Client>)
    | SenderStep(w: nat, act: U.SenderStep)

  predicate Tcp(o: Obj) {
    o.relay.kind == RawTcp
  }

  function SetObj(e: Endpoint, i: nat, o: Obj): Endpoint
    requires i < |e.objs|
  {
    e.(objs := e.objs[i := o])
  }

  /** A relay's own step. START_TCP precedes `state = RELAY_INIT` at a local
      end; a remote relay starts to read when its connect succeeds. */
  predicate CanStep(e: Endpoint, o: Obj, q: RelayQueue.Step) {
    && RelayQueue.Enabled(o.relay, q) && q != StartFail && q != CallStop
    && (q == StartOk && Tcp(o) && e.role != RemoteServer ==> o.loop != NotStarted)
  }

  function ObjAfter(o: Obj, q: RelayQueue.Step, socks: bool): Obj
    requires RelayQueue.Enabled(o.relay, q)
  {
    o.(relay := Apply(o.relay, q), loop := if q == StartOk && o.loop == NotStarted then Reading else o.loop,
       replying := o.replying || (socks && q == StartOk))
  }

  /** A relay that answers its client's SOCKS request once it is in INIT. */
  predicate Socks(e: Endpoint, o: Obj) {
    e.role == LocalServer && Tcp(o)
  }

  predicate CanEmitStart(e: Endpoint, o: Obj, data: seq<byte>) {
    && Tcp(o) && e.role != RemoteServer && o.loop == NotStarted && !o.relay.startDone
    && |data| <= READ_BUFFER_SIZE && DestOf(data).Ok?
  }

  function StartEmitted(o: Obj, data: seq<byte>): Obj
    requires |data| <= READ_BUFFER_SIZE && DestOf(data).Ok?
  {
    var f := Frame(o.session, StartTcp, data);
    o.(outbox := o.outbox + [f], emitted := o.emitted + [f], dest := Some(DestOf(data).dest), loop := Reading)
  }

  predicate CanReadSome(o: Obj, data: seq<byte>) {
    Tcp(o) && o.loop == Reading && 0 < |data| <= READ_BUFFER_SIZE
  }

  function HasRead(o: Obj, data: seq<byte>): Obj {
    var f := Frame(o.session, DataTcp, data);
    o.(outbox := o.outbox + [f], emitted := o.emitted + [f], input := o.input + data, relay := ResetTimeout(o.relay))
  }

  predicate CanReadFail(o: Obj) {
    o.loop == Reading && RelayQueue.Enabled(o.relay, CallStop)
  }

  function ReadFailed(o: Obj): Obj
    requires CanReadFail(o)
  {
    o.(outbox := if Tcp(o) then o.outbox + [StopFrame(o.session)] else o.outbox,
       loop := Over, relay := Apply(o.relay, CallStop))
  }

  predicate CanStartFail(o: Obj) {
    Tcp(o) && o.loop == NotStarted && !o.relay.startDone
  }

  function StartFailed(o: Obj): Obj
    requires CanStartFail(o)
  {
    o.(outbox := o.outbox + [StopFrame(o.session)], loop := Over, relay := Apply(o.relay, StartFail))
  }

  predicate CanEndReply(o: Obj) {
    Tcp(o) && o.replying && o.relay.startDone
  }

  /** The start coroutine ends; if the write throws, with STOP_TCP and a stop. */
  function ReplyEnded(o: Obj, ok: bool): Obj
    requires CanEndReply(o)
  {
    if ok then o.(replying := false)
    else o.(replying := false, outbox := o.outbox + [StopFrame(o.session)], relay := Apply(o.relay, CallStop))
  }

  predicate CanRecv(o: Obj, peer: A.SockAddr, stale: seq<byte>, data: seq<byte>) {
    && !Tcp(o) && o.loop == Reading
    && peer.Valid() && |stale| == ADDRESS_SIZE && |data| <= READ_BUFFER_SIZE - ADDRESS_SIZE
  }

  function HasReceived(o: Obj, peer: A.SockAddr, stale: seq<byte>, data: seq<byte>): Obj
    requires CanRecv(o, peer, stale, data)
  {
    o.(outbox := o.outbox + [DatagramFrame(o.session, peer, data, stale)])
  }

  function TakeRequest(e: Endpoint, i: nat): Endpoint
    requires i < |e.objs| && e.objs[i].outbox != []
  {
    SetObj(e, i, e.objs[i].(outbox := e.objs[i].outbox[1..]))
  }

  function SetSsl(e: Endpoint, k: nat, r: Relay): Endpoint
    requires k < |e.ssls|
  {
    e.(ssls := e.ssls[k := r])
  }

  ghost predicate CanTick(e: Endpoint, order: seq<U.Client>) {
    && e.timing && TableOk(e) && SslOk(e) && e.udp.senders != []
    && U.ExpiryOrder(TickSources(e), order)
  }

  function SenderMoves(u: U.Udp, w: nat, act: U.SenderStep): U.Udp
    requires w < |u.senders| && U.SenderCan(u.senders[w], act)
  {
    u.(senders := u.senders[w := U.SenderDo(u.senders[w], act)])
  }

  ghost predicate Enabled(e: Endpoint, st: Step) {
    match st
    case ObjStep(i, q) => i < |e.objs| && CanStep(e, e.objs[i], q)
    case EmitStart(i, data) => i < |e.objs| && CanEmitStart(e, e.objs[i], data)
    case ReadSome(i, data) => i < |e.objs| && CanReadSome(e.objs[i], data)
    case ReadFails(i) => i < |e.objs| && CanReadFail(e.objs[i])
    case StartFails(i) => i < |e.objs| && CanStartFail(e.objs[i])
    case ReplyEnds(i, ok) => i < |e.objs| && CanEndReply(e.objs[i])
    case RecvFrom(i, peer, stale, data) => i < |e.objs| && CanRecv(e.objs[i], peer, stale, data)
    case Request(i) => i < |e.objs| && e.objs[i].outbox != [] && SslOk(e)
    case SslStep(k, q) => k < |e.ssls| && RelayQueue.Enabled(e.ssls[k], q) && q != CallStop
    case AcceptTcp => e.role != RemoteServer
    case AcceptUdp(src, data) =>
      && e.role != RemoteServer && SslOk(e) && e.udp.senders != []
      && ADDRESS_SIZE <= |data| <= READ_BUFFER_SIZE
    case TimerTick(order) => CanTick(e, order)
    case SenderStep(w, act) => w < |e.udp.senders| && U.SenderCan(e.udp.senders[w], act)
  }

  ghost function Do(e: Endpoint, st: Step): Endpoint
    requires Enabled(e, st)
  {
    match st
    case ObjStep(i, q) => SetObj(e, i, ObjAfter(e.objs[i], q, Socks(e, e.objs[i])))
    case EmitStart(i, data) => SetObj(e, i, StartEmitted(e.objs[i], data))
    case ReadSome(i, data) => SetObj(e, i, HasRead(e.objs[i], data))
    case ReadFails(i) => SetObj(e, i, ReadFailed(e.objs[i]))
    case StartFails(i) => SetObj(e, i, StartFailed(e.objs[i]))
    case ReplyEnds(i, ok) => SetObj(e, i, ReplyEnded(e.objs[i], ok))
    case RecvFrom(i, peer, stale, data) => SetObj(e, i, HasReceived(e.objs[i], peer, stale, data))
    case Request(i) => AddRequest(TakeRequest(e, i), e.objs[i].outbox[0])
    case SslStep(k, q) => SetSsl(e, k, Apply(e.ssls[k], q))
    case AcceptTcp => AddLocalTcp(e)
    case AcceptUdp(src, data) => SendUdpData(e, src, data)
    case TimerTick(order) => TimerTurn(e, order)
    case SenderStep(w, act) => e.(udp := SenderMoves(e.udp, w, act))
  }

  // -------------------------------------------------------------- behaviours

  /** What happens to an end: a step of its own, a frame that it handles, a frame
      that connection k has brought (it resets the idle counter), the end of
      k's read loop (it stops the connection), or nothing. */
  datatype Move = Own(st: Step) | Handles(f: Frame) | Hears(k: nat) | Breaks(k: nat) | Waits

  ghost predicate CanMove(e: Endpoint, m: Move) {
    match m
    case Own(st) => Enabled(e, st)
    case Handles(f) => CanHandle(e, f)
    case Hears(k) => k < |e.ssls|
    case Breaks(k) => k < |e.ssls| && RelayQueue.Enabled(e.ssls[k], CallStop)
    case Waits => true
  }

  ghost function Moved(e: Endpoint, m: Move): Endpoint
    requires CanMove(e, m)
  {
    match m
    case Own(st) => Do(e, st)
    case Handles(f) => AddResponse(e, f)
    case Hears(k) => SetSsl(e, k, ResetTimeout(e.ssls[k]))
    case Breaks(k) => SetSsl(e, k, Apply(e.ssls[k], CallStop))
    case Waits => e
  }

  /** The states es that the moves ms lead through. */
  ghost predicate EndBehaviour(es: seq<Endpoint>, ms: seq<Move>) {
    && |es| == |ms| + 1
    && forall i {:trigger ms[i]} | 0 <= i < |ms| :: CanMove(es[i], ms[i]) && es[i + 1] == Moved(es[i], ms[i])
  }
}
