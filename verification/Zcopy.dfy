/** One zcopy connection as a step system: the client with its send and receive loops and its
    callers, the server with its serve loop and GET goroutines, and the two FIFO channels.
    Channels and the client's send queue are kept as logs with read positions, so that the whole
    history can be talked about. */
module Zcopy {
  import opened Wire
  import opened Counters
  import opened Protocol
  import G = Gate

  // ---------------------------------------------------------------- client

  /** What a caller asked for, by request id. */
  datatype Kind =
    | Hello(credits: int)
    | Ensure(bucket: string)
    | Put(bucket: string, key: string, off: nat, size: nat)
    | Get(bucket: string, key: string, off: nat, max: nat)

  function RequestMsg(id: nat, kind: Kind): Message {
    match kind
    case Hello(credits) => HelloReq(id, credits)
    case Ensure(bucket) => EnsureBucketReq(id, bucket)
    case Put(bucket, key, off, size) => PutReq(id, bucket, key, size, Some(off))
    case Get(bucket, key, off, max) => GetReq(id, bucket, key, max, Some(off))
  }

  /** inboundResult: a reply, a GET header with the payload received after it, or an error. */
  datatype Inbound = Reply(msg: Message) | Payload(msg: Message, off: int, len: nat) | Failure

  datatype Phase = Registered | Queued | Waiting | Finished

  /** An entry of sendReqCh: a caller's request, or an ack of one credit. */
  datatype SendOp = Request(id: nat) | Credit

  /** recvLoop: at a control message, at the payload announced by a header, or gone (possibly
      without the payload it was waiting for). */
  datatype RecvMode = AtControl | AtPayload(meta: Message) | Stopped(midPayload: bool)

  datatype Ref = Ref(off: nat, size: nat)

  datatype Client = Client(
    nextReq: nat, kinds: map<nat, Kind>, phase: map<nat, Phase>,
    pending: set<nat>, inbox: map<nat, Option<Inbound>>, got: map<nat, nat>,
    ops: seq<SendOp>, opHead: nat, opMid: bool,
    recv: RecvMode,
    nextToken: nat, tokens: map<nat, nat>, refs: map<nat, Ref>,
    mem: bytes, ready: bool, closed: bool)

  // ---------------------------------------------------------------- server

  datatype ServeMode = Reading | ReadingPayload(put: Message) | Replying(reply: Message) | Exited

  datatype TaskPhase =
    | Looking | Answering | Answered(at: nat)
    | Waits | Granted | HeaderOut(at: nat) | PayloadOut(at: nat) | Over

  /** A GET goroutine: its request, and the object and offset once looked up. */
  datatype Task = Task(phase: TaskPhase, msg: Message, off: int, body: bytes)

  type Objects = map<(string, string), bytes>

  datatype Server = Server(gate: G.Gate, tasks: map<nat, Task>, lock: Option<nat>, serve: ServeMode,
                           objects: Objects, maxObjectSize: int)

  // --------------------------------------------------------------- network

  /** Everything ever sent each way, how much has been read, and up to where the payloads sent to
      the client have been written into its memory. */
  datatype Net = Net(c2s: seq<Item>, c2sRead: nat, s2c: seq<Item>, s2cRead: nat, landed: nat)

  /** Where a request went: its place in the send queue and in the log to the server. */
  datatype Route = Route(op: Option<nat>, c2s: Option<nat>)

  /** Bookkeeping only: live GET windows, credits granted by hello and lost since, whether a header
      went to the client (torn) or to the server (upTorn) without its whole payload, or a payload was
      left unread, whether an object larger than its window was accepted, and whether a payload was
      obeyed as a control message. */
  datatype Ghost = Ghost(route: map<nat, Route>, live: set<nat>, granted: nat, lost: nat,
                         torn: bool, upTorn: bool, overrun: bool, misread: bool)

  /** What zcopyproto.Decode makes of the bytes of a payload that is received where a control message
      is expected: it accepts whatever has the form of one. */
  type Decoder = bytes -> Option<Message>

  /** `own` is the size of the buffer that the client's transport registers when it is given no memory. */
  datatype State = State(cl: Client, sv: Server, net: Net, gh: Ghost, decode: Decoder, own: uint32)

  /** How a connection starts: the credits the client will offer, its shared memory, and the server's
      objects and limit. */
  datatype Setup = Setup(credits: nat, mem: bytes, objects: Objects, maxObjectSize: int, decode: Decoder, own: uint32)

  /** The transport hands lengths and offsets to its C half as 32-bit numbers. A client without shared
      memory is refused. */
  predicate Usable(u: Setup) {
    0 < |u.mem| < TWO32
  }

  /** The C half hears of the shared memory by its length cut to 32 bits. When that is zero it takes no
      memory to have been given, and registers a buffer of its own. */
  predicate Shared(mem: bytes) {
    Wrap(|mem|) != 0
  }

  /** How much the server can write to. */
  function Region(mem: bytes, own: uint32): uint32 {
    if Shared(mem) then Wrap(|mem|) else own
  }

  function Init(u: Setup): State {
    State(
      Client(1, map[1 := Hello(u.credits)], map[1 := Registered], {1}, map[1 := None], map[1 := 0],
             [], 0, false, AtControl, 0, map[], map[], u.mem, false, false),
      Server(G.Gate(0, false), map[], None, Reading, u.objects, u.maxObjectSize),
      Net([], 0, [], 0, 0),
      Ghost(map[1 := Route(None, None)], {}, 0, 0, false, false, false, false),
      u.decode, u.own)
  }

  // ------------------------------------------------------- callers' actions

  predicate Apart(a: nat, alen: nat, b: nat, blen: nat) {
    a + alen <= b || b + blen <= a
  }

  /** [off, off+len) meets no live GET window. */
  ghost predicate ClearOfLive(kinds: map<nat, Kind>, live: set<nat>, off: nat, len: nat) {
    forall id <- live :: id in kinds && kinds[id].Get? ==> Apart(off, len, kinds[id].off, kinds[id].max)
  }

  /** The checks callers go through, and the discipline on GET windows. */
  ghost predicate CanIssue(s: State, kind: Kind) {
    s.cl.ready && match kind
    case Hello(_) => false
    case Ensure(bucket) => Trim(bucket) != []
    case Put(bucket, key, off, size) => Trim(bucket) != [] && Trim(key) != [] && off + size <= |s.cl.mem|
    case Get(bucket, key, off, max) =>
      && Trim(bucket) != [] && Trim(key) != [] && off + max <= |s.cl.mem|
      && ClearOfLive(s.cl.kinds, s.gh.live, off, max)
  }

  function Issue(s: State, kind: Kind): State {
    var id := s.cl.nextReq + 1;
    s.(cl := s.cl.(nextReq := id, kinds := s.cl.kinds[id := kind], phase := s.cl.phase[id := Registered],
                   pending := s.cl.pending + {id}, inbox := s.cl.inbox[id := None], got := s.cl.got[id := 0]),
       gh := s.gh.(route := s.gh.route[id := Route(None, None)],
                   live := if kind.Get? then s.gh.live + {id} else s.gh.live))
  }

  predicate InPhase(s: State, id: nat, p: Phase) {
    id in s.cl.phase && s.cl.phase[id] == p
  }

  predicate CanEnqueue(s: State, id: nat) {
    InPhase(s, id, Registered) && id in s.gh.route
  }

  function Enqueue(s: State, id: nat): State
    requires CanEnqueue(s, id)
  {
    s.(cl := s.cl.(phase := s.cl.phase[id := Queued], ops := s.cl.ops + [Request(id)]),
       gh := s.gh.(route := s.gh.route[id := s.gh.route[id].(op := Some(|s.cl.ops|))]))
  }

  predicate CanSentOK(s: State, id: nat) {
    && InPhase(s, id, Queued) && id in s.gh.route
    && s.gh.route[id].op.Some? && s.gh.route[id].op.value < s.cl.opHead
  }

  function SentOK(s: State, id: nat): State {
    s.(cl := s.cl.(phase := s.cl.phase[id := Waiting]))
  }

  /** sendAck(1): queued, or dropped on an error. */
  function AckOne(s: State, ok: bool): State {
    if ok then s.(cl := s.cl.(ops := s.cl.ops + [Credit])) else s.(gh := s.gh.(lost := s.gh.lost + 1))
  }

  function Unlive(s: State, id: nat): State {
    s.(gh := s.gh.(live := s.gh.live - {id}))
  }

  /** The caller's side of the channel receive. */
  function Consume(s: State, id: nat): State {
    s.(cl := s.cl.(phase := s.cl.phase[id := Finished], inbox := s.cl.inbox[id := None]))
  }

  predicate HasInbound(s: State, id: nat) {
    InPhase(s, id, Waiting) && id in s.cl.inbox && s.cl.inbox[id].Some? && id in s.cl.kinds
  }

  predicate CanTakeReply(s: State, id: nat) {
    HasInbound(s, id) && !s.cl.inbox[id].value.Payload?
  }

  function TakeReply(s: State, id: nat): State
    requires CanTakeReply(s, id)
  {
    var r := s.cl.inbox[id].value;
    var s1 := Consume(s, id);
    if r.Reply? && r.msg.HelloResp? && r.msg.err == [] && s.cl.kinds[id].Hello? then
      s1.(cl := s1.cl.(ready := true))
    else if r.Reply? && r.msg.RespErr? then Unlive(s1, id)
    else s1
  }

  predicate CanTakePayload(s: State, id: nat) {
    HasInbound(s, id) && s.cl.inbox[id].value.Payload?
  }

  /** The checks of GetZeroCopy on a received payload. */
  predicate Acceptable(kind: Kind, r: Inbound, memLen: nat) {
    && kind.Get? && r.Payload? && r.msg.GetMeta?
    && 0 <= r.msg.size <= kind.max && r.len == r.msg.size
    && r.msg.dataOffset.Some? && r.msg.dataOffset.value >= 0
    && r.msg.dataOffset.value + r.msg.size <= memLen && r.off == r.msg.dataOffset.value
  }

  function TakePayload(s: State, id: nat, ackOk: bool): State
    requires CanTakePayload(s, id)
  {
    var r := s.cl.inbox[id].value;
    var s1 := Consume(s, id);
    if Acceptable(s.cl.kinds[id], r, |s.cl.mem|) then
      var t := s.cl.nextToken + 1;
      s1.(cl := s1.cl.(nextToken := t, tokens := s1.cl.tokens[t := id],
                       refs := s1.cl.refs[id := Ref(r.off, r.len)]))
    else if s.cl.kinds[id].Get? then Unlive(AckOne(s1, ackOk), id)
    else s1.(gh := s1.gh.(lost := s1.gh.lost + 1))
  }

  /** waitResult returns without a result: on a timeout, which removes the entry, or because the
      client was closed, which does not. */
  predicate CanLeave(s: State, id: nat, timeout: bool) {
    InPhase(s, id, Waiting) && id in s.cl.inbox && (timeout || s.cl.closed)
  }

  function Leave(s: State, id: nat, timeout: bool): State
    requires id in s.cl.inbox
  {
    var r := s.cl.inbox[id];
    var s1 := Consume(s, id);
    var s2 := if timeout then s1.(cl := s1.cl.(pending := s1.cl.pending - {id})) else s1;
    if r.Some? && r.value.Payload? then Unlive(s2.(gh := s2.gh.(lost := s2.gh.lost + 1)), id) else s2
  }

  /** sendSerialized fails or gives up; the queue entry, if there is one, stays. A result that came all the
      same is left behind like one that comes to a waiter that leaves. */
  predicate CanGiveUp(s: State, id: nat) {
    (InPhase(s, id, Registered) || InPhase(s, id, Queued)) && id in s.cl.inbox
  }

  function GiveUp(s: State, id: nat): State
    requires CanGiveUp(s, id)
  {
    Leave(s, id, true)
  }

  /** Release by the caller, or by Close for a buffer nobody released. */
  predicate CanRelease(s: State, t: nat) {
    t in s.cl.tokens
  }

  function Release(s: State, t: nat, ackOk: bool): State
    requires CanRelease(s, t)
  {
    var s1 := s.(cl := s.cl.(tokens := s.cl.tokens - {t}));
    Unlive(AckOne(s1, ackOk), s.cl.tokens[t])
  }

  function CloseClient(s: State): State {
    s.(cl := s.cl.(closed := true))
  }

  /** The application writes its own memory, outside the windows it has lent to GETs. */
  ghost predicate CanAppWrite(s: State, off: nat, data: bytes) {
    off + |data| <= |s.cl.mem| && ClearOfLive(s.cl.kinds, s.gh.live, off, |data|)
  }

  function AppWrite(s: State, off: nat, data: bytes): State
    requires off + |data| <= |s.cl.mem|
  {
    s.(cl := s.cl.(mem := Splice(s.cl.mem, off, data)))
  }

  // ------------------------------------------------------------- sendLoop

  predicate CanSendControl(s: State) {
    s.cl.opHead < |s.cl.ops| && !s.cl.opMid
    && match s.cl.ops[s.cl.opHead] case Request(id) => id in s.cl.kinds && id in s.gh.route case Credit => true
  }

  function SendControl(s: State, ok: bool): State
    requires CanSendControl(s)
  {
    match s.cl.ops[s.cl.opHead]
    case Credit =>
      var s1 := s.(cl := s.cl.(opHead := s.cl.opHead + 1));
      if ok then s1.(net := s.net.(c2s := s.net.c2s + [Ctl(Ack(1))]))
      else s1.(gh := s.gh.(lost := s.gh.lost + 1))
    case Request(id) =>
      if !ok then s.(cl := s.cl.(opHead := s.cl.opHead + 1)) else
        var m := RequestMsg(id, s.cl.kinds[id]);
        s.(cl := if Announces(m) then s.cl.(opMid := true) else s.cl.(opHead := s.cl.opHead + 1),
           net := s.net.(c2s := s.net.c2s + [Ctl(m)]),
           gh := s.gh.(route := s.gh.route[id := s.gh.route[id].(c2s := Some(|s.net.c2s|))]))
  }

  /** The second half of a PUT operation. */
  predicate CanSendData(s: State) {
    && s.cl.opMid && s.cl.opHead < |s.cl.ops| && s.cl.ops[s.cl.opHead].Request?
    && var id := s.cl.ops[s.cl.opHead].id;
       id in s.cl.kinds && s.cl.kinds[id].Put? && s.cl.kinds[id].off + s.cl.kinds[id].size <= |s.cl.mem|
  }

  /** SendMessageAt: length and offset are cut to 32 bits, and of no bytes nothing is sent. */
  function Cut(body: bytes): bytes {
    body[..Wrap(|body|)]
  }

  function SendData(s: State, ok: bool): State
    requires CanSendData(s)
  {
    var k := s.cl.kinds[s.cl.ops[s.cl.opHead].id];
    var body := s.cl.mem[k.off..k.off + k.size];
    var s1 := s.(cl := s.cl.(opMid := false, opHead := s.cl.opHead + 1),
                 gh := s.gh.(upTorn := s.gh.upTorn || (body != [] && (!ok || Cut(body) != body || Wrap(k.off) != k.off))));
    if ok && Cut(body) != [] then s1.(net := s.net.(c2s := s.net.c2s + [Data(Wrap(k.off), Cut(body))])) else s1
  }

  // ------------------------------------------------------------- recvLoop

  function HandOver(cl: Client, id: nat, r: Inbound): Client {
    if id in cl.pending && id in cl.got
    then cl.(pending := cl.pending - {id}, inbox := cl.inbox[id := Some(r)], got := cl.got[id := cl.got[id] + 1])
    else cl
  }

  /** failAllPending, and the loop ends. */
  function StopRecv(cl: Client): Client {
    cl.(recv := Stopped(cl.recv.AtPayload?), pending := {},
        inbox := map id | id in cl.inbox :: if id in cl.pending then Some(Failure) else cl.inbox[id],
        got := map id | id in cl.got :: if id in cl.pending then cl.got[id] + 1 else cl.got[id])
  }

  predicate CanRecvControl(s: State) {
    s.cl.recv == AtControl && s.net.s2cRead < s.net.landed <= |s.net.s2c|
  }

  /** The bytes a receive finds at the place a payload was announced for. */
  function View(mem: bytes, off: nat, body: bytes): bytes {
    if Shared(mem) && off + |body| <= |mem| then mem[off..off + |body|] else body
  }

  /** What the client takes the next item for, at a control message. */
  function ClientTakes(s: State): Option<Message>
    requires CanRecvControl(s)
  {
    match s.net.s2c[s.net.s2cRead]
    case Ctl(m) => Some(m)
    case Data(off, body) => s.decode(View(s.cl.mem, off, body))
  }

  function Noted(s: State, x: Item): State {
    s.(gh := s.gh.(misread := s.gh.misread || x.Data?))
  }

  function RecvControl(s: State): State
    requires CanRecvControl(s)
  {
    var s1 := s.(net := s.net.(s2cRead := s.net.s2cRead + 1));
    match ClientTakes(s)
    case None => s1.(cl := StopRecv(s.cl))
    case Some(m) =>
      var s2 := Noted(s1, s.net.s2c[s.net.s2cRead]);
      if m.HelloResp? || m.RespOK? || m.RespErr? then s2.(cl := HandOver(s.cl, m.reqId, Reply(m)))
      else if m.GetMeta? then s2.(cl := s.cl.(recv := AtPayload(m)))
      else s2
  }

  predicate CanRecvPayload(s: State) {
    s.cl.recv.AtPayload? && s.cl.recv.meta.GetMeta? && s.net.s2cRead < s.net.landed <= |s.net.s2c|
  }

  /** Whatever frame comes next is taken for the payload. */
  function RecvPayload(s: State, frameLen: nat, ackOk: bool): State
    requires CanRecvPayload(s)
  {
    var m := s.cl.recv.meta;
    var x := s.net.s2c[s.net.s2cRead];
    var r := if x.Data? then Payload(m, x.off, |x.body|) else Payload(m, -1, frameLen);
    var s1 := s.(cl := s.cl.(recv := AtControl), net := s.net.(s2cRead := s.net.s2cRead + 1),
                 gh := if x.Ctl? && x.msg.GetMeta? then s.gh.(lost := s.gh.lost + 1) else s.gh);
    if m.reqId in s.cl.pending && m.reqId in s.cl.got then s1.(cl := HandOver(s1.cl, m.reqId, r))
    else Unlive(AckOne(s1, ackOk), m.reqId)
  }

  predicate CanRecvFail(s: State) {
    !s.cl.recv.Stopped?
  }

  function RecvFail(s: State): State {
    s.(cl := StopRecv(s.cl))
  }

  // ---------------------------------------------------------- server: serve

  predicate CanServe(s: State) {
    s.sv.serve == Reading && s.net.c2sRead < |s.net.c2s|
  }

  function Exit(s: State): State {
    s.(sv := s.sv.(serve := Exited, gate := G.Close(s.sv.gate)))
  }

  function Answer(s: State, r: Message): State {
    s.(sv := s.sv.(serve := Replying(r)))
  }

  /** handlePut up to its payload: the error to answer, if any. */
  predicate PutRejected(m: Message, maxObjectSize: int)
    requires m.PutReq?
  {
    || m.reqId == 0 || Trim(m.bucket) == [] || Trim(m.key) == [] || m.size < 0 || m.dataOffset == None
    || (maxObjectSize > 0 && m.size > maxObjectSize)
  }

  function ServeMessage(s: State, m: Message): State {
    match m
    case HelloReq(id, credits) =>
      if id == 0 then Answer(s, RespErr(0))
      else if credits <= 0 then Answer(s, HelloResp(id, 0, "invalid credits"))
      else Answer(s.(sv := s.sv.(gate := G.SetCredits(s.sv.gate, credits)), gh := s.gh.(granted := credits)),
                  HelloResp(id, credits, ""))
    case Ack(n) => s.(sv := s.sv.(gate := G.AddCredits(s.sv.gate, n)))
    case EnsureBucketReq(id, bucket) =>
      if id == 0 then Answer(s, RespErr(0))
      else if Trim(bucket) == [] then Answer(s, RespErr(id))
      else Answer(s, RespOK(id))
    case PutReq(id, _, _, size, off) =>
      if PutRejected(m, s.sv.maxObjectSize) then
        Answer(s.(gh := s.gh.(upTorn := s.gh.upTorn || size > 0)), RespErr(id))
      else if off.value < 0 then Exit(s)
      else if size == 0 then Answer(s, RespOK(id))
      else s.(sv := s.sv.(serve := ReadingPayload(m)))
    case GetReq(id, _, _, _, _) =>
      if id == 0 then Answer(s, RespErr(0))
      else s.(sv := s.sv.(tasks := s.sv.tasks[id := Task(Looking, m, 0, [])]))
    case _ => if m.reqId != 0 then Answer(s, RespErr(m.reqId)) else s
  }

  /** What the serve loop takes the next item for. */
  function ServerTakes(s: State): Option<Message>
    requires CanServe(s)
  {
    match s.net.c2s[s.net.c2sRead]
    case Ctl(m) => Some(m)
    case Data(_, body) => s.decode(body)
  }

  function Serve(s: State): State
    requires CanServe(s)
  {
    var s1 := s.(net := s.net.(c2sRead := s.net.c2sRead + 1));
    match ServerTakes(s)
    case None => Exit(s1)
    case Some(m) => ServeMessage(Noted(s1, s.net.c2s[s.net.c2sRead]), m)
  }

  predicate CanServePayload(s: State) {
    s.sv.serve.ReadingPayload? && s.sv.serve.put.PutReq? && s.net.c2sRead < |s.net.c2s|
  }

  function ServePayload(s: State): State
    requires CanServePayload(s)
  {
    var m := s.sv.serve.put;
    var x := s.net.c2s[s.net.c2sRead];
    var s1 := s.(net := s.net.(c2sRead := s.net.c2sRead + 1));
    if x.Data? && Matches(m, x.off, x.body) then Answer(s1, RespOK(m.reqId))
    else Exit(s1.(gh := s.gh.(lost := s.gh.lost + AckOf(x))))
  }

  predicate CanServeReply(s: State) {
    s.sv.serve.Replying? && s.sv.lock == None
  }

  /** The reply goes out or not; after a failure the loop may go on or end. */
  function ServeReply(s: State, ok: bool, goOn: bool): State
    requires CanServeReply(s)
  {
    var s1 := if ok then s.(net := s.net.(s2c := s.net.s2c + [Ctl(s.sv.serve.reply)])) else s;
    if ok || goOn then s1.(sv := s1.sv.(serve := Reading)) else Exit(s1)
  }

  /** The idle timeout or a transport error ends the loop. */
  predicate CanServeFail(s: State) {
    !s.sv.serve.Exited?
  }

  function ServeFail(s: State): State {
    Exit(s)
  }

  // ------------------------------------------------- server: GET goroutines

  predicate InTask(s: State, id: nat, p: TaskPhase) {
    id in s.sv.tasks && s.sv.tasks[id].phase == p
  }

  function SetTask(s: State, id: nat, t: Task): State {
    s.(sv := s.sv.(tasks := s.sv.tasks[id := t]))
  }

  predicate CanLookUp(s: State, id: nat) {
    InTask(s, id, Looking) && s.sv.tasks[id].msg.GetReq?
  }

  /** handleGet: the checks in order, then the lookup under the trimmed names. */
  function LookUp(s: State, id: nat): State
    requires CanLookUp(s, id)
  {
    var t := s.sv.tasks[id];
    var m := t.msg;
    var name := (Trim(m.bucket), Trim(m.key));
    if name.0 == [] || name.1 == [] || m.max < 0 || m.dataOffset == None || name !in s.sv.objects
       || (m.max > 0 && |s.sv.objects[name]| > m.max)
    then SetTask(s, id, t.(phase := Answering))
    else
      var body := s.sv.objects[name];
      var s1 := SetTask(s, id, t.(phase := Waits, off := m.dataOffset.value, body := body));
      s1.(gh := s1.gh.(overrun := s1.gh.overrun || |body| > m.max))
  }

  predicate CanGrant(s: State, id: nat) {
    InTask(s, id, Waits) && G.Look(G.Draining, s.sv.gate) == G.Granted
  }

  function Grant(s: State, id: nat): State
    requires CanGrant(s, id)
  {
    var s1 := SetTask(s, id, s.sv.tasks[id].(phase := Granted));
    s1.(sv := s1.sv.(gate := G.After(G.Draining, s.sv.gate)))
  }

  predicate CanRefuse(s: State, id: nat) {
    InTask(s, id, Waits) && G.Look(G.Draining, s.sv.gate) == G.Refused
  }

  function Refuse(s: State, id: nat): State
    requires CanRefuse(s, id)
  {
    SetTask(s, id, s.sv.tasks[id].(phase := Over))
  }

  function Header(id: nat, t: Task): Message {
    GetMeta(id, |t.body|, Some(t.off))
  }

  predicate CanSendHeader(s: State, id: nat) {
    InTask(s, id, Granted) && (s.sv.tasks[id].off >= 0 ==> s.sv.lock == None)
  }

  /** sendGetPayload takes sendMu and sends the header; an error leaves the credit spent. */
  function SendHeader(s: State, id: nat, ok: bool): State
    requires CanSendHeader(s, id)
  {
    var t := s.sv.tasks[id];
    if ok && t.off >= 0 then
      var s1 := SetTask(s, id, t.(phase := HeaderOut(|s.net.s2c|)));
      s1.(sv := s1.sv.(lock := Some(id)), net := s.net.(s2c := s.net.s2c + [Ctl(Header(id, t))]))
    else
      var s1 := SetTask(s, id, t.(phase := Over));
      s1.(gh := s1.gh.(lost := s1.gh.lost + 1))
  }

  predicate CanSendPayload(s: State, id: nat) {
    id in s.sv.tasks && s.sv.tasks[id].phase.HeaderOut? && s.sv.lock == Some(id) && s.sv.tasks[id].off >= 0
  }

  /** SendMessageAt for the payload, then sendMu is released: an empty payload sends nothing, one
      that does not fit the registered region is refused, and the send may fail. */
  function SendPayload(s: State, id: nat, ok: bool): State
    requires CanSendPayload(s, id)
  {
    var t := s.sv.tasks[id];
    var s1 := SetTask(s, id, t.(phase := PayloadOut(t.phase.at)));
    var s2 := s1.(sv := s1.sv.(lock := None), gh := s.gh.(torn := s.gh.torn || !SentWhole(s, t, ok)));
    if Sent(s, t, ok) then s2.(net := s.net.(s2c := s.net.s2c + [Data(Wrap(t.off), Cut(t.body))])) else s2
  }

  /** What is left of the payload after the cut goes out. */
  predicate Sent(s: State, t: Task, ok: bool) {
    ok && Cut(t.body) != [] && Wrap(t.off) + |Cut(t.body)| <= Region(s.cl.mem, s.own)
  }

  /** And it is all of it, at the offset asked for. */
  predicate SentWhole(s: State, t: Task, ok: bool) {
    Sent(s, t, ok) && |t.body| < TWO32 && t.off < TWO32
  }

  predicate CanSendAnswer(s: State, id: nat) {
    InTask(s, id, Answering) && s.sv.lock == None
  }

  function SendAnswer(s: State, id: nat, ok: bool): State
    requires CanSendAnswer(s, id)
  {
    if ok then
      SetTask(s.(net := s.net.(s2c := s.net.s2c + [Ctl(RespErr(id))])), id,
              s.sv.tasks[id].(phase := Answered(|s.net.s2c|)))
    else SetTask(s, id, s.sv.tasks[id].(phase := Over))
  }

  /** The store may change between lookups. */
  function ChangeObjects(s: State, objects: Objects): State {
    s.(sv := s.sv.(objects := objects))
  }

  // --------------------------------------------------------------- network

  predicate CanLand(s: State) {
    s.net.landed < |s.net.s2c|
    && match s.net.s2c[s.net.landed] case Data(off, body) => off + |body| <= Region(s.cl.mem, s.own) case Ctl(_) => true
  }

  /** What a write to the region does to the shared memory. */
  function Landing(mem: bytes, own: uint32, off: nat, data: bytes): bytes
    requires off + |data| <= Region(mem, own)
  {
    if Shared(mem) then Splice(mem, off, data) else mem
  }

  /** The next thing sent to the client is complete: for a payload, its bytes are in place. */
  function Land(s: State): State
    requires CanLand(s)
  {
    var s1 := s.(net := s.net.(landed := s.net.landed + 1));
    match s.net.s2c[s.net.landed]
    case Ctl(_) => s1
    case Data(off, body) => s1.(cl := s.cl.(mem := Landing(s.cl.mem, s.own, off, body)))
  }

  /** Part of the next payload has been written. */
  predicate CanLandPart(s: State, k: nat) {
    CanLand(s) && s.net.s2c[s.net.landed].Data? && k <= |s.net.s2c[s.net.landed].body|
  }

  function LandPart(s: State, k: nat): State
    requires CanLandPart(s, k)
  {
    var x := s.net.s2c[s.net.landed];
    s.(cl := s.cl.(mem := Landing(s.cl.mem, s.own, x.off, x.body[..k])))
  }

  // ---------------------------------------------------------------- events

  datatype Event =
    | EIssue(kind: Kind) | EEnqueue(id: nat) | ESentOK(id: nat) | EGiveUp(id: nat)
    | ETakeReply(id: nat) | ETakePayload(id: nat, ok: bool) | ELeave(id: nat, timeout: bool)
    | ERelease(token: nat, ok: bool) | ECloseClient | EAppWrite(off: nat, data: bytes)
    | ESendControl(ok: bool) | ESendData(ok: bool)
    | ERecvControl | ERecvPayload(frameLen: nat, ok: bool) | ERecvFail
    | EServe | EServePayload | EServeReply(ok: bool, goOn: bool) | EServeFail
    | ELookUp(id: nat) | EGrant(id: nat) | ERefuse(id: nat)
    | ESendHeader(id: nat, ok: bool) | ESendPayload(id: nat, ok: bool) | ESendAnswer(id: nat, ok: bool)
    | EChangeObjects(objects: Objects) | ELand | ELandPart(k: nat)

  /** Steps of callers and of the application. */
  predicate ByCaller(e: Event) {
    || e.EIssue? || e.EEnqueue? || e.ESentOK? || e.EGiveUp? || e.ETakeReply? || e.ETakePayload? || e.ELeave? || e.ERelease?
    || e.ECloseClient? || e.EAppWrite?
  }

  ghost predicate CallerCan(s: State, e: Event)
    requires ByCaller(e)
  {
    match e
    case EIssue(kind) => CanIssue(s, kind)
    case EEnqueue(id) => CanEnqueue(s, id)
    case ESentOK(id) => CanSentOK(s, id)
    case EGiveUp(id) => CanGiveUp(s, id)
    case ETakeReply(id) => CanTakeReply(s, id)
    case ETakePayload(id, _) => CanTakePayload(s, id)
    case ELeave(id, timeout) => CanLeave(s, id, timeout)
    case ERelease(t, _) => CanRelease(s, t)
    case ECloseClient => true
    case EAppWrite(off, data) => CanAppWrite(s, off, data)
  }

  ghost function CallerDoes(s: State, e: Event): State
    requires ByCaller(e) && CallerCan(s, e)
  {
    match e
    case EIssue(kind) => Issue(s, kind)
    case EEnqueue(id) => Enqueue(s, id)
    case ESentOK(id) => SentOK(s, id)
    case EGiveUp(id) => GiveUp(s, id)
    case ETakeReply(id) => TakeReply(s, id)
    case ETakePayload(id, ok) => TakePayload(s, id, ok)
    case ELeave(id, timeout) => Leave(s, id, timeout)
    case ERelease(t, ok) => Release(s, t, ok)
    case ECloseClient => CloseClient(s)
    case EAppWrite(off, data) => AppWrite(s, off, data)
  }

  /** Steps of the client's send and receive loops. */
  predicate ByLoop(e: Event) {
    e.ESendControl? || e.ESendData? || e.ERecvControl? || e.ERecvPayload? || e.ERecvFail?
  }

  predicate LoopCan(s: State, e: Event)
    requires ByLoop(e)
  {
    match e
    case ESendControl(_) => CanSendControl(s)
    case ESendData(_) => CanSendData(s)
    case ERecvControl => CanRecvControl(s)
    case ERecvPayload(_, _) => CanRecvPayload(s)
    case ERecvFail => CanRecvFail(s)
  }

  function LoopDoes(s: State, e: Event): State
    requires ByLoop(e) && LoopCan(s, e)
  {
    match e
    case ESendControl(ok) => SendControl(s, ok)
    case ESendData(ok) => SendData(s, ok)
    case ERecvControl => RecvControl(s)
    case ERecvPayload(n, ok) => RecvPayload(s, n, ok)
    case ERecvFail => RecvFail(s)
  }

  /** Steps of the server's serve loop. */
  predicate ByServeLoop(e: Event) {
    e.EServe? || e.EServePayload? || e.EServeReply? || e.EServeFail?
  }

  predicate ServeLoopCan(s: State, e: Event)
    requires ByServeLoop(e)
  {
    match e
    case EServe => CanServe(s)
    case EServePayload => CanServePayload(s)
    case EServeReply(_, _) => CanServeReply(s)
    case EServeFail => CanServeFail(s)
  }

  function ServeLoopDoes(s: State, e: Event): State
    requires ByServeLoop(e) && ServeLoopCan(s, e)
  {
    match e
    case EServe => Serve(s)
    case EServePayload => ServePayload(s)
    case EServeReply(ok, goOn) => ServeReply(s, ok, goOn)
    case EServeFail => ServeFail(s)
  }

  /** Steps of a GET goroutine. */
  predicate ByRoutine(e: Event) {
    e.ELookUp? || e.EGrant? || e.ERefuse? || e.ESendHeader? || e.ESendPayload? || e.ESendAnswer?
  }

  predicate RoutineCan(s: State, e: Event)
    requires ByRoutine(e)
  {
    match e
    case ELookUp(id) => CanLookUp(s, id)
    case EGrant(id) => CanGrant(s, id)
    case ERefuse(id) => CanRefuse(s, id)
    case ESendHeader(id, _) => CanSendHeader(s, id)
    case ESendPayload(id, _) => CanSendPayload(s, id)
    case ESendAnswer(id, _) => CanSendAnswer(s, id)
  }

  function RoutineDoes(s: State, e: Event): State
    requires ByRoutine(e) && RoutineCan(s, e)
  {
    match e
    case ELookUp(id) => LookUp(s, id)
    case EGrant(id) => Grant(s, id)
    case ERefuse(id) => Refuse(s, id)
    case ESendHeader(id, ok) => SendHeader(s, id, ok)
    case ESendPayload(id, ok) => SendPayload(s, id, ok)
    case ESendAnswer(id, ok) => SendAnswer(s, id, ok)
  }

  /** Steps of the network and of the store. */
  predicate ByWorld(e: Event) {
    e.EChangeObjects? || e.ELand? || e.ELandPart?
  }

  predicate WorldCan(s: State, e: Event)
    requires ByWorld(e)
  {
    match e
    case EChangeObjects(_) => true
    case ELand => CanLand(s)
    case ELandPart(k) => CanLandPart(s, k)
  }

  function WorldDoes(s: State, e: Event): State
    requires ByWorld(e) && WorldCan(s, e)
  {
    match e
    case EChangeObjects(objects) => ChangeObjects(s, objects)
    case ELand => Land(s)
    case ELandPart(k) => LandPart(s, k)
  }

  ghost predicate Can(s: State, e: Event) {
    if ByCaller(e) then CallerCan(s, e)
    else if ByLoop(e) then LoopCan(s, e)
    else if ByServeLoop(e) then ServeLoopCan(s, e)
    else if ByRoutine(e) then RoutineCan(s, e)
    else WorldCan(s, e)
  }

  ghost function Do(s: State, e: Event): State
    requires Can(s, e)
  {
    if ByCaller(e) then CallerDoes(s, e)
    else if ByLoop(e) then LoopDoes(s, e)
    else if ByServeLoop(e) then ServeLoopDoes(s, e)
    else if ByRoutine(e) then RoutineDoes(s, e)
    else WorldDoes(s, e)
  }

  ghost predicate CanRun(s: State, es: seq<Event>)
    decreases |es|
  {
    es == [] || (Can(s, es[0]) && CanRun(Do(s, es[0]), es[1..]))
  }

  /** The state after a run: any interleaving of all the loops, goroutines and callers. */
  ghost function Run(s: State, es: seq<Event>): State
    requires CanRun(s, es)
    decreases |es|
  {
    if es == [] then s else Run(Do(s, es[0]), es[1..])
  }
}
