/** What holds in every state of a zcopy connection. Each predicate names just the parts of the
    state it speaks of, so that a step that leaves those parts alone keeps it for free. */
module ZcopyInv {
  import opened Wire
  import opened Counters
  import opened Protocol
  import opened Zcopy
  import G = Gate

  // ------------------------------------------------------------ result channels

  /** A result that may only reach the request whose id it carries. */
  predicate For(r: Inbound, id: nat) {
    match r
    case Reply(m) => (m.HelloResp? || m.RespOK? || m.RespErr?) && m.reqId == id
    case Payload(m, _, _) => m.GetMeta? && m.reqId == id
    case Failure => true
  }

  /** Ids are fresh; an id in the table has had no result yet; no id ever gets two; a buffered
      result belongs to its id, whose entry is gone by then. */
  predicate Tables(nextReq: nat, kinds: map<nat, Kind>, phase: map<nat, Phase>, pending: set<nat>,
                   inbox: map<nat, Option<Inbound>>, got: map<nat, nat>) {
    && kinds.Keys == phase.Keys == inbox.Keys == got.Keys
    && (forall id <- kinds :: 1 <= id <= nextReq)
    && (forall id <- pending :: id in kinds && got[id] == 0 && inbox[id] == None)
    && (forall id <- kinds :: got[id] <= 1)
    && (forall id <- kinds :: inbox[id].Some? ==> For(inbox[id].value, id) && got[id] == 1)
  }

  lemma TablesNew(nextReq: nat, kinds: map<nat, Kind>, phase: map<nat, Phase>, pending: set<nat>,
                  inbox: map<nat, Option<Inbound>>, got: map<nat, nat>, k: Kind)
    requires Tables(nextReq, kinds, phase, pending, inbox, got)
    ensures nextReq + 1 !in kinds
    ensures Tables(nextReq + 1, kinds[nextReq + 1 := k], phase[nextReq + 1 := Registered], pending + {nextReq + 1},
                   inbox[nextReq + 1 := None], got[nextReq + 1 := 0])
  {
  }

  lemma TablesPhase(nextReq: nat, kinds: map<nat, Kind>, phase: map<nat, Phase>, pending: set<nat>,
                    inbox: map<nat, Option<Inbound>>, got: map<nat, nat>, id: nat, p: Phase)
    requires Tables(nextReq, kinds, phase, pending, inbox, got) && id in phase
    ensures Tables(nextReq, kinds, phase[id := p], pending, inbox, got)
    ensures Tables(nextReq, kinds, phase[id := p], pending - {id}, inbox, got)
  {
  }

  lemma TablesConsume(nextReq: nat, kinds: map<nat, Kind>, phase: map<nat, Phase>, pending: set<nat>,
                      inbox: map<nat, Option<Inbound>>, got: map<nat, nat>, id: nat)
    requires Tables(nextReq, kinds, phase, pending, inbox, got) && id in phase
    ensures Tables(nextReq, kinds, phase[id := Finished], pending, inbox[id := None], got)
    ensures Tables(nextReq, kinds, phase[id := Finished], pending - {id}, inbox[id := None], got)
  {
  }

  lemma TablesHandOver(cl: Client, id: nat, r: Inbound)
    requires Tables(cl.nextReq, cl.kinds, cl.phase, cl.pending, cl.inbox, cl.got) && For(r, id) && id in cl.pending
    ensures id in cl.kinds && id in cl.got && cl.got[id] == 0 && id in cl.inbox && cl.inbox[id] == None
    ensures HandOver(cl, id, r) == cl.(pending := cl.pending - {id}, inbox := cl.inbox[id := Some(r)], got := cl.got[id := 1])
    ensures Tables(cl.nextReq, cl.kinds, cl.phase, cl.pending - {id}, cl.inbox[id := Some(r)], cl.got[id := 1])
  {
    hide For, HandOver;
    HandOverIs(cl, id, r);
  }

  lemma HandOverIs(cl: Client, id: nat, r: Inbound)
    requires id in cl.pending && id in cl.got && cl.got[id] == 0
    ensures HandOver(cl, id, r) == cl.(pending := cl.pending - {id}, inbox := cl.inbox[id := Some(r)], got := cl.got[id := 1])
  {
  }

  lemma TablesStop(cl: Client)
    requires Tables(cl.nextReq, cl.kinds, cl.phase, cl.pending, cl.inbox, cl.got)
    ensures var d := StopRecv(cl);
            && Tables(d.nextReq, d.kinds, d.phase, d.pending, d.inbox, d.got)
            && d.inbox.Keys == cl.inbox.Keys
            && (forall id <- cl.inbox :: d.inbox[id] == if id in cl.pending then Some(Failure) else cl.inbox[id])
            && (forall id <- cl.pending :: cl.inbox[id] == None)
            && (forall id <- cl.got :: id in d.got && d.got[id] >= cl.got[id])
  {
  }

  // ------------------------------------------------------------- the send queue

  /** Already handed to the transport: an earlier entry, or the header of the current one. */
  predicate Handed(i: nat, opHead: nat, opMid: bool) {
    i < opHead || (i == opHead && opMid)
  }

  predicate MidPut(kinds: map<nat, Kind>, id: nat, x: Item) {
    id in kinds && kinds[id].Put? && kinds[id].size > 0 && x == Ctl(RequestMsg(id, kinds[id]))
  }

  predicate FromClient(kinds: map<nat, Kind>, route: map<nat, Route>, m: Message, j: nat) {
    m == Ack(1) || (!m.Ack? && m.reqId in kinds && m.reqId in route
                    && m == RequestMsg(m.reqId, kinds[m.reqId]) && route[m.reqId].c2s == Some(j))
  }

  /** Every request has at most one place in the queue and at most one in the log to the server. */
  predicate Routes(kinds: map<nat, Kind>, phase: map<nat, Phase>, route: map<nat, Route>,
                   ops: seq<SendOp>, opHead: nat, opMid: bool, c2s: seq<Item>) {
    && route.Keys == kinds.Keys == phase.Keys
    && opHead <= |ops|
    && (opMid ==> opHead < |ops| && ops[opHead].Request? && c2s != [] && MidPut(kinds, ops[opHead].id, c2s[|c2s| - 1]))
    && (forall i :: 0 <= i < |ops| && ops[i].Request? ==> ops[i].id in kinds && route[ops[i].id].op == Some(i))
    && (forall id <- kinds :: phase[id] == Registered ==> route[id].op == None)
    && (forall id <- kinds :: route[id].op.Some? ==> route[id].op.value < |ops|)
    && (forall id <- kinds :: route[id].c2s.Some? ==> route[id].op.Some? && Handed(route[id].op.value, opHead, opMid)
                                                       && route[id].c2s.value < |c2s|)
    && (forall j :: 0 <= j < |c2s| && c2s[j].Ctl? ==> FromClient(kinds, route, c2s[j].msg, j))
  }

  lemma RoutesNew(kinds: map<nat, Kind>, phase: map<nat, Phase>, route: map<nat, Route>,
                  ops: seq<SendOp>, opHead: nat, opMid: bool, c2s: seq<Item>, id: nat, k: Kind)
    requires Routes(kinds, phase, route, ops, opHead, opMid, c2s) && id !in kinds
    ensures Routes(kinds[id := k], phase[id := Registered], route[id := Route(None, None)], ops, opHead, opMid, c2s)
  {
  }

  lemma RoutesPhase(kinds: map<nat, Kind>, phase: map<nat, Phase>, route: map<nat, Route>,
                    ops: seq<SendOp>, opHead: nat, opMid: bool, c2s: seq<Item>, id: nat, p: Phase)
    requires Routes(kinds, phase, route, ops, opHead, opMid, c2s) && id in phase && p != Registered
    ensures Routes(kinds, phase[id := p], route, ops, opHead, opMid, c2s)
  {
  }

  lemma RoutesEnqueue(kinds: map<nat, Kind>, phase: map<nat, Phase>, route: map<nat, Route>,
                      ops: seq<SendOp>, opHead: nat, opMid: bool, c2s: seq<Item>, id: nat)
    requires Routes(kinds, phase, route, ops, opHead, opMid, c2s) && id in phase && phase[id] == Registered
    ensures id in route && route[id].c2s == None
    ensures Routes(kinds, phase[id := Queued], route[id := route[id].(op := Some(|ops|))], ops + [Request(id)], opHead, opMid, c2s)
  {
  }

  lemma RoutesCredit(kinds: map<nat, Kind>, phase: map<nat, Phase>, route: map<nat, Route>,
                     ops: seq<SendOp>, opHead: nat, opMid: bool, c2s: seq<Item>)
    requires Routes(kinds, phase, route, ops, opHead, opMid, c2s)
    ensures Routes(kinds, phase, route, ops + [Credit], opHead, opMid, c2s)
  {
  }

  lemma RoutesSkip(kinds: map<nat, Kind>, phase: map<nat, Phase>, route: map<nat, Route>,
                   ops: seq<SendOp>, opHead: nat, c2s: seq<Item>, mid: bool)
    requires Routes(kinds, phase, route, ops, opHead, mid, c2s) && opHead < |ops|
    ensures Routes(kinds, phase, route, ops, opHead + 1, false, c2s)
  {
  }

  lemma RoutesAck(kinds: map<nat, Kind>, phase: map<nat, Phase>, route: map<nat, Route>,
                  ops: seq<SendOp>, opHead: nat, c2s: seq<Item>)
    requires Routes(kinds, phase, route, ops, opHead, false, c2s)
    ensures Routes(kinds, phase, route, ops, opHead, false, c2s + [Ctl(Ack(1))])
  {
  }

  lemma RoutesData(kinds: map<nat, Kind>, phase: map<nat, Phase>, route: map<nat, Route>,
                   ops: seq<SendOp>, opHead: nat, c2s: seq<Item>, off: nat, body: bytes)
    requires Routes(kinds, phase, route, ops, opHead, false, c2s)
    ensures Routes(kinds, phase, route, ops, opHead, false, c2s + [Data(off, body)])
  {
  }

  /** Sending the header or the whole of the request at the head of the queue. */
  lemma RoutesRequest(kinds: map<nat, Kind>, phase: map<nat, Phase>, route: map<nat, Route>,
                      ops: seq<SendOp>, opHead: nat, c2s: seq<Item>, id: nat)
    requires Routes(kinds, phase, route, ops, opHead, false, c2s) && opHead < |ops| && ops[opHead] == Request(id)
    ensures id in kinds && id in route && route[id].c2s == None
    ensures var route' := route[id := route[id].(c2s := Some(|c2s|))];
            var c2s' := c2s + [Ctl(RequestMsg(id, kinds[id]))];
            if Announces(RequestMsg(id, kinds[id])) then Routes(kinds, phase, route', ops, opHead, true, c2s')
            else Routes(kinds, phase, route', ops, opHead + 1, false, c2s')
  {
    var route' := route[id := route[id].(c2s := Some(|c2s|))];
    var m := RequestMsg(id, kinds[id]);
    var c2s' := c2s + [Ctl(m)];
    assert FromClient(kinds, route', m, |c2s|);
    forall j | 0 <= j < |c2s| && c2s[j].Ctl? ensures FromClient(kinds, route', c2s[j].msg, j) {
      assert FromClient(kinds, route, c2s[j].msg, j);
    }
    assert forall j :: 0 <= j < |c2s| ==> c2s'[j] == c2s[j];
  }

  // ------------------------------------------------------------------- tasks

  predicate LookedUp(p: TaskPhase) {
    p.Waits? || p.Granted? || p.HeaderOut? || p.PayloadOut?
  }

  predicate TaskFits(k: Kind, t: Task, overrun: bool) {
    LookedUp(t.phase) ==> k.Get? && t.off == k.off && (!overrun ==> |t.body| <= k.max)
  }

  /** A GET goroutine belongs to one request, read once from the log, and keeps its window. */
  predicate TaskRequests(kinds: map<nat, Kind>, route: map<nat, Route>, c2sRead: nat, tasks: map<nat, Task>,
                         overrun: bool) {
    forall id <- tasks ::
      && id in kinds && kinds[id].Get? && id in route && route[id].c2s.Some? && route[id].c2s.value < c2sRead
      && tasks[id].msg == RequestMsg(id, kinds[id]) && TaskFits(kinds[id], tasks[id], overrun)
  }

  predicate PayloadAt(t: Task, s2c: seq<Item>, q: nat) {
    q < |s2c| && s2c[q].Data? && s2c[q].off == t.off && s2c[q].body == t.body
  }

  predicate TaskPlace(id: nat, t: Task, lock: Option<nat>, s2c: seq<Item>, torn: bool) {
    match t.phase
    case Answered(p) => p < |s2c| && s2c[p] == Ctl(RespErr(id))
    case HeaderOut(p) => lock == Some(id) && p + 1 == |s2c| && s2c[p] == Ctl(Header(id, t))
    case PayloadOut(p) => p < |s2c| && s2c[p] == Ctl(Header(id, t)) && (!torn ==> PayloadAt(t, s2c, p + 1))
    case _ => true
  }

  predicate FromServer(kinds: map<nat, Kind>, tasks: map<nat, Task>, s2c: seq<Item>, q: nat)
    requires q < |s2c|
  {
    match s2c[q]
    case Ctl(m) =>
      if m.GetMeta? then
        m.reqId in tasks && (tasks[m.reqId].phase == HeaderOut(q) || tasks[m.reqId].phase == PayloadOut(q))
      else
        && (m.HelloResp? || m.RespOK? || m.RespErr?)
        && (m.reqId == 0 || (m.reqId in kinds
              && (kinds[m.reqId].Get? ==> m.RespErr? && m.reqId in tasks && tasks[m.reqId].phase == Answered(q))))
    case Data(off, body) =>
      && body != [] && q > 0 && s2c[q - 1].Ctl? && s2c[q - 1].msg.GetMeta?
      && s2c[q - 1].msg.reqId in tasks && tasks[s2c[q - 1].msg.reqId].phase == PayloadOut(q - 1)
      && off == tasks[s2c[q - 1].msg.reqId].off && body <= tasks[s2c[q - 1].msg.reqId].body
  }

  /** Each goroutine's messages are at the place it remembers, and every message to the client has
      its one goroutine, or is a reply of the serve loop to something that is not a GET. */
  predicate Places(kinds: map<nat, Kind>, tasks: map<nat, Task>, lock: Option<nat>, s2c: seq<Item>, torn: bool) {
    && (lock.Some? ==> lock.value in tasks && tasks[lock.value].phase.HeaderOut?)
    && (forall id <- tasks :: TaskPlace(id, tasks[id], lock, s2c, torn))
    && (forall q :: 0 <= q < |s2c| ==> FromServer(kinds, tasks, s2c, q))
  }

  lemma PlacesNewKind(kinds: map<nat, Kind>, tasks: map<nat, Task>, lock: Option<nat>, s2c: seq<Item>, torn: bool,
                      id: nat, k: Kind)
    requires Places(kinds, tasks, lock, s2c, torn) && id !in kinds
    ensures Places(kinds[id := k], tasks, lock, s2c, torn)
  {
    var kinds' := kinds[id := k];
    forall q | 0 <= q < |s2c| ensures FromServer(kinds', tasks, s2c, q) {
      assert FromServer(kinds, tasks, s2c, q);
    }
  }

  lemma PlacesTorn(kinds: map<nat, Kind>, tasks: map<nat, Task>, lock: Option<nat>, s2c: seq<Item>, torn: bool)
    requires Places(kinds, tasks, lock, s2c, torn)
    ensures Places(kinds, tasks, lock, s2c, true)
  {
  }

  predicate Quiet(p: TaskPhase) {
    !p.Answered? && !p.HeaderOut? && !p.PayloadOut?
  }

  /** A goroutine that has sent nothing yet changes without sending. */
  lemma PlacesQuiet(kinds: map<nat, Kind>, tasks: map<nat, Task>, lock: Option<nat>, s2c: seq<Item>, torn: bool,
                    id: nat, t: Task)
    requires Places(kinds, tasks, lock, s2c, torn) && Quiet(t.phase) && (id in tasks ==> Quiet(tasks[id].phase))
    ensures Places(kinds, tasks[id := t], lock, s2c, torn)
  {
    var tasks' := tasks[id := t];
    forall q | 0 <= q < |s2c| ensures FromServer(kinds, tasks', s2c, q) {
      assert FromServer(kinds, tasks, s2c, q);
    }
  }

  /** A message is added while no goroutine holds the send lock. */
  lemma PlacesKeepOnAppend(kinds: map<nat, Kind>, tasks: map<nat, Task>, s2c: seq<Item>, torn: bool, x: Item)
    requires Places(kinds, tasks, None, s2c, torn)
    ensures forall id <- tasks :: TaskPlace(id, tasks[id], None, s2c + [x], torn)
    ensures forall q :: 0 <= q < |s2c| ==> FromServer(kinds, tasks, s2c + [x], q)
  {
    forall q | 0 <= q < |s2c| ensures FromServer(kinds, tasks, s2c + [x], q) {
      assert FromServer(kinds, tasks, s2c, q);
    }
    forall id | id in tasks ensures TaskPlace(id, tasks[id], None, s2c + [x], torn) {
      assert TaskPlace(id, tasks[id], None, s2c, torn);
    }
  }

  lemma PlacesReply(kinds: map<nat, Kind>, tasks: map<nat, Task>, s2c: seq<Item>, torn: bool, r: Message)
    requires Places(kinds, tasks, None, s2c, torn) && (r.HelloResp? || r.RespOK? || r.RespErr?)
    requires r.reqId == 0 || (r.reqId in kinds && !kinds[r.reqId].Get?)
    ensures Places(kinds, tasks, None, s2c + [Ctl(r)], torn)
  {
    PlacesKeepOnAppend(kinds, tasks, s2c, torn, Ctl(r));
  }

  lemma PlacesAnswer(kinds: map<nat, Kind>, tasks: map<nat, Task>, s2c: seq<Item>, torn: bool, id: nat)
    requires Places(kinds, tasks, None, s2c, torn) && id in tasks && tasks[id].phase == Answering && id in kinds
    ensures Places(kinds, tasks[id := tasks[id].(phase := Answered(|s2c|))], None, s2c + [Ctl(RespErr(id))], torn)
  {
    var tasks' := tasks[id := tasks[id].(phase := Answered(|s2c|))];
    PlacesKeepOnAppend(kinds, tasks, s2c, torn, Ctl(RespErr(id)));
    var log := s2c + [Ctl(RespErr(id))];
    forall q | 0 <= q < |log| ensures FromServer(kinds, tasks', log, q) {
      if q < |s2c| {
        assert FromServer(kinds, tasks, log, q);
      }
    }
  }

  lemma PlacesHeader(kinds: map<nat, Kind>, tasks: map<nat, Task>, s2c: seq<Item>, torn: bool, id: nat)
    requires Places(kinds, tasks, None, s2c, torn) && id in tasks && tasks[id].phase == Granted
    ensures var t := tasks[id].(phase := HeaderOut(|s2c|));
            Places(kinds, tasks[id := t], Some(id), s2c + [Ctl(Header(id, tasks[id]))], torn)
  {
    var t := tasks[id].(phase := HeaderOut(|s2c|));
    var tasks', log := tasks[id := t], s2c + [Ctl(Header(id, tasks[id]))];
    PlacesKeepOnAppend(kinds, tasks, s2c, torn, Ctl(Header(id, tasks[id])));
    forall q | 0 <= q < |log| ensures FromServer(kinds, tasks', log, q) {
      if q < |s2c| {
        assert FromServer(kinds, tasks, log, q);
      }
    }
    forall i | i in tasks' ensures TaskPlace(i, tasks'[i], Some(id), log, torn) {
      if i != id {
        assert TaskPlace(i, tasks[i], None, s2c, torn);
      }
    }
  }

  /** The payload, or a first part of it, is sent, or nothing is. */
  lemma PlacesPayload(kinds: map<nat, Kind>, tasks: map<nat, Task>, s2c: seq<Item>, torn: bool, id: nat, cut: bytes)
    requires Places(kinds, tasks, Some(id), s2c, torn) && id in tasks && tasks[id].phase.HeaderOut?
    requires cut <= tasks[id].body && tasks[id].off >= 0
    ensures var t := tasks[id].(phase := PayloadOut(tasks[id].phase.at));
            if cut != [] then Places(kinds, tasks[id := t], None, s2c + [Data(t.off, cut)], torn || cut != t.body)
            else Places(kinds, tasks[id := t], None, s2c, true)
  {
    var t := tasks[id].(phase := PayloadOut(tasks[id].phase.at));
    var tasks' := tasks[id := t];
    var sent := cut != [];
    var log := if sent then s2c + [Data(t.off, cut)] else s2c;
    assert TaskPlace(id, tasks[id], Some(id), s2c, torn);
    forall q | 0 <= q < |log| ensures FromServer(kinds, tasks', log, q) {
      if q < |s2c| {
        assert FromServer(kinds, tasks, s2c, q);
      }
    }
    forall i | i in tasks' ensures TaskPlace(i, tasks'[i], None, log, torn || cut != t.body || !sent) {
      if i != id {
        assert TaskPlace(i, tasks[i], Some(id), s2c, torn);
      }
    }
  }

  /** The serve loop replies only about requests that are not GETs. */
  predicate Replies(kinds: map<nat, Kind>, serve: ServeMode) {
    match serve
    case Replying(r) =>
      && (r.HelloResp? || r.RespOK? || r.RespErr?)
      && (r.reqId == 0 || (r.reqId in kinds && !kinds[r.reqId].Get?))
    case ReadingPayload(p) => p.PutReq? && p.reqId in kinds && kinds[p.reqId].Put?
    case _ => true
  }

  // ------------------------------------------------------------- GET windows

  predicate WindowsApart(kinds: map<nat, Kind>, live: set<nat>) {
    forall a <- live, b <- live :: a != b && a in kinds && b in kinds && kinds[a].Get? && kinds[b].Get? ==>
      Apart(kinds[a].off, kinds[a].max, kinds[b].off, kinds[b].max)
  }

  predicate Windows(kinds: map<nat, Kind>, live: set<nat>, memLen: nat) {
    && 0 < memLen < TWO32
    && (forall id <- kinds :: kinds[id].Get? ==> kinds[id].off + kinds[id].max <= memLen)
    && (forall id <- kinds :: kinds[id].Put? ==> kinds[id].off + kinds[id].size <= memLen)
    && (forall id <- live :: id in kinds && kinds[id].Get?)
    && WindowsApart(kinds, live)
  }

  /** The client has read all there will be for this GET. */
  predicate Settled(p: TaskPhase, s2cRead: nat) {
    (p.Answered? && p.at < s2cRead) || (p.PayloadOut? && p.at + 1 < s2cRead)
  }

  /** A window stops being live only when nothing more can arrive for it. */
  predicate Alive(kinds: map<nat, Kind>, live: set<nat>, tasks: map<nat, Task>, s2cRead: nat, torn: bool) {
    !torn ==> forall id <- kinds :: kinds[id].Get? && id !in live ==> id in tasks && Settled(tasks[id].phase, s2cRead)
  }

  predicate InPlace(mem: bytes, t: Task) {
    0 <= t.off && t.off + |t.body| <= |mem| && mem[t.off..t.off + |t.body|] == t.body
  }

  /** A payload that has landed in a live window is still there. */
  predicate Memory(live: set<nat>, tasks: map<nat, Task>, landed: nat, mem: bytes, torn: bool, overrun: bool) {
    !torn && !overrun ==>
      forall id <- tasks :: id in live && tasks[id].phase.PayloadOut? && tasks[id].phase.at + 1 < landed ==> InPlace(mem, tasks[id])
  }

  // ----------------------------------------------------------------- results

  predicate Delivered(tasks: map<nat, Task>, id: nat, s2cRead: nat) {
    id in tasks && tasks[id].phase.PayloadOut? && tasks[id].phase.at + 1 < s2cRead && tasks[id].off >= 0
  }

  predicate GoodInbound(kinds: map<nat, Kind>, tasks: map<nat, Task>, live: set<nat>, s2cRead: nat, id: nat, r: Inbound) {
    match r
    case Payload(m, off, len) =>
      && id in kinds && kinds[id].Get? && id in live && Delivered(tasks, id, s2cRead)
      && m == Header(id, tasks[id]) && off == tasks[id].off && len == |tasks[id].body|
    case Reply(m) =>
      m.RespErr? && id in kinds && kinds[id].Get? ==> id in tasks && Settled(tasks[id].phase, s2cRead)
    case Failure => true
  }

  /** A buffered payload is the one sent for its request; a buffer handed to the caller is the
      looked-up object at the requested offset, its window still live. */
  predicate Results(kinds: map<nat, Kind>, inbox: map<nat, Option<Inbound>>, tasks: map<nat, Task>, live: set<nat>,
                    s2cRead: nat, torn: bool) {
    !torn ==> forall id <- inbox :: inbox[id].Some? ==> GoodInbound(kinds, tasks, live, s2cRead, id, inbox[id].value)
  }

  predicate GoodRef(tasks: map<nat, Task>, live: set<nat>, s2cRead: nat, refs: map<nat, Ref>, id: nat) {
    && id in live && Delivered(tasks, id, s2cRead)
    && id in refs && refs[id] == Ref(tasks[id].off, |tasks[id].body|)
  }

  predicate Tokens(kinds: map<nat, Kind>, inbox: map<nat, Option<Inbound>>, got: map<nat, nat>,
                   nextToken: nat, tokens: map<nat, nat>, refs: map<nat, Ref>, tasks: map<nat, Task>, live: set<nat>,
                   s2cRead: nat, torn: bool) {
    && (forall t <- tokens :: 1 <= t <= nextToken)
    && (forall t <- tokens, u <- tokens :: tokens[t] == tokens[u] ==> t == u)
    && (forall t <- tokens :: tokens[t] in kinds && tokens[t] in got && got[tokens[t]] == 1
                              && tokens[t] in inbox && inbox[tokens[t]] == None)
    && (!torn ==> forall t <- tokens :: GoodRef(tasks, live, s2cRead, refs, tokens[t]))
  }

  // ------------------------------------------------------------------ credits

  predicate IsGranted(t: Task) { t.phase == Granted }

  predicate HoldsPayload(r: Option<Inbound>) { r.Some? && r.value.Payload? }

  function HeaderOf(x: Item): nat { if x.Ctl? && x.msg.GetMeta? then 1 else 0 }

  function CreditOf(op: SendOp): nat { if op.Credit? then 1 else 0 }

  function Held(r: RecvMode): nat { if r.AtPayload? || r == Stopped(true) then 1 else 0 }

  /** Where credits are: with the server, with a GET about to send, on the way to the client (the
      header carries it), with the receive loop, in a result channel, in a buffer the caller holds,
      and on the way back, queued or in transit. */
  function Credits(gate: G.Gate, tasks: map<nat, Task>, s2c: seq<Item>, s2cRead: nat, recv: RecvMode,
                   inbox: map<nat, Option<Inbound>>, tokens: map<nat, nat>, ops: seq<SendOp>, opHead: nat,
                   c2s: seq<Item>, c2sRead: nat): int {
    gate.credits + Count(tasks, IsGranted) + Total(HeaderOf, s2c, s2cRead) + Held(recv)
    + Count(inbox, HoldsPayload) + |tokens| + Total(CreditOf, ops, opHead) + Total(AckOf, c2s, c2sRead)
  }

  /** hello is read at most once. */
  predicate OneHello(kinds: map<nat, Kind>, route: map<nat, Route>, c2sRead: nat, granted: nat) {
    && (forall id <- kinds :: kinds[id].Hello? ==> id == 1)
    && (granted > 0 ==> 1 in route && route[1].c2s.Some? && route[1].c2s.value < c2sRead)
  }

  // -------------------------------------------------------------- everything

  function ServeExpects(m: ServeMode): Option<Mode> {
    match m
    case Reading => Some(Clear)
    case Replying(_) => Some(Clear)
    case ReadingPayload(p) => Some(Expect(p))
    case Exited => None
  }

  function RecvExpects(m: RecvMode): Option<Mode> {
    match m
    case AtControl => Some(Clear)
    case AtPayload(h) => Some(Expect(h))
    case Stopped(_) => None
  }

  /** The client's side. */
  predicate ClientInv(s: State) {
    && Tables(s.cl.nextReq, s.cl.kinds, s.cl.phase, s.cl.pending, s.cl.inbox, s.cl.got)
    && Routes(s.cl.kinds, s.cl.phase, s.gh.route, s.cl.ops, s.cl.opHead, s.cl.opMid, s.net.c2s)
    && Windows(s.cl.kinds, s.gh.live, |s.cl.mem|)
  }

  /** The two streams. */
  predicate StreamInv(s: State) {
    && s.net.s2cRead <= s.net.landed <= |s.net.s2c|
    && Written(s.net.c2s, s.cl.opMid, s.gh.upTorn)
    && Read(s.net.c2s, s.net.c2sRead, ServeExpects(s.sv.serve), s.gh.upTorn)
    && Written(s.net.s2c, s.sv.lock.Some?, s.gh.torn)
    && Read(s.net.s2c, s.net.s2cRead, RecvExpects(s.cl.recv), s.gh.torn)
  }

  /** The server's side. */
  predicate ServerInv(s: State) {
    && TaskRequests(s.cl.kinds, s.gh.route, s.net.c2sRead, s.sv.tasks, s.gh.overrun)
    && Places(s.cl.kinds, s.sv.tasks, s.sv.lock, s.net.s2c, s.gh.torn)
    && Replies(s.cl.kinds, s.sv.serve)
  }

  /** GET payloads from the store to the caller. */
  predicate GetInv(s: State) {
    && Alive(s.cl.kinds, s.gh.live, s.sv.tasks, s.net.s2cRead, s.gh.torn)
    && Memory(s.gh.live, s.sv.tasks, s.net.landed, s.cl.mem, s.gh.torn, s.gh.overrun)
    && Results(s.cl.kinds, s.cl.inbox, s.sv.tasks, s.gh.live, s.net.s2cRead, s.gh.torn)
    && Tokens(s.cl.kinds, s.cl.inbox, s.cl.got, s.cl.nextToken, s.cl.tokens, s.cl.refs, s.sv.tasks, s.gh.live,
              s.net.s2cRead, s.gh.torn)
  }

  /** Every credit granted is somewhere or lost; `d` is a surplus in the middle of a step. */
  predicate CreditInv(s: State, d: int) {
    && s.sv.gate.credits >= 0
    && OneHello(s.cl.kinds, s.gh.route, s.net.c2sRead, s.gh.granted)
    && Credits(s.sv.gate, s.sv.tasks, s.net.s2c, s.net.s2cRead, s.cl.recv, s.cl.inbox, s.cl.tokens, s.cl.ops,
               s.cl.opHead, s.net.c2s, s.net.c2sRead) + s.gh.lost == s.gh.granted + d
  }

  predicate InvUpTo(s: State, d: int) {
    ClientInv(s) && StreamInv(s) && ServerInv(s) && GetInv(s) && CreditInv(s, d)
  }

  predicate Inv(s: State) {
    InvUpTo(s, 0)
  }
}
