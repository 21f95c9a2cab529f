/** The steps of the client's send and receive loops keep every invariant. */
module ZcopyLoopSteps {
  import opened Wire
  import opened Counters
  import opened Protocol
  import opened Zcopy
  import opened ZcopyInv
  import opened ZcopyClientSteps
  import G = Gate

  // --------------------------------------------------------------- sendLoop

  lemma LogsFit(s: State)
    requires StreamInv(s)
    ensures s.net.c2sRead <= |s.net.c2s| && s.net.s2cRead <= |s.net.s2c|
  {
  }

  /** One message goes to the server; the queue's head is then at `head`. */
  function Post(s: State, x: Item, head: nat, mid: bool, route: map<nat, Route>): State {
    s.(cl := s.cl.(opHead := head, opMid := mid), net := s.net.(c2s := s.net.c2s + [x]), gh := s.gh.(route := route))
  }

  lemma PostStep(s: State, x: Item, head: nat, mid: bool, route: map<nat, Route>, d: int)
    requires InvUpTo(s, d) && s.cl.opHead < |s.cl.ops| && s.cl.opHead <= head <= s.cl.opHead + 1
    requires Routes(s.cl.kinds, s.cl.phase, route, s.cl.ops, head, mid, s.net.c2s + [x])
    requires Written(s.net.c2s + [x], mid, s.gh.upTorn)
    requires TaskRequests(s.cl.kinds, route, s.net.c2sRead, s.sv.tasks, s.gh.overrun)
    requires OneHello(s.cl.kinds, route, s.net.c2sRead, s.gh.granted)
    ensures InvUpTo(Post(s, x, head, mid, route),
                    d + AckOf(x) - if head > s.cl.opHead then CreditOf(s.cl.ops[s.cl.opHead]) else 0)
  {
    hide Tables, Routes, Windows, Written, Read, TaskRequests, Places, Replies, Alive, Memory, Results, Tokens, OneHello, Credits;
    LogsFit(s);
    ReadStays(s.net.c2s, x, s.net.c2sRead, ServeExpects(s.sv.serve), s.gh.upTorn);
    TotalPop(CreditOf, s.cl.ops, s.cl.opHead);
    TotalPush(AckOf, s.net.c2s, s.net.c2sRead, x);
    CreditsSplit(s);
    CreditsSplit(Post(s, x, head, mid, route));
  }

  /** The head of the queue is dropped. */
  function Skip(s: State): State {
    s.(cl := s.cl.(opHead := s.cl.opHead + 1, opMid := false))
  }

  lemma SkipStep(s: State, d: int)
    requires InvUpTo(s, d) && s.cl.opHead < |s.cl.ops| && (s.cl.opMid ==> s.gh.upTorn)
    ensures InvUpTo(Skip(s), d - CreditOf(s.cl.ops[s.cl.opHead]))
  {
    hide Tables, Routes, Windows, Written, Read, TaskRequests, Places, Replies, Alive, Memory, Results, Tokens, OneHello, Credits;
    RoutesSkip(s.cl.kinds, s.cl.phase, s.gh.route, s.cl.ops, s.cl.opHead, s.net.c2s, s.cl.opMid);
    if s.cl.opMid {
      WrittenTorn(s.net.c2s, false);
    }
    TotalPop(CreditOf, s.cl.ops, s.cl.opHead);
    CreditsSplit(s);
    CreditsSplit(Skip(s));
  }

  lemma SendAckKeeps(s: State, ok: bool)
    requires Inv(s) && CanSendControl(s) && s.cl.ops[s.cl.opHead].Credit?
    ensures Inv(SendControl(s, ok))
  {
    hide Tables, Routes, Windows, Written, Read, TaskRequests, Places, Replies, Alive, Memory, Results, Tokens, OneHello, Credits;
    if ok {
      RoutesSkip(s.cl.kinds, s.cl.phase, s.gh.route, s.cl.ops, s.cl.opHead, s.net.c2s, false);
      RoutesAck(s.cl.kinds, s.cl.phase, s.gh.route, s.cl.ops, s.cl.opHead + 1, s.net.c2s);
      WritePlain(s.net.c2s, Ack(1), s.gh.upTorn);
      PostStep(s, Ctl(Ack(1)), s.cl.opHead + 1, false, s.gh.route, 0);
    } else {
      SkipStep(s, 0);
      LoseStep(Skip(s), -1);
    }
  }

  lemma SendRequestKeeps(s: State)
    requires Inv(s) && CanSendControl(s) && s.cl.ops[s.cl.opHead].Request?
    ensures Inv(SendControl(s, true))
  {
    hide Tables, Routes, Windows, Written, Read, TaskRequests, Places, Replies, Alive, Memory, Results, Tokens, OneHello, Credits,
      RequestMsg;
    var id := s.cl.ops[s.cl.opHead].id;
    var m := RequestMsg(id, s.cl.kinds[id]);
    RoutesRequest(s.cl.kinds, s.cl.phase, s.gh.route, s.cl.ops, s.cl.opHead, s.net.c2s, id);
    RequestRoute(s, id);
    var route := s.gh.route[id := s.gh.route[id].(c2s := Some(|s.net.c2s|))];
    NotAck(id, s.cl.kinds[id]);
    if Announces(m) {
      WriteHeader(s.net.c2s, m, s.gh.upTorn);
      PostStep(s, Ctl(m), s.cl.opHead, true, route, 0);
    } else {
      WritePlain(s.net.c2s, m, s.gh.upTorn);
      PostStep(s, Ctl(m), s.cl.opHead + 1, false, route, 0);
    }
  }

  lemma NotAck(id: nat, k: Kind)
    ensures AckOf(Ctl(RequestMsg(id, k))) == 0
  {
  }

  lemma RequestRoute(s: State, id: nat)
    requires id in s.gh.route && s.gh.route[id].c2s == None
    requires TaskRequests(s.cl.kinds, s.gh.route, s.net.c2sRead, s.sv.tasks, s.gh.overrun)
    requires OneHello(s.cl.kinds, s.gh.route, s.net.c2sRead, s.gh.granted)
    ensures var route' := s.gh.route[id := s.gh.route[id].(c2s := Some(|s.net.c2s|))];
            && TaskRequests(s.cl.kinds, route', s.net.c2sRead, s.sv.tasks, s.gh.overrun)
            && OneHello(s.cl.kinds, route', s.net.c2sRead, s.gh.granted)
  {
  }

  lemma SendControlKeeps(s: State, ok: bool)
    requires Inv(s) && CanSendControl(s)
    ensures Inv(SendControl(s, ok))
  {
    hide InvUpTo;
    if s.cl.ops[s.cl.opHead].Credit? {
      SendAckKeeps(s, ok);
    } else if ok {
      SendRequestKeeps(s);
    } else {
      SkipStep(s, 0);
    }
  }

  function Tear(s: State): State {
    s.(gh := s.gh.(torn := true))
  }

  /** Once a stream may be torn, the statements about positions say nothing. */
  lemma TearStep(s: State, d: int)
    requires InvUpTo(s, d)
    ensures InvUpTo(Tear(s), d)
  {
    hide Tables, Routes, Windows, TaskRequests, Places, Replies, OneHello, Credits, ModeOf;
    PlacesTorn(s.cl.kinds, s.sv.tasks, s.sv.lock, s.net.s2c, s.gh.torn);
  }

  function TearUp(s: State): State {
    s.(gh := s.gh.(upTorn := true))
  }

  lemma TearUpStep(s: State, d: int)
    requires InvUpTo(s, d)
    ensures InvUpTo(TearUp(s), d)
  {
    hide Tables, Routes, Windows, TaskRequests, Places, Replies, Alive, Memory, Results, Tokens, OneHello, Credits, ModeOf;
  }

  lemma WrittenTorn(log: seq<Item>, mid: bool)
    ensures Written(log, mid, true)
  {
  }

  lemma PutHeaderIsLast(s: State)
    requires ClientInv(s) && CanSendData(s)
    ensures s.net.c2s != [] && MidPut(s.cl.kinds, s.cl.ops[s.cl.opHead].id, s.net.c2s[|s.net.c2s| - 1])
  {
  }

  lemma PutFits(s: State)
    requires ClientInv(s) && CanSendData(s)
    ensures var k := s.cl.kinds[s.cl.ops[s.cl.opHead].id];
            k.size < TWO32 && Wrap(k.off) == k.off && (k.size > 0 ==> k.off < TWO32)
  {
    hide Tables, Routes, WindowsApart;
  }

  /** Below 4 GiB nothing is cut. */
  lemma CutWhole(body: bytes)
    requires |body| < TWO32
    ensures Cut(body) == body
  {
  }

  lemma SendDataKeeps(s: State, ok: bool)
    requires Inv(s) && CanSendData(s)
    ensures Inv(SendData(s, ok))
  {
    hide Tables, Routes, Windows, Written, Read, TaskRequests, Places, Replies, Alive, Memory, Results, Tokens, OneHello, Credits, Cut;
    var k := s.cl.kinds[s.cl.ops[s.cl.opHead].id];
    var body := s.cl.mem[k.off..k.off + k.size];
    PutFits(s);
    PutHeaderIsLast(s);
    CutWhole(body);
    if ok {
      RoutesSkip(s.cl.kinds, s.cl.phase, s.gh.route, s.cl.ops, s.cl.opHead, s.net.c2s, true);
      RoutesData(s.cl.kinds, s.cl.phase, s.gh.route, s.cl.ops, s.cl.opHead + 1, s.net.c2s, k.off, body);
      WritePayload(s.net.c2s, k.off, body, s.gh.upTorn);
      PostStep(s, Data(k.off, body), s.cl.opHead + 1, false, s.gh.route, 0);
    } else {
      TearUpStep(s, 0);
      SkipStep(TearUp(s), 0);
    }
  }

  // --------------------------------------------------------------- recvLoop

  /** Reading one item, after which the loop is in `mode`. */
  function Pop(s: State, mode: RecvMode): State {
    s.(cl := s.cl.(recv := mode), net := s.net.(s2cRead := s.net.s2cRead + 1))
  }

  lemma PopStep(s: State, mode: RecvMode, d: int)
    requires InvUpTo(s, d) && s.net.s2cRead < s.net.landed <= |s.net.s2c|
    requires Read(s.net.s2c, s.net.s2cRead + 1, RecvExpects(mode), s.gh.torn)
    ensures InvUpTo(Pop(s, mode), d - HeaderOf(s.net.s2c[s.net.s2cRead]) - Held(s.cl.recv) + Held(mode))
  {
    hide Tables, Routes, Windows, Written, Read, TaskRequests, Places, Replies, Alive, Memory, Results, Tokens, OneHello, Credits;
    PopGet(s, mode);
    TotalPop(HeaderOf, s.net.s2c, s.net.s2cRead);
    CreditsSplit(s);
    CreditsSplit(Pop(s, mode));
  }

  /** What has been read stays read. */
  lemma PopGet(s: State, mode: RecvMode)
    requires GetInv(s)
    ensures GetInv(Pop(s, mode))
  {
    hide Memory;
    if !s.gh.torn {
      forall id | id in s.cl.inbox && s.cl.inbox[id].Some?
        ensures GoodInbound(s.cl.kinds, s.sv.tasks, s.gh.live, s.net.s2cRead + 1, id, s.cl.inbox[id].value)
      {
        assert GoodInbound(s.cl.kinds, s.sv.tasks, s.gh.live, s.net.s2cRead, id, s.cl.inbox[id].value);
      }
      forall t | t in s.cl.tokens
        ensures GoodRef(s.sv.tasks, s.gh.live, s.net.s2cRead + 1, s.cl.refs, s.cl.tokens[t])
      {
        assert GoodRef(s.sv.tasks, s.gh.live, s.net.s2cRead, s.cl.refs, s.cl.tokens[t]);
      }
    }
  }

  function Deliver(s: State, id: nat, r: Inbound): State {
    s.(cl := HandOver(s.cl, id, r))
  }

  lemma DeliverStep(s: State, id: nat, r: Inbound, d: int)
    requires InvUpTo(s, d) && For(r, id) && id in s.cl.pending
    requires !s.gh.torn ==> GoodInbound(s.cl.kinds, s.sv.tasks, s.gh.live, s.net.s2cRead, id, r)
    ensures InvUpTo(Deliver(s, id, r), d + One(r.Payload?))
  {
    hide Tables, Routes, Windows, Written, Read, TaskRequests, Places, Replies, Alive, Memory, Results, Tokens, OneHello, Credits,
      HandOver, For, GoodInbound;
    TablesHandOver(s.cl, id, r);
    DeliverGet(s, id, r);
    CountSet(s.cl.inbox, HoldsPayload, id, Some(r));
    CreditsSplit(s);
    CreditsSplit(Deliver(s, id, r));
  }

  lemma DeliverGet(s: State, id: nat, r: Inbound)
    requires GetInv(s) && ClientInv(s) && For(r, id) && id in s.cl.pending
    requires !s.gh.torn ==> GoodInbound(s.cl.kinds, s.sv.tasks, s.gh.live, s.net.s2cRead, id, r)
    ensures GetInv(Deliver(s, id, r))
  {
    hide Tables, Routes, Windows, Alive, Memory, HandOver, For, GoodInbound, GoodRef;
    TablesHandOver(s.cl, id, r);
  }

  function Stop(s: State): State {
    s.(cl := StopRecv(s.cl))
  }

  lemma StopStep(s: State, d: int)
    requires InvUpTo(s, d) && !s.cl.recv.Stopped?
    ensures InvUpTo(Stop(s), d)
  {
    hide Tables, Routes, Windows, Written, TaskRequests, Places, Replies, Alive, Memory, Results, Tokens, OneHello, Credits;
    var s' := Stop(s);
    TablesStop(s.cl);
    StopGet(s);
    StopCount(s);
    CreditsSplit(s);
    CreditsSplit(s');
  }

  lemma StopCount(s: State)
    requires ClientInv(s)
    ensures Count(Stop(s).cl.inbox, HoldsPayload) == Count(s.cl.inbox, HoldsPayload)
  {
    hide Tables, Routes, Windows;
    TablesStop(s.cl);
    CountSame(s.cl.inbox, Stop(s).cl.inbox, HoldsPayload);
  }

  lemma StopGet(s: State)
    requires GetInv(s) && ClientInv(s)
    ensures GetInv(Stop(s))
  {
    hide Routes, Windows, Alive, Memory, For, GoodRef;
    var s' := Stop(s);
    if !s.gh.torn {
      forall id | id in s'.cl.inbox && s'.cl.inbox[id].Some?
        ensures GoodInbound(s.cl.kinds, s.sv.tasks, s.gh.live, s.net.s2cRead, id, s'.cl.inbox[id].value)
      {
      }
    }
  }

  lemma RecvFailKeeps(s: State)
    requires Inv(s) && CanRecvFail(s)
    ensures Inv(RecvFail(s))
  {
    hide InvUpTo;
    StopStep(s, 0);
  }

  /** What the server sends as a control message. */
  lemma ServerSends(s: State)
    requires ServerInv(s) && s.net.s2cRead < |s.net.s2c| && s.net.s2c[s.net.s2cRead].Ctl?
    ensures var m := s.net.s2c[s.net.s2cRead].msg;
            && (m.GetMeta? || m.HelloResp? || m.RespOK? || m.RespErr?)
            && (m.RespErr? && m.reqId != 0 && m.reqId in s.cl.kinds && s.cl.kinds[m.reqId].Get? ==>
                  m.reqId in s.sv.tasks && s.sv.tasks[m.reqId].phase == Answered(s.net.s2cRead))
  {
    hide TaskRequests, Replies;
    assert FromServer(s.cl.kinds, s.sv.tasks, s.net.s2c, s.net.s2cRead);
  }

  /** What the receive loop reads at a control message, when nothing was torn. */
  lemma ControlNext(s: State)
    requires StreamInv(s) && CanRecvControl(s)
    ensures var x := s.net.s2c[s.net.s2cRead];
            && (!s.gh.torn ==> x.Ctl?)
            && (x.Ctl? && x.msg.GetMeta? ==> Read(s.net.s2c, s.net.s2cRead + 1, RecvExpects(AtPayload(x.msg)), s.gh.torn))
            && (x.Ctl? && !Announces(x.msg) ==> Read(s.net.s2c, s.net.s2cRead + 1, Some(Clear), s.gh.torn))
            && (x.Data? ==> Read(s.net.s2c, s.net.s2cRead + 1, Some(Clear), s.gh.torn))
  {
    hide Written;
    if !s.gh.torn {
      ReadNext(s.net.s2c, s.net.s2cRead, Clear, s.sv.lock.Some?, s.gh.torn);
    }
  }

  lemma IdsPositive(s: State)
    requires ClientInv(s)
    ensures 0 !in s.cl.pending && 0 !in s.cl.kinds
    ensures forall id <- s.cl.pending :: id in s.cl.got
  {
  }

  /** Unless a payload is obeyed, the loop does what the control message it reads says. */
  lemma RecvControlKeeps(s: State)
    requires Inv(s) && CanRecvControl(s)
    requires s.net.s2c[s.net.s2cRead].Data? ==> ClientTakes(s) == None
    ensures Inv(RecvControl(s))
  {
    hide Tables, Routes, Windows, Written, Read, TaskRequests, Places, Replies, Alive, Memory, Results, Tokens, OneHello, Credits,
      HandOver, StopRecv, View;
    var x := s.net.s2c[s.net.s2cRead];
    ControlNext(s);
    IdsPositive(s);
    var s1 := Pop(s, AtControl);
    if x.Data? {
      PopStep(s, AtControl, 0);
      StopStep(s1, 0);
      assert s1.cl == s.cl;
    } else {
      ServerSends(s);
      var m := x.msg;
      if m.GetMeta? {
        PopStep(s, AtPayload(m), 0);
      } else {
        PopStep(s, AtControl, 0);
        assert s1.cl == s.cl;
        if m.reqId in s.cl.pending {
          DeliverStep(s1, m.reqId, Reply(m), 0);
        } else {
          NoHandOver(s.cl, m.reqId, Reply(m));
        }
      }
    }
  }

  lemma NoHandOver(cl: Client, id: nat, r: Inbound)
    requires id !in cl.pending
    ensures HandOver(cl, id, r) == cl
  {
  }

  /** What the receive loop reads as a payload, when nothing was torn: the one that was sent with
      the header before it, into a window still live, for the first time. */
  lemma PayloadNext(s: State)
    requires Inv(s) && CanRecvPayload(s)
    ensures Read(s.net.s2c, s.net.s2cRead + 1, Some(Clear), s.gh.torn)
    ensures !s.gh.torn ==>
              var x, id := s.net.s2c[s.net.s2cRead], s.cl.recv.meta.reqId;
              && x.Data? && id in s.sv.tasks && s.sv.tasks[id].phase == PayloadOut(s.net.s2cRead - 1)
              && x.off == s.sv.tasks[id].off && x.body == s.sv.tasks[id].body
              && s.cl.recv.meta == Header(id, s.sv.tasks[id])
              && id in s.cl.kinds && s.cl.kinds[id].Get? && id in s.gh.live
  {
    hide Tables, Routes, Windows, Written, Read, Replies, Memory, Results, Tokens, OneHello, Credits, RequestMsg, TaskFits;
    ReadWithin(s);
    if s.gh.torn {
      ReadTorn(s.net.s2c, s.net.s2cRead + 1, Some(Clear));
    } else {
      var meta := s.cl.recv.meta;
      ReadNext(s.net.s2c, s.net.s2cRead, Expect(meta), s.sv.lock.Some?, s.gh.torn);
      assert FromServer(s.cl.kinds, s.sv.tasks, s.net.s2c, s.net.s2cRead);
      assert TaskPlace(meta.reqId, s.sv.tasks[meta.reqId], s.sv.lock, s.net.s2c, s.gh.torn);
    }
  }

  lemma ReadWithin(s: State)
    requires StreamInv(s)
    ensures s.net.s2cRead <= s.net.landed <= |s.net.s2c|
  {
  }

  lemma ReadTorn(log: seq<Item>, read: nat, mode: Option<Mode>)
    requires read <= |log|
    ensures Read(log, read, mode, true)
  {
  }

  /** A payload read for the first time is nobody's yet. */
  lemma FirstRead(s: State, id: nat)
    requires s.net.s2cRead > 0
    requires GetInv(s) && !s.gh.torn && id in s.sv.tasks && s.sv.tasks[id].phase == PayloadOut(s.net.s2cRead - 1)
    ensures id in s.cl.inbox && s.cl.inbox[id].Some? ==> !s.cl.inbox[id].value.Payload?
    ensures forall t <- s.cl.tokens :: s.cl.tokens[t] != id
  {
    hide Alive, Memory;
    if id in s.cl.inbox && s.cl.inbox[id].Some? {
      assert GoodInbound(s.cl.kinds, s.sv.tasks, s.gh.live, s.net.s2cRead, id, s.cl.inbox[id].value);
    }
    forall t | t in s.cl.tokens ensures s.cl.tokens[t] != id {
      assert GoodRef(s.sv.tasks, s.gh.live, s.net.s2cRead, s.cl.refs, s.cl.tokens[t]);
    }
  }

  /** The loop is at a control message again; a header taken for a payload is a credit lost. */
  function PopPayload(s: State): State
    requires CanRecvPayload(s)
  {
    var x := s.net.s2c[s.net.s2cRead];
    if x.Ctl? && x.msg.GetMeta? then Lose(Pop(s, AtControl)) else Pop(s, AtControl)
  }

  function Received(s: State, frameLen: nat): Inbound
    requires CanRecvPayload(s)
  {
    var x := s.net.s2c[s.net.s2cRead];
    if x.Data? then Payload(s.cl.recv.meta, x.off, |x.body|) else Payload(s.cl.recv.meta, -1, frameLen)
  }

  lemma RecvPayloadIs(s: State, frameLen: nat, ok: bool)
    requires CanRecvPayload(s) && (s.cl.recv.meta.reqId in s.cl.pending ==> s.cl.recv.meta.reqId in s.cl.got)
    ensures RecvPayload(s, frameLen, ok)
         == if s.cl.recv.meta.reqId in s.cl.pending then Deliver(PopPayload(s), s.cl.recv.meta.reqId, Received(s, frameLen))
            else Unlive(AckOne(PopPayload(s), ok), s.cl.recv.meta.reqId)
  {
    hide HandOver, AckOne, Unlive;
  }

  lemma PopPayloadStep(s: State)
    requires Inv(s) && CanRecvPayload(s)
    ensures InvUpTo(PopPayload(s), -1)
  {
    hide Tables, Routes, Windows, Written, Read, TaskRequests, Places, Replies, Alive, Memory, Results, Tokens, OneHello, Credits,
      ClientInv, StreamInv, ServerInv, GetInv, CreditInv;
    PayloadNext(s);
    PopStep(s, AtControl, 0);
    var x := s.net.s2c[s.net.s2cRead];
    if x.Ctl? && x.msg.GetMeta? {
      LoseStep(Pop(s, AtControl), -2);
    }
  }

  lemma ReceivedIsGood(s: State, frameLen: nat)
    requires Inv(s) && CanRecvPayload(s)
    ensures For(Received(s, frameLen), s.cl.recv.meta.reqId)
    ensures var s1 := PopPayload(s);
            !s1.gh.torn ==> GoodInbound(s1.cl.kinds, s1.sv.tasks, s1.gh.live, s1.net.s2cRead, s.cl.recv.meta.reqId, Received(s, frameLen))
  {
    hide InvUpTo;
    PayloadNext(s);
  }

  lemma DiscardedMayUnlive(s: State)
    requires Inv(s) && CanRecvPayload(s)
    ensures MayUnlive(PopPayload(s), s.cl.recv.meta.reqId)
  {
    hide ClientInv, StreamInv, ServerInv, GetInv, CreditInv;
    PayloadNext(s);
    if !s.gh.torn {
      FirstRead(s, s.cl.recv.meta.reqId);
    }
  }

  lemma RecvPayloadKeeps(s: State, frameLen: nat, ok: bool)
    requires Inv(s) && CanRecvPayload(s)
    ensures Inv(RecvPayload(s, frameLen, ok))
  {
    hide RecvPayload, Received, AckOne, Unlive, ClientInv, StreamInv, ServerInv, GetInv, CreditInv, For, GoodInbound, MayUnlive;
    IdsPositive(s);
    RecvPayloadIs(s, frameLen, ok);
    PopPayloadStep(s);
    if s.cl.recv.meta.reqId in s.cl.pending {
      ReceivedIsGood(s, frameLen);
      DeliverStep(PopPayload(s), s.cl.recv.meta.reqId, Received(s, frameLen), -1);
      IsPayload(s, frameLen);
    } else {
      DiscardedMayUnlive(s);
      DiscardStep(PopPayload(s), s.cl.recv.meta.reqId, ok);
    }
  }

  lemma IsPayload(s: State, frameLen: nat)
    requires CanRecvPayload(s)
    ensures Received(s, frameLen).Payload?
  {
  }

  /** A payload nobody waits for is acknowledged, and its window is no longer live. */
  lemma DiscardStep(s: State, id: nat, ok: bool)
    requires InvUpTo(s, -1) && MayUnlive(s, id)
    ensures Inv(Unlive(AckOne(s, ok), id))
  {
    hide Tables, Routes, Windows, Written, Read, TaskRequests, Places, Replies, Alive, Memory, Results, Tokens, OneHello, Credits,
      ClientInv, StreamInv, ServerInv, GetInv, CreditInv;
    AckOneStep(s, ok, -1);
    UnliveStep(AckOne(s, ok), id, 0);
  }
}
