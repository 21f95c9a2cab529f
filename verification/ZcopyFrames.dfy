/** What the steps of a zcopy connection leave alone. */
module ZcopyFrames {
  import opened Wire
  import opened Protocol
  import opened Zcopy
  import G = Gate

  /** Steps of callers and of the client's loops, but for a new call, a write by the application and
      the payload of a PUT. */
  predicate AtClient(e: Event) {
    || e.EEnqueue? || e.ESentOK? || e.EGiveUp? || e.ETakeReply? || e.ETakePayload? || e.ELeave? || e.ERelease?
    || e.ECloseClient? || e.ESendControl? || e.ERecvControl? || e.ERecvPayload? || e.ERecvFail?
  }

  predicate AtServer(e: Event) {
    || e.EServe? || e.EServePayload? || e.EServeReply? || e.EServeFail? || e.ELookUp? || e.EGrant? || e.ERefuse?
    || e.ESendHeader? || e.ESendPayload? || e.ESendAnswer? || e.EChangeObjects?
  }

  predicate ClientFrame(s: State, s': State) {
    && s'.cl.kinds == s.cl.kinds && s'.cl.mem == s.cl.mem && s'.sv == s.sv
    && s'.gh.torn == s.gh.torn && s'.gh.upTorn == s.gh.upTorn && s'.gh.overrun == s.gh.overrun
    && s'.gh.granted == s.gh.granted && s'.gh.lost >= s.gh.lost
  }

  /** No payload is obeyed in between. */
  ghost predicate SameReading(s: State, s': State) {
    s'.decode == s.decode && s'.gh.misread == s.gh.misread
  }

  lemma TakeReplyFrame(s: State, id: nat)
    requires CanTakeReply(s, id)
    ensures ClientFrame(s, TakeReply(s, id)) && SameReading(s, TakeReply(s, id))
  {
  }

  lemma TakePayloadFrame(s: State, id: nat, ok: bool)
    requires CanTakePayload(s, id)
    ensures ClientFrame(s, TakePayload(s, id, ok)) && SameReading(s, TakePayload(s, id, ok))
  {
    hide Acceptable, Consume, Unlive, AckOne;
    ConsumeFrame(s, id);
    AckFrame(Consume(s, id), id, ok);
  }

  lemma ConsumeFrame(s: State, id: nat)
    requires id in s.cl.phase
    ensures ClientFrame(s, Consume(s, id)) && SameReading(s, Consume(s, id))
  {
  }

  lemma AckFrame(s: State, id: nat, ok: bool)
    ensures var s' := Unlive(AckOne(s, ok), id); ClientFrame(s, s') && SameReading(s, s')
  {
  }

  lemma LeaveFrame(s: State, id: nat, timeout: bool)
    requires id in s.cl.inbox
    ensures ClientFrame(s, Leave(s, id, timeout)) && SameReading(s, Leave(s, id, timeout))
  {
  }

  lemma ReleaseFrame(s: State, t: nat, ok: bool)
    requires CanRelease(s, t)
    ensures ClientFrame(s, Release(s, t, ok)) && SameReading(s, Release(s, t, ok))
  {
  }

  lemma SendAckFrame(s: State, ok: bool)
    requires CanSendControl(s) && s.cl.ops[s.cl.opHead].Credit?
    ensures ClientFrame(s, SendControl(s, ok)) && SameReading(s, SendControl(s, ok))
  {
    hide RequestMsg, Announces;
  }

  lemma SendRequestFrame(s: State, ok: bool)
    requires CanSendControl(s) && s.cl.ops[s.cl.opHead].Request?
    ensures SendControl(s, ok).cl == s.cl.(opHead := SendControl(s, ok).cl.opHead, opMid := SendControl(s, ok).cl.opMid)
    ensures SendControl(s, ok).sv == s.sv && SendControl(s, ok).decode == s.decode
    ensures SendControl(s, ok).gh == s.gh.(route := SendControl(s, ok).gh.route)
  {
    hide RequestMsg, Announces;
  }

  lemma SendControlFrame(s: State, ok: bool)
    requires CanSendControl(s)
    ensures ClientFrame(s, SendControl(s, ok)) && SameReading(s, SendControl(s, ok))
  {
    hide SendControl;
    if s.cl.ops[s.cl.opHead].Credit? {
      SendAckFrame(s, ok);
    } else {
      SendRequestFrame(s, ok);
    }
  }

  lemma HandOverFrame(cl: Client, id: nat, r: Inbound)
    ensures HandOver(cl, id, r).kinds == cl.kinds && HandOver(cl, id, r).mem == cl.mem
  {
  }

  lemma StopRecvFrame(s: State)
    ensures var cl := StopRecv(s.cl); cl.kinds == s.cl.kinds && cl.mem == s.cl.mem
  {
  }

  lemma RecvControlFrame(s: State)
    requires CanRecvControl(s)
    ensures var s', obeyed := RecvControl(s), s.net.s2c[s.net.s2cRead].Data? && ClientTakes(s).Some?;
            && ClientFrame(s, s') && s'.decode == s.decode && s'.net.s2c == s.net.s2c
            && s'.gh == s.gh.(misread := s.gh.misread || obeyed)
  {
    hide HandOver, StopRecv, ClientTakes;
    StopRecvFrame(s);
    match ClientTakes(s)
    case None => TakesNone(s);
    case Some(m) =>
      if m.HelloResp? || m.RespOK? || m.RespErr? {
        HandOverFrame(s.cl, m.reqId, Reply(m));
      }
  }

  lemma TakesNone(s: State)
    requires CanRecvControl(s) && ClientTakes(s) == None
    ensures s.net.s2c[s.net.s2cRead].Data?
  {
  }

  /** The call that a payload is for is still waiting. */
  predicate StillWaits(s: State) {
    s.cl.recv.AtPayload? && s.cl.recv.meta.GetMeta?
    && s.cl.recv.meta.reqId in s.cl.pending && s.cl.recv.meta.reqId in s.cl.got
  }

  lemma HandedOverFrame(s: State, n: nat, ok: bool)
    requires CanRecvPayload(s) && StillWaits(s)
    ensures ClientFrame(s, RecvPayload(s, n, ok)) && SameReading(s, RecvPayload(s, n, ok))
  {
    hide HandOver, Unlive, AckOne;
    var m, x := s.cl.recv.meta, s.net.s2c[s.net.s2cRead];
    HandOverFrame(s.cl.(recv := AtControl), m.reqId, if x.Data? then Payload(m, x.off, |x.body|) else Payload(m, -1, n));
  }

  lemma DiscardedFrame(s: State, n: nat, ok: bool)
    requires CanRecvPayload(s) && !StillWaits(s)
    ensures ClientFrame(s, RecvPayload(s, n, ok)) && SameReading(s, RecvPayload(s, n, ok))
  {
    hide HandOver, Unlive, AckOne;
    var m, x := s.cl.recv.meta, s.net.s2c[s.net.s2cRead];
    var gh := if x.Ctl? && x.msg.GetMeta? then s.gh.(lost := s.gh.lost + 1) else s.gh;
    AckFrame(s.(cl := s.cl.(recv := AtControl), net := s.net.(s2cRead := s.net.s2cRead + 1), gh := gh), m.reqId, ok);
  }

  lemma RecvPayloadFrame(s: State, n: nat, ok: bool)
    requires CanRecvPayload(s)
    ensures ClientFrame(s, RecvPayload(s, n, ok)) && SameReading(s, RecvPayload(s, n, ok))
  {
    hide *;
    if StillWaits(s) {
      HandedOverFrame(s, n, ok);
    } else {
      DiscardedFrame(s, n, ok);
    }
  }

  lemma QueueFrame(s: State, id: nat)
    ensures CanEnqueue(s, id) ==> ClientFrame(s, Enqueue(s, id)) && SameReading(s, Enqueue(s, id))
    ensures CanSentOK(s, id) ==> ClientFrame(s, SentOK(s, id)) && SameReading(s, SentOK(s, id))
  {
  }

  lemma CallerLeaves(s: State, e: Event)
    requires ByCaller(e) && CallerCan(s, e) && AtClient(e)
    ensures ClientFrame(s, CallerDoes(s, e)) && SameReading(s, CallerDoes(s, e))
  {
    hide Enqueue, SentOK, TakeReply, TakePayload, Leave, Release, Issue, AppWrite, CloseClient, ClientFrame, SameReading;
    match e
    case EEnqueue(id) => QueueFrame(s, id);
    case ESentOK(id) => QueueFrame(s, id);
    case EGiveUp(id) => LeaveFrame(s, id, true);
    case ETakeReply(id) => TakeReplyFrame(s, id);
    case ETakePayload(id, ok) => TakePayloadFrame(s, id, ok);
    case ELeave(id, timeout) => LeaveFrame(s, id, timeout);
    case ERelease(t, ok) => ReleaseFrame(s, t, ok);
    case ECloseClient => CloseFrame(s);
  }

  lemma CloseFrame(s: State)
    ensures ClientFrame(s, CloseClient(s)) && SameReading(s, CloseClient(s))
  {
  }

  lemma LoopLeaves(s: State, e: Event)
    requires ByLoop(e) && LoopCan(s, e) && AtClient(e)
    ensures ClientFrame(s, LoopDoes(s, e)) && (e.ERecvControl? || SameReading(s, LoopDoes(s, e)))
  {
    hide SendControl, RecvControl, RecvPayload, StopRecv, SendData;
    match e
    case ESendControl(ok) => SendControlFrame(s, ok);
    case ERecvControl => RecvControlFrame(s);
    case ERecvPayload(n, ok) => RecvPayloadFrame(s, n, ok);
    case ERecvFail => StopRecvFrame(s);
  }

  lemma ClientLeaves(s: State, e: Event)
    requires Can(s, e) && AtClient(e)
    ensures ClientFrame(s, Do(s, e)) && (e.ERecvControl? || SameReading(s, Do(s, e)))
  {
    hide CallerDoes, LoopDoes, CallerCan, LoopCan, ClientFrame, SameReading;
    if ByCaller(e) {
      CallerLeaves(s, e);
    } else {
      LoopLeaves(s, e);
    }
  }

  predicate ServerFrame(s: State, s': State) {
    s'.cl == s.cl && s'.net.c2s == s.net.c2s && s'.gh.live == s.gh.live && s'.gh.lost >= s.gh.lost
  }

  lemma MessageFrame(s: State, m: Message)
    ensures var s' := ServeMessage(s, m);
            && s'.cl == s.cl && s'.net == s.net && s'.decode == s.decode && s'.sv.lock == s.sv.lock
            && s'.gh == s.gh.(granted := s'.gh.granted, upTorn := s'.gh.upTorn)
  {
    hide PutRejected, Trim;
  }

  lemma ServeFrame(s: State)
    requires CanServe(s)
    ensures ServerFrame(s, Serve(s)) && Serve(s).gh.lost == s.gh.lost && Serve(s).decode == s.decode
    ensures Serve(s).gh.torn == s.gh.torn && Serve(s).gh.overrun == s.gh.overrun && Serve(s).net.s2c == s.net.s2c
    ensures Serve(s).sv.lock == s.sv.lock
    ensures Serve(s).gh.misread <==> s.gh.misread || (s.net.c2s[s.net.c2sRead].Data? && ServerTakes(s).Some?)
  {
    hide ServerTakes, ServeMessage;
    if ServerTakes(s).Some? {
      var s1 := s.(net := s.net.(c2sRead := s.net.c2sRead + 1));
      MessageFrame(Noted(s1, s.net.c2s[s.net.c2sRead]), ServerTakes(s).value);
    }
  }

  lemma ServePayloadFrame(s: State)
    requires CanServePayload(s)
    ensures var s' := ServePayload(s);
            && ServerFrame(s, s') && SameReading(s, s') && s'.sv.tasks == s.sv.tasks
            && s'.gh.torn == s.gh.torn && s'.gh.upTorn == s.gh.upTorn && s'.gh.overrun == s.gh.overrun
            && s'.gh.granted == s.gh.granted
  {
    hide Matches;
  }

  lemma ServeReplyFrame(s: State, ok: bool, goOn: bool)
    requires CanServeReply(s)
    ensures ServerFrame(s, ServeReply(s, ok, goOn)) && SameReading(s, ServeReply(s, ok, goOn)) && ServeReply(s, ok, goOn).gh == s.gh
    ensures ServeReply(s, ok, goOn).sv.tasks == s.sv.tasks
  {
  }

  lemma LookUpFrame(s: State, id: nat)
    requires CanLookUp(s, id)
    ensures var s' := LookUp(s, id);
            && ServerFrame(s, s') && SameReading(s, s') && s'.gh.torn == s.gh.torn && s'.gh.upTorn == s.gh.upTorn
            && s'.gh.granted == s.gh.granted && s'.gh.lost == s.gh.lost
  {
    hide Trim;
  }

  lemma SendHeaderFrame(s: State, id: nat, ok: bool)
    requires CanSendHeader(s, id)
    ensures var s' := SendHeader(s, id, ok);
            && ServerFrame(s, s') && SameReading(s, s') && s'.gh.torn == s.gh.torn && s'.gh.upTorn == s.gh.upTorn
            && s'.gh.overrun == s.gh.overrun && s'.gh.granted == s.gh.granted
  {
  }

  lemma SendPayloadFrame(s: State, id: nat, ok: bool)
    requires CanSendPayload(s, id)
    ensures var s' := SendPayload(s, id, ok);
            && ServerFrame(s, s') && SameReading(s, s') && s'.gh.upTorn == s.gh.upTorn && s'.gh.overrun == s.gh.overrun
            && s'.gh.granted == s.gh.granted && s'.gh.lost == s.gh.lost
  {
  }

  lemma ServeLoopLeaves(s: State, e: Event)
    requires ByServeLoop(e) && ServeLoopCan(s, e)
    ensures ServerFrame(s, ServeLoopDoes(s, e)) && (e.EServe? || SameReading(s, ServeLoopDoes(s, e)))
  {
    hide Serve, ServePayload, ServeReply;
    match e
    case EServe => ServeFrame(s);
    case EServePayload => ServePayloadFrame(s);
    case EServeReply(ok, goOn) => ServeReplyFrame(s, ok, goOn);
    case EServeFail =>
  }

  lemma RoutineLeaves(s: State, e: Event)
    requires ByRoutine(e) && RoutineCan(s, e)
    ensures ServerFrame(s, RoutineDoes(s, e)) && SameReading(s, RoutineDoes(s, e))
  {
    hide LookUp, SendHeader, SendPayload;
    match e
    case ELookUp(id) => LookUpFrame(s, id);
    case ESendHeader(id, ok) => SendHeaderFrame(s, id, ok);
    case ESendPayload(id, ok) => SendPayloadFrame(s, id, ok);
    case _ =>
  }

  lemma ServerLeaves(s: State, e: Event)
    requires Can(s, e) && AtServer(e)
    ensures ServerFrame(s, Do(s, e)) && (e.EServe? || SameReading(s, Do(s, e)))
  {
    hide ServeLoopDoes, RoutineDoes, WorldDoes, ServeLoopCan, RoutineCan, ServerFrame, SameReading;
    if ByServeLoop(e) {
      ServeLoopLeaves(s, e);
    } else if ByRoutine(e) {
      RoutineLeaves(s, e);
    } else {
      ObjectsFrame(s, e);
    }
  }

  lemma ObjectsFrame(s: State, e: Event)
    requires e.EChangeObjects?
    ensures ServerFrame(s, WorldDoes(s, e)) && SameReading(s, WorldDoes(s, e))
  {
  }

  lemma LandFrame(s: State)
    requires CanLand(s)
    ensures Land(s).cl == s.cl.(mem := Land(s).cl.mem) && Land(s).net == s.net.(landed := s.net.landed + 1)
    ensures Land(s).sv == s.sv && Land(s).gh == s.gh && Land(s).decode == s.decode && Land(s).cl.kinds == s.cl.kinds
  {
    hide Splice;
  }

  lemma LandPartFrame(s: State, k: nat)
    requires CanLandPart(s, k)
    ensures LandPart(s, k).cl == s.cl.(mem := LandPart(s, k).cl.mem) && LandPart(s, k).net == s.net
    ensures LandPart(s, k).sv == s.sv && LandPart(s, k).gh == s.gh && LandPart(s, k).decode == s.decode && LandPart(s, k).cl.kinds == s.cl.kinds
  {
    hide Splice;
  }

  // ---------------------------------------------------- what the loops do

  /** A step of the client's loops touches its send queue, its receive mode and the two logs. */
  predicate LoopsTo(s: State, s': State, ops: seq<SendOp>, head: nat, mid: bool, recv: RecvMode, net: Net) {
    && s'.sv.serve == s.sv.serve && s'.sv.tasks == s.sv.tasks && s'.net == net
    && s'.cl.ops == ops && s'.cl.opHead == head && s'.cl.opMid == mid && s'.cl.recv == recv
    && s'.cl.kinds == s.cl.kinds && s'.cl.nextReq == s.cl.nextReq
  }

  lemma SendAckEffect(s: State, ok: bool)
    requires CanSendControl(s) && s.cl.ops[s.cl.opHead].Credit?
    ensures LoopsTo(s, SendControl(s, ok), s.cl.ops, s.cl.opHead + 1, s.cl.opMid, s.cl.recv,
                    if ok then s.net.(c2s := s.net.c2s + [Ctl(Ack(1))]) else s.net)
  {
  }

  lemma SendRequestEffect(s: State, ok: bool)
    requires CanSendControl(s) && s.cl.ops[s.cl.opHead].Request?
    ensures var id := s.cl.ops[s.cl.opHead].id;
            var m := RequestMsg(id, s.cl.kinds[id]);
            if ok then
              var mid := Announces(m);
              LoopsTo(s, SendControl(s, ok), s.cl.ops, if mid then s.cl.opHead else s.cl.opHead + 1, mid, s.cl.recv,
                      s.net.(c2s := s.net.c2s + [Ctl(m)]))
            else LoopsTo(s, SendControl(s, ok), s.cl.ops, s.cl.opHead + 1, false, s.cl.recv, s.net)
  {
    hide RequestMsg, Announces;
  }

  lemma HandOverEffect(cl: Client, id: nat, r: Inbound)
    ensures var cl' := HandOver(cl, id, r);
            cl'.kinds == cl.kinds && cl'.nextReq == cl.nextReq && cl'.ops == cl.ops
            && cl'.opHead == cl.opHead && cl'.opMid == cl.opMid && cl'.recv == cl.recv
  {
  }

  lemma RecvControlEffect(s: State) returns (recv: RecvMode)
    requires CanRecvControl(s)
    ensures LoopsTo(s, RecvControl(s), s.cl.ops, s.cl.opHead, s.cl.opMid, recv, s.net.(s2cRead := s.net.s2cRead + 1))
  {
    hide ClientTakes, HandOver;
    recv := RecvControl(s).cl.recv;
    match ClientTakes(s)
    case None =>
    case Some(m) =>
      if m.HelloResp? || m.RespOK? || m.RespErr? {
        HandOverEffect(s.cl, m.reqId, Reply(m));
      }
  }

  lemma AckEffect(s: State, id: nat, ok: bool)
    ensures LoopsTo(s, Unlive(AckOne(s, ok), id), if ok then s.cl.ops + [Credit] else s.cl.ops, s.cl.opHead, s.cl.opMid,
                    s.cl.recv, s.net)
  {
  }

  lemma HandedOverEffect(s: State, frameLen: nat, ok: bool)
    requires CanRecvPayload(s) && StillWaits(s)
    ensures LoopsTo(s, RecvPayload(s, frameLen, ok), s.cl.ops, s.cl.opHead, s.cl.opMid,
                    AtControl, s.net.(s2cRead := s.net.s2cRead + 1))
  {
    hide HandOver, Unlive, AckOne;
    var m, x := s.cl.recv.meta, s.net.s2c[s.net.s2cRead];
    HandOverEffect(s.cl.(recv := AtControl), m.reqId, if x.Data? then Payload(m, x.off, |x.body|) else Payload(m, -1, frameLen));
  }

  lemma DiscardedEffect(s: State, frameLen: nat, ok: bool)
    requires CanRecvPayload(s) && !StillWaits(s)
    ensures LoopsTo(s, RecvPayload(s, frameLen, ok), if ok then s.cl.ops + [Credit] else s.cl.ops, s.cl.opHead, s.cl.opMid,
                    AtControl, s.net.(s2cRead := s.net.s2cRead + 1))
  {
    hide HandOver, Unlive, AckOne;
    var m, x := s.cl.recv.meta, s.net.s2c[s.net.s2cRead];
    var gh := if x.Ctl? && x.msg.GetMeta? then s.gh.(lost := s.gh.lost + 1) else s.gh;
    AckEffect(s.(cl := s.cl.(recv := AtControl), net := s.net.(s2cRead := s.net.s2cRead + 1), gh := gh), m.reqId, ok);
  }

  /** A message read by the serve loop changes no task but the one it starts. */
  lemma MessageTasks(s: State, m: Message)
    ensures var tasks := ServeMessage(s, m).sv.tasks;
            tasks == s.sv.tasks || (m.GetReq? && tasks == s.sv.tasks[m.reqId := Task(Looking, m, 0, [])])
  {
    hide PutRejected, Trim;
  }

  /** The serve loop answers with nothing that a payload has to follow. */
  lemma MessageReplies(s: State, m: Message)
    ensures ServeMessage(s, m).sv.serve.Replying? && !s.sv.serve.Replying? ==> !Announces(ServeMessage(s, m).sv.serve.reply)
  {
    hide PutRejected, Trim;
  }
}
