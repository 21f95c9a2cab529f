/** Who waits for what: a call that is over has left nothing behind for a result to arrive at. */
module ZcopyCalls {
  import opened Counters
  import opened Wire
  import opened Protocol
  import opened Zcopy
  import opened ZcopyInv
  import opened ZcopyClientSteps
  import opened ZcopyLoopSteps
  import opened ZcopyFrames
  import opened ZcopyBreaks
  import opened ZcopyTheorems
  import opened ZcopyGets
  import opened ZcopyAnswers

  /** While the client is open, a call that is over has no entry in the table and no result in its channel. */
  predicate NobodyMissing(cl: Client) {
    !cl.closed ==> forall id <- cl.phase :: cl.phase[id] == Finished ==> id !in cl.pending && (id in cl.inbox ==> cl.inbox[id] == None)
  }

  /** Entries only go, and results come only to entries. */
  predicate OnlyHandsOver(cl: Client, cl': Client) {
    && cl'.phase == cl.phase && cl'.closed == cl.closed && cl'.pending <= cl.pending
    && forall id <- cl'.inbox :: cl'.inbox[id].Some? ==> id in cl.pending || (id in cl.inbox && cl.inbox[id].Some?)
  }

  lemma HandingOverKeeps(cl: Client, cl': Client)
    requires OnlyHandsOver(cl, cl') && NobodyMissing(cl)
    ensures NobodyMissing(cl')
  {
  }

  // ------------------------------------------------------------------ callers

  lemma ConsumeKeeps(s: State, id: nat)
    requires TablesHold(s) && NobodyMissing(s.cl) && id in s.cl.inbox && (s.cl.inbox[id].Some? || id !in s.cl.pending)
    ensures NobodyMissing(Consume(s, id).cl)
  {
    hide For;
  }

  lemma TakeReplyLeaves(s: State, id: nat)
    requires TablesHold(s) && NobodyMissing(s.cl) && CanTakeReply(s, id)
    ensures NobodyMissing(TakeReply(s, id).cl)
  {
    hide Tables, Consume, NobodyMissing;
    ConsumeKeeps(s, id);
    ReadyKeeps(Consume(s, id).cl);
  }

  lemma ReadyKeeps(cl: Client)
    requires NobodyMissing(cl)
    ensures NobodyMissing(cl.(ready := true))
  {
  }

  lemma AckLeaves(s: State, id: nat, ok: bool)
    requires NobodyMissing(s.cl)
    ensures NobodyMissing(Unlive(AckOne(s, ok), id).cl)
  {
  }

  lemma TakePayloadLeaves(s: State, id: nat, ok: bool)
    requires TablesHold(s) && NobodyMissing(s.cl) && CanTakePayload(s, id)
    ensures NobodyMissing(TakePayload(s, id, ok).cl)
  {
    hide Tables, Consume, NobodyMissing, Acceptable, Unlive, AckOne;
    ConsumeKeeps(s, id);
    var s1 := Consume(s, id);
    AckLeaves(s1, id, ok);
    var cl := TakePayload(s, id, ok).cl;
    TokenKeeps(s1.cl, cl.nextToken, cl.tokens, cl.refs);
  }

  lemma TokenKeeps(cl: Client, t: nat, tokens: map<nat, nat>, refs: map<nat, Ref>)
    requires NobodyMissing(cl)
    ensures NobodyMissing(cl.(nextToken := t, tokens := tokens, refs := refs))
  {
  }

  /** With the timeout the entry goes; without, the client is closed. */
  lemma LeaveLeaves(s: State, id: nat, timeout: bool)
    requires TablesHold(s) && NobodyMissing(s.cl) && id in s.cl.inbox && (timeout || s.cl.closed)
    ensures NobodyMissing(Leave(s, id, timeout).cl)
  {
    hide Tables;
  }

  lemma PhasesLeave(s: State, e: Event)
    requires e.EIssue? || e.EEnqueue? || e.ESentOK? || e.ECloseClient? || e.EAppWrite?
    requires TablesHold(s) && NobodyMissing(s.cl) && Can(s, e)
    ensures NobodyMissing(CallerDoes(s, e).cl)
  {
    hide For, CanIssue, CanAppWrite, Splice;
  }

  lemma CallerLeaves(s: State, e: Event)
    requires ByCaller(e) && CallerCan(s, e) && TablesHold(s) && NobodyMissing(s.cl)
    ensures NobodyMissing(CallerDoes(s, e).cl)
  {
    hide TablesHold, NobodyMissing, TakeReply, TakePayload, Leave, CanTakeReply, CanTakePayload, CanIssue, CanAppWrite, Unlive, AckOne,
      Splice;
    match e
    case ETakeReply(id) => TakeReplyLeaves(s, id);
    case ETakePayload(id, ok) => TakePayloadLeaves(s, id, ok);
    case ELeave(id, timeout) => LeaveLeaves(s, id, timeout);
    case EGiveUp(id) => LeaveLeaves(s, id, true);
    case ERelease(t, ok) => ReleaseLeaves(s, t, ok);
    case _ => PhasesLeave(s, e);
  }

  lemma ReleaseLeaves(s: State, t: nat, ok: bool)
    requires CanRelease(s, t) && NobodyMissing(s.cl)
    ensures NobodyMissing(Release(s, t, ok).cl)
  {
  }

  // -------------------------------------------------------------------- loops

  lemma HandOverHands(cl: Client, id: nat, r: Inbound)
    ensures OnlyHandsOver(cl, HandOver(cl, id, r))
  {
  }

  lemma StopHands(cl: Client)
    ensures OnlyHandsOver(cl, StopRecv(cl))
  {
  }

  lemma RecvControlHands(s: State)
    requires CanRecvControl(s)
    ensures OnlyHandsOver(s.cl, RecvControl(s).cl)
  {
    hide HandOver, StopRecv, ClientTakes;
    match ClientTakes(s)
    case None => StopHands(s.cl);
    case Some(m) => if !m.Ack? { HandOverHands(s.cl, m.reqId, Reply(m)); }
  }

  lemma RecvPayloadHands(s: State, frameLen: nat, ok: bool)
    requires CanRecvPayload(s)
    ensures OnlyHandsOver(s.cl, RecvPayload(s, frameLen, ok).cl)
  {
    hide HandOver, Unlive, AckOne;
    var m, x := s.cl.recv.meta, s.net.s2c[s.net.s2cRead];
    var cl := s.cl.(recv := AtControl);
    var gh := if x.Ctl? && x.msg.GetMeta? then s.gh.(lost := s.gh.lost + 1) else s.gh;
    HandOverHands(cl, m.reqId, if x.Data? then Payload(m, x.off, |x.body|) else Payload(m, -1, frameLen));
    AckHands(s.(cl := cl, net := s.net.(s2cRead := s.net.s2cRead + 1), gh := gh), m.reqId, ok);
  }

  lemma AckHands(s: State, id: nat, ok: bool)
    ensures OnlyHandsOver(s.cl, Unlive(AckOne(s, ok), id).cl)
  {
  }

  lemma SendHands(s: State, ok: bool)
    requires CanSendControl(s)
    ensures OnlyHandsOver(s.cl, SendControl(s, ok).cl)
  {
    hide SendControl;
    if s.cl.ops[s.cl.opHead].Credit? {
      SendAckClient(s, ok);
    } else {
      SendRequestFrame(s, ok);
    }
  }

  lemma DataHands(s: State, ok: bool)
    requires CanSendData(s)
    ensures OnlyHandsOver(s.cl, SendData(s, ok).cl)
  {
    hide Cut, Wrap;
  }

  lemma LoopHands(s: State, e: Event)
    requires ByLoop(e) && LoopCan(s, e)
    ensures OnlyHandsOver(s.cl, LoopDoes(s, e).cl)
  {
    hide OnlyHandsOver, RecvControl, RecvPayload, StopRecv, SendControl, SendData;
    match e
    case ERecvControl => RecvControlHands(s);
    case ERecvPayload(n, ok) => RecvPayloadHands(s, n, ok);
    case ERecvFail => StopHands(s.cl);
    case ESendControl(ok) => SendHands(s, ok);
    case ESendData(ok) => DataHands(s, ok);
  }

  lemma StepLeaves(s: State, e: Event)
    requires TablesHold(s) && NobodyMissing(s.cl) && Can(s, e)
    ensures NobodyMissing(Do(s, e).cl)
  {
    hide TablesHold, NobodyMissing, OnlyHandsOver, CallerDoes, LoopDoes, CallerCan, LoopCan, ServeLoopDoes, RoutineDoes, ServeLoopCan, RoutineCan,
      Landing;
    if ByCaller(e) {
      CallerLeaves(s, e);
    } else if ByLoop(e) {
      LoopHands(s, e);
      HandingOverKeeps(s.cl, LoopDoes(s, e).cl);
    } else if AtServer(e) {
      ServerLeaves(s, e);
    } else {
      WorldHands(s, e);
      HandingOverKeeps(s.cl, WorldDoes(s, e).cl);
    }
  }

  lemma WorldHands(s: State, e: Event)
    requires ByWorld(e) && WorldCan(s, e)
    ensures OnlyHandsOver(s.cl, WorldDoes(s, e).cl)
  {
    hide Landing;
  }

  lemma {:induction false} LeavesOverRuns(s: State, es: seq<Event>)
    requires TablesHold(s) && NobodyMissing(s.cl) && CanRun(s, es)
    ensures NobodyMissing(Run(s, es).cl)
    decreases |es|
  {
    hide TablesHold, NobodyMissing, Can, Do;
    if es != [] {
      TablesStay(s, es[0]);
      StepLeaves(s, es[0]);
      LeavesOverRuns(Do(s, es[0]), es[1..]);
    }
  }

  /** Over every run, whatever is torn, misread or obeyed: while the client is open a call that is over, by a
      result, a timeout or a failure to send, has no entry left, so that a payload that comes for it later is
      given back at once, and none lies in its channel. */
  lemma OverIsForgotten(u: Setup, es: seq<Event>, id: nat)
    requires CanRun(Init(u), es) && InPhase(Run(Init(u), es), id, Finished) && !Run(Init(u), es).cl.closed
    ensures var cl := Run(Init(u), es).cl; id !in cl.pending && id in cl.inbox && cl.inbox[id] == None
  {
    hide Can, Do, For;
    TablesOverRuns(Init(u), es);
    LeavesOverRuns(Init(u), es);
  }

  // ------------------------------------------------------------------- windows

  /** The steps that give the window of a GET back: its error reply is taken, its payload is refused, taken back
      late or left behind, or its buffer is released. */
  predicate GivesBack(s: State, e: Event, id: nat)
    requires ByCaller(e) || ByLoop(e)
  {
    match e
    case ETakeReply(i) => i == id && CanTakeReply(s, i) && s.cl.inbox[i].value.Reply? && s.cl.inbox[i].value.msg.RespErr?
    case ETakePayload(i, _) => i == id && CanTakePayload(s, i) && s.cl.kinds[i].Get? && !Acceptable(s.cl.kinds[i], s.cl.inbox[i].value, |s.cl.mem|)
    case ELeave(i, _) => i == id && i in s.cl.inbox && HoldsPayload(s.cl.inbox[i])
    case EGiveUp(i) => i == id && i in s.cl.inbox && HoldsPayload(s.cl.inbox[i])
    case ERelease(t, _) => t in s.cl.tokens && s.cl.tokens[t] == id
    case ERecvPayload(_, _) => CanRecvPayload(s) && !StillWaits(s) && s.cl.recv.meta.reqId == id
    case _ => false
  }

  lemma TakenWindow(s: State, i: nat, ok: bool, id: nat)
    ensures CanTakeReply(s, i) ==> (id in TakeReply(s, i).gh.live <==> id in s.gh.live && !GivesBack(s, ETakeReply(i), id))
    ensures CanTakePayload(s, i) ==> (id in TakePayload(s, i, ok).gh.live <==> id in s.gh.live && !GivesBack(s, ETakePayload(i, ok), id))
  {
    hide Acceptable;
  }

  lemma LeftWindow(s: State, i: nat, timeout: bool, id: nat)
    requires i in s.cl.inbox
    ensures id in Leave(s, i, timeout).gh.live <==> id in s.gh.live && !GivesBack(s, ELeave(i, timeout), id)
  {
  }

  lemma ReleasedWindow(s: State, t: nat, ok: bool, id: nat)
    requires CanRelease(s, t)
    ensures id in Release(s, t, ok).gh.live <==> id in s.gh.live && !GivesBack(s, ERelease(t, ok), id)
  {
  }

  predicate Opens(s: State, e: Event, id: nat) {
    e.EIssue? && e.kind.Get? && id == s.cl.nextReq + 1
  }

  lemma CallerWindow(s: State, e: Event, id: nat)
    requires ByCaller(e) && CallerCan(s, e)
    ensures id in CallerDoes(s, e).gh.live <==> (id in s.gh.live && !GivesBack(s, e, id)) || Opens(s, e, id)
  {
    hide TakeReply, TakePayload, Leave, Release, CanTakeReply, CanTakePayload, CanIssue, CanAppWrite, Acceptable, Splice;
    match e
    case ETakeReply(i) => TakenWindow(s, i, true, id);
    case ETakePayload(i, ok) => TakenWindow(s, i, ok, id);
    case ELeave(i, timeout) => LeftWindow(s, i, timeout, id);
    case EGiveUp(i) => LeftWindow(s, i, true, id);
    case ERelease(t, ok) => ReleasedWindow(s, t, ok, id);
    case _ =>
  }

  lemma PayloadWindow(s: State, frameLen: nat, ok: bool, id: nat)
    requires CanRecvPayload(s)
    ensures id in RecvPayload(s, frameLen, ok).gh.live <==> id in s.gh.live && !GivesBack(s, ERecvPayload(frameLen, ok), id)
  {
    hide HandOver;
  }

  lemma QueueWindow(s: State, ok: bool)
    ensures CanSendControl(s) ==> SendControl(s, ok).gh.live == s.gh.live
    ensures CanSendData(s) ==> SendData(s, ok).gh.live == s.gh.live
  {
    hide RequestMsg, Announces, Cut, Wrap;
  }

  lemma LoopWindow(s: State, e: Event, id: nat)
    requires ByLoop(e) && LoopCan(s, e)
    ensures id in LoopDoes(s, e).gh.live <==> id in s.gh.live && !GivesBack(s, e, id)
  {
    hide SendControl, SendData, RecvControl, RecvPayload, StopRecv;
    match e
    case ESendControl(ok) => QueueWindow(s, ok);
    case ESendData(ok) => QueueWindow(s, ok);
    case ERecvControl => RecvControlFrame(s);
    case ERecvPayload(n, ok) => PayloadWindow(s, n, ok, id);
    case ERecvFail =>
  }

  /** A window is live from its call on until exactly one of these steps: no other gives it back, and none of them
      keeps it. */
  lemma WindowEndsIff(s: State, e: Event, id: nat)
    requires Can(s, e)
    ensures id in Do(s, e).gh.live
         <==> (id in s.gh.live && !((ByCaller(e) || ByLoop(e)) && GivesBack(s, e, id))) || Opens(s, e, id)
  {
    hide CallerDoes, LoopDoes, CallerCan, LoopCan, ServeLoopDoes, RoutineDoes, ServeLoopCan, RoutineCan, Land, LandPart, GivesBack;
    if ByCaller(e) {
      CallerWindow(s, e, id);
    } else if ByLoop(e) {
      LoopWindow(s, e, id);
    } else if AtServer(e) {
      ServerLeaves(s, e);
    } else {
      match e
      case ELand => LandFrame(s);
      case ELandPart(k) => LandPartFrame(s, k);
      case _ =>
    }
  }
}
