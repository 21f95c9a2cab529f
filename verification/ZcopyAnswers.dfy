/** What the server answers, and why: over every run each call is handed the one answer that its request
    calls for, and a GET is refused exactly when its object is not there or does not fit. */
module ZcopyAnswers {
  import opened Counters
  import opened Wire
  import opened Protocol
  import opened Zcopy
  import opened ZcopyInv
  import opened ZcopyClientSteps
  import opened ZcopyLoopSteps
  import opened ZcopyServerSteps
  import opened ZcopyFrames
  import opened ZcopyFlaws
  import opened ZcopyTheorems
  import opened ZcopyBreaks
  import opened ZcopyCredits
  import opened ZcopyGets

  // ---------------------------------------------------------- what is right

  /** A PUT of more bytes than the server takes. */
  predicate TooMuch(size: nat, limit: int) {
    limit > 0 && size > limit
  }

  /** The payload right behind the header of this PUT has been read, whole. */
  ghost predicate PayloadIsRead(c2s: seq<Item>, read: nat, m: Message) {
    exists q :: 0 < q < read && q < |c2s| && c2s[q - 1] == Ctl(m) && c2s[q].Data? && Matches(m, c2s[q].off, c2s[q].body)
  }

  /** The answer that a request calls for. */
  ghost predicate Right(kind: Kind, id: nat, m: Message, limit: int, c2s: seq<Item>, read: nat) {
    match kind
    case Hello(credits) => m == if credits > 0 then HelloResp(id, credits, "") else HelloResp(id, 0, "invalid credits")
    case Ensure(_) => m == RespOK(id)
    case Put(_, _, _, size) =>
      if TooMuch(size, limit) then m == RespErr(id)
      else m == RespOK(id) && (size > 0 ==> PayloadIsRead(c2s, read, RequestMsg(id, kind)))
    case Get(_, _, _, _) => m == RespErr(id)
  }

  ghost predicate RightFor(kinds: map<nat, Kind>, m: Message, limit: int, c2s: seq<Item>, read: nat) {
    !m.Ack? && m.reqId in kinds && Right(kinds[m.reqId], m.reqId, m, limit, c2s, read)
  }

  predicate GoodNames(kind: Kind) {
    match kind
    case Hello(_) => true
    case Ensure(bucket) => Trim(bucket) != []
    case Put(bucket, key, _, _) => Trim(bucket) != [] && Trim(key) != []
    case Get(bucket, key, _, _) => Trim(bucket) != [] && Trim(key) != []
  }

  // -------------------------------------------------------------- invariant

  predicate Names(s: State, limit: int) {
    s.sv.maxObjectSize == limit && forall id <- s.cl.kinds :: GoodNames(s.cl.kinds[id])
  }

  ghost predicate ServesRight(s: State, limit: int) {
    match s.sv.serve
    case Replying(r) => RightFor(s.cl.kinds, r, limit, s.net.c2s, s.net.c2sRead)
    case ReadingPayload(m) =>
      && m.PutReq? && m.reqId in s.cl.kinds && s.cl.kinds[m.reqId].Put? && m == RequestMsg(m.reqId, s.cl.kinds[m.reqId])
      && s.cl.kinds[m.reqId].size > 0 && !TooMuch(s.cl.kinds[m.reqId].size, limit)
      && 0 < s.net.c2sRead <= |s.net.c2s| && s.net.c2s[s.net.c2sRead - 1] == Ctl(m)
    case _ => true
  }

  ghost predicate SentRight(s: State, limit: int) {
    forall x <- s.net.s2c :: x.Ctl? && !x.msg.GetMeta? ==> RightFor(s.cl.kinds, x.msg, limit, s.net.c2s, s.net.c2sRead)
  }

  predicate IsReply(r: Option<Inbound>) {
    r.Some? && r.value.Reply?
  }

  /** A reply in a result channel is the right one for its call, and a GET gets one from its goroutine only. */
  ghost predicate HandedRight(s: State, limit: int) {
    forall id <- s.cl.inbox :: IsReply(s.cl.inbox[id]) ==>
      && RightFor(s.cl.kinds, s.cl.inbox[id].value.msg, limit, s.net.c2s, s.net.c2sRead)
      && s.cl.inbox[id].value.msg.reqId == id
      && (s.cl.kinds[id].Get? ==> IsAnswered(s.sv.tasks, id))
  }

  predicate IsAnswered(tasks: map<nat, Task>, id: nat) {
    id in tasks && tasks[id].phase.Answered?
  }

  ghost predicate Answers(s: State, limit: int) {
    Names(s, limit) && ServesRight(s, limit) && SentRight(s, limit) && HandedRight(s, limit)
  }

  lemma StartsRight(u: Setup)
    ensures Answers(Init(u), u.maxObjectSize)
  {
  }

  // ------------------------------------------------------------------ frames

  /** Calls stay, and more may come; the log to the server only grows, and so does what is read of it. */
  predicate Grown(s: State, s': State) {
    && s.net.c2s <= s'.net.c2s && s.net.c2sRead <= s'.net.c2sRead
    && (forall id <- s.cl.kinds :: id in s'.cl.kinds && s'.cl.kinds[id] == s.cl.kinds[id])
  }

  lemma RightStays(s: State, s': State, m: Message, limit: int)
    requires Grown(s, s') && RightFor(s.cl.kinds, m, limit, s.net.c2s, s.net.c2sRead)
    ensures RightFor(s'.cl.kinds, m, limit, s'.net.c2s, s'.net.c2sRead)
  {
    hide Matches, RequestMsg;
    var kind := s.cl.kinds[m.reqId];
    if kind.Put? && !TooMuch(kind.size, limit) && kind.size > 0 {
      var put := RequestMsg(m.reqId, kind);
      var q :| 0 < q < s.net.c2sRead && q < |s.net.c2s| && s.net.c2s[q - 1] == Ctl(put) && s.net.c2s[q].Data?
               && Matches(put, s.net.c2s[q].off, s.net.c2s[q].body);
      assert s'.net.c2s[q] == s.net.c2s[q] && s'.net.c2s[q - 1] == s.net.c2s[q - 1];
    }
  }

  lemma SentStays(s: State, s': State, limit: int)
    requires Grown(s, s') && SentRight(s, limit) && s'.net.s2c == s.net.s2c
    ensures SentRight(s', limit)
  {
    hide RightFor;
    forall x | x in s'.net.s2c && x.Ctl? && !x.msg.GetMeta?
      ensures RightFor(s'.cl.kinds, x.msg, limit, s'.net.c2s, s'.net.c2sRead)
    {
      RightStays(s, s', x.msg, limit);
    }
  }

  /** Replies in channels are those that were there. */
  predicate FromInbox(s: State, s': State) {
    forall id <- s'.cl.inbox :: IsReply(s'.cl.inbox[id]) ==> id in s.cl.inbox && s.cl.inbox[id] == s'.cl.inbox[id]
  }

  predicate KeepsAnswered(s: State, s': State) {
    forall id <- s.sv.tasks :: IsAnswered(s.sv.tasks, id) ==> IsAnswered(s'.sv.tasks, id)
  }

  lemma HandedStays(s: State, s': State, limit: int)
    requires Grown(s, s') && HandedRight(s, limit) && FromInbox(s, s') && KeepsAnswered(s, s')
    ensures HandedRight(s', limit)
  {
    hide Right;
    forall id | id in s'.cl.inbox && IsReply(s'.cl.inbox[id])
      ensures RightFor(s'.cl.kinds, s'.cl.inbox[id].value.msg, limit, s'.net.c2s, s'.net.c2sRead)
      ensures s'.cl.inbox[id].value.msg.reqId == id && (s'.cl.kinds[id].Get? ==> IsAnswered(s'.sv.tasks, id))
    {
      RightStays(s, s', s.cl.inbox[id].value.msg, limit);
    }
  }

  lemma ServingStays(s: State, s': State, limit: int)
    requires Grown(s, s') && ServesRight(s, limit) && s'.sv.serve == s.sv.serve && s'.net.c2sRead == s.net.c2sRead
    ensures ServesRight(s', limit)
  {
    hide Right, RequestMsg;
    if s.sv.serve.Replying? {
      RightStays(s, s', s.sv.serve.reply, limit);
    }
  }

  // ------------------------------------------------------------------ callers

  lemma TakeFromInbox(s: State, id: nat, ok: bool)
    ensures CanTakeReply(s, id) ==> FromInbox(s, TakeReply(s, id))
  {
  }

  lemma TakePayloadFromInbox(s: State, id: nat, ok: bool)
    requires CanTakePayload(s, id)
    ensures FromInbox(s, TakePayload(s, id, ok))
  {
    hide Acceptable, Unlive, AckOne;
    AckInbox(Consume(s, id), id, ok);
  }

  lemma AckInbox(s: State, id: nat, ok: bool)
    ensures Unlive(AckOne(s, ok), id).cl.inbox == s.cl.inbox
  {
  }

  lemma LeaveFromInbox(s: State, id: nat, timeout: bool)
    requires id in s.cl.inbox
    ensures FromInbox(s, Leave(s, id, timeout))
  {
  }

  lemma CallerInbox(s: State, e: Event)
    requires ByCaller(e) && CallerCan(s, e)
    ensures FromInbox(s, CallerDoes(s, e))
  {
    hide TakeReply, TakePayload, Leave, CanTakeReply, CanTakePayload, CanIssue, CanAppWrite, Splice;
    match e
    case ETakeReply(id) => TakeFromInbox(s, id, true);
    case ETakePayload(id, ok) => TakePayloadFromInbox(s, id, ok);
    case ELeave(id, timeout) => LeaveFromInbox(s, id, timeout);
    case EGiveUp(id) => LeaveFromInbox(s, id, true);
    case _ =>
  }

  lemma IssueGood(s: State, kind: Kind)
    requires CanIssue(s, kind)
    ensures GoodNames(kind) && Issue(s, kind).cl.kinds == s.cl.kinds[s.cl.nextReq + 1 := kind]
  {
    hide Trim;
  }

  lemma CallerNames(s: State, e: Event, limit: int)
    requires ByCaller(e) && CallerCan(s, e) && Inv(s) && Names(s, limit)
    ensures Names(CallerDoes(s, e), limit) && Grown(s, CallerDoes(s, e))
  {
    hide TakeReply, TakePayload, Leave, Release, CanTakeReply, CanTakePayload, CanLeave, CanRelease, CanIssue, CanAppWrite, Splice, GoodNames,
      InvUpTo;
    CallerWaits(s, e);
    if e.EIssue? {
      NewRequest(s);
      IssueGood(s, e.kind);
    }
  }

  lemma CallerAnswers(s: State, e: Event, limit: int)
    requires ByCaller(e) && CallerCan(s, e) && Inv(s) && Answers(s, limit)
    ensures Answers(CallerDoes(s, e), limit)
  {
    hide Inv, CallerDoes, CallerCan, Names, ServesRight, SentRight, HandedRight, FromInbox;
    CallerWaits(s, e);
    CallerNames(s, e, limit);
    CallerInbox(s, e);
    SentStays(s, CallerDoes(s, e), limit);
    HandedStays(s, CallerDoes(s, e), limit);
    ServingStays(s, CallerDoes(s, e), limit);
  }

  // --------------------------------------------------------- the client's loops

  /** The queue is worked off. */
  lemma SendAnswers(s: State, e: Event, limit: int)
    requires e.ESendControl? || e.ESendData?
    requires Can(s, e) && Answers(s, limit)
    ensures Answers(LoopDoes(s, e), limit)
  {
    hide SendControl, SendData, ServesRight, SentRight, HandedRight, GoodNames;
    var s' := LoopDoes(s, e);
    SendsToServer(s, e);
    SendKeepsCalls(s, e);
    SentStays(s, s', limit);
    HandedStays(s, s', limit);
    ServingStays(s, s', limit);
  }

  lemma SendKeepsCalls(s: State, e: Event)
    requires e.ESendControl? || e.ESendData?
    requires Can(s, e)
    ensures var s' := LoopDoes(s, e);
            s'.cl.kinds == s.cl.kinds && s'.cl.inbox == s.cl.inbox && s'.net.c2sRead == s.net.c2sRead && s.net.c2s <= s'.net.c2s
  {
    hide SendControl, SendData;
    if e.ESendControl? {
      ControlKeepsCalls(s, e.ok);
    } else {
      DataKeepsCalls(s, e.ok);
    }
  }

  lemma ControlKeepsCalls(s: State, ok: bool)
    requires CanSendControl(s)
    ensures var s' := SendControl(s, ok);
            s'.cl.kinds == s.cl.kinds && s'.cl.inbox == s.cl.inbox && s'.net.c2sRead == s.net.c2sRead && s.net.c2s <= s'.net.c2s
  {
    hide SendControl, RequestMsg, Announces;
    match s.cl.ops[s.cl.opHead] {
      case Credit =>
        SendAckEffect(s, ok);
        AckKeepsInbox(s, ok);
      case Request(_) =>
        SendRequestEffect(s, ok);
        RequestKeepsInbox(s, ok);
    }
  }

  lemma AckKeepsInbox(s: State, ok: bool)
    requires CanSendControl(s) && s.cl.ops[s.cl.opHead].Credit?
    ensures SendControl(s, ok).cl.inbox == s.cl.inbox
  {
  }

  lemma RequestKeepsInbox(s: State, ok: bool)
    requires CanSendControl(s) && s.cl.ops[s.cl.opHead].Request?
    ensures SendControl(s, ok).cl.inbox == s.cl.inbox
  {
    hide RequestMsg, Announces;
  }

  lemma DataKeepsCalls(s: State, ok: bool)
    requires CanSendData(s)
    ensures var s' := SendData(s, ok);
            s'.cl.kinds == s.cl.kinds && s'.cl.inbox == s.cl.inbox && s'.net.c2sRead == s.net.c2sRead && s.net.c2s <= s'.net.c2s
  {
    hide Cut, Wrap;
  }

  /** The channels after a receive: nothing but the reply just read is new. */
  lemma RecvControlInbox(s: State)
    requires CanRecvControl(s)
    ensures var s', x := RecvControl(s), s.net.s2c[s.net.s2cRead];
            forall id <- s'.cl.inbox :: IsReply(s'.cl.inbox[id]) ==>
              || (id in s.cl.inbox && s.cl.inbox[id] == s'.cl.inbox[id])
              || (ClientTakes(s) == Some(s'.cl.inbox[id].value.msg) && !s'.cl.inbox[id].value.msg.Ack?
                  && !s'.cl.inbox[id].value.msg.GetMeta? && s'.cl.inbox[id].value.msg.reqId == id)
  {
    hide ClientTakes, HandOver, StopRecv;
    StopInbox(s.cl);
    if ClientTakes(s).Some? && !ClientTakes(s).value.Ack? {
      HandOverInbox(s.cl, ClientTakes(s).value.reqId, Reply(ClientTakes(s).value));
    }
  }

  lemma StopInbox(cl: Client)
    ensures forall id <- StopRecv(cl).inbox :: IsReply(StopRecv(cl).inbox[id]) ==> id in cl.inbox && cl.inbox[id] == StopRecv(cl).inbox[id]
  {
  }

  lemma HandOverInbox(cl: Client, i: nat, r: Inbound)
    ensures forall id <- HandOver(cl, i, r).inbox ::
              (id in cl.inbox && cl.inbox[id] == HandOver(cl, i, r).inbox[id]) || (id == i && HandOver(cl, i, r).inbox[id] == Some(r))
  {
  }

  lemma RecvControlAnswers(s: State, limit: int)
    requires CanRecvControl(s) && !ClientObeys(s) && Inv(s) && Answers(s, limit)
    ensures HandedRight(RecvControl(s), limit)
  {
    hide ClientInv, StreamInv, GetInv, CreditInv, TaskRequests, TaskPlace, Replies, RecvControl, Right;
    RecvControlFrame(s);
    RecvWaits(s, ERecvControl);
    RecvControlInbox(s);
    var s' := RecvControl(s);
    assert RecvSame(s, s') by {
      RecvControlKeepsRead(s);
    }
    var x := s.net.s2c[s.net.s2cRead];
    forall id | id in s'.cl.inbox && IsReply(s'.cl.inbox[id])
      ensures RightFor(s'.cl.kinds, s'.cl.inbox[id].value.msg, limit, s'.net.c2s, s'.net.c2sRead)
      ensures s'.cl.inbox[id].value.msg.reqId == id && (s'.cl.kinds[id].Get? ==> IsAnswered(s'.sv.tasks, id))
    {
      if !(id in s.cl.inbox && s.cl.inbox[id] == s'.cl.inbox[id]) {
        assert x == Ctl(s'.cl.inbox[id].value.msg) && x in s.net.s2c;
        assert FromServer(s.cl.kinds, s.sv.tasks, s.net.s2c, s.net.s2cRead);
        NoCallZero(s);
      }
    }
  }

  lemma NoCallZero(s: State)
    requires Inv(s)
    ensures 0 !in s.cl.kinds
  {
    hide Routes, Windows, StreamInv, ServerInv, GetInv, CreditInv;
  }

  predicate RecvSame(s: State, s': State) {
    s'.net.c2s == s.net.c2s && s'.net.c2sRead == s.net.c2sRead && s'.cl.kinds == s.cl.kinds && s'.sv == s.sv
  }

  lemma RecvControlKeepsRead(s: State)
    requires CanRecvControl(s)
    ensures RecvSame(s, RecvControl(s))
  {
    hide ClientTakes;
    var recv := RecvControlEffect(s);
    RecvControlFrame(s);
  }

  lemma RecvPayloadInbox(s: State, frameLen: nat, ok: bool)
    requires CanRecvPayload(s)
    ensures FromInbox(s, RecvPayload(s, frameLen, ok)) && RecvPayload(s, frameLen, ok).net.c2sRead == s.net.c2sRead
  {
    hide Unlive, AckOne;
    if StillWaits(s) {
      HandedOverEffect(s, frameLen, ok);
    } else {
      DiscardedEffect(s, frameLen, ok);
      var m, x := s.cl.recv.meta, s.net.s2c[s.net.s2cRead];
      var gh := if x.Ctl? && x.msg.GetMeta? then s.gh.(lost := s.gh.lost + 1) else s.gh;
      AckInbox(s.(cl := s.cl.(recv := AtControl), net := s.net.(s2cRead := s.net.s2cRead + 1), gh := gh), m.reqId, ok);
    }
  }

  lemma RecvFailInbox(s: State)
    ensures FromInbox(s, RecvFail(s))
  {
  }

  lemma RecvAnswers(s: State, e: Event, limit: int)
    requires ByLoop(e) && LoopCan(s, e) && !e.ESendControl? && !e.ESendData? && (e.ERecvControl? ==> !ClientObeys(s))
    requires Inv(s) && Answers(s, limit)
    ensures Answers(LoopDoes(s, e), limit)
  {
    hide Inv, RecvControl, RecvPayload, StopRecv, ServesRight, SentRight, HandedRight, GoodNames, FromInbox, ClientObeys;
    RecvWaits(s, e);
    var s' := LoopDoes(s, e);
    match e {
      case ERecvControl =>
        RecvControlKeepsRead(s);
        RecvControlAnswers(s, limit);
      case ERecvPayload(n, ok) =>
        RecvPayloadInbox(s, n, ok);
        HandedStays(s, s', limit);
      case ERecvFail =>
        RecvFailInbox(s);
        HandedStays(s, s', limit);
    }
    SentStays(s, s', limit);
    ServingStays(s, s', limit);
  }

  // --------------------------------------------------------------- the serve loop

  /** What the serve loop does with a request, unless a payload is obeyed. */
  lemma ServeAnswers(s: State, limit: int)
    requires CanServe(s) && !ServerObeys(s) && Inv(s) && Names(s, limit)
    ensures ServesRight(Serve(s), limit) && Names(Serve(s), limit)
  {
    hide InvUpTo, ServeMessage, ServesRight, GoodNames;
    var s1 := s.(net := s.net.(c2sRead := s.net.c2sRead + 1));
    if s.net.c2s[s.net.c2sRead].Ctl? {
      RequestRead(s);
      MessageAnswers(Noted(s1, s.net.c2s[s.net.c2sRead]), s.net.c2s[s.net.c2sRead].msg, limit);
    } else {
      ExitRight(s1, limit);
    }
  }

  /** What a request leads to, once it is the item read last. */
  lemma MessageAnswers(s: State, m: Message, limit: int)
    requires Names(s, limit) && 0 < s.net.c2sRead <= |s.net.c2s| && s.net.c2s[s.net.c2sRead - 1] == Ctl(m)
    requires m == Ack(1) || (!m.Ack? && m.reqId > 0 && m.reqId in s.cl.kinds && m == RequestMsg(m.reqId, s.cl.kinds[m.reqId]))
    requires s.sv.serve == Reading
    ensures ServesRight(ServeMessage(s, m), limit) && Names(ServeMessage(s, m), limit)
  {
    hide Trim;
  }

  /** Unless it is an ack, it is the request of one call. */
  lemma RequestRead(s: State)
    requires CanServe(s) && s.net.c2s[s.net.c2sRead].Ctl? && Inv(s)
    ensures var m := s.net.c2s[s.net.c2sRead].msg;
            m == Ack(1) || (!m.Ack? && m.reqId > 0 && m.reqId in s.cl.kinds && m == RequestMsg(m.reqId, s.cl.kinds[m.reqId]))
  {
    hide StreamInv, ServerInv, GetInv, CreditInv, Tables, Windows, Routes, RequestMsg;
    ClientSends(s);
  }

  lemma ServeKeepsAnswered(s: State)
    requires CanServe(s) && !ServerObeys(s) && Inv(s)
    ensures KeepsAnswered(s, Serve(s))
  {
    hide Inv, ServeMessage;
    if s.net.c2s[s.net.c2sRead].Ctl? {
      var m := s.net.c2s[s.net.c2sRead].msg;
      MessageTasks(Noted(s.(net := s.net.(c2sRead := s.net.c2sRead + 1)), s.net.c2s[s.net.c2sRead]), m);
      if m.GetReq? {
        FreshTask(s);
      }
    }
  }

  /** A GET is read once. */
  lemma FreshTask(s: State)
    requires CanServe(s) && s.net.c2s[s.net.c2sRead].Ctl? && s.net.c2s[s.net.c2sRead].msg.GetReq? && Inv(s)
    ensures s.net.c2s[s.net.c2sRead].msg.reqId !in s.sv.tasks
  {
    hide StreamInv, GetInv, CreditInv, Tables, Windows, Routes, Places, Replies, RequestMsg;
    ClientSends(s);
  }

  lemma ServePayloadAnswers(s: State, limit: int)
    requires CanServePayload(s) && ServesRight(s, limit)
    ensures ServesRight(ServePayload(s), limit)
  {
    hide Matches, RequestMsg;
    var m, x, q := s.sv.serve.put, s.net.c2s[s.net.c2sRead], s.net.c2sRead;
    if x.Data? && Matches(m, x.off, x.body) {
      assert s.net.c2s[q - 1] == Ctl(m);
      assert PayloadIsRead(s.net.c2s, q + 1, m);
    }
  }

  lemma ServeReplyAnswers(s: State, ok: bool, goOn: bool, limit: int)
    requires CanServeReply(s) && ServesRight(s, limit) && SentRight(s, limit)
    ensures ServesRight(ServeReply(s, ok, goOn), limit) && SentRight(ServeReply(s, ok, goOn), limit)
  {
    hide Right;
  }

  lemma ServeLoopAnswers(s: State, e: Event, limit: int)
    requires ByServeLoop(e) && ServeLoopCan(s, e) && (e.EServe? ==> !ServerObeys(s))
    requires Inv(s) && Answers(s, limit)
    ensures Answers(ServeLoopDoes(s, e), limit)
  {
    hide Inv, Serve, ServePayload, ServeReply, ServesRight, SentRight, HandedRight, GoodNames, ServerObeys;
    var s' := ServeLoopDoes(s, e);
    match e {
      case EServe =>
        ServeAnswers(s, limit);
        ServeFrame(s);
        ServeReads(s);
        ServeKeepsAnswered(s);
        SentStays(s, s', limit);
      case EServePayload =>
        ServePayloadFrame(s);
        ServePayloadAnswers(s, limit);
        PayloadReads(s);
        SentStays(s, s', limit);
      case EServeReply(ok, goOn) =>
        ServeReplyFrame(s, ok, goOn);
        ServeReplyAnswers(s, ok, goOn, limit);
        ReplyReads(s, ok, goOn);
      case EServeFail =>
        ExitRight(s, limit);
        SentStays(s, s', limit);
    }
    HandedStays(s, s', limit);
  }

  lemma ExitRight(s: State, limit: int)
    ensures ServesRight(ServeFail(s), limit)
  {
  }

  lemma ServeReads(s: State)
    requires CanServe(s)
    ensures Serve(s).net == s.net.(c2sRead := s.net.c2sRead + 1) && Serve(s).sv.maxObjectSize == s.sv.maxObjectSize
  {
    hide ServerTakes, PutRejected, Trim;
  }

  lemma PayloadReads(s: State)
    requires CanServePayload(s)
    ensures ServePayload(s).net == s.net.(c2sRead := s.net.c2sRead + 1) && ServePayload(s).sv.maxObjectSize == s.sv.maxObjectSize
  {
    hide Matches;
  }

  lemma ReplyReads(s: State, ok: bool, goOn: bool)
    requires CanServeReply(s)
    ensures var s' := ServeReply(s, ok, goOn);
            s'.net.c2s == s.net.c2s && s'.net.c2sRead == s.net.c2sRead && s'.sv.maxObjectSize == s.sv.maxObjectSize
  {
  }

  // ------------------------------------------------------------------ goroutines

  lemma RoutineServes(s: State, e: Event)
    requires ByRoutine(e) && RoutineCan(s, e)
    ensures var s' := RoutineDoes(s, e);
            && s'.sv.serve == s.sv.serve && s'.sv.maxObjectSize == s.sv.maxObjectSize && s'.net.c2sRead == s.net.c2sRead
            && KeepsAnswered(s, s')
  {
    hide Trim, Sent, SentWhole, Cut, Header;
  }

  lemma RoutineSent(s: State, e: Event, limit: int)
    requires ByRoutine(e) && RoutineCan(s, e) && Inv(s) && SentRight(s, limit)
    ensures SentRight(RoutineDoes(s, e), limit)
  {
    hide ClientInv, StreamInv, GetInv, CreditInv, Places, Replies, LookUp, SentWhole, Sent, Cut, Right, TaskFits, RequestMsg;
    match e
    case ELookUp(id) => LookUpWaits(s, id); LookUpFrame(s, id);
    case ESendAnswer(id, ok) => OneTask(s, id); GetAnswer(s, id, limit);
    case _ =>
  }

  lemma GetAnswer(s: State, id: nat, limit: int)
    requires id in s.cl.kinds && s.cl.kinds[id].Get?
    ensures RightFor(s.cl.kinds, RespErr(id), limit, s.net.c2s, s.net.c2sRead)
  {
  }

  lemma RoutineAnswers(s: State, e: Event, limit: int)
    requires ByRoutine(e) && RoutineCan(s, e) && Inv(s) && Answers(s, limit)
    ensures Answers(RoutineDoes(s, e), limit)
  {
    hide Inv, RoutineDoes, RoutineCan, ServesRight, SentRight, HandedRight, GoodNames;
    var s' := RoutineDoes(s, e);
    RoutineServes(s, e);
    RoutineLeaves(s, e);
    RoutineSent(s, e, limit);
    ServingStays(s, s', limit);
    HandedStays(s, s', limit);
  }

  lemma WorldAnswers(s: State, e: Event, limit: int)
    requires ByWorld(e) && WorldCan(s, e) && Answers(s, limit)
    ensures Answers(WorldDoes(s, e), limit)
  {
    hide Land, LandPart, ServesRight, SentRight, HandedRight, GoodNames;
    var s' := WorldDoes(s, e);
    WorldWaits(s, e);
    match e {
      case ELand => LandFrame(s);
      case ELandPart(k) => LandPartFrame(s, k);
      case _ =>
    }
    SentStays(s, s', limit);
    ServingStays(s, s', limit);
    HandedStays(s, s', limit);
  }

  // -------------------------------------------------------------------- all runs

  lemma AnswersStay(s: State, e: Event, limit: int)
    requires Can(s, e) && !Causes(s, e, Misread) && Inv(s) && Answers(s, limit)
    ensures Answers(Do(s, e), limit)
  {
    hide Inv, Answers, CallerDoes, LoopDoes, ServeLoopDoes, RoutineDoes, WorldDoes, CallerCan, LoopCan, ServeLoopCan, RoutineCan, WorldCan,
      ServerObeys, ClientObeys;
    if ByCaller(e) {
      CallerAnswers(s, e, limit);
    } else if ByLoop(e) {
      if e.ESendControl? || e.ESendData? {
        SendAnswers(s, e, limit);
      } else {
        RecvAnswers(s, e, limit);
      }
    } else if ByServeLoop(e) {
      ServeLoopAnswers(s, e, limit);
    } else if ByRoutine(e) {
      RoutineAnswers(s, e, limit);
    } else {
      WorldAnswers(s, e, limit);
    }
  }

  lemma {:induction false} AnswersOverRuns(s: State, es: seq<Event>, limit: int)
    requires CanRun(s, es) && Avoids(s, es, Misread) && Inv(s) && Answers(s, limit)
    ensures Answers(Run(s, es), limit)
    decreases |es|
  {
    hide Inv, Answers, Can, Do, Causes;
    if es != [] {
      StepKeeps(s, es[0]);
      AnswersStay(s, es[0], limit);
      AnswersOverRuns(Do(s, es[0]), es[1..], limit);
    }
  }

  /** The reply that a call is handed is the one its request calls for: hello gets its credits, ensure-bucket
      and PUT succeed, a PUT after its whole payload has been read, unless it is larger than the server
      takes, and then it is refused. A GET is handed a reply only as an error. */
  lemma EachCallItsAnswer(u: Setup, es: seq<Event>, id: nat)
    requires Usable(u) && CanRun(Init(u), es) && Avoids(Init(u), es, Misread)
    requires id in Run(Init(u), es).cl.inbox && IsReply(Run(Init(u), es).cl.inbox[id])
    ensures var s := Run(Init(u), es);
            id in s.cl.kinds && Right(s.cl.kinds[id], id, s.cl.inbox[id].value.msg, u.maxObjectSize, s.net.c2s, s.net.c2sRead)
  {
    hide Inv, Can, Do, Causes, Right, Init;
    InitInv(u);
    StartsRight(u);
    AnswersOverRuns(Init(u), es, u.maxObjectSize);
  }

  /** Every request gets on: what the serve loop reads it answers at once, or gives to a goroutine of its
      own, or waits for its payload first, if that is to be taken. */
  lemma EachRequestGoesOn(s: State, limit: int)
    requires CanServe(s) && s.net.c2s[s.net.c2sRead].Ctl? && !s.net.c2s[s.net.c2sRead].msg.Ack?
    requires Inv(s) && Answers(s, limit)
    ensures var m := s.net.c2s[s.net.c2sRead].msg;
            m.reqId in s.cl.kinds && var k, s' := s.cl.kinds[m.reqId], Serve(s);
            if k.Get? then InTask(s', m.reqId, Looking) && s'.sv.serve == Reading
            else if k.Put? && k.size > 0 && !TooMuch(k.size, limit) then s'.sv.serve == ReadingPayload(m)
            else
              && s'.sv.serve.Replying? && Right(k, m.reqId, s'.sv.serve.reply, limit, s'.net.c2s, s'.net.c2sRead)
              && (k.Hello? && k.credits > 0 ==> s'.gh.granted == s'.sv.gate.credits == k.credits)
  {
    hide Tables, Windows, StreamInv, ServerInv, GetInv, CreditInv, Routes, Trim;
    RequestRead(s);
  }

  /** A PUT whose payload is to be taken is answered with success once that payload is there: on a stream to
      the server that is not torn it is what comes next, whole. */
  lemma PutIsAnswered(s: State, limit: int)
    requires CanServePayload(s) && !s.gh.upTorn && Inv(s) && Answers(s, limit)
    ensures ServePayload(s).sv.serve == Replying(RespOK(s.sv.serve.put.reqId)) && ServePayload(s).gh == s.gh
  {
    hide ClientInv, ServerInv, GetInv, CreditInv, Written, Read, Matches, RequestMsg, Right;
    ReadNext(s.net.c2s, s.net.c2sRead, Expect(s.sv.serve.put), s.cl.opMid, s.gh.upTorn);
  }

  /** An answer that is sent is the one decided on, after all that was sent before. */
  lemma AnswerGoesOut(s: State, goOn: bool, id: nat)
    ensures CanServeReply(s) ==>
              ServeReply(s, true, goOn).net == s.net.(s2c := s.net.s2c + [Ctl(s.sv.serve.reply)]) && ServeReply(s, true, goOn).sv.serve == Reading
    ensures CanSendAnswer(s, id) ==>
              SendAnswer(s, id, true).net == s.net.(s2c := s.net.s2c + [Ctl(RespErr(id))]) && IsAnswered(SendAnswer(s, id, true).sv.tasks, id)
  {
  }

  /** A reply that is read reaches the call that waits for it, and no other. */
  lemma ReplyIsHandedOver(s: State, limit: int)
    requires CanRecvControl(s) && s.net.s2c[s.net.s2cRead].Ctl? && !s.net.s2c[s.net.s2cRead].msg.GetMeta?
    requires Inv(s) && Answers(s, limit)
    ensures var m, s' := s.net.s2c[s.net.s2cRead].msg, RecvControl(s);
            && !m.Ack? && m.reqId in s.cl.kinds && Right(s.cl.kinds[m.reqId], m.reqId, m, limit, s.net.c2s, s.net.c2sRead)
            && s'.cl.inbox == if m.reqId in s.cl.pending then s.cl.inbox[m.reqId := Some(Reply(m))] else s.cl.inbox
  {
    hide Routes, Windows, StreamInv, TaskRequests, TaskPlace, Replies, GetInv, CreditInv, Right, ServesRight, HandedRight, GoodNames;
    var x := s.net.s2c[s.net.s2cRead];
    assert x in s.net.s2c;
    assert FromServer(s.cl.kinds, s.sv.tasks, s.net.s2c, s.net.s2cRead);
  }

  /** The client opens up to its callers with the answer to hello, if that grants credits, and with no other. */
  lemma HelloOpensClient(s: State, id: nat, limit: int)
    requires CanTakeReply(s, id) && Inv(s) && Answers(s, limit)
    ensures id in s.cl.kinds
    ensures TakeReply(s, id).cl.ready
         <==> s.cl.ready || (s.cl.inbox[id].value.Reply? && s.cl.kinds[id].Hello? && s.cl.kinds[id].credits > 0)
  {
    hide Routes, Windows, StreamInv, ServerInv, GetInv, CreditInv, ServesRight, SentRight, PayloadIsRead, GoodNames;
    if IsReply(s.cl.inbox[id]) {
      assert RightFor(s.cl.kinds, s.cl.inbox[id].value.msg, limit, s.net.c2s, s.net.c2sRead);
    }
  }

  // ------------------------------------------------------------ GETs, decided

  /** The store has an object under these names, and it fits if a limit is given. */
  predicate Served(objects: Objects, k: Kind)
    requires k.Get?
  {
    var name := (Trim(k.bucket), Trim(k.key));
    name in objects && (k.max == 0 || |objects[name]| <= k.max)
  }

  predicate Accepted(p: TaskPhase) {
    LookedUp(p) || p.Over?
  }

  predicate Refused(p: TaskPhase) {
    p.Answering? || p.Answered? || p.Over?
  }

  /** What became of a GET that was looked up in this store. */
  predicate DecidedBy(objects: Objects, k: Kind, t: Task) {
    k.Get? &&
    if Served(objects, k) then Accepted(t.phase) && t.off == k.off && t.body == objects[(Trim(k.bucket), Trim(k.key))]
    else Refused(t.phase)
  }

  predicate IsDecided(tasks: map<nat, Task>, id: nat) {
    id in tasks && !tasks[id].phase.Looking?
  }

  /** The lookup accepts a GET exactly if its object is there and fits, and takes body and offset along. */
  lemma LookUpIff(s: State, id: nat, limit: int)
    requires CanLookUp(s, id) && Inv(s) && Names(s, limit)
    ensures id in s.cl.kinds && s.cl.kinds[id].Get? && id in LookUp(s, id).sv.tasks
    ensures var k, t := s.cl.kinds[id], LookUp(s, id).sv.tasks[id];
            if Served(s.sv.objects, k) then t.phase == Waits && t.off == k.off && t.body == s.sv.objects[(Trim(k.bucket), Trim(k.key))]
            else t.phase == Answering
  {
    hide ClientInv, StreamInv, GetInv, CreditInv, TaskRequests, Places, Replies, Trim;
    OneTask(s, id);
  }

  /** A goroutine only gets further on the way its lookup has sent it. */
  predicate Onward(tasks: map<nat, Task>, tasks': map<nat, Task>, id: nat)
    requires IsDecided(tasks, id)
  {
    && IsDecided(tasks', id) && tasks'[id].off == tasks[id].off && tasks'[id].body == tasks[id].body
    && (Accepted(tasks[id].phase) ==> Accepted(tasks'[id].phase)) && (Refused(tasks[id].phase) ==> Refused(tasks'[id].phase))
  }

  lemma RoutineOnward(s: State, e: Event, id: nat)
    requires ByRoutine(e) && RoutineCan(s, e)
    ensures IsDecided(s.sv.tasks, id) ==> e != ELookUp(id) && Onward(s.sv.tasks, RoutineDoes(s, e).sv.tasks, id)
    ensures IsDecided(RoutineDoes(s, e).sv.tasks, id) && !IsDecided(s.sv.tasks, id) ==> e == ELookUp(id)
  {
    hide LookUp, Sent, SentWhole, Cut, Header;
    if e.ELookUp? {
      LookUpSets(s, e.id);
    }
  }

  lemma LookUpSets(s: State, id: nat)
    requires CanLookUp(s, id)
    ensures id in LookUp(s, id).sv.tasks && LookUp(s, id).sv.tasks == s.sv.tasks[id := LookUp(s, id).sv.tasks[id]]
  {
    hide Trim;
  }

  lemma ServeOnward(s: State, id: nat)
    requires CanServe(s) && !ServerObeys(s) && Inv(s)
    ensures IsDecided(s.sv.tasks, id) ==> Onward(s.sv.tasks, Serve(s).sv.tasks, id)
    ensures IsDecided(Serve(s).sv.tasks, id) ==> IsDecided(s.sv.tasks, id)
  {
    hide Inv, ServeMessage;
    if s.net.c2s[s.net.c2sRead].Ctl? {
      var m := s.net.c2s[s.net.c2sRead].msg;
      MessageTasks(Noted(s.(net := s.net.(c2sRead := s.net.c2sRead + 1)), s.net.c2s[s.net.c2sRead]), m);
      if m.GetReq? {
        FreshTask(s);
      }
    }
  }

  /** Once decided a GET is never looked up again, and what is not decided yet is decided by its lookup. */
  lemma StepOnward(s: State, e: Event, id: nat)
    requires Can(s, e) && !Causes(s, e, Misread) && Inv(s)
    ensures IsDecided(s.sv.tasks, id) ==> e != ELookUp(id) && Onward(s.sv.tasks, Do(s, e).sv.tasks, id)
    ensures IsDecided(Do(s, e).sv.tasks, id) && !IsDecided(s.sv.tasks, id) ==> e == ELookUp(id)
  {
    hide Inv, Serve, RoutineDoes, RoutineCan, CallerDoes, CallerCan, LoopDoes, LoopCan, WorldDoes, WorldCan, ServerObeys, ClientObeys,
      Onward, IsDecided;
    if e.EServe? {
      ServeOnward(s, id);
    } else if ByRoutine(e) {
      RoutineOnward(s, e, id);
    } else {
      OthersLeaveTasks(s, e);
      OnwardSame(s.sv.tasks, id);
    }
  }

  lemma OnwardSame(tasks: map<nat, Task>, id: nat)
    ensures IsDecided(tasks, id) ==> Onward(tasks, tasks, id)
  {
  }

  lemma {:induction false} StaysDecided(s: State, es: seq<Event>, id: nat)
    requires CanRun(s, es) && Avoids(s, es, Misread) && Inv(s) && IsDecided(s.sv.tasks, id)
    ensures Onward(s.sv.tasks, Run(s, es).sv.tasks, id) && forall j :: 0 <= j < |es| ==> es[j] != ELookUp(id)
    decreases |es|
  {
    hide Inv, Can, Do, Causes;
    if es == [] {
      OnwardSame(s.sv.tasks, id);
    } else {
      StepKeeps(s, es[0]);
      StepOnward(s, es[0], id);
      StaysDecided(Do(s, es[0]), es[1..], id);
      forall j | 0 <= j < |es| ensures es[j] != ELookUp(id) {
        assert j > 0 ==> es[j] == es[1..][j - 1];
      }
    }
  }

  /** The one lookup of this GET, and what came of it. */
  ghost predicate DecidedAt(s: State, es: seq<Event>, id: nat, i: nat)
    requires CanRun(s, es)
  {
    && i < |es| && es[i] == ELookUp(id) && (forall j :: 0 <= j < |es| && j != i ==> es[j] != ELookUp(id))
    && id in Run(s, es).cl.kinds && id in Run(s, es).sv.tasks
    && DecidedBy(StateAt(s, es, i).sv.objects, Run(s, es).cl.kinds[id], Run(s, es).sv.tasks[id])
  }

  lemma DecidedFirst(s: State, es: seq<Event>, id: nat, limit: int)
    requires CanRun(s, es) && Avoids(s, es, Misread) && es != [] && es[0] == ELookUp(id) && Inv(s) && Answers(s, limit)
    requires Inv(Do(s, es[0])) && IsDecided(Do(s, es[0]).sv.tasks, id)
    ensures DecidedAt(s, es, id, 0)
  {
    hide Inv, Can, Do, Causes;
    var s' := Do(s, es[0]);
    LookUpStep(s, id, limit);
    StaysDecided(s', es[1..], id);
    KindsStayOverRun(s', es[1..], id);
    assert StateAt(s, es, 0) == s;
    forall j | 0 < j < |es| ensures es[j] != ELookUp(id) {
      assert es[j] == es[1..][j - 1];
    }
  }

  lemma LookUpStep(s: State, id: nat, limit: int)
    requires Can(s, ELookUp(id)) && Inv(s) && Answers(s, limit)
    ensures var s' := Do(s, ELookUp(id));
            id in s'.cl.kinds && IsDecided(s'.sv.tasks, id) && DecidedBy(s.sv.objects, s'.cl.kinds[id], s'.sv.tasks[id])
  {
    hide Inv, LookUp, ServesRight, SentRight, HandedRight;
    LookUpIff(s, id, limit);
    RoutineLeaves(s, ELookUp(id));
  }

  lemma {:induction false} KindsStayOverRun(s: State, es: seq<Event>, id: nat)
    requires CanRun(s, es) && Avoids(s, es, Misread) && Inv(s) && id in s.cl.kinds
    ensures id in Run(s, es).cl.kinds && Run(s, es).cl.kinds[id] == s.cl.kinds[id]
    decreases |es|
  {
    hide Inv, Can, Do, Causes;
    if es != [] {
      StepKeeps(s, es[0]);
      KindsStay(s, es[0], id);
      KindsStayOverRun(Do(s, es[0]), es[1..], id);
    }
  }

  lemma NotYet(s: State, es: seq<Event>, id: nat, i: nat)
    requires CanRun(s, es) && es != [] && es[0] != ELookUp(id) && DecidedAt(Do(s, es[0]), es[1..], id, i)
    ensures DecidedAt(s, es, id, i + 1)
  {
    hide Can, Do, DecidedBy;
    assert es[i + 1] == es[1..][i] && StateAt(s, es, i + 1) == StateAt(Do(s, es[0]), es[1..], i);
    forall j | 0 <= j < |es| && j != i + 1 ensures es[j] != ELookUp(id) {
      assert j > 0 ==> es[j] == es[1..][j - 1];
    }
  }

  lemma {:induction false} DecidedOverRuns(s: State, es: seq<Event>, id: nat, limit: int) returns (i: nat)
    requires CanRun(s, es) && Avoids(s, es, Misread) && Inv(s) && Answers(s, limit)
    requires !IsDecided(s.sv.tasks, id) && IsDecided(Run(s, es).sv.tasks, id)
    ensures DecidedAt(s, es, id, i)
    decreases |es|
  {
    hide Inv, Can, Do, Causes, Answers, DecidedBy, Onward;
    var s' := Do(s, es[0]);
    StepKeeps(s, es[0]);
    AnswersStay(s, es[0], limit);
    StepOnward(s, es[0], id);
    if IsDecided(s'.sv.tasks, id) {
      i := 0;
      DecidedFirst(s, es, id, limit);
    } else {
      if es[0] == ELookUp(id) {
        LookUpStep(s, id, limit);
      }
      i := DecidedOverRuns(s', es[1..], id, limit);
      NotYet(s, es, id, i);
      i := i + 1;
    }
  }

  /** A GET is decided once, by the store as it is at that moment: it is refused exactly if no object is there
      under its trimmed names or the object is larger than the limit it gives, and otherwise it goes on with
      that object. Every call that is handed an error as its reply was refused so. */
  lemma GetDecidedOnce(u: Setup, es: seq<Event>, id: nat)
    requires Usable(u) && CanRun(Init(u), es) && Avoids(Init(u), es, Misread)
    ensures var s := Run(Init(u), es);
            IsDecided(s.sv.tasks, id) ==> exists i :: DecidedAt(Init(u), es, id, i)
    ensures var s := Run(Init(u), es);
            id in s.cl.inbox && IsReply(s.cl.inbox[id]) && id in s.cl.kinds && s.cl.kinds[id].Get? ==>
              exists i :: DecidedAt(Init(u), es, id, i) && !Served(StateAt(Init(u), es, i).sv.objects, s.cl.kinds[id])
  {
    hide Inv, Can, Do, Causes, Right, Init, Served;
    var s := Run(Init(u), es);
    InitInv(u);
    StartsRight(u);
    StartsUndecided(u, id);
    AnswersOverRuns(Init(u), es, u.maxObjectSize);
    if IsDecided(s.sv.tasks, id) {
      var i := DecidedOverRuns(Init(u), es, id, u.maxObjectSize);
    }
  }

  lemma StartsUndecided(u: Setup, id: nat)
    ensures !IsDecided(Init(u).sv.tasks, id)
  {
  }
}
