/** When the two streams of a zcopy connection stop parsing: exactly, and over every run, whatever else
    goes wrong. */
module ZcopyBreaks {
  import opened Counters
  import opened Wire
  import opened Protocol
  import opened Zcopy
  import opened ZcopyFrames
  import opened ZcopyFlaws
  import opened ZcopyTheorems

  datatype Way = ToClient | ToServer

  function Stream(s: State, w: Way): seq<Item> {
    match w case ToClient => s.net.s2c case ToServer => s.net.c2s
  }

  /** A header is out, and its payload is next. */
  predicate Sending(s: State, w: Way) {
    match w case ToClient => s.sv.lock.Some? case ToServer => s.cl.opMid
  }

  /** The payload is empty, cut to 32 bits, does not fit, or fails to be sent. */
  predicate Spoils(s: State, e: Event, w: Way) {
    match w
    case ToClient => e.ESendPayload? && PayloadSpoiled(s, e.id, e.ok)
    case ToServer => e.ESendData? && PutSpoiled(s, e.ok)
  }

  // ------------------------------------------------------- what a step sends

  /** At most one item, and a control message if the writer is not in the middle of a pair; and it gets
      there only by sending one. */
  ghost predicate Extends(s: State, s': State, w: Way) {
    || (Stream(s', w) == Stream(s, w) && (Sending(s', w) ==> Sending(s, w)))
    || (exists x :: Stream(s', w) == Stream(s, w) + [x] && (x.Ctl? || Sending(s, w)))
  }

  lemma ExtendsBy(s: State, s': State, w: Way, x: Item)
    requires Stream(s', w) == Stream(s, w) + [x] && (x.Ctl? || Sending(s, w))
    ensures Extends(s, s', w)
  {
  }

  /** Nothing is sent to the server, and the queue at most grows. */
  predicate QueueWaits(s: State, s': State) {
    && s'.net.c2s == s.net.c2s && s'.cl.opHead == s.cl.opHead && s'.cl.opMid == s.cl.opMid && s.cl.ops <= s'.cl.ops
    && s'.cl.kinds == s.cl.kinds && s'.cl.nextReq == s.cl.nextReq
  }

  lemma TakeReplyWaits(s: State, id: nat)
    requires CanTakeReply(s, id)
    ensures QueueWaits(s, TakeReply(s, id)) && TakeReply(s, id).net == s.net && TakeReply(s, id).sv == s.sv
  {
  }

  lemma TakePayloadWaits(s: State, id: nat, ok: bool)
    requires CanTakePayload(s, id)
    ensures QueueWaits(s, TakePayload(s, id, ok)) && TakePayload(s, id, ok).net == s.net && TakePayload(s, id, ok).sv == s.sv
  {
    hide Acceptable, Unlive, AckOne;
    AckEffect(Consume(s, id), id, ok);
    AckKeeps(Consume(s, id), id, ok);
  }

  lemma AckKeeps(s: State, id: nat, ok: bool)
    ensures Unlive(AckOne(s, ok), id).sv == s.sv
  {
  }

  lemma LeaveWaits(s: State, id: nat, timeout: bool)
    requires id in s.cl.inbox
    ensures QueueWaits(s, Leave(s, id, timeout)) && Leave(s, id, timeout).net == s.net && Leave(s, id, timeout).sv == s.sv
  {
  }

  lemma ReleaseWaits(s: State, t: nat, ok: bool)
    requires CanRelease(s, t)
    ensures QueueWaits(s, Release(s, t, ok)) && Release(s, t, ok).net == s.net && Release(s, t, ok).sv == s.sv
  {
  }

  lemma CallerWaits(s: State, e: Event)
    requires ByCaller(e) && CallerCan(s, e)
    ensures !e.EIssue? ==> QueueWaits(s, CallerDoes(s, e))
    ensures CallerDoes(s, e).net == s.net && CallerDoes(s, e).sv == s.sv
  {
    hide TakeReply, TakePayload, Leave, Release, CanTakeReply, CanTakePayload, CanRelease, CanIssue, CanAppWrite, Splice;
    match e
    case ETakeReply(id) => TakeReplyWaits(s, id);
    case ETakePayload(id, ok) => TakePayloadWaits(s, id, ok);
    case ELeave(id, timeout) => LeaveWaits(s, id, timeout);
    case EGiveUp(id) => LeaveWaits(s, id, true);
    case ERelease(t, ok) => ReleaseWaits(s, t, ok);
    case _ =>
  }

  lemma RecvWaits(s: State, e: Event)
    requires ByLoop(e) && LoopCan(s, e) && !e.ESendControl? && !e.ESendData?
    ensures QueueWaits(s, LoopDoes(s, e)) && LoopDoes(s, e).net.s2c == s.net.s2c && LoopDoes(s, e).sv == s.sv
  {
    hide RecvControl, RecvPayload;
    match e
    case ERecvControl =>
      var recv := RecvControlEffect(s);
      RecvControlFrame(s);
    case ERecvPayload(n, ok) =>
      RecvPayloadFrame(s, n, ok);
      if StillWaits(s) {
        HandedOverEffect(s, n, ok);
      } else {
        DiscardedEffect(s, n, ok);
      }
    case ERecvFail =>
  }

  lemma SendsToServer(s: State, e: Event)
    requires e.ESendControl? || e.ESendData?
    requires Can(s, e)
    ensures Extends(s, LoopDoes(s, e), ToServer)
    ensures LoopDoes(s, e).net.s2c == s.net.s2c && LoopDoes(s, e).sv == s.sv
  {
    hide SendControl, RequestMsg, Announces, Cut, Wrap;
    match e
    case ESendControl(ok) =>
      SendControlFrame(s, ok);
      match s.cl.ops[s.cl.opHead] {
        case Credit => SendAckEffect(s, ok);
        case Request(id) => SendRequestEffect(s, ok);
      }
    case ESendData(ok) => PutExtends(s, ok);
  }

  lemma PutExtends(s: State, ok: bool)
    requires CanSendData(s)
    ensures Extends(s, SendData(s, ok), ToServer) && SendData(s, ok).net.s2c == s.net.s2c && SendData(s, ok).sv == s.sv
  {
    hide Cut, Wrap;
    var k := s.cl.kinds[s.cl.ops[s.cl.opHead].id];
    var body := Cut(s.cl.mem[k.off..k.off + k.size]);
    if ok && body != [] {
      assert SendData(s, ok).net.c2s == s.net.c2s + [Data(Wrap(k.off), body)];
    }
  }

  lemma ServerSends(s: State, e: Event)
    requires (ByServeLoop(e) || ByRoutine(e)) && Can(s, e)
    ensures Extends(s, Do(s, e), ToClient)
  {
    hide Extends, ServeLoopDoes, RoutineDoes, ServeLoopCan, RoutineCan;
    if ByServeLoop(e) {
      ServeLoopSends(s, e);
    } else {
      RoutineSends(s, e);
    }
  }

  lemma ServerWaits(s: State, e: Event)
    requires (ByServeLoop(e) || ByRoutine(e)) && Can(s, e)
    ensures QueueWaits(s, Do(s, e))
  {
    hide Can, Do;
    ServerLeaves(s, e);
  }

  lemma ServeLoopSends(s: State, e: Event)
    requires ByServeLoop(e) && ServeLoopCan(s, e)
    ensures Extends(s, ServeLoopDoes(s, e), ToClient)
  {
    hide Serve, Matches;
    match e
    case EServe => ServeFrame(s);
    case EServeReply(ok, goOn) =>
      if ok {
        assert ServeReply(s, ok, goOn).net.s2c == s.net.s2c + [Ctl(s.sv.serve.reply)];
      }
    case _ =>
  }

  lemma RoutineSends(s: State, e: Event)
    requires ByRoutine(e) && RoutineCan(s, e)
    ensures Extends(s, RoutineDoes(s, e), ToClient)
  {
    hide LookUp, SentWhole, Sent, Cut;
    match e
    case ELookUp(id) => LookUpWaits(s, id);
    case ESendHeader(id, ok) =>
      if ok && s.sv.tasks[id].off >= 0 {
        assert SendHeader(s, id, ok).net.s2c == s.net.s2c + [Ctl(Header(id, s.sv.tasks[id]))];
      }
    case ESendPayload(id, ok) =>
      var t := s.sv.tasks[id];
      if Sent(s, t, ok) {
        assert SendPayload(s, id, ok).net.s2c == s.net.s2c + [Data(Wrap(t.off), Cut(t.body))];
      }
    case ESendAnswer(id, ok) =>
      if ok {
        assert SendAnswer(s, id, ok).net.s2c == s.net.s2c + [Ctl(RespErr(id))];
      }
    case _ =>
  }

  lemma LookUpWaits(s: State, id: nat)
    requires CanLookUp(s, id)
    ensures LookUp(s, id).net == s.net && LookUp(s, id).sv.lock == s.sv.lock
  {
    hide Trim;
  }

  lemma WorldWaits(s: State, e: Event)
    requires ByWorld(e) && WorldCan(s, e)
    ensures QueueWaits(s, WorldDoes(s, e)) && WorldDoes(s, e).net.s2c == s.net.s2c
    ensures WorldDoes(s, e).sv == s.sv.(objects := WorldDoes(s, e).sv.objects)
  {
    hide Land, LandPart;
    match e
    case ELand => LandFrame(s);
    case ELandPart(k) => LandPartFrame(s, k);
    case _ =>
  }

  lemma StepExtends(s: State, e: Event, w: Way)
    requires Can(s, e)
    ensures Extends(s, Do(s, e), w)
  {
    hide CallerDoes, LoopDoes, ServeLoopDoes, RoutineDoes, WorldDoes, CallerCan, LoopCan, ServeLoopCan, RoutineCan, WorldCan;
    if ByCaller(e) {
      CallerWaits(s, e);
      if e.EIssue? {
        IssueWaits(s, e);
      }
    } else if ByLoop(e) {
      if e.ESendControl? || e.ESendData? {
        SendsToServer(s, e);
      } else {
        RecvWaits(s, e);
      }
    } else if ByServeLoop(e) || ByRoutine(e) {
      ServerSends(s, e);
      ServerWaits(s, e);
    } else {
      WorldWaits(s, e);
    }
  }

  lemma IssueWaits(s: State, e: Event)
    requires e.EIssue? && CallerCan(s, e)
    ensures CallerDoes(s, e).cl.opMid == s.cl.opMid
  {
    hide CanIssue;
  }

  // ----------------------------------------------------------------- aligned

  /** The put in the middle of which the client is. */
  predicate MidOf(cl: Client, m: Message) {
    cl.opHead < |cl.ops| && cl.ops[cl.opHead].Request? && cl.ops[cl.opHead].id in cl.kinds
    && m == RequestMsg(cl.ops[cl.opHead].id, cl.kinds[cl.ops[cl.opHead].id])
  }

  /** So far the stream is what its writer is about to go on with: between units, or right after the
      header of the payload it is sending. A goroutine that has the send lock and was replaced in the
      table never lets go of it. */
  predicate Aligned(s: State, w: Way) {
    match w
    case ToClient =>
      && (s.sv.serve.Replying? ==> !Announces(s.sv.serve.reply))
      && (match s.sv.lock
          case None => ModeOf(s.net.s2c) == Clear
          case Some(id) =>
            && ModeOf(s.net.s2c).Expect?
            && (id in s.sv.tasks && s.sv.tasks[id].phase.HeaderOut? ==> ModeOf(s.net.s2c) == Expect(Header(id, s.sv.tasks[id]))))
    case ToServer =>
      && (forall id <- s.cl.kinds :: id <= s.cl.nextReq)
      && (if s.cl.opMid then ModeOf(s.net.c2s).Expect? && MidOf(s.cl, ModeOf(s.net.c2s).header) && Announces(ModeOf(s.net.c2s).header)
          else ModeOf(s.net.c2s) == Clear)
  }

  lemma AlignedParses(s: State, w: Way)
    requires Aligned(s, w)
    ensures Parses(Stream(s, w))
  {
    ParsesIffSound(Stream(s, w));
  }

  lemma StartsAligned(u: Setup, w: Way)
    ensures Aligned(Init(u), w)
  {
  }

  lemma QueueStaysAligned(s: State, s': State)
    requires Aligned(s, ToServer) && QueueWaits(s, s')
    ensures Aligned(s', ToServer)
  {
    hide ModeOf, Announces;
  }

  lemma IssueAligned(s: State, kind: Kind)
    requires Aligned(s, ToServer) && CanIssue(s, kind)
    ensures Aligned(Issue(s, kind), ToServer)
  {
    hide ModeOf, Announces, CanIssue;
  }

  lemma RequestAligned(s: State, ok: bool)
    requires Aligned(s, ToServer) && CanSendControl(s)
    ensures Aligned(SendControl(s, ok), ToServer)
  {
    hide ModeOf, SendControl, RequestMsg;
    match s.cl.ops[s.cl.opHead]
    case Credit =>
      SendAckEffect(s, ok);
      ModeStep(s.net.c2s, Ctl(Ack(1)));
    case Request(id) =>
      SendRequestEffect(s, ok);
      ModeStep(s.net.c2s, Ctl(RequestMsg(id, s.cl.kinds[id])));
  }

  /** The payload half of a PUT, whole or spoiled. */
  lemma PayloadAligned(s: State, ok: bool)
    requires Aligned(s, ToServer) && CanSendData(s)
    ensures !PutSpoiled(s, ok) ==> Aligned(SendData(s, ok), ToServer)
    ensures PutSpoiled(s, ok) ==> Left(s, SendData(s, ok), ToServer)
  {
    hide ModeOf, Cut, Wrap;
    var k := s.cl.kinds[s.cl.ops[s.cl.opHead].id];
    var body := s.cl.mem[k.off..k.off + k.size];
    CutIff(body);
    WrapIff(k.off);
    ModeStep(s.net.c2s, Data(Wrap(k.off), Cut(body)));
  }

  lemma CutIff(body: bytes)
    ensures Cut(body) == body <==> |body| < TWO32
    ensures |Cut(body)| == |body| <==> |body| < TWO32
  {
  }

  lemma WrapIff(off: nat)
    ensures Wrap(off) == off <==> off < TWO32
  {
  }

  lemma AlignedToServer(s: State, e: Event)
    requires Can(s, e) && Aligned(s, ToServer) && !Spoils(s, e, ToServer)
    ensures Aligned(Do(s, e), ToServer)
  {
    hide CallerCan, LoopCan, ServeLoopCan, RoutineCan, WorldCan, LoopDoes, ServeLoopDoes, RoutineDoes, WorldDoes, CallerDoes, Aligned,
      PutSpoiled, QueueWaits;
    match e
    case EIssue(kind) => IssuesAligned(s, e);
    case ESendControl(ok) => WritesAligned(s, e);
    case ESendData(ok) => WritesAligned(s, e);
    case _ =>
      if ByCaller(e) {
        CallerWaits(s, e);
      } else if ByLoop(e) {
        RecvWaits(s, e);
      } else if ByServeLoop(e) || ByRoutine(e) {
        ServerWaits(s, e);
      } else {
        WorldWaits(s, e);
      }
      QueueStaysAligned(s, Do(s, e));
  }

  lemma IssuesAligned(s: State, e: Event)
    requires e.EIssue? && Can(s, e) && Aligned(s, ToServer)
    ensures Aligned(CallerDoes(s, e), ToServer)
  {
    hide Aligned, CanIssue;
    IssueAligned(s, e.kind);
  }

  lemma WritesAligned(s: State, e: Event)
    requires (e.ESendControl? || e.ESendData?) && Can(s, e) && Aligned(s, ToServer) && !Spoils(s, e, ToServer)
    ensures Aligned(LoopDoes(s, e), ToServer)
  {
    hide Aligned, PutSpoiled, SendControl, SendData;
    match e
    case ESendControl(ok) => RequestAligned(s, ok);
    case ESendData(ok) => PayloadAligned(s, ok);
  }

  // --------------------------------------------------------------- to the client

  lemma ServeAligned(s: State)
    requires Aligned(s, ToClient) && CanServe(s)
    ensures Aligned(Serve(s), ToClient)
  {
    hide ModeOf, Announces, ServerTakes, ServeMessage, Header;
    ServeFrame(s);
    if ServerTakes(s).Some? {
      var s1 := Noted(s.(net := s.net.(c2sRead := s.net.c2sRead + 1)), s.net.c2s[s.net.c2sRead]);
      MessageTasks(s1, ServerTakes(s).value);
      MessageReplies(s1, ServerTakes(s).value);
    }
  }

  lemma ServeLoopAligned(s: State, e: Event)
    requires Aligned(s, ToClient) && ByServeLoop(e) && ServeLoopCan(s, e)
    ensures Aligned(ServeLoopDoes(s, e), ToClient)
  {
    hide ModeOf, Serve, Matches, Header;
    match e
    case EServe => ServeAligned(s);
    case EServeReply(ok, goOn) => ModeStep(s.net.s2c, Ctl(s.sv.serve.reply));
    case _ =>
  }

  lemma RoutineAligned(s: State, e: Event)
    requires Aligned(s, ToClient) && ByRoutine(e) && RoutineCan(s, e) && !e.ESendPayload?
    ensures Aligned(RoutineDoes(s, e), ToClient)
  {
    hide ModeOf, Trim;
    match e
    case ESendHeader(id, ok) => ModeStep(s.net.s2c, Ctl(Header(id, s.sv.tasks[id])));
    case ESendAnswer(id, ok) => ModeStep(s.net.s2c, Ctl(RespErr(id)));
    case _ =>
  }

  /** The payload of a GET, whole or spoiled. */
  lemma BodyAligned(s: State, id: nat, ok: bool)
    requires Aligned(s, ToClient) && CanSendPayload(s, id)
    ensures !PayloadSpoiled(s, id, ok) ==> Aligned(SendPayload(s, id, ok), ToClient)
    ensures PayloadSpoiled(s, id, ok) ==> Left(s, SendPayload(s, id, ok), ToClient)
    ensures ModeOf(s.net.s2c) == Expect(Header(id, s.sv.tasks[id]))
  {
    hide ModeOf, Cut, Wrap, Region;
    var t := s.sv.tasks[id];
    CutIff(t.body);
    WrapIff(t.off);
    ModeStep(s.net.s2c, Data(Wrap(t.off), Cut(t.body)));
  }

  lemma AlignedToClient(s: State, e: Event)
    requires Can(s, e) && Aligned(s, ToClient) && !Spoils(s, e, ToClient)
    ensures Aligned(Do(s, e), ToClient)
  {
    hide CallerCan, LoopCan, ServeLoopCan, RoutineCan, WorldCan, LoopDoes, ServeLoopDoes, RoutineDoes, WorldDoes, CallerDoes, ModeOf, Announces,
      Header, PayloadSpoiled, QueueWaits, Extends;
    if ByCaller(e) {
      CallerWaits(s, e);
    } else if ByLoop(e) {
      if e.ESendControl? || e.ESendData? {
        SendsToServer(s, e);
      } else {
        RecvWaits(s, e);
      }
    } else if ByServeLoop(e) {
      ServeLoopAligned(s, e);
    } else if ByRoutine(e) {
      RoutinesAligned(s, e);
    } else {
      WorldWaits(s, e);
    }
  }

  lemma RoutinesAligned(s: State, e: Event)
    requires Aligned(s, ToClient) && ByRoutine(e) && Can(s, e) && !Spoils(s, e, ToClient)
    ensures Aligned(RoutineDoes(s, e), ToClient)
  {
    hide Aligned, SendPayload, PayloadSpoiled;
    if e.ESendPayload? {
      BodyAligned(s, e.id, e.ok);
    } else {
      RoutineAligned(s, e);
    }
  }

  lemma AlignedStep(s: State, e: Event, w: Way)
    requires Can(s, e) && Aligned(s, w) && !Spoils(s, e, w)
    ensures Aligned(Do(s, e), w)
  {
    hide Can, Do, Aligned, Spoils;
    match w
    case ToClient => AlignedToClient(s, e);
    case ToServer => AlignedToServer(s, e);
  }

  // ---------------------------------------------------------------- dangling

  /** A stream that cannot recover: nobody is in the middle of a pair, and it waits for a payload; or
      it is broken already. */
  predicate Dangling(s: State, w: Way) {
    ModeOf(Stream(s, w)) == Broken || (!Sending(s, w) && ModeOf(Stream(s, w)).Expect?)
  }

  /** A header was left without its payload, or a part of it broke the stream at once. */
  predicate Left(s: State, s': State, w: Way) {
    && Dangling(s', w)
    && (Stream(s', w) == Stream(s, w) || (|Stream(s, w)| < |Stream(s', w)| && ModeOf(Stream(s', w)) == Broken))
    && ModeOf(Stream(s, w)) != Broken
  }

  lemma SpoilsLeave(s: State, e: Event, w: Way)
    requires Can(s, e) && Aligned(s, w) && Spoils(s, e, w)
    ensures Left(s, Do(s, e), w)
  {
    hide Aligned, Left, SendPayload, SendData, PutSpoiled, PayloadSpoiled;
    match w
    case ToClient => BodyAligned(s, e.id, e.ok);
    case ToServer => PayloadAligned(s, e.ok);
  }

  lemma DanglingStep(s: State, e: Event, w: Way)
    requires Can(s, e) && Dangling(s, w)
    ensures Dangling(Do(s, e), w) && |Stream(s, w)| <= |Stream(Do(s, e), w)|
    ensures |Stream(s, w)| < |Stream(Do(s, e), w)| ==> ModeOf(Stream(Do(s, e), w)) == Broken
    ensures ModeOf(Stream(s, w)) == Broken ==> ModeOf(Stream(Do(s, e), w)) == Broken
  {
    hide Can, Do, ModeOf, Stream, Sending;
    StepExtends(s, e, w);
    var s' := Do(s, e);
    if Stream(s', w) != Stream(s, w) {
      var x :| Stream(s', w) == Stream(s, w) + [x] && (x.Ctl? || Sending(s, w));
      ModeStep(Stream(s, w), x);
    }
  }

  lemma {:induction false} DanglingRun(s: State, es: seq<Event>, w: Way)
    requires CanRun(s, es) && Dangling(s, w)
    ensures |Stream(s, w)| <= |Stream(Run(s, es), w)|
    ensures |Stream(s, w)| < |Stream(Run(s, es), w)| || ModeOf(Stream(s, w)) == Broken
            <==> ModeOf(Stream(Run(s, es), w)) == Broken
    decreases |es|
  {
    hide Can, Do, ModeOf, Stream, Sending;
    if es != [] {
      DanglingStep(s, es[0], w);
      DanglingRun(Do(s, es[0]), es[1..], w);
      SameWhenShort(s, es[0], w);
    }
  }

  lemma SameWhenShort(s: State, e: Event, w: Way)
    requires Can(s, e)
    ensures |Stream(s, w)| <= |Stream(Do(s, e), w)|
    ensures |Stream(Do(s, e), w)| == |Stream(s, w)| ==> Stream(Do(s, e), w) == Stream(s, w)
  {
    hide Can, Do, Stream, Sending;
    StepExtends(s, e, w);
  }

  // ----------------------------------------------------------------- all runs

  /** Some payload was spoiled, and something was sent the same way from then on. */
  ghost predicate SpoiledAndSent(s: State, es: seq<Event>, w: Way)
    requires CanRun(s, es)
  {
    exists i :: 0 <= i < |es| && SpoiledAt(s, es, w, i)
  }

  ghost predicate SpoiledAt(s: State, es: seq<Event>, w: Way, i: nat)
    requires CanRun(s, es) && i < |es|
  {
    Spoils(StateAt(s, es, i), es[i], w) && |Stream(StateAt(s, es, i), w)| < |Stream(Run(s, es), w)|
  }

  lemma {:induction false} BreaksIff(s: State, es: seq<Event>, w: Way)
    requires Aligned(s, w) && CanRun(s, es)
    ensures !Parses(Stream(Run(s, es), w)) <==> SpoiledAndSent(s, es, w)
    decreases |es|
  {
    hide Can, Do, Spoils, Parses, ModeOf, Aligned, Stream, Sending;
    if es == [] {
      AlignedParses(s, w);
    } else {
      var s' := Do(s, es[0]);
      if Spoils(s, es[0], w) {
        SpoilsLeave(s, es[0], w);
        DanglingRun(s', es[1..], w);
        ParsesIffSound(Stream(Run(s, es), w));
        SpoiledFirst(s, es, w);
      } else {
        AlignedStep(s, es[0], w);
        BreaksIff(s', es[1..], w);
        SpoiledLater(s, es, w);
      }
    }
  }

  lemma {:induction false} GrowsTo(s: State, es: seq<Event>, w: Way, i: nat)
    requires CanRun(s, es) && i <= |es|
    ensures |Stream(s, w)| <= |Stream(StateAt(s, es, i), w)|
    decreases i
  {
    hide Can, Do, Stream;
    if i > 0 {
      SameWhenShort(s, es[0], w);
      GrowsTo(Do(s, es[0]), es[1..], w, i - 1);
    }
  }

  lemma SpoiledFirst(s: State, es: seq<Event>, w: Way)
    requires CanRun(s, es) && es != [] && Spoils(s, es[0], w)
    ensures SpoiledAndSent(s, es, w) <==> |Stream(s, w)| < |Stream(Run(s, es), w)|
  {
    hide Can, Do, Spoils, Run, Stream;
    assert StateAt(s, es, 0) == s;
    if |Stream(s, w)| < |Stream(Run(s, es), w)| {
      assert SpoiledAt(s, es, w, 0);
    }
    forall i | 0 <= i < |es| && SpoiledAt(s, es, w, i) ensures |Stream(s, w)| < |Stream(Run(s, es), w)| {
      GrowsTo(s, es, w, i);
    }
  }

  lemma SpoiledLater(s: State, es: seq<Event>, w: Way)
    requires CanRun(s, es) && es != [] && !Spoils(s, es[0], w)
    ensures SpoiledAndSent(s, es, w) <==> SpoiledAndSent(Do(s, es[0]), es[1..], w)
  {
    hide Can, Do, Spoils, Stream;
    var s', rest := Do(s, es[0]), es[1..];
    forall i | 0 <= i < |rest| ensures SpoiledAt(s', rest, w, i) <==> SpoiledAt(s, es, w, i + 1) {
      assert StateAt(s, es, i + 1) == StateAt(s', rest, i) && es[i + 1] == rest[i];
    }
    assert !SpoiledAt(s, es, w, 0);
    if SpoiledAndSent(s, es, w) {
      var i :| 0 <= i < |es| && SpoiledAt(s, es, w, i);
      assert SpoiledAt(s', rest, w, i - 1);
    }
    if SpoiledAndSent(s', rest, w) {
      var i :| 0 <= i < |rest| && SpoiledAt(s', rest, w, i);
      assert SpoiledAt(s, es, w, i + 1);
    }
  }

  /** Either stream, over every run: it stops parsing exactly when a payload was spoiled (empty, cut, too
      large, or failed to be sent after its header) and anything was sent the same way from then on. */
  lemma StreamBreaksIff(u: Setup, es: seq<Event>, w: Way)
    requires CanRun(Init(u), es)
    ensures !Parses(Stream(Run(Init(u), es), w)) <==> SpoiledAndSent(Init(u), es, w)
  {
    hide Can, Do, Parses, Aligned, Stream, Init;
    StartsAligned(u, w);
    BreaksIff(Init(u), es, w);
  }

  /** As long as no payload is spoiled its writer goes on where the stream is. */
  lemma {:induction false} AlignedRun(s: State, es: seq<Event>)
    requires CanRun(s, es) && Aligned(s, ToClient) && Avoids(s, es, Down)
    ensures Aligned(Run(s, es), ToClient)
    decreases |es|
  {
    hide Can, Do, Aligned, PayloadSpoiled;
    if es != [] {
      AlignedStep(s, es[0], ToClient);
      AlignedRun(Do(s, es[0]), es[1..]);
    }
  }

  /** Nobody is sending, the last message is a header, and `next` is not what has to come next. */
  ghost predicate LeftOpen(s: State, header: Message, next: Message) {
    s.sv.lock == None && ModeOf(s.net.s2c) == Expect(header) && !Parses(s.net.s2c + [Ctl(next)])
  }

  /** A header of which nothing follows frees the lock, and the next control message the server sends,
      whatever it is, breaks the stream. */
  lemma MissingPayloadBreaksStream(s: State, id: nat, ok: bool, m: Message)
    requires CanSendPayload(s, id) && !Sent(s, s.sv.tasks[id], ok) && Aligned(s, ToClient)
    ensures LeftOpen(SendPayload(s, id, ok), Header(id, s.sv.tasks[id]), m)
  {
    hide Aligned, Parses, ModeOf, Sent;
    BodyAligned(s, id, ok);
    ModeStep(s.net.s2c, Ctl(m));
    ParsesIffSound(s.net.s2c + [Ctl(m)]);
  }
}
