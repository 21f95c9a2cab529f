/** Credits of a zcopy connection: none is created, where one can be lost, and who can be waited for. */
module ZcopyCredits {
  import opened Wire
  import opened Protocol
  import opened Zcopy
  import opened ZcopyInv
  import opened ZcopyClientSteps
  import opened ZcopyLoopSteps
  import opened ZcopyServerSteps
  import opened ZcopyFrames
  import opened ZcopyFlaws
  import opened ZcopyTheorems
  import G = Gate

  function CreditsOf(s: State): int {
    Credits(s.sv.gate, s.sv.tasks, s.net.s2c, s.net.s2cRead, s.cl.recv, s.cl.inbox, s.cl.tokens, s.cl.ops, s.cl.opHead,
            s.net.c2s, s.net.c2sRead)
  }

  /** Payloads on their way to the client, or with it and not yet acknowledged. */
  function Unacked(s: State): nat {
    Total(HeaderOf, s.net.s2c, s.net.s2cRead) + Held(s.cl.recv) + Count(s.cl.inbox, HoldsPayload) + |s.cl.tokens|
  }

  // ------------------------------------------------------------ requests stay

  /** Nothing but a new call changes the table of requests. */
  lemma KindsSame(s: State, e: Event)
    requires Can(s, e) && !e.EIssue?
    ensures Do(s, e).cl.kinds == s.cl.kinds
  {
    hide TakeReply, TakePayload, Leave, Release, SendControl, RecvControl, RecvPayload, StopRecv, HandOver, Serve, ServePayload,
      ServeReply, LookUp, SendHeader, SendPayload, Land, LandPart, CanIssue, CanAppWrite, Splice;
    if AtClient(e) {
      ClientLeaves(s, e);
    } else if AtServer(e) {
      ServerLeaves(s, e);
    } else {
      match e
      case ELand => LandFrame(s);
      case ELandPart(k) => LandPartFrame(s, k);
      case _ =>
    }
  }

  /** What a request asked for never changes. */
  lemma KindsStay(s: State, e: Event, id: nat)
    requires Can(s, e) && id in s.cl.kinds
    requires Inv(s)
    ensures id in Do(s, e).cl.kinds && Do(s, e).cl.kinds[id] == s.cl.kinds[id]
  {
    hide InvUpTo, CanIssue;
    match e
    case EIssue(_) => NewRequest(s);
    case _ =>
      hide *;
      KindsSame(s, e);
  }

  lemma NewRequest(s: State)
    requires Inv(s)
    ensures s.cl.nextReq + 1 !in s.cl.kinds
  {
    hide Routes, Windows, StreamInv, ServerInv, GetInv, CreditInv;
  }

  // ------------------------------------------------------------ conservation

  predicate GrantedOf(s: State, credits: nat) {
    1 in s.cl.kinds && s.cl.kinds[1] == Hello(credits) && (s.gh.granted == 0 || s.gh.granted == credits)
  }

  /** Only reading hello grants, and only once, unless a payload is obeyed. */
  lemma GrantedStays(s: State, e: Event, credits: nat)
    requires Inv(s) && Can(s, e) && GrantedOf(s, credits) && !Causes(s, e, Misread)
    ensures GrantedOf(Do(s, e), credits)
    ensures s.gh.granted > 0 ==> Do(s, e).gh.granted == s.gh.granted
  {
    hide InvUpTo, TakeReply, TakePayload, Leave, Release, SendControl, RecvControl, RecvPayload, StopRecv, HandOver, Serve, ServePayload,
      ServeReply, LookUp, SendHeader, SendPayload, Land, LandPart, CanIssue, CanAppWrite, Splice, ServerObeys, ClientObeys;
    KindsStay(s, e, 1);
    if AtClient(e) {
      ClientLeaves(s, e);
    } else {
      match e
      case EServe => ServeGrants(s, credits);
      case EServePayload => ServePayloadFrame(s);
      case EServeReply(ok, goOn) => ServeReplyFrame(s, ok, goOn);
      case ELookUp(id) => LookUpFrame(s, id);
      case ESendHeader(id, ok) => SendHeaderFrame(s, id, ok);
      case ESendPayload(id, ok) => SendPayloadFrame(s, id, ok);
      case ELand => LandFrame(s);
      case ELandPart(k) => LandPartFrame(s, k);
      case _ =>
    }
  }

  lemma ServeGrants(s: State, credits: nat)
    requires CanServe(s) && Inv(s) && GrantedOf(s, credits) && !ServerObeys(s)
    ensures Serve(s).gh.granted == s.gh.granted || (s.gh.granted == 0 && Serve(s).gh.granted == credits)
  {
    hide Tables, Windows, Routes, StreamInv, ServerInv, GetInv, Credits, OneHello, Trim, PutRejected;
    if s.net.c2s[s.net.c2sRead].Ctl? {
      var m := s.net.c2s[s.net.c2sRead].msg;
      ClientSends(s);
      if m.HelloReq? && m.credits > 0 {
        HelloIsFirst(s, m.reqId, m.credits);
        NothingGranted(s);
      }
    }
  }

  lemma {:induction false} GrantedOverRuns(s: State, es: seq<Event>, credits: nat)
    requires CanRun(s, es) && Avoids(s, es, Misread) && Inv(s) && GrantedOf(s, credits)
    ensures GrantedOf(Run(s, es), credits)
    ensures s.gh.granted > 0 ==> Run(s, es).gh.granted == s.gh.granted
    decreases |es|
  {
    hide Inv, Can, Do, GrantedOf, Causes;
    if es != [] {
      StepKeeps(s, es[0]);
      GrantedStays(s, es[0], credits);
      GrantedOverRuns(Do(s, es[0]), es[1..], credits);
    }
  }

  /** In every state reached without obeying a payload, the credits of the one hello are all somewhere
      or lost, so payloads not yet acknowledged never exceed what the client offered. */
  lemma CreditConservation(u: Setup, es: seq<Event>)
    requires Usable(u) && CanRun(Init(u), es) && Avoids(Init(u), es, Misread)
    ensures var s := Run(Init(u), es);
            && (s.gh.granted == 0 || s.gh.granted == u.credits)
            && CreditsOf(s) + s.gh.lost == s.gh.granted && s.sv.gate.credits >= 0
            && Unacked(s) + s.sv.gate.credits + s.gh.lost <= u.credits
  {
    hide Can, Do, ClientInv, StreamInv, ServerInv, GetInv, OneHello, Init, Causes;
    InitInv(u);
    InitGranted(u);
    RunKeeps(Init(u), es);
    GrantedOverRuns(Init(u), es, u.credits);
    CreditsSplit(Run(Init(u), es));
  }

  lemma InitGranted(u: Setup)
    ensures GrantedOf(Init(u), u.credits)
  {
  }

  /** A payload obeyed as an ack adds credits that nobody granted: as many as it says. */
  lemma ObeyedAckAddsCredits(s: State, n: int)
    requires CanServe(s) && s.net.c2s[s.net.c2sRead].Data? && ServerTakes(s) == Some(Ack(n)) && n > 0
    requires Inv(s)
    ensures CreditsOf(Serve(s)) + Serve(s).gh.lost == Serve(s).gh.granted + n
  {
    hide ClientInv, ServerInv, GetInv, OneHello, Credits, ModeOf;
    TotalPop(AckOf, s.net.c2s, s.net.c2sRead);
    CreditsSplit(s);
    CreditsSplit(Serve(s));
  }

  // ------------------------------------------------------------------- losses

  /** A header that could not be sent, an ack that could not be queued or sent, a waiter that leaves
      with its payload already in the channel, or a sender that gives up with it there. */
  ghost predicate Loses(s: State, e: Event)
    requires Can(s, e)
  {
    match e
    case ESendHeader(_, ok) => !ok
    case ESendControl(ok) => !ok && s.cl.ops[s.cl.opHead].Credit?
    case ERelease(_, ok) => !ok
    case ETakePayload(id, ok) => !ok && !Acceptable(s.cl.kinds[id], s.cl.inbox[id].value, |s.cl.mem|)
    case ERecvPayload(_, ok) => !ok && s.cl.recv.meta.reqId !in s.cl.pending
    case ELeave(id, _) => HoldsPayload(s.cl.inbox[id])
    case EGiveUp(id) => HoldsPayload(s.cl.inbox[id])
    case _ => false
  }

  lemma LostIffLoses(s: State, e: Event)
    requires Can(s, e) && !s.gh.torn && !s.gh.upTorn
    requires Inv(s)
    ensures Do(s, e).gh.lost == s.gh.lost + One(Loses(s, e))
  {
    hide InvUpTo, CallerDoes, LoopDoes, ServeLoopDoes, RoutineDoes, Land, LandPart;
    if ByCaller(e) {
      CallerLoses(s, e);
    } else if ByLoop(e) {
      LoopLoses(s, e);
    } else if ByServeLoop(e) {
      ServeLoopLoses(s, e);
    } else if ByRoutine(e) {
      RoutineLoses(s, e);
    } else {
      match e
      case ELand => LandFrame(s);
      case ELandPart(k) => LandPartFrame(s, k);
      case _ =>
    }
  }

  lemma CallerLoses(s: State, e: Event)
    requires ByCaller(e) && Can(s, e) && !s.gh.torn
    requires Inv(s)
    ensures CallerDoes(s, e).gh.lost == s.gh.lost + One(Loses(s, e))
  {
    hide InvUpTo, TakeReply, TakePayload, Leave, Release, CanIssue, CanAppWrite, Acceptable, Splice;
    match e
    case ETakeReply(id) => ReplyLosesNothing(s, id);
    case ETakePayload(id, ok) => RejectLoses(s, id, ok);
    case ELeave(id, timeout) => LeaveLoses(s, id, timeout);
    case EGiveUp(id) => LeaveLoses(s, id, true);
    case ERelease(t, ok) => ReleaseLoses(s, t, ok);
    case _ =>
  }

  lemma LoopLoses(s: State, e: Event)
    requires ByLoop(e) && Can(s, e) && !s.gh.torn
    requires Inv(s)
    ensures LoopDoes(s, e).gh.lost == s.gh.lost + One(Loses(s, e))
  {
    hide InvUpTo, SendControl, RecvControl, RecvPayload, StopRecv;
    match e
    case ESendControl(ok) => SendLoses(s, ok);
    case ERecvControl => RecvControlFrame(s);
    case ERecvPayload(n, ok) => DiscardLoses(s, n, ok);
    case _ =>
  }

  lemma ServeLoopLoses(s: State, e: Event)
    requires ByServeLoop(e) && Can(s, e) && !s.gh.upTorn
    requires Inv(s)
    ensures ServeLoopDoes(s, e).gh.lost == s.gh.lost
  {
    hide InvUpTo, Serve, ServePayload, ServeReply;
    match e
    case EServe => ServeFrame(s);
    case EServePayload => PutLosesNothing(s);
    case EServeReply(ok, goOn) => ServeReplyFrame(s, ok, goOn);
    case EServeFail =>
  }

  lemma RoutineLoses(s: State, e: Event)
    requires ByRoutine(e) && RoutineCan(s, e)
    requires Inv(s)
    ensures RoutineDoes(s, e).gh.lost == s.gh.lost + One(e.ESendHeader? && !e.ok)
  {
    hide InvUpTo, LookUp, SendHeader, SendPayload;
    match e
    case ELookUp(id) => LookUpFrame(s, id);
    case ESendHeader(id, ok) => HeaderLoses(s, id, ok);
    case ESendPayload(id, ok) => SendPayloadFrame(s, id, ok);
    case _ =>
  }

  lemma ReplyLosesNothing(s: State, id: nat)
    requires CanTakeReply(s, id)
    ensures TakeReply(s, id).gh.lost == s.gh.lost
  {
  }

  lemma LeaveLoses(s: State, id: nat, timeout: bool)
    requires id in s.cl.inbox
    ensures Leave(s, id, timeout).gh.lost == s.gh.lost + One(HoldsPayload(s.cl.inbox[id]))
  {
  }

  lemma ReleaseLoses(s: State, t: nat, ok: bool)
    requires CanRelease(s, t)
    ensures Release(s, t, ok).gh.lost == s.gh.lost + One(!ok)
  {
  }

  lemma SendLoses(s: State, ok: bool)
    requires CanSendControl(s)
    ensures SendControl(s, ok).gh.lost == s.gh.lost + One(!ok && s.cl.ops[s.cl.opHead].Credit?)
  {
    hide RequestMsg;
  }

  lemma HeaderLoses(s: State, id: nat, ok: bool)
    requires CanSendHeader(s, id)
    requires Inv(s)
    ensures SendHeader(s, id, ok).gh.lost == s.gh.lost + One(!ok)
  {
    hide InvUpTo;
    HeaderOffset(s, id);
  }

  lemma DiscardLoses(s: State, n: nat, ok: bool)
    requires CanRecvPayload(s) && !s.gh.torn
    requires Inv(s)
    ensures RecvPayload(s, n, ok).gh.lost == s.gh.lost + One(!ok && s.cl.recv.meta.reqId !in s.cl.pending)
  {
    hide ClientInv, StreamInv, ServerInv, GetInv, CreditInv, HandOver;
    PayloadNext(s);
    IdsPositive(s);
  }

  lemma RejectLoses(s: State, id: nat, ok: bool)
    requires CanTakePayload(s, id) && !s.gh.torn
    requires Inv(s)
    ensures TakePayload(s, id, ok).gh.lost
         == s.gh.lost + One(!ok && !Acceptable(s.cl.kinds[id], s.cl.inbox[id].value, |s.cl.mem|))
  {
    hide ClientInv, StreamInv, ServerInv, CreditInv, Acceptable, Alive, Memory, Tokens;
    assert GoodInbound(s.cl.kinds, s.sv.tasks, s.gh.live, s.net.s2cRead, id, s.cl.inbox[id].value);
  }

  lemma PutLosesNothing(s: State)
    requires CanServePayload(s) && !s.gh.upTorn
    requires Inv(s)
    ensures ServePayload(s).gh.lost == s.gh.lost
  {
    hide ClientInv, StreamInv, ServerInv, GetInv, CreditInv, Matches;
    PutDataNext(s);
  }

  lemma HeaderOffset(s: State, id: nat)
    requires id in s.sv.tasks && LookedUp(s.sv.tasks[id].phase)
    requires Inv(s)
    ensures s.sv.tasks[id].off >= 0
  {
    hide ClientInv, StreamInv, GetInv, CreditInv, Places, Replies, RequestMsg;
    OneTask(s, id);
  }

  // --------------------------------------------------------------- starvation

  /** A step of the loops, the goroutines or the network that moves something on. */
  predicate MovesOn(e: Event) {
    match e
    case ESendControl(ok) => ok
    case ESendData(ok) => ok
    case ERecvControl => true
    case ERecvPayload(_, ok) => ok
    case EServe => true
    case EServePayload => true
    case EServeReply(ok, _) => ok
    case EGrant(_) => true
    case ESendHeader(_, ok) => ok
    case ESendPayload(_, ok) => ok
    case ELand => true
    case _ => false
  }

  ghost predicate CanMoveOn(s: State) {
    exists e :: MovesOn(e) && Can(s, e)
  }

  /** A payload waits in a result channel, or a caller has not released its buffer. */
  predicate ClientHolds(s: State) {
    s.cl.tokens != map[] || exists id :: id in s.cl.inbox && HoldsPayload(s.cl.inbox[id])
  }

  lemma Move(s: State, e: Event)
    requires MovesOn(e) && Can(s, e)
    ensures CanMoveOn(s)
  {
  }

  /** All loops go on: after Close the send loop returns, with acks left in the queue. */
  predicate Running(s: State) {
    !s.gh.torn && !s.gh.overrun && !s.sv.serve.Exited? && !s.cl.recv.Stopped? && !s.cl.closed
  }

  /** Whoever has the send lock can send. */
  lemma LockedMovesOn(s: State)
    requires s.sv.lock.Some?
    requires Inv(s)
    ensures CanMoveOn(s)
  {
    hide ClientInv, StreamInv, GetInv, CreditInv, TaskRequests, Replies, FromServer;
    var id := s.sv.lock.value;
    HeaderOffset(s, id);
    Move(s, ESendPayload(id, true));
  }

  lemma UnreadMovesOn(s: State)
    requires Running(s) && s.net.s2cRead < |s.net.s2c|
    requires Inv(s)
    ensures CanMoveOn(s)
  {
    hide Tables, Routes, TaskRequests, Places, Replies, GetInv, CreditInv, ModeOf, Written;
    if s.net.s2cRead == s.net.landed {
      if s.net.s2c[s.net.landed].Data? {
        NextToLand(s);
        assert s.net.s2c[s.net.landed].off + |s.net.s2c[s.net.landed].body| <= |s.cl.mem|;
      }
      Move(s, ELand);
    } else if s.cl.recv == AtControl {
      Move(s, ERecvControl);
    } else {
      HeaderKind(s);
      Move(s, ERecvPayload(0, true));
    }
  }

  /** The receive loop waits for a payload only after a header. */
  lemma HeaderKind(s: State)
    requires s.cl.recv.AtPayload? && !s.gh.torn
    requires Inv(s)
    ensures s.cl.recv.meta.GetMeta?
  {
    hide ClientInv, TaskRequests, Replies, GetInv, CreditInv, Written, TaskPlace;
    var log := s.net.s2c[..s.net.s2cRead];
    ExpectsLast(log, s.cl.recv.meta);
    assert FromServer(s.cl.kinds, s.sv.tasks, s.net.s2c, s.net.s2cRead - 1);
    ModeStep(log[..|log| - 1], Ctl(s.cl.recv.meta));
    assert log == log[..|log| - 1] + [Ctl(s.cl.recv.meta)];
  }

  lemma HeldMovesOn(s: State)
    requires Running(s) && s.cl.recv.AtPayload?
    requires Inv(s)
    ensures CanMoveOn(s)
  {
    hide ClientInv, ServerInv, GetInv, CreditInv, ModeOf;
    if s.net.s2cRead < |s.net.s2c| {
      UnreadMovesOn(s);
    } else {
      assert s.net.s2c[..s.net.s2cRead] == s.net.s2c;
      LockedMovesOn(s);
    }
  }

  lemma QueuedMovesOn(s: State)
    requires s.cl.opHead < |s.cl.ops|
    requires Inv(s)
    ensures CanMoveOn(s)
  {
    hide Tables, StreamInv, ServerInv, GetInv, CreditInv, FromClient, WindowsApart;
    if s.cl.opMid {
      Move(s, ESendData(true));
    } else {
      Move(s, ESendControl(true));
    }
  }

  lemma ToServeMovesOn(s: State)
    requires Running(s) && s.net.c2sRead < |s.net.c2s|
    requires Inv(s)
    ensures CanMoveOn(s)
  {
    hide ClientInv, StreamInv, GetInv, CreditInv, TaskRequests, Places;
    match s.sv.serve
    case Reading => Move(s, EServe);
    case ReadingPayload(_) => Move(s, EServePayload);
    case Replying(_) =>
      if s.sv.lock == None {
        Move(s, EServeReply(true, true));
      } else {
        LockedMovesOn(s);
      }
    case Exited =>
  }

  /** A GET waiting for a credit, while not every credit is lost, always has a step of another
      party to wait for, or a payload in the client's hands. */
  lemma WaiterNotStuck(s: State, id: nat)
    requires InTask(s, id, Waits) && Running(s) && s.gh.lost < s.gh.granted
    requires Inv(s)
    ensures CanMoveOn(s) || ClientHolds(s)
  {
    hide ClientInv, StreamInv, ServerInv, GetInv, OneHello, Credits;
    CreditsSplit(s);
    if s.sv.gate.credits > 0 {
      Move(s, EGrant(id));
    } else if Count(s.sv.tasks, IsGranted) > 0 {
      CountPositive(s.sv.tasks, IsGranted);
      var g :| g in s.sv.tasks && IsGranted(s.sv.tasks[g]);
      if s.sv.lock == None {
        Move(s, ESendHeader(g, true));
      } else {
        LockedMovesOn(s);
      }
    } else if Total(HeaderOf, s.net.s2c, s.net.s2cRead) > 0 {
      UnreadMovesOn(s);
    } else if Held(s.cl.recv) > 0 {
      HeldMovesOn(s);
    } else if Count(s.cl.inbox, HoldsPayload) > 0 {
      CountPositive(s.cl.inbox, HoldsPayload);
    } else if Total(CreditOf, s.cl.ops, s.cl.opHead) > 0 {
      QueuedMovesOn(s);
    } else if Total(AckOf, s.net.c2s, s.net.c2sRead) > 0 {
      ToServeMovesOn(s);
    }
  }

  lemma LostGrows(s: State, e: Event)
    requires Can(s, e)
    ensures Do(s, e).gh.lost >= s.gh.lost
  {
    hide TakeReply, TakePayload, Leave, Release, SendControl, RecvControl, RecvPayload, StopRecv, HandOver, Serve, ServePayload,
      ServeReply, LookUp, SendHeader, SendPayload, Land, LandPart, CanIssue, CanAppWrite, Splice;
    if AtClient(e) {
      ClientLeaves(s, e);
    } else if AtServer(e) {
      ServerLeaves(s, e);
    } else {
      match e
      case ELand => LandFrame(s);
      case ELandPart(k) => LandPartFrame(s, k);
      case _ =>
    }
  }

  /** Once every credit is lost no GET gets one again. */
  lemma {:induction false} AllLostStarves(s: State, es: seq<Event>, credits: nat, id: nat)
    requires CanRun(s, es) && Avoids(s, es, Misread) && GrantedOf(s, credits) && s.gh.lost == s.gh.granted > 0
    requires Inv(s)
    ensures Run(s, es).gh.lost == s.gh.granted && !CanGrant(Run(s, es), id)
    decreases |es|
  {
    hide Can, Do, Causes, ClientInv, StreamInv, ServerInv, GetInv, OneHello, Credits, GrantedOf;
    CreditsSplit(s);
    if es != [] {
      var s' := Do(s, es[0]);
      StepKeeps(s, es[0]);
      GrantedStays(s, es[0], credits);
      LostGrows(s, es[0]);
      CreditsSplit(s');
      AllLostStarves(s', es[1..], credits, id);
    }
  }
}
