/** What is true of every state of every run of a zcopy connection. */
module ZcopyTheorems {
  import opened Counters
  import opened Wire
  import opened Protocol
  import opened Zcopy
  import opened ZcopyInv
  import opened ZcopyClientSteps
  import opened ZcopyLoopSteps
  import opened ZcopyServerSteps
  import opened ZcopyFlaws
  import G = Gate

  lemma InitInv(u: Setup)
    requires Usable(u)
    ensures Inv(Init(u))
  {
    hide CreditInv, ServerInv, GetInv, ClientInv;
    InitClient(u);
    InitServer(u);
    InitCredit(u);
  }

  lemma InitClient(u: Setup)
    requires Usable(u)
    ensures ClientInv(Init(u))
  {
  }

  lemma InitServer(u: Setup)
    ensures ServerInv(Init(u)) && GetInv(Init(u))
  {
  }

  lemma InitCredit(u: Setup)
    ensures CreditInv(Init(u), 0)
  {
    var s := Init(u);
    assert Matching(s.cl.inbox, HoldsPayload) == {};
    assert Matching(s.sv.tasks, IsGranted) == {};
    CreditsSplit(s);
  }

  lemma CallerKeeps(s: State, e: Event)
    requires Inv(s) && ByCaller(e) && CallerCan(s, e)
    ensures Inv(CallerDoes(s, e))
  {
    hide InvUpTo, Issue, TakeReply, TakePayload, Leave, Release, AppWrite, CanIssue;
    match e
    case EIssue(kind) => IssueKeeps(s, kind);
    case EEnqueue(id) => EnqueueKeeps(s, id);
    case ESentOK(id) => SentOKKeeps(s, id);
    case EGiveUp(id) => GiveUpKeeps(s, id);
    case ETakeReply(id) => TakeReplyKeeps(s, id);
    case ETakePayload(id, ok) => TakePayloadKeeps(s, id, ok);
    case ELeave(id, timeout) => LeaveKeeps(s, id, timeout);
    case ERelease(t, ok) => ReleaseKeeps(s, t, ok);
    case ECloseClient => CloseClientKeeps(s);
    case EAppWrite(off, data) => AppWriteKeeps(s, off, data);
  }

  lemma LoopKeeps(s: State, e: Event)
    requires Inv(s) && ByLoop(e) && LoopCan(s, e) && (e.ERecvControl? ==> !ClientObeys(s))
    ensures Inv(LoopDoes(s, e))
  {
    hide InvUpTo, SendControl, SendData, RecvControl, RecvPayload, RecvFail;
    match e
    case ESendControl(ok) => SendControlKeeps(s, ok);
    case ESendData(ok) => SendDataKeeps(s, ok);
    case ERecvControl => RecvControlKeeps(s);
    case ERecvPayload(n, ok) => RecvPayloadKeeps(s, n, ok);
    case ERecvFail => RecvFailKeeps(s);
  }

  lemma ServeLoopKeeps(s: State, e: Event)
    requires Inv(s) && ByServeLoop(e) && ServeLoopCan(s, e) && (e.EServe? ==> !ServerObeys(s))
    ensures Inv(ServeLoopDoes(s, e))
  {
    hide InvUpTo, Serve, ServePayload, ServeReply, ServeFail;
    match e
    case EServe => ServeKeeps(s);
    case EServePayload => ServePayloadKeeps(s);
    case EServeReply(ok, goOn) => ServeReplyKeeps(s, ok, goOn);
    case EServeFail => ServeFailKeeps(s);
  }

  lemma RoutineKeeps(s: State, e: Event)
    requires Inv(s) && ByRoutine(e) && RoutineCan(s, e)
    ensures Inv(RoutineDoes(s, e))
  {
    hide InvUpTo, LookUp, Grant, Refuse, SendHeader, SendPayload, SendAnswer;
    match e
    case ELookUp(id) => LookUpKeeps(s, id);
    case EGrant(id) => GrantKeeps(s, id);
    case ERefuse(id) => RefuseKeeps(s, id);
    case ESendHeader(id, ok) => SendHeaderKeeps(s, id, ok);
    case ESendPayload(id, ok) => SendPayloadKeeps(s, id, ok);
    case ESendAnswer(id, ok) => SendAnswerKeeps(s, id, ok);
  }

  lemma WorldKeeps(s: State, e: Event)
    requires Inv(s) && ByWorld(e) && WorldCan(s, e)
    ensures Inv(WorldDoes(s, e))
  {
    hide InvUpTo, Land, LandPart;
    match e
    case EChangeObjects(objects) => ChangeObjectsKeeps(s, objects);
    case ELand => LandKeeps(s);
    case ELandPart(k) => LandPartKeeps(s, k);
  }

  /** Every step keeps every invariant, unless a payload is obeyed as a control message. */
  lemma StepKeeps(s: State, e: Event)
    requires Inv(s) && Can(s, e) && !Causes(s, e, Misread)
    ensures Inv(Do(s, e))
  {
    hide Inv, CallerDoes, LoopDoes, ServeLoopDoes, RoutineDoes, WorldDoes, CallerCan, LoopCan, ServeLoopCan, RoutineCan, WorldCan,
      ServerObeys, ClientObeys;
    if ByCaller(e) {
      CallerKeeps(s, e);
    } else if ByLoop(e) {
      LoopKeeps(s, e);
    } else if ByServeLoop(e) {
      ServeLoopKeeps(s, e);
    } else if ByRoutine(e) {
      RoutineKeeps(s, e);
    } else {
      WorldKeeps(s, e);
    }
  }

  lemma {:induction false} RunKeeps(s: State, es: seq<Event>)
    requires Inv(s) && CanRun(s, es) && Avoids(s, es, Misread)
    ensures Inv(Run(s, es))
    decreases |es|
  {
    hide Inv, Can, Do, Causes;
    if es != [] {
      StepKeeps(s, es[0]);
      RunKeeps(Do(s, es[0]), es[1..]);
    }
  }

  /** The state after the first i events. */
  ghost function StateAt(s: State, es: seq<Event>, i: nat): State
    requires CanRun(s, es) && i <= |es|
    decreases |es|
  {
    if i == 0 then s else StateAt(Do(s, es[0]), es[1..], i - 1)
  }

  /** The i-th event of a run can be taken in the state before it, and leads to the state after it. */
  lemma {:induction false} StepAt(s: State, es: seq<Event>, i: nat)
    requires CanRun(s, es) && i < |es|
    ensures Can(StateAt(s, es, i), es[i]) && StateAt(s, es, i + 1) == Do(StateAt(s, es, i), es[i])
    decreases i
  {
    hide Can, Do;
    if i > 0 {
      StepAt(Do(s, es[0]), es[1..], i - 1);
    }
  }
}
