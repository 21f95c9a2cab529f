/** How much is left to do on a zcopy connection: only its callers, the store and the bytes of a payload
    in flight can keep it busy. */
module ZcopyWork {
  import opened Counters
  import opened Wire
  import opened Protocol
  import opened Zcopy
  import opened ZcopyInv
  import opened ZcopyServerSteps
  import opened ZcopyFrames
  import opened ZcopyFlaws
  import opened ZcopyTheorems
  import opened ZcopyBreaks
  import opened ZcopyCredits

  /** Every step of the loops, the goroutines and the network, whether it succeeds or not. */
  predicate Internal(e: Event) {
    !ByCaller(e) && !e.EChangeObjects? && !e.ELandPart?
  }

  // ------------------------------------------------------------- the measure

  /** An ack is only read; anything else may be answered or start a GET. */
  function ItemWork(x: Item): nat {
    if x.Ctl? && x.msg.Ack? then 1 else 13
  }

  /** A request may be two items. */
  function OpWork(op: SendOp): nat {
    if op.Credit? then 2 else 28
  }

  function PhaseWork(p: TaskPhase): nat {
    match p
    case Looking => 12
    case Waits => 11
    case Granted => 10
    case HeaderOut(_) => 5
    case Answering => 5
    case _ => 0
  }

  function ServeWork(m: ServeMode): nat {
    match m
    case Exited => 0
    case Replying(_) => 6
    case _ => 1
  }

  predicate Over5(t: Task) { PhaseWork(t.phase) >= 5 }
  predicate Over10(t: Task) { PhaseWork(t.phase) >= 10 }
  predicate Over11(t: Task) { PhaseWork(t.phase) >= 11 }
  predicate Over12(t: Task) { PhaseWork(t.phase) >= 12 }

  function TasksWork(tasks: map<nat, Task>): nat {
    5 * Count(tasks, Over5) + 5 * Count(tasks, Over10) + Count(tasks, Over11) + Count(tasks, Over12)
  }

  function Beyond(read: nat, all: nat): nat {
    if read < all then all - read else 0
  }

  function OpsWork(ops: seq<SendOp>, head: nat, mid: bool): nat {
    if mid then 14 + Total(OpWork, ops, head + 1) else Total(OpWork, ops, head)
  }

  function UpWork(c2s: seq<Item>, read: nat): nat {
    Total(ItemWork, c2s, read)
  }

  /** Each item to the client has to land and to be read, and may be acknowledged. */
  function DownWork(sent: nat, read: nat, landed: nat): nat {
    3 * Beyond(read, sent) + Beyond(landed, sent)
  }

  function Work(s: State): nat {
    OpsWork(s.cl.ops, s.cl.opHead, s.cl.opMid) + UpWork(s.net.c2s, s.net.c2sRead)
    + DownWork(|s.net.s2c|, s.net.s2cRead, s.net.landed)
    + One(!s.cl.recv.Stopped?) + ServeWork(s.sv.serve) + TasksWork(s.sv.tasks)
  }

  // -------------------------------------------------------------- each step

  lemma AtMost<T>(w: T -> nat, log: seq<T>, from: nat, x: T)
    ensures Total(w, log + [x], from) <= Total(w, log, from) + w(x)
  {
    if from <= |log| {
      TotalPush(w, log, from, x);
    }
  }

  lemma UpTo(c2s: seq<Item>, read: nat, x: Item)
    ensures UpWork(c2s + [x], read) <= UpWork(c2s, read) + ItemWork(x)
  {
    AtMost(ItemWork, c2s, read, x);
  }

  lemma UpFrom(c2s: seq<Item>, read: nat)
    requires read < |c2s|
    ensures UpWork(c2s, read + 1) == UpWork(c2s, read) - ItemWork(c2s[read])
  {
    TotalPop(ItemWork, c2s, read);
  }

  lemma AckQueued(ops: seq<SendOp>, head: nat, mid: bool)
    ensures OpsWork(ops + [Credit], head, mid) <= OpsWork(ops, head, mid) + 2
  {
    AtMost(OpWork, ops, head, Credit);
    AtMost(OpWork, ops, head + 1, Credit);
  }

  lemma OpTaken(ops: seq<SendOp>, head: nat)
    requires head < |ops|
    ensures OpsWork(ops, head + 1, false) == OpsWork(ops, head, false) - OpWork(ops[head])
    ensures OpsWork(ops, head, true) == OpsWork(ops, head + 1, false) + 14
  {
    TotalPop(OpWork, ops, head);
  }

  lemma TaskTo(tasks: map<nat, Task>, id: nat, t: Task)
    ensures TasksWork(tasks[id := t])
         == TasksWork(tasks) + PhaseWork(t.phase) - if id in tasks then PhaseWork(tasks[id].phase) else 0
  {
    CountSet(tasks, Over5, id, t);
    CountSet(tasks, Over10, id, t);
    CountSet(tasks, Over11, id, t);
    CountSet(tasks, Over12, id, t);
  }

  lemma SendControlWorks(s: State, ok: bool)
    requires CanSendControl(s)
    ensures Work(SendControl(s, ok)) < Work(s)
  {
    hide SendControl, UpWork, OpsWork, TasksWork, DownWork, RequestMsg, Announces;
    OpTaken(s.cl.ops, s.cl.opHead);
    match s.cl.ops[s.cl.opHead]
    case Credit =>
      SendAckEffect(s, ok);
      UpTo(s.net.c2s, s.net.c2sRead, Ctl(Ack(1)));
    case Request(id) =>
      SendRequestEffect(s, ok);
      UpTo(s.net.c2s, s.net.c2sRead, Ctl(RequestMsg(id, s.cl.kinds[id])));
  }

  lemma SendDataWorks(s: State, ok: bool)
    requires CanSendData(s)
    ensures Work(SendData(s, ok)) < Work(s)
  {
    hide UpWork, OpsWork, TasksWork, DownWork, Cut;
    OpTaken(s.cl.ops, s.cl.opHead);
    var k := s.cl.kinds[s.cl.ops[s.cl.opHead].id];
    UpTo(s.net.c2s, s.net.c2sRead, Data(Wrap(k.off), Cut(s.cl.mem[k.off..k.off + k.size])));
  }

  lemma RecvControlWorks(s: State)
    requires CanRecvControl(s)
    ensures Work(RecvControl(s)) < Work(s)
  {
    hide RecvControl, UpWork, OpsWork, TasksWork;
    var recv := RecvControlEffect(s);
  }

  lemma RecvPayloadWorks(s: State, frameLen: nat, ok: bool)
    requires CanRecvPayload(s)
    ensures Work(RecvPayload(s, frameLen, ok)) < Work(s)
  {
    hide RecvPayload, UpWork, OpsWork, TasksWork;
    if StillWaits(s) {
      HandedOverEffect(s, frameLen, ok);
    } else {
      AckQueued(s.cl.ops, s.cl.opHead, s.cl.opMid);
      DiscardedEffect(s, frameLen, ok);
    }
  }

  lemma RecvFailWorks(s: State)
    requires CanRecvFail(s)
    ensures Work(RecvFail(s)) < Work(s)
  {
    hide UpWork, OpsWork, TasksWork, DownWork;
  }

  lemma ServeWorks(s: State)
    requires CanServe(s)
    ensures Work(Serve(s)) < Work(s)
  {
    hide UpWork, OpsWork, TasksWork, DownWork, PutRejected, Trim, ServerTakes;
    UpFrom(s.net.c2s, s.net.c2sRead);
    ServeTakes(s);
    match ServerTakes(s)
    case Some(m) =>
      if m.GetReq? {
        TaskTo(s.sv.tasks, m.reqId, Task(Looking, m, 0, []));
      }
    case None =>
  }

  /** Only an ack is read for one. */
  lemma ServeTakes(s: State)
    requires CanServe(s)
    ensures var x := s.net.c2s[s.net.c2sRead];
            ItemWork(x) == 13 || (ItemWork(x) == 1 && ServerTakes(s).Some? && ServerTakes(s).value.Ack?)
  {
  }

  lemma ServePayloadWorks(s: State)
    requires CanServePayload(s)
    ensures Work(ServePayload(s)) < Work(s)
  {
    hide UpWork, OpsWork, TasksWork, DownWork, Matches;
    UpFrom(s.net.c2s, s.net.c2sRead);
  }

  lemma ServeReplyWorks(s: State, ok: bool, goOn: bool)
    requires CanServeReply(s)
    ensures Work(ServeReply(s, ok, goOn)) < Work(s)
  {
    hide UpWork, OpsWork, TasksWork;
  }

  lemma RoutineWorks(s: State, e: Event)
    requires ByRoutine(e) && RoutineCan(s, e)
    ensures Work(RoutineDoes(s, e)) < Work(s)
  {
    hide UpWork, OpsWork, TasksWork, Trim, Sent, SentWhole, Cut, Header;
    var t' := RoutineDoes(s, e).sv.tasks[e.id];
    TaskTo(s.sv.tasks, e.id, t');
  }

  lemma LandWorks(s: State)
    requires CanLand(s)
    ensures Work(Land(s)) < Work(s)
  {
    hide UpWork, OpsWork, TasksWork, Splice;
  }

  /** Every step of the loops, the goroutines and the network leaves less to do. */
  lemma WorkDecreases(s: State, e: Event)
    requires Can(s, e) && Internal(e)
    ensures Work(Do(s, e)) < Work(s)
  {
    hide Work, SendControl, SendData, RecvControl, RecvPayload, RecvFail, Serve, ServePayload, ServeReply, ServeFail, RoutineDoes,
      RoutineCan, CanSendControl, CanSendData, CanRecvControl, CanRecvPayload, CanRecvFail, CanServe, CanServePayload, CanServeReply,
      CanServeFail;
    match e
    case ESendControl(ok) => SendControlWorks(s, ok);
    case ESendData(ok) => SendDataWorks(s, ok);
    case ERecvControl => RecvControlWorks(s);
    case ERecvPayload(n, ok) => RecvPayloadWorks(s, n, ok);
    case ERecvFail => RecvFailWorks(s);
    case EServe => ServeWorks(s);
    case EServePayload => ServePayloadWorks(s);
    case EServeReply(ok, goOn) => ServeReplyWorks(s, ok, goOn);
    case EServeFail => ServeFailWorks(s);
    case ELand => LandWorks(s);
    case _ => RoutineWorks(s, e);
  }

  lemma ServeFailWorks(s: State)
    requires CanServeFail(s)
    ensures Work(ServeFail(s)) < Work(s)
  {
    hide UpWork, OpsWork, TasksWork, DownWork;
  }

  // --------------------------------------------------------------- all runs

  predicate AllInternal(es: seq<Event>) {
    forall e <- es :: Internal(e)
  }

  /** Left to itself the connection comes to rest, within as many steps as there is work. */
  lemma {:induction false} ComesToRest(s: State, es: seq<Event>)
    requires CanRun(s, es) && AllInternal(es)
    ensures |es| + Work(Run(s, es)) <= Work(s)
    decreases |es|
  {
    hide Work, Can, Do, Internal;
    if es != [] {
      assert es[0] in es;
      WorkDecreases(s, es[0]);
      ComesToRest(Do(s, es[0]), es[1..]);
    }
  }

  /** So a GET that waits for a credit is not left waiting: a run of the loops, the goroutines and the
      network ends, and where nothing moves on any more the GET has been let through, or a payload is
      in the client's hands, or the stream to the client is torn, a loop has ended or every credit is
      lost. */
  lemma WaitersAreServed(s: State, es: seq<Event>, id: nat)
    requires CanRun(s, es) && AllInternal(es) && Avoids(s, es, Misread)
    requires Inv(s) && !CanMoveOn(Run(s, es))
    ensures |es| <= Work(s)
    ensures var s' := Run(s, es);
            InTask(s', id, Waits) && Running(s') && s'.gh.lost < s'.gh.granted ==> ClientHolds(s')
  {
    hide Work, Inv, Can, Do, CanMoveOn, Running, ClientHolds, Internal;
    ComesToRest(s, es);
    RunKeeps(s, es);
    if InTask(Run(s, es), id, Waits) && Running(Run(s, es)) && Run(s, es).gh.lost < Run(s, es).gh.granted {
      WaiterNotStuck(Run(s, es), id);
    }
  }

  // ---------------------------------------------------------------- shutdown

  /** The goroutine is done, and out of the wait group. */
  predicate Ended(p: TaskPhase) {
    p.Answered? || p.PayloadOut? || p.Over?
  }

  ghost predicate GoroutineMoves(s: State) {
    exists e :: ByRoutine(e) && Can(s, e)
  }

  lemma Moves(s: State, e: Event)
    requires ByRoutine(e) && RoutineCan(s, e)
    ensures GoroutineMoves(s)
  {
    hide RoutineCan;
    assert Can(s, e);
  }

  /** Once the gate is closed a goroutine that is not done is never left waiting for good: it has a step,
      or whoever holds the send lock has one. */
  lemma NobodyStuck(s: State, id: nat)
    requires s.sv.gate.closed && id in s.sv.tasks && !Ended(s.sv.tasks[id].phase)
    requires Inv(s)
    ensures GoroutineMoves(s)
  {
    hide ClientInv, StreamInv, GetInv, Replies, FromServer, TaskRequests;
    if s.sv.lock.Some? {
      HeaderOffset(s, s.sv.lock.value);
      Moves(s, ESendPayload(s.sv.lock.value, true));
    } else {
      assert TaskPlace(id, s.sv.tasks[id], None, s.net.s2c, s.gh.torn);
      OneTask(s, id);
      match s.sv.tasks[id].phase
      case Looking => Moves(s, ELookUp(id));
      case Answering => Moves(s, ESendAnswer(id, true));
      case Waits =>
        if s.sv.gate.credits > 0 {
          Moves(s, EGrant(id));
        } else {
          Moves(s, ERefuse(id));
        }
      case Granted => Moves(s, ESendHeader(id, true));
      case _ =>
    }
  }

  /** The serve loop closes the gate when it ends, and it stays closed. */
  predicate ShutIfExited(s: State) {
    s.sv.serve.Exited? ==> s.sv.gate.closed
  }

  lemma ServeShuts(s: State)
    requires CanServe(s)
    ensures ShutIfExited(Serve(s))
  {
    hide ServerTakes, ServeMessage;
    if ServerTakes(s).Some? {
      var s1 := Noted(s.(net := s.net.(c2sRead := s.net.c2sRead + 1)), s.net.c2s[s.net.c2sRead]);
      MessageShuts(s1, ServerTakes(s).value);
    }
  }

  lemma MessageShuts(s: State, m: Message)
    requires s.sv.serve == Reading
    ensures ShutIfExited(ServeMessage(s, m))
  {
    hide PutRejected, Trim;
  }

  /** What a step does to the goroutines once the serve loop has ended: they only get nearer to done. */
  predicate Drains(s: State, e: Event, s': State) {
    && s'.sv.serve == Exited
    && TasksWork(s'.sv.tasks) + One(ByRoutine(e)) <= TasksWork(s.sv.tasks)
  }

  lemma RoutineDrains(s: State, e: Event)
    requires ByRoutine(e) && RoutineCan(s, e)
    ensures TasksWork(RoutineDoes(s, e).sv.tasks) < TasksWork(s.sv.tasks)
    ensures RoutineDoes(s, e).sv.serve == s.sv.serve && (s.sv.gate.closed ==> RoutineDoes(s, e).sv.gate.closed)
  {
    hide TasksWork, Trim, Sent, SentWhole, Cut, Header;
    TaskTo(s.sv.tasks, e.id, RoutineDoes(s, e).sv.tasks[e.id]);
  }

  lemma LoopLeavesServer(s: State, e: Event)
    requires ByLoop(e) && Can(s, e)
    ensures LoopDoes(s, e).sv == s.sv
  {
    hide SendControl, SendData, RecvControl, RecvPayload, RecvFail;
    if e.ESendControl? || e.ESendData? {
      SendsToServer(s, e);
    } else {
      RecvWaits(s, e);
    }
  }

  lemma StepShuts(s: State, e: Event)
    requires Can(s, e) && ShutIfExited(s)
    ensures ShutIfExited(Do(s, e))
    ensures s.sv.serve == Exited ==> Drains(s, e, Do(s, e))
  {
    hide CallerDoes, LoopDoes, RoutineDoes, CallerCan, LoopCan, RoutineCan, WorldDoes, WorldCan, Serve, ServePayload, TasksWork;
    if ByCaller(e) {
      CallerWaits(s, e);
    } else if ByLoop(e) {
      LoopLeavesServer(s, e);
    } else if ByServeLoop(e) {
      ServeLoopShuts(s, e);
    } else if ByRoutine(e) {
      RoutineDrains(s, e);
    } else {
      WorldWaits(s, e);
    }
  }

  lemma ServeLoopShuts(s: State, e: Event)
    requires ByServeLoop(e) && ServeLoopCan(s, e) && ShutIfExited(s)
    ensures ShutIfExited(ServeLoopDoes(s, e)) && s.sv.serve != Exited
  {
    hide Serve, Matches;
    match e
    case EServe => ServeShuts(s);
    case _ =>
  }

  /** How many steps of goroutines a run has. */
  function Routines(es: seq<Event>): nat {
    if es == [] then 0 else One(ByRoutine(es[0])) + Routines(es[1..])
  }

  lemma {:induction false} ShutOverRuns(s: State, es: seq<Event>)
    requires CanRun(s, es) && ShutIfExited(s)
    ensures ShutIfExited(Run(s, es))
    ensures s.sv.serve == Exited ==>
              Run(s, es).sv.serve == Exited && TasksWork(Run(s, es).sv.tasks) + Routines(es) <= TasksWork(s.sv.tasks)
    decreases |es|
  {
    hide Can, Do, TasksWork, ShutIfExited, ByRoutine;
    if es != [] {
      StepShuts(s, es[0]);
      ShutOverRuns(Do(s, es[0]), es[1..]);
    }
  }

  /** Shutdown: when the serve loop has ended the goroutines take a bounded number of steps, whatever the
      client and its callers go on doing, and where none of them can take another one each is done, its
      header and payload sent or failed: the wait for them ends. */
  lemma GoroutinesEnd(u: Setup, es: seq<Event>, more: seq<Event>)
    requires Usable(u) && CanRun(Init(u), es) && Avoids(Init(u), es, Misread)
    requires Run(Init(u), es).sv.serve == Exited
    requires CanRun(Run(Init(u), es), more) && Avoids(Run(Init(u), es), more, Misread)
    ensures Routines(more) <= TasksWork(Run(Init(u), es).sv.tasks)
    ensures var s := Run(Run(Init(u), es), more);
            !GoroutineMoves(s) ==> forall id <- s.sv.tasks :: Ended(s.sv.tasks[id].phase)
  {
    hide Inv, Can, Do, TasksWork, GoroutineMoves, Causes;
    InitInv(u);
    ShutOverRuns(Init(u), es);
    RunKeeps(Init(u), es);
    var s0 := Run(Init(u), es);
    ShutOverRuns(s0, more);
    RunKeeps(s0, more);
    var s := Run(s0, more);
    if !GoroutineMoves(s) {
      forall id | id in s.sv.tasks ensures Ended(s.sv.tasks[id].phase) {
        if !Ended(s.sv.tasks[id].phase) {
          NobodyStuck(s, id);
        }
      }
    }
  }
}
