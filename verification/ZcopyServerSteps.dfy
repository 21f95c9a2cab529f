/** The steps of the server and of the network keep every invariant. */
module ZcopyServerSteps {
  import opened Wire
  import opened Counters
  import opened Protocol
  import opened Zcopy
  import opened ZcopyInv
  import opened ZcopyClientSteps
  import opened ZcopyLoopSteps
  import G = Gate

  // ---------------------------------------------------------- the serve loop

  /** Reading one item, after which the loop is in `mode`. */
  function Take(s: State, mode: ServeMode): State {
    s.(sv := s.sv.(serve := mode), net := s.net.(c2sRead := s.net.c2sRead + 1))
  }

  lemma TakeStep(s: State, mode: ServeMode, d: int)
    requires InvUpTo(s, d) && s.net.c2sRead < |s.net.c2s|
    requires Read(s.net.c2s, s.net.c2sRead + 1, ServeExpects(mode), s.gh.upTorn) && Replies(s.cl.kinds, mode)
    ensures InvUpTo(Take(s, mode), d - AckOf(s.net.c2s[s.net.c2sRead]))
  {
    hide Tables, Routes, Windows, Written, Read, TaskRequests, Places, Replies, Alive, Memory, Results, Tokens, OneHello, Credits;
    TakeRequests(s);
    TotalPop(AckOf, s.net.c2s, s.net.c2sRead);
    CreditsSplit(s);
    CreditsSplit(Take(s, mode));
  }

  lemma TakeRequests(s: State)
    requires TaskRequests(s.cl.kinds, s.gh.route, s.net.c2sRead, s.sv.tasks, s.gh.overrun)
    requires OneHello(s.cl.kinds, s.gh.route, s.net.c2sRead, s.gh.granted)
    ensures TaskRequests(s.cl.kinds, s.gh.route, s.net.c2sRead + 1, s.sv.tasks, s.gh.overrun)
    ensures OneHello(s.cl.kinds, s.gh.route, s.net.c2sRead + 1, s.gh.granted)
  {
  }

  function GateTo(s: State, g: G.Gate, granted: nat): State {
    s.(sv := s.sv.(gate := g), gh := s.gh.(granted := granted))
  }

  lemma GateStep(s: State, g: G.Gate, granted: nat, d: int)
    requires InvUpTo(s, d) && g.credits >= 0
    requires OneHello(s.cl.kinds, s.gh.route, s.net.c2sRead, granted)
    ensures InvUpTo(GateTo(s, g, granted), d + g.credits - s.sv.gate.credits - granted + s.gh.granted)
  {
    hide Tables, Routes, Windows, Written, Read, TaskRequests, Places, Replies, Alive, Memory, Results, Tokens, OneHello, Credits;
    CreditsSplit(s);
    CreditsSplit(GateTo(s, g, granted));
  }

  lemma ExitStep(s: State, d: int)
    requires InvUpTo(s, d)
    ensures InvUpTo(Exit(s), d)
  {
    hide Tables, Routes, Windows, Written, TaskRequests, Places, Alive, Memory, Results, Tokens, OneHello, Credits, ModeOf;
    CreditsSplit(s);
    CreditsSplit(Exit(s));
  }

  /** What the client sends as a control message. */
  lemma ClientSends(s: State)
    requires ClientInv(s) && s.net.c2sRead < |s.net.c2s| && s.net.c2s[s.net.c2sRead].Ctl?
    ensures FromClient(s.cl.kinds, s.gh.route, s.net.c2s[s.net.c2sRead].msg, s.net.c2sRead)
    ensures 0 !in s.cl.kinds
  {
    hide FromClient;
  }

  /** What the serve loop reads between requests, when nothing was torn. */
  lemma ServeNext(s: State)
    requires StreamInv(s) && CanServe(s)
    ensures var x := s.net.c2s[s.net.c2sRead];
            && (!s.gh.upTorn ==> x.Ctl?)
            && Read(s.net.c2s, s.net.c2sRead + 1, None, s.gh.upTorn)
            && Read(s.net.c2s, s.net.c2sRead + 1, Some(Clear), true)
            && (x.Ctl? && Announces(x.msg) ==> Read(s.net.c2s, s.net.c2sRead + 1, Some(Expect(x.msg)), s.gh.upTorn))
            && (x.Ctl? && !Announces(x.msg) ==> Read(s.net.c2s, s.net.c2sRead + 1, Some(Clear), s.gh.upTorn))
  {
    hide Written, ModeOf;
    if !s.gh.upTorn {
      ReadNext(s.net.c2s, s.net.c2sRead, Clear, s.cl.opMid, s.gh.upTorn);
    }
  }

  /** The first grant: until hello is read there is no credit anywhere. */
  lemma NothingGranted(s: State)
    requires CreditInv(s, 0) && 1 in s.gh.route && s.gh.route[1].c2s == Some(s.net.c2sRead)
    ensures s.gh.granted == 0 && s.sv.gate.credits == 0 && s.gh.lost == 0
  {
    CreditsSplit(s);
  }

  lemma HelloIsFirst(s: State, id: nat, credits: nat)
    requires OneHello(s.cl.kinds, s.gh.route, s.net.c2sRead, s.gh.granted)
    requires id in s.cl.kinds && s.cl.kinds[id].Hello? && id in s.gh.route && s.gh.route[id].c2s == Some(s.net.c2sRead)
    ensures id == 1
    ensures OneHello(s.cl.kinds, s.gh.route, s.net.c2sRead + 1, credits)
  {
  }

  lemma ServeHelloKeeps(s: State)
    requires Inv(s) && CanServe(s) && s.net.c2s[s.net.c2sRead].Ctl? && s.net.c2s[s.net.c2sRead].msg.HelloReq?
    ensures Inv(Serve(s))
  {
    hide Tables, Routes, Windows, Written, Read, TaskRequests, Places, Alive, Memory, Results, Tokens, OneHello, Credits;
    var m := s.net.c2s[s.net.c2sRead].msg;
    ClientSends(s);
    ServeNext(s);
    if m.credits <= 0 {
      TakeStep(s, Replying(HelloResp(m.reqId, 0, "invalid credits")), 0);
    } else {
      HelloIsFirst(s, m.reqId, m.credits);
      NothingGranted(s);
      var s1 := Take(s, Replying(HelloResp(m.reqId, m.credits, "")));
      TakeStep(s, s1.sv.serve, 0);
      GateStep(s1, G.SetCredits(s.sv.gate, m.credits), m.credits, 0);
    }
  }

  lemma ServeAckKeeps(s: State)
    requires Inv(s) && CanServe(s) && s.net.c2s[s.net.c2sRead].Ctl? && s.net.c2s[s.net.c2sRead].msg.Ack?
    ensures Inv(Serve(s))
  {
    hide Tables, Routes, Windows, Written, Read, TaskRequests, Places, Alive, Memory, Results, Tokens, OneHello, Credits;
    ClientSends(s);
    ServeNext(s);
    TakeStep(s, Reading, 0);
    var s1 := Take(s, Reading);
    GateStep(s1, G.AddCredits(s.sv.gate, 1), s.gh.granted, -1);
  }

  lemma ServeEnsureKeeps(s: State)
    requires Inv(s) && CanServe(s) && s.net.c2s[s.net.c2sRead].Ctl? && s.net.c2s[s.net.c2sRead].msg.EnsureBucketReq?
    ensures Inv(Serve(s))
  {
    hide Tables, Routes, Windows, Written, Read, TaskRequests, Places, Alive, Memory, Results, Tokens, OneHello, Credits, Trim;
    var m := s.net.c2s[s.net.c2sRead].msg;
    ClientSends(s);
    ServeNext(s);
    TakeStep(s, Replying(if Trim(m.bucket) == [] then RespErr(m.reqId) else RespOK(m.reqId)), 0);
  }

  lemma ServePutKeeps(s: State)
    requires Inv(s) && CanServe(s) && s.net.c2s[s.net.c2sRead].Ctl? && s.net.c2s[s.net.c2sRead].msg.PutReq?
    ensures Inv(Serve(s))
  {
    hide Tables, Routes, Windows, Written, Read, TaskRequests, Places, Alive, Memory, Results, Tokens, OneHello, Credits, PutRejected;
    var m := s.net.c2s[s.net.c2sRead].msg;
    ClientSends(s);
    ServeNext(s);
    if PutRejected(m, s.sv.maxObjectSize) {
      if m.size > 0 {
        TearUpStep(s, 0);
        TakeStep(TearUp(s), Replying(RespErr(m.reqId)), 0);
      } else {
        TakeStep(s, Replying(RespErr(m.reqId)), 0);
      }
    } else if m.size == 0 {
      TakeStep(s, Replying(RespOK(m.reqId)), 0);
    } else {
      TakeStep(s, ReadingPayload(m), 0);
    }
  }

  function Spawn(s: State, id: nat, m: Message): State {
    s.(sv := s.sv.(tasks := s.sv.tasks[id := Task(Looking, m, 0, [])]))
  }

  lemma SpawnStep(s: State, id: nat, m: Message, d: int)
    requires InvUpTo(s, d) && id !in s.sv.tasks && id in s.cl.kinds && s.cl.kinds[id].Get? && m == RequestMsg(id, s.cl.kinds[id])
    requires id in s.gh.route && s.gh.route[id].c2s.Some? && s.gh.route[id].c2s.value < s.net.c2sRead
    ensures InvUpTo(Spawn(s, id, m), d)
  {
    hide Tables, Routes, Windows, Written, Read, TaskRequests, Places, Alive, Memory, Results, Tokens, OneHello, Credits, RequestMsg;
    SpawnRequests(s, id, m);
    SpawnGet(s, id, m);
    PlacesQuiet(s.cl.kinds, s.sv.tasks, s.sv.lock, s.net.s2c, s.gh.torn, id, Task(Looking, m, 0, []));
    CountSet(s.sv.tasks, IsGranted, id, Task(Looking, m, 0, []));
    CreditsSplit(s);
    CreditsSplit(Spawn(s, id, m));
  }

  lemma SpawnRequests(s: State, id: nat, m: Message)
    requires TaskRequests(s.cl.kinds, s.gh.route, s.net.c2sRead, s.sv.tasks, s.gh.overrun)
    requires id in s.cl.kinds && s.cl.kinds[id].Get? && m == RequestMsg(id, s.cl.kinds[id])
    requires id in s.gh.route && s.gh.route[id].c2s.Some? && s.gh.route[id].c2s.value < s.net.c2sRead
    ensures TaskRequests(s.cl.kinds, s.gh.route, s.net.c2sRead, Spawn(s, id, m).sv.tasks, s.gh.overrun)
  {
    hide RequestMsg;
  }

  lemma SpawnGet(s: State, id: nat, m: Message)
    requires GetInv(s) && id !in s.sv.tasks
    ensures GetInv(Spawn(s, id, m))
  {
    SetTaskGet(s, id, Task(Looking, m, 0, []));
  }

  lemma NotSpawned(s: State, id: nat)
    requires TaskRequests(s.cl.kinds, s.gh.route, s.net.c2sRead, s.sv.tasks, s.gh.overrun)
    requires id in s.gh.route && s.gh.route[id].c2s == Some(s.net.c2sRead)
    ensures id !in s.sv.tasks
  {
  }

  lemma ServeGetKeeps(s: State)
    requires Inv(s) && CanServe(s) && s.net.c2s[s.net.c2sRead].Ctl? && s.net.c2s[s.net.c2sRead].msg.GetReq?
    ensures Inv(Serve(s))
  {
    hide Tables, Routes, Windows, Written, Read, TaskRequests, Places, Alive, Memory, Results, Tokens, OneHello, Credits;
    var m := s.net.c2s[s.net.c2sRead].msg;
    ClientSends(s);
    ServeNext(s);
    NotSpawned(s, m.reqId);
    TakeStep(s, Reading, 0);
    SpawnStep(Take(s, Reading), m.reqId, m, 0);
  }

  /** Unless a payload is obeyed, the loop does what the control message it reads says. */
  lemma ServeKeeps(s: State)
    requires Inv(s) && CanServe(s)
    requires s.net.c2s[s.net.c2sRead].Data? ==> ServerTakes(s) == None
    ensures Inv(Serve(s))
  {
    hide Tables, Routes, Windows, Written, Read, TaskRequests, Places, Alive, Memory, Results, Tokens, OneHello, Credits;
    match s.net.c2s[s.net.c2sRead]
    case Data(_, _) =>
      ServeNext(s);
      TakeStep(s, Exited, 0);
      ExitStep(Take(s, Exited), 0);
    case Ctl(m) =>
      ClientSends(s);
      match m
      case HelloReq(_, _) => ServeHelloKeeps(s);
      case Ack(_) => ServeAckKeeps(s);
      case EnsureBucketReq(_, _) => ServeEnsureKeeps(s);
      case PutReq(_, _, _, _, _) => ServePutKeeps(s);
      case GetReq(_, _, _, _, _) => ServeGetKeeps(s);
      case _ =>
  }

  /** What the serve loop reads after the header of a PUT, when nothing was torn. */
  lemma PutDataNext(s: State)
    requires StreamInv(s) && CanServePayload(s)
    ensures Read(s.net.c2s, s.net.c2sRead + 1, Some(Clear), s.gh.upTorn)
    ensures Read(s.net.c2s, s.net.c2sRead + 1, None, s.gh.upTorn)
    ensures !s.gh.upTorn ==>
              s.net.c2s[s.net.c2sRead].Data? && Matches(s.sv.serve.put, s.net.c2s[s.net.c2sRead].off, s.net.c2s[s.net.c2sRead].body)
  {
    hide Written, ModeOf, Matches;
    if !s.gh.upTorn {
      ReadNext(s.net.c2s, s.net.c2sRead, Expect(s.sv.serve.put), s.cl.opMid, s.gh.upTorn);
    }
  }

  lemma ServePayloadKeeps(s: State)
    requires Inv(s) && CanServePayload(s)
    ensures Inv(ServePayload(s))
  {
    hide Tables, Routes, Windows, Written, Read, TaskRequests, Places, Alive, Memory, Results, Tokens, OneHello, Credits;
    var m, x := s.sv.serve.put, s.net.c2s[s.net.c2sRead];
    PutDataNext(s);
    if x.Data? && Matches(m, x.off, x.body) {
      TakeStep(s, Replying(RespOK(m.reqId)), 0);
    } else {
      TakeStep(s, Exited, 0);
      var s1 := Take(s, Exited);
      var acks: int := AckOf(x);
      ExitStep(s1, -acks);
      LoseManyStep(Exit(s1), acks, -acks);
    }
  }

  lemma LoseManyStep(s: State, n: nat, d: int)
    requires InvUpTo(s, d)
    ensures InvUpTo(s.(gh := s.gh.(lost := s.gh.lost + n)), d + n)
  {
    hide Tables, Routes, Windows, Written, Read, TaskRequests, Places, Replies, Alive, Memory, Results, Tokens, OneHello, Credits;
  }

  /** One reply goes to the client. */
  function Say(s: State, x: Item): State {
    s.(net := s.net.(s2c := s.net.s2c + [x]))
  }

  lemma ServeReplyKeeps(s: State, ok: bool, goOn: bool)
    requires Inv(s) && CanServeReply(s)
    ensures Inv(ServeReply(s, ok, goOn))
  {
    hide Tables, Routes, Windows, Written, TaskRequests, Places, Replies, Alive, Memory, Results, Tokens, OneHello, Credits, ModeOf;
    if ok {
      ReplyKind(s);
      SayStep(s);
      BackToReading(Say(s, Ctl(s.sv.serve.reply)), 0);
    } else if goOn {
      BackToReading(s, 0);
    } else {
      ExitStep(s, 0);
    }
  }

  lemma ReplyKind(s: State)
    requires ServerInv(s) && s.sv.serve.Replying?
    ensures var r := s.sv.serve.reply;
            && (r.HelloResp? || r.RespOK? || r.RespErr?)
            && (r.reqId == 0 || (r.reqId in s.cl.kinds && !s.cl.kinds[r.reqId].Get?))
  {
  }

  lemma SayStep(s: State)
    requires Inv(s) && CanServeReply(s)
    ensures InvUpTo(Say(s, Ctl(s.sv.serve.reply)), 0)
  {
    hide Tables, Routes, Windows, Written, Read, TaskRequests, Places, Replies, Alive, Memory, Results, Tokens, OneHello, Credits;
    var r := s.sv.serve.reply;
    LogsFit(s);
    ReplyKind(s);
    WritePlain(s.net.s2c, r, s.gh.torn);
    ReadStays(s.net.s2c, Ctl(r), s.net.s2cRead, RecvExpects(s.cl.recv), s.gh.torn);
    PlacesReply(s.cl.kinds, s.sv.tasks, s.net.s2c, s.gh.torn, r);
    TotalPush(HeaderOf, s.net.s2c, s.net.s2cRead, Ctl(r));
    CreditsSplit(s);
    CreditsSplit(Say(s, Ctl(r)));
  }

  lemma BackToReading(s: State, d: int)
    requires InvUpTo(s, d) && s.sv.serve.Replying?
    ensures InvUpTo(s.(sv := s.sv.(serve := Reading)), d)
  {
    hide Tables, Routes, Windows, Written, Read, TaskRequests, Places, Alive, Memory, Results, Tokens, OneHello, Credits;
  }

  lemma ServeFailKeeps(s: State)
    requires Inv(s)
    ensures Inv(ServeFail(s))
  {
    hide InvUpTo;
    ExitStep(s, 0);
  }

  // --------------------------------------------------------- GET goroutines

  /** A goroutine that is not finished changes; a payload it has just sent has not landed. */
  lemma SetTaskGet(s: State, id: nat, t: Task)
    requires GetInv(s)
    requires id in s.sv.tasks ==> !s.sv.tasks[id].phase.Answered? && !s.sv.tasks[id].phase.PayloadOut?
    requires t.phase.PayloadOut? ==> t.phase.at + 1 >= s.net.landed
    ensures GetInv(SetTask(s, id, t))
  {
    hide InPlace;
    var s' := SetTask(s, id, t);
    if !s.gh.torn {
      forall i | i in s.cl.inbox && s.cl.inbox[i].Some?
        ensures GoodInbound(s.cl.kinds, s'.sv.tasks, s.gh.live, s.net.s2cRead, i, s.cl.inbox[i].value)
      {
        assert GoodInbound(s.cl.kinds, s.sv.tasks, s.gh.live, s.net.s2cRead, i, s.cl.inbox[i].value);
      }
      forall k | k in s.cl.tokens
        ensures GoodRef(s'.sv.tasks, s.gh.live, s.net.s2cRead, s.cl.refs, s.cl.tokens[k])
      {
        assert GoodRef(s.sv.tasks, s.gh.live, s.net.s2cRead, s.cl.refs, s.cl.tokens[k]);
      }
    }
  }

  lemma SetTaskRequests(s: State, id: nat, t: Task, overrun: bool)
    requires TaskRequests(s.cl.kinds, s.gh.route, s.net.c2sRead, s.sv.tasks, s.gh.overrun) && id in s.sv.tasks
    requires s.gh.overrun ==> overrun
    requires t.msg == s.sv.tasks[id].msg && TaskFits(s.cl.kinds[id], t, overrun)
    ensures TaskRequests(s.cl.kinds, s.gh.route, s.net.c2sRead, s.sv.tasks[id := t], overrun)
  {
    hide RequestMsg;
  }

  lemma OneTask(s: State, id: nat)
    requires TaskRequests(s.cl.kinds, s.gh.route, s.net.c2sRead, s.sv.tasks, s.gh.overrun) && id in s.sv.tasks
    ensures id in s.cl.kinds && s.cl.kinds[id].Get? && s.sv.tasks[id].msg == RequestMsg(id, s.cl.kinds[id])
    ensures TaskFits(s.cl.kinds[id], s.sv.tasks[id], s.gh.overrun)
  {
  }

  /** A goroutine that has sent nothing moves on without sending. */
  lemma MoveStep(s: State, id: nat, t: Task, d: int)
    requires InvUpTo(s, d) && id in s.sv.tasks && Quiet(s.sv.tasks[id].phase) && Quiet(t.phase)
    requires t.msg == s.sv.tasks[id].msg
    requires id in s.cl.kinds && TaskFits(s.cl.kinds[id], t, s.gh.overrun)
    ensures InvUpTo(SetTask(s, id, t), d + One(t.phase == Granted) - One(s.sv.tasks[id].phase == Granted))
  {
    hide Tables, Routes, Windows, Written, Read, TaskRequests, Places, Replies, Alive, Memory, Results, Tokens, OneHello, Credits, TaskFits;
    SetTaskRequests(s, id, t, s.gh.overrun);
    SetTaskGet(s, id, t);
    PlacesQuiet(s.cl.kinds, s.sv.tasks, s.sv.lock, s.net.s2c, s.gh.torn, id, t);
    CountSet(s.sv.tasks, IsGranted, id, t);
    CreditsSplit(s);
    CreditsSplit(SetTask(s, id, t));
  }

  function Overrun(s: State, over: bool): State {
    s.(gh := s.gh.(overrun := s.gh.overrun || over))
  }

  lemma OverrunStep(s: State, over: bool, d: int)
    requires InvUpTo(s, d)
    ensures InvUpTo(Overrun(s, over), d)
  {
    hide Tables, Routes, Windows, Written, Read, Places, Replies, Alive, Results, Tokens, OneHello, Credits, RequestMsg;
  }

  lemma LookUpKeeps(s: State, id: nat)
    requires Inv(s) && CanLookUp(s, id)
    ensures Inv(LookUp(s, id))
  {
    hide Tables, Routes, Windows, Written, Read, TaskRequests, Places, Replies, Alive, Memory, Results, Tokens, OneHello, Credits, Trim;
    var t := s.sv.tasks[id];
    OneTask(s, id);
    var t' := LookUp(s, id).sv.tasks[id];
    if t'.phase == Waits {
      OverrunStep(s, |t'.body| > t.msg.max, 0);
      MoveStep(Overrun(s, |t'.body| > t.msg.max), id, t', 0);
    } else {
      MoveStep(s, id, t', 0);
    }
  }

  lemma GrantKeeps(s: State, id: nat)
    requires Inv(s) && CanGrant(s, id)
    ensures Inv(Grant(s, id))
  {
    hide Tables, Routes, Windows, Written, Read, TaskRequests, Places, Replies, Alive, Memory, Results, Tokens, OneHello, Credits;
    OneTask(s, id);
    MoveStep(s, id, s.sv.tasks[id].(phase := Granted), 0);
    GateStep(SetTask(s, id, s.sv.tasks[id].(phase := Granted)), G.After(G.Draining, s.sv.gate), s.gh.granted, 1);
  }

  lemma RefuseKeeps(s: State, id: nat)
    requires Inv(s) && CanRefuse(s, id)
    ensures Inv(Refuse(s, id))
  {
    hide Tables, Routes, Windows, Written, Read, TaskRequests, Places, Replies, Alive, Memory, Results, Tokens, OneHello, Credits;
    OneTask(s, id);
    MoveStep(s, id, s.sv.tasks[id].(phase := Over), 0);
  }

  /** A goroutine sends one item under the lock, or just lets go of it. */
  function Emit(s: State, id: nat, t: Task, lock: Option<nat>, items: seq<Item>): State {
    s.(sv := s.sv.(tasks := s.sv.tasks[id := t], lock := lock), net := s.net.(s2c := s.net.s2c + items))
  }

  lemma EmitStep(s: State, id: nat, t: Task, lock: Option<nat>, x: Item, d: int)
    requires InvUpTo(s, d) && id in s.sv.tasks && id in s.cl.kinds && t.msg == s.sv.tasks[id].msg
    requires TaskFits(s.cl.kinds[id], t, s.gh.overrun) && t.phase != Granted
    requires !s.sv.tasks[id].phase.Answered? && !s.sv.tasks[id].phase.PayloadOut?
    requires t.phase.PayloadOut? ==> t.phase.at + 1 >= s.net.landed
    requires Places(s.cl.kinds, s.sv.tasks[id := t], lock, s.net.s2c + [x], s.gh.torn)
    requires Written(s.net.s2c + [x], lock.Some?, s.gh.torn)
    ensures InvUpTo(Emit(s, id, t, lock, [x]), d - One(s.sv.tasks[id].phase == Granted) + HeaderOf(x))
  {
    hide Tables, Routes, Windows, Written, Read, TaskRequests, Places, Replies, Alive, Memory, Results, Tokens, OneHello, Credits, TaskFits;
    LogsFit(s);
    SetTaskRequests(s, id, t, s.gh.overrun);
    SetTaskGet(s, id, t);
    ReadStays(s.net.s2c, x, s.net.s2cRead, RecvExpects(s.cl.recv), s.gh.torn);
    CountSet(s.sv.tasks, IsGranted, id, t);
    TotalPush(HeaderOf, s.net.s2c, s.net.s2cRead, x);
    CreditsSplit(s);
    CreditsSplit(Emit(s, id, t, lock, [x]));
  }

  lemma SendHeaderKeeps(s: State, id: nat, ok: bool)
    requires Inv(s) && CanSendHeader(s, id)
    ensures Inv(SendHeader(s, id, ok))
  {
    hide Tables, Routes, Windows, Written, Read, TaskRequests, Places, Replies, Alive, Memory, Results, Tokens, OneHello, Credits;
    var t := s.sv.tasks[id];
    OneTask(s, id);
    if ok && t.off >= 0 {
      PlacesHeader(s.cl.kinds, s.sv.tasks, s.net.s2c, s.gh.torn, id);
      WriteHeader(s.net.s2c, Header(id, t), s.gh.torn);
      EmitStep(s, id, t.(phase := HeaderOut(|s.net.s2c|)), Some(id), Ctl(Header(id, t)), 0);
    } else {
      MoveStep(s, id, t.(phase := Over), 0);
      LoseStep(SetTask(s, id, t.(phase := Over)), -1);
    }
  }

  /** In the middle of a pair the header is the last thing sent. */
  lemma HeaderIsLast(s: State, id: nat)
    requires ServerInv(s) && StreamInv(s) && CanSendPayload(s, id)
    ensures var t := s.sv.tasks[id];
            t.phase.at + 1 == |s.net.s2c| && s.net.s2c[t.phase.at] == Ctl(Header(id, t)) && t.phase.at + 1 >= s.net.landed
  {
    hide TaskRequests, Replies, Written, Read;
    assert TaskPlace(id, s.sv.tasks[id], s.sv.lock, s.net.s2c, s.gh.torn);
  }

  /** The offset of a GET is below 4 GiB, and so is its object if it fits its window. */
  lemma OffsetFits(s: State, id: nat)
    requires ClientInv(s) && ServerInv(s) && id in s.sv.tasks && LookedUp(s.sv.tasks[id].phase)
    ensures 0 <= s.sv.tasks[id].off && s.sv.tasks[id].off <= |s.cl.mem| < TWO32
    ensures Wrap(s.sv.tasks[id].off) == s.sv.tasks[id].off && Wrap(|s.cl.mem|) == |s.cl.mem|
    ensures !s.gh.overrun ==> s.sv.tasks[id].off + |s.sv.tasks[id].body| <= |s.cl.mem|
  {
    hide Tables, Routes, WindowsApart, Places, Replies, RequestMsg;
    OneTask(s, id);
  }

  lemma SendPayloadKeeps(s: State, id: nat, ok: bool)
    requires Inv(s) && CanSendPayload(s, id)
    ensures Inv(SendPayload(s, id, ok))
  {
    hide Tables, Routes, Windows, Written, Read, TaskRequests, Places, Replies, Alive, Memory, Results, Tokens, OneHello, Credits, Cut;
    var t := s.sv.tasks[id];
    var t', cut := t.(phase := PayloadOut(t.phase.at)), Cut(t.body);
    OneTask(s, id);
    HeaderIsLast(s, id);
    OffsetFits(s, id);
    CutIsFirstPart(t.body);
    if SentWhole(s, t, ok) {
      PlacesPayload(s.cl.kinds, s.sv.tasks, s.net.s2c, s.gh.torn, id, cut);
      WritePayload(s.net.s2c, t.off, t.body, s.gh.torn);
      EmitStep(s, id, t', None, Data(t.off, t.body), 0);
    } else if Sent(s, t, ok) {
      PlacesPayload(s.cl.kinds, s.sv.tasks, s.net.s2c, s.gh.torn, id, cut);
      TearStep(s, 0);
      WrittenTorn(s.net.s2c + [Data(t.off, cut)], false);
      EmitStep(Tear(s), id, t', None, Data(t.off, cut), 0);
    } else {
      PlacesPayload(s.cl.kinds, s.sv.tasks, s.net.s2c, s.gh.torn, id, []);
      DropPayloadStep(s, id);
      assert s.net.s2c + [] == s.net.s2c;
    }
  }

  lemma CutIsFirstPart(body: bytes)
    ensures Cut(body) <= body && (|body| < TWO32 ==> Cut(body) == body) && (|body| >= TWO32 ==> Cut(body) != body)
  {
  }

  lemma DropPayloadStep(s: State, id: nat)
    requires Inv(s) && CanSendPayload(s, id)
    requires var t := s.sv.tasks[id];
             Places(s.cl.kinds, s.sv.tasks[id := t.(phase := PayloadOut(t.phase.at))], None, s.net.s2c, true)
    ensures var t := s.sv.tasks[id];
            InvUpTo(Tear(Emit(s, id, t.(phase := PayloadOut(t.phase.at)), None, [])), 0)
  {
    hide Tables, Routes, Windows, Written, Read, TaskRequests, Places, Replies, Alive, Memory, Results, Tokens, OneHello, Credits;
    var t := s.sv.tasks[id];
    var t' := t.(phase := PayloadOut(t.phase.at));
    OneTask(s, id);
    HeaderIsLast(s, id);
    TearStep(s, 0);
    SetTaskRequests(s, id, t', s.gh.overrun);
    SetTaskGet(Tear(s), id, t');
    WrittenTorn(s.net.s2c, false);
    CountSet(s.sv.tasks, IsGranted, id, t');
    assert s.net.s2c + [] == s.net.s2c;
    CreditsSplit(s);
    CreditsSplit(Tear(Emit(s, id, t', None, [])));
  }

  lemma SendAnswerKeeps(s: State, id: nat, ok: bool)
    requires Inv(s) && CanSendAnswer(s, id)
    ensures Inv(SendAnswer(s, id, ok))
  {
    hide Tables, Routes, Windows, Written, Read, TaskRequests, Places, Replies, Alive, Memory, Results, Tokens, OneHello, Credits;
    var t := s.sv.tasks[id];
    OneTask(s, id);
    if ok {
      PlacesAnswer(s.cl.kinds, s.sv.tasks, s.net.s2c, s.gh.torn, id);
      WritePlain(s.net.s2c, RespErr(id), s.gh.torn);
      EmitStep(s, id, t.(phase := Answered(|s.net.s2c|)), None, Ctl(RespErr(id)), 0);
    } else {
      MoveStep(s, id, t.(phase := Over), 0);
    }
  }

  lemma ChangeObjectsKeeps(s: State, objects: Objects)
    requires Inv(s)
    ensures Inv(ChangeObjects(s, objects))
  {
    hide Tables, Routes, Windows, Written, Read, TaskRequests, Places, Replies, Alive, Memory, Results, Tokens, OneHello, Credits;
  }

  // ---------------------------------------------------------------- landing

  /** Whose payload is next to land, torn or not: it goes to the offset of one GET, and is a first
      part of the object found for it. */
  lemma OwnerOfNext(s: State)
    requires s.net.landed < |s.net.s2c| && s.net.s2c[s.net.landed].Data?
    requires Inv(s)
    ensures s.net.landed > 0 && s.net.s2c[s.net.landed - 1].Ctl? && s.net.s2c[s.net.landed - 1].msg.GetMeta?
    ensures OwnedBy(s, s.net.s2c[s.net.landed - 1].msg.reqId, s.net.s2c[s.net.landed])
  {
    hide ClientInv, StreamInv, GetInv, CreditInv, TaskRequests, Replies, TaskPlace;
    assert FromServer(s.cl.kinds, s.sv.tasks, s.net.s2c, s.net.landed);
    OneTask(s, s.net.s2c[s.net.landed - 1].msg.reqId);
  }

  /** A payload for call `id`: at the offset asked for, and no longer than asked for. */
  predicate OwnedBy(s: State, id: nat, x: Item) {
    && s.net.landed > 0
    && id in s.sv.tasks && s.sv.tasks[id].phase == PayloadOut(s.net.landed - 1) && id in s.cl.kinds && s.cl.kinds[id].Get?
    && x.Data? && x.off == s.cl.kinds[id].off == s.sv.tasks[id].off && x.body <= s.sv.tasks[id].body
    && (!s.gh.overrun ==> x.off + |x.body| <= s.cl.kinds[id].off + s.cl.kinds[id].max)
  }

  /** Whose payload is next to land on an untorn stream: a goroutine whose window is still live. */
  lemma NextToLand(s: State)
    requires s.net.landed < |s.net.s2c| && s.net.s2c[s.net.landed].Data? && !s.gh.torn
    requires Inv(s)
    ensures s.net.landed > 0 && s.net.s2c[s.net.landed - 1].Ctl? && s.net.s2c[s.net.landed - 1].msg.GetMeta?
    ensures var owner := s.net.s2c[s.net.landed - 1].msg.reqId;
            && owner in s.sv.tasks && s.sv.tasks[owner].phase == PayloadOut(s.net.landed - 1)
            && s.net.s2c[s.net.landed] == Data(s.sv.tasks[owner].off, s.sv.tasks[owner].body)
            && owner in s.cl.kinds && s.cl.kinds[owner].Get? && owner in s.gh.live
            && s.sv.tasks[owner].off == s.cl.kinds[owner].off
            && (!s.gh.overrun ==> |s.sv.tasks[owner].body| <= s.cl.kinds[owner].max)
  {
    hide Tables, Routes, Windows, Written, Read, TaskRequests, Replies, Memory, Results, Tokens, OneHello, Credits;
    ReadWithin(s);
    assert FromServer(s.cl.kinds, s.sv.tasks, s.net.s2c, s.net.landed);
    var owner := s.net.s2c[s.net.landed - 1].msg.reqId;
    assert TaskPlace(owner, s.sv.tasks[owner], s.sv.lock, s.net.s2c, s.gh.torn);
    OneTask(s, owner);
  }

  /** The whole shared memory is registered, and nothing else. */
  lemma RegionIsMemory(s: State)
    requires Inv(s)
    ensures Shared(s.cl.mem) && Region(s.cl.mem, s.own) == |s.cl.mem|
  {
    hide Tables, Routes, WindowsApart, StreamInv, ServerInv, GetInv, CreditInv;
  }

  /** What lands in one live window leaves the others alone. */
  lemma LandSpares(s: State, id: nat, part: bytes)
    requires Inv(s) && CanLand(s) && s.net.s2c[s.net.landed].Data? && !s.gh.torn && !s.gh.overrun
    requires part <= s.net.s2c[s.net.landed].body
    requires id in s.sv.tasks && id in s.gh.live && s.sv.tasks[id].phase.PayloadOut? && s.sv.tasks[id].phase.at + 1 < s.net.landed
    ensures InPlace(Landing(s.cl.mem, s.own, s.net.s2c[s.net.landed].off, part), s.sv.tasks[id])
  {
    hide Tables, Routes, Written, Read, TaskRequests, Replies, Places, Alive, Results, Tokens, OneHello, Credits, Splice, Region, Shared;
    RegionIsMemory(s);
    NextToLand(s);
    OneTask(s, id);
    var owner := s.net.s2c[s.net.landed - 1].msg.reqId;
    var o, k, t := s.cl.kinds[owner], s.cl.kinds[id], s.sv.tasks[id];
    assert Apart(o.off, o.max, k.off, k.max);
    ApartWithin(o.off, o.max, k.off, k.max, |t.body|);
    SpliceSparesRange(s.cl.mem, o.off, part, k.off, |t.body|);
  }

  lemma LandPartKeeps(s: State, k: nat)
    requires Inv(s) && CanLandPart(s, k)
    ensures Inv(LandPart(s, k))
  {
    hide Tables, Routes, Windows, Written, Read, TaskRequests, Places, Replies, Alive, Results, Tokens, OneHello, Credits, Splice, InPlace, Region, Shared;
    RegionIsMemory(s);
    var x := s.net.s2c[s.net.landed];
    SpliceSize(s.cl.mem, x.off, x.body[..k]);
    if !s.gh.torn && !s.gh.overrun {
      forall id | id in s.sv.tasks && id in s.gh.live && s.sv.tasks[id].phase.PayloadOut? && s.sv.tasks[id].phase.at + 1 < s.net.landed
        ensures InPlace(LandPart(s, k).cl.mem, s.sv.tasks[id])
      {
        LandSpares(s, id, x.body[..k]);
      }
    }
  }

  lemma SpliceSize(mem: bytes, off: nat, data: bytes)
    requires off + |data| <= |mem|
    ensures |Splice(mem, off, data)| == |mem|
    ensures Splice(mem, off, data)[off..off + |data|] == data
  {
  }

  /** A payload that has landed is where its header says. */
  lemma LandPlaces(s: State, id: nat)
    requires Inv(s) && CanLand(s) && !s.gh.torn && !s.gh.overrun
    requires id in s.sv.tasks && id in s.gh.live && s.sv.tasks[id].phase.PayloadOut? && s.sv.tasks[id].phase.at + 1 <= s.net.landed
    ensures InPlace(Land(s).cl.mem, s.sv.tasks[id])
  {
    hide Tables, Routes, Windows, Written, Read, TaskRequests, Replies, Alive, Results, Tokens, OneHello, Credits, Splice, FromServer, Region, Shared;
    RegionIsMemory(s);
    assert TaskPlace(id, s.sv.tasks[id], s.sv.lock, s.net.s2c, s.gh.torn);
    match s.net.s2c[s.net.landed]
    case Ctl(_) =>
    case Data(off, body) =>
      SpliceSize(s.cl.mem, off, body);
      if s.sv.tasks[id].phase.at + 1 < s.net.landed {
        LandSpares(s, id, body);
      }
  }

  lemma LandKeeps(s: State)
    requires Inv(s) && CanLand(s)
    ensures Inv(Land(s))
  {
    hide Tables, Routes, Windows, Written, Read, TaskRequests, Places, Replies, Alive, Results, Tokens, OneHello, Credits, Splice, InPlace, Region, Shared;
    RegionIsMemory(s);
    var s' := Land(s);
    ReadWithin(s);
    if s.net.s2c[s.net.landed].Data? {
      SpliceSize(s.cl.mem, s.net.s2c[s.net.landed].off, s.net.s2c[s.net.landed].body);
    }
    if !s.gh.torn && !s.gh.overrun {
      forall id | id in s.sv.tasks && id in s.gh.live && s.sv.tasks[id].phase.PayloadOut? && s.sv.tasks[id].phase.at + 1 < s'.net.landed
        ensures InPlace(s'.cl.mem, s.sv.tasks[id])
      {
        LandPlaces(s, id);
      }
    }
  }
}
