/** What a successful GET means, end to end. */
module ZcopyGets {
  import opened Counters
  import opened Wire
  import opened Protocol
  import opened Zcopy
  import opened ZcopyInv
  import opened ZcopyClientSteps
  import opened ZcopyLoopSteps
  import opened ZcopyServerSteps
  import opened ZcopyFrames
  import opened ZcopyFlaws
  import opened ZcopyTheorems
  import opened ZcopyCredits
  import G = Gate

  // ------------------------------------------------------- where a body is from

  function NameOf(m: Message): (string, string) {
    if m.GetReq? then (Trim(m.bucket), Trim(m.key)) else ([], [])
  }

  /** A goroutine that has an object either had it before the step, or has just found it in the store. */
  ghost predicate Origin(s: State, e: Event, s': State, id: nat)
    requires Can(s, e)
  {
    id in s'.sv.tasks && LookedUp(s'.sv.tasks[id].phase) ==>
      && id in s.sv.tasks
      && s'.sv.tasks[id].msg == s.sv.tasks[id].msg
      && (|| (LookedUp(s.sv.tasks[id].phase) && s'.sv.tasks[id].body == s.sv.tasks[id].body)
          || (e == ELookUp(id) && NameOf(s.sv.tasks[id].msg) in s.sv.objects
              && s'.sv.tasks[id].body == s.sv.objects[NameOf(s.sv.tasks[id].msg)]))
  }

  predicate AtTask(e: Event) {
    e.EServe? || ByRoutine(e)
  }

  lemma OthersLeaveTasks(s: State, e: Event)
    requires Can(s, e) && !AtTask(e)
    ensures Do(s, e).sv.tasks == s.sv.tasks
  {
    hide TakeReply, TakePayload, Leave, Release, SendControl, RecvControl, RecvPayload, StopRecv, HandOver, Serve, ServePayload,
      ServeReply, LookUp, SendHeader, SendPayload, Land, LandPart, CanIssue, CanAppWrite, Splice;
    if AtClient(e) {
      ClientLeaves(s, e);
    } else {
      match e
      case EServePayload => ServePayloadFrame(s);
      case EServeReply(ok, goOn) => ServeReplyFrame(s, ok, goOn);
      case ELand => LandFrame(s);
      case ELandPart(k) => LandPartFrame(s, k);
      case _ =>
    }
  }

  lemma BodyOrigin(s: State, e: Event, id: nat)
    requires Can(s, e)
    ensures Origin(s, e, Do(s, e), id)
  {
    hide CallerDoes, LoopDoes, RoutineDoes, CallerCan, LoopCan, RoutineCan, Serve, ServePayload, ServeReply, Land, LandPart, Origin;
    if e.EServe? {
      ServeOrigin(s, id);
    } else if ByRoutine(e) {
      RoutineOrigin(s, e, id);
    } else {
      OthersOrigin(s, e, id);
    }
  }

  lemma OthersOrigin(s: State, e: Event, id: nat)
    requires Can(s, e) && !AtTask(e)
    ensures Origin(s, e, Do(s, e), id)
  {
    hide Can, Do, NameOf, LookedUp;
    OthersLeaveTasks(s, e);
  }

  lemma RoutineOrigin(s: State, e: Event, id: nat)
    requires ByRoutine(e) && Can(s, e)
    ensures Origin(s, e, RoutineDoes(s, e), id)
  {
    hide LookUp, SendHeader, SendPayload, NameOf;
    match e
    case ELookUp(i) => LookUpOrigin(s, i, id);
    case ESendHeader(i, ok) => HeaderOrigin(s, i, ok, id);
    case ESendPayload(i, ok) => PayloadOrigin(s, i, ok, id);
    case _ =>
  }

  lemma LookUpOrigin(s: State, i: nat, id: nat)
    requires CanLookUp(s, i)
    ensures Origin(s, ELookUp(i), LookUp(s, i), id)
  {
    hide Trim;
  }

  lemma HeaderOrigin(s: State, i: nat, ok: bool, id: nat)
    requires CanSendHeader(s, i)
    ensures Origin(s, ESendHeader(i, ok), SendHeader(s, i, ok), id)
  {
    hide NameOf;
  }

  lemma PayloadOrigin(s: State, i: nat, ok: bool, id: nat)
    requires CanSendPayload(s, i)
    ensures Origin(s, ESendPayload(i, ok), SendPayload(s, i, ok), id)
  {
    hide NameOf;
  }

  lemma ServeOrigin(s: State, id: nat)
    requires CanServe(s)
    ensures Origin(s, EServe, Serve(s), id)
  {
    hide ServerTakes, ServeMessage, NameOf;
    if ServerTakes(s).Some? {
      var s1 := s.(net := s.net.(c2sRead := s.net.c2sRead + 1));
      MessageTasks(Noted(s1, s.net.c2s[s.net.c2sRead]), ServerTakes(s).value);
    }
  }

  /** The GET looked its object up during the run and found `body`. */
  ghost predicate Fetched(s: State, es: seq<Event>, id: nat, name: (string, string), body: bytes)
    requires CanRun(s, es)
  {
    exists i :: 0 <= i < |es| && es[i] == ELookUp(id) && FoundAt(StateAt(s, es, i), name, body)
  }

  predicate FoundAt(s: State, name: (string, string), body: bytes) {
    name in s.sv.objects && s.sv.objects[name] == body
  }

  lemma FetchedLater(s: State, es: seq<Event>, id: nat, name: (string, string), body: bytes)
    requires CanRun(s, es) && es != [] && Fetched(Do(s, es[0]), es[1..], id, name, body)
    ensures Fetched(s, es, id, name, body)
  {
    hide Can, Do;
    var i :| 0 <= i < |es[1..]| && es[1..][i] == ELookUp(id) && FoundAt(StateAt(Do(s, es[0]), es[1..], i), name, body);
    assert es[i + 1] == ELookUp(id) && StateAt(s, es, i + 1) == StateAt(Do(s, es[0]), es[1..], i);
  }

  lemma FetchedNow(s: State, es: seq<Event>, id: nat, name: (string, string), body: bytes)
    requires CanRun(s, es) && es != [] && es[0] == ELookUp(id) && FoundAt(s, name, body)
    ensures Fetched(s, es, id, name, body)
  {
    assert StateAt(s, es, 0) == s;
  }

  lemma {:induction false} BodyComesFromStore(s: State, es: seq<Event>, id: nat)
    requires CanRun(s, es)
    requires id in Run(s, es).sv.tasks && LookedUp(Run(s, es).sv.tasks[id].phase)
    ensures var t := Run(s, es).sv.tasks[id];
            || (id in s.sv.tasks && LookedUp(s.sv.tasks[id].phase) && t.msg == s.sv.tasks[id].msg && t.body == s.sv.tasks[id].body)
            || Fetched(s, es, id, NameOf(t.msg), t.body)
    decreases |es|
  {
    hide Inv, Can, Do, NameOf, Fetched, LookedUp;
    if es != [] {
      var s' := Do(s, es[0]);
      var t := Run(s, es).sv.tasks[id];
      BodyComesFromStore(s', es[1..], id);
      if id in s'.sv.tasks && LookedUp(s'.sv.tasks[id].phase) && t.body == s'.sv.tasks[id].body && t.msg == s'.sv.tasks[id].msg {
        BodyOrigin(s, es[0], id);
        if es[0] == ELookUp(id) && FoundAt(s, NameOf(t.msg), t.body) {
          FetchedNow(s, es, id, NameOf(t.msg), t.body);
        }
      } else {
        FetchedLater(s, es, id, NameOf(t.msg), t.body);
      }
    }
  }

  // ------------------------------------------------------------------ the GET

  /** A buffer handed to the caller: the offset asked for, no more bytes than asked for, and in the
      shared memory at that place what the goroutine looked up. */
  ghost predicate HoldsObject(s: State, t: nat)
    requires t in s.cl.tokens
  {
    var id := s.cl.tokens[t];
    && id in s.cl.kinds && s.cl.kinds[id].Get? && id in s.cl.refs && id in s.sv.tasks && LookedUp(s.sv.tasks[id].phase)
    && s.sv.tasks[id].msg == RequestMsg(id, s.cl.kinds[id])
    && s.cl.refs[id].off == s.cl.kinds[id].off && s.cl.refs[id].size <= s.cl.kinds[id].max
    && s.cl.refs[id].off + s.cl.refs[id].size <= |s.cl.mem|
    && s.cl.mem[s.cl.refs[id].off..s.cl.refs[id].off + s.cl.refs[id].size] == s.sv.tasks[id].body
  }

  lemma TokenHoldsObject(s: State, t: nat)
    requires t in s.cl.tokens && !s.gh.torn && !s.gh.overrun
    requires Inv(s)
    ensures HoldsObject(s, t)
  {
    hide Tables, Routes, Windows, Written, Read, Places, Replies, Alive, Results, OneHello, Credits, RequestMsg;
    var id := s.cl.tokens[t];
    assert GoodRef(s.sv.tasks, s.gh.live, s.net.s2cRead, s.cl.refs, id);
    OneTask(s, id);
    ReadWithin(s);
    assert InPlace(s.cl.mem, s.sv.tasks[id]);
  }

  /** A payload that reaches its caller passes every check the caller makes on it. */
  lemma ArrivedIsAccepted(s: State, id: nat)
    requires CanTakePayload(s, id) && !s.gh.torn && !s.gh.overrun
    requires Inv(s)
    ensures Acceptable(s.cl.kinds[id], s.cl.inbox[id].value, |s.cl.mem|)
  {
    hide Tables, Routes, Written, Read, Places, Replies, Alive, Memory, Tokens, OneHello, Credits, RequestMsg;
    assert GoodInbound(s.cl.kinds, s.sv.tasks, s.gh.live, s.net.s2cRead, id, s.cl.inbox[id].value);
    OneTask(s, id);
  }

  /** The payload that is read reaches the call that waits for it: what its goroutine found, at its offset. */
  lemma PayloadIsHandedOver(s: State, frameLen: nat, ackOk: bool)
    requires CanRecvPayload(s) && s.cl.recv.meta.reqId in s.cl.pending && !s.gh.torn
    requires Inv(s)
    ensures var s', id := RecvPayload(s, frameLen, ackOk), s.cl.recv.meta.reqId;
            && id in s.sv.tasks && id in s'.cl.inbox && id in s.cl.kinds && s'.cl.recv == AtControl
            && s'.cl.inbox[id] == Some(Payload(Header(id, s.sv.tasks[id]), s.sv.tasks[id].off, |s.sv.tasks[id].body|))
  {
    hide Routes, Windows, StreamInv, ServerInv, GetInv, CreditInv, RequestMsg, Header;
    PayloadNext(s);
  }

  /** And the caller gets it: a buffer at the offset asked for, as long as the object the goroutine found. */
  lemma ArrivedIsHeld(s: State, id: nat, ackOk: bool)
    requires CanTakePayload(s, id) && !s.gh.torn && !s.gh.overrun
    requires Inv(s)
    ensures var s', t := TakePayload(s, id, ackOk), s.cl.nextToken + 1;
            && t !in s.cl.tokens && s'.cl.tokens == s.cl.tokens[t := id] && s'.gh == s.gh && s'.cl.ops == s.cl.ops
            && id in s.sv.tasks && id in s'.cl.refs && s'.cl.refs[id] == Ref(s.cl.kinds[id].off, |s.sv.tasks[id].body|)
  {
    hide Tables, Routes, Written, Read, Places, Replies, Alive, Memory, OneHello, Credits, RequestMsg, Acceptable;
    ArrivedIsAccepted(s, id);
    assert GoodInbound(s.cl.kinds, s.sv.tasks, s.gh.live, s.net.s2cRead, id, s.cl.inbox[id].value);
    OneTask(s, id);
  }

  /** The object found for a GET is larger than its window. */
  predicate NoRoom(s: State, id: nat) {
    InTask(s, id, Waits) && id in s.cl.kinds && s.cl.kinds[id].Get? && |s.sv.tasks[id].body| > s.cl.kinds[id].max
  }

  /** With max 0 the server accepts any object, and the window has no room for any byte of it. */
  lemma ZeroMaxOverruns(s: State, id: nat)
    requires CanLookUp(s, id) && NoLimit(s, id)
    requires Inv(s)
    ensures NoRoom(LookUp(s, id), id)
  {
    hide Tables, Routes, Windows, StreamInv, Places, Replies, GetInv, CreditInv, Trim;
    OneTask(s, id);
  }

  /** The payload goes out whole, at the offset asked for, exactly if it is not empty, fits the region
      that the client's transport has registered, and neither its length nor its offset needs more than
      32 bits. */
  lemma PayloadWholeIff(s: State, id: nat, ok: bool)
    requires CanSendPayload(s, id)
    ensures var t := s.sv.tasks[id];
            SendPayload(s, id, ok).net.s2c == s.net.s2c + [Data(t.off, t.body)]
            <==> ok && t.body != [] && |t.body| < TWO32 && t.off < TWO32 && t.off + |t.body| <= Region(s.cl.mem, s.own)
  {
    var t := s.sv.tasks[id];
    SentItem(s, id, ok);
    WholeIff(t.body);
    if t.off < TWO32 && |t.body| < TWO32 {
      assert Sent(s, t, ok) <==> ok && t.body != [] && t.off + |t.body| <= Region(s.cl.mem, s.own);
    }
  }

  lemma WholeIff(body: bytes)
    ensures Cut(body) == body <==> |body| < TWO32
  {
  }

  lemma SentItem(s: State, id: nat, ok: bool)
    requires CanSendPayload(s, id)
    ensures var t, log := s.sv.tasks[id], SendPayload(s, id, ok).net.s2c;
            && log == (if Sent(s, t, ok) then s.net.s2c + [Data(Wrap(t.off), Cut(t.body))] else s.net.s2c)
            && (log == s.net.s2c + [Data(t.off, t.body)] <==> Sent(s, t, ok) && Wrap(t.off) == t.off && Cut(t.body) == t.body)
  {
    hide Sent, SentWhole, Cut, Wrap;
    var t, log := s.sv.tasks[id], SendPayload(s, id, ok).net.s2c;
    if log == s.net.s2c + [Data(t.off, t.body)] && Sent(s, t, ok) {
      assert log[|s.net.s2c|] == Data(t.off, t.body);
    }
  }

  /** End to end, in every interleaving: while a caller holds the buffer of a successful GET, the
      shared memory it names holds the object that was in the store when the server looked, at the
      offset and within the size the caller asked for. */
  lemma GetEndToEnd(u: Setup, es: seq<Event>, t: nat)
    requires Usable(u) && CanRun(Init(u), es)
    requires Avoids(Init(u), es, Down) && Avoids(Init(u), es, Window) && Avoids(Init(u), es, Misread)
    requires t in Run(Init(u), es).cl.tokens
    ensures var s := Run(Init(u), es);
            && HoldsObject(s, t)
            && var id := s.cl.tokens[t];
               Fetched(Init(u), es, id, (Trim(s.cl.kinds[id].bucket), Trim(s.cl.kinds[id].key)),
                       s.cl.mem[s.cl.refs[id].off..s.cl.refs[id].off + s.cl.refs[id].size])
  {
    hide Inv, Can, Do, Fetched, Trim, Causes, LookedUp;
    InitInv(u);
    RunKeeps(Init(u), es);
    FlawlessIffAvoided(Init(u), es, Down);
    FlawlessIffAvoided(Init(u), es, Window);
    TokenHoldsObject(Run(Init(u), es), t);
    BodyComesFromStore(Init(u), es, Run(Init(u), es).cl.tokens[t]);
  }

  // -------------------------------------------------------------------- memory

  /** Byte j belongs to no live GET window. */
  ghost predicate Outside(s: State, j: nat) {
    forall id <- s.gh.live :: id in s.cl.kinds && s.cl.kinds[id].Get? ==>
      j < s.cl.kinds[id].off || s.cl.kinds[id].off + s.cl.kinds[id].max <= j
  }

  lemma SpliceElsewhere(mem: bytes, off: nat, data: bytes, j: nat)
    requires off + |data| <= |mem| && j < |mem| && (j < off || off + |data| <= j)
    ensures |Splice(mem, off, data)| == |mem| && Splice(mem, off, data)[j] == mem[j]
  {
  }

  predicate AtMemory(e: Event) {
    e.ELand? || e.ELandPart? || e.EAppWrite?
  }

  lemma OthersLeaveMemory(s: State, e: Event)
    requires Can(s, e) && !AtMemory(e)
    ensures Do(s, e).cl.mem == s.cl.mem
  {
    hide TakeReply, TakePayload, Leave, Release, SendControl, RecvControl, RecvPayload, StopRecv, HandOver, Serve, ServePayload,
      ServeReply, LookUp, SendHeader, SendPayload, Land, LandPart, CanIssue, CanAppWrite, Splice;
    if AtClient(e) {
      ClientLeaves(s, e);
    } else if AtServer(e) {
      ServerLeaves(s, e);
    }
  }

  /** No GET changes a byte outside a window: apart from the application's own writes, only bytes of
      live windows ever change, and nothing lands in a window no longer live. */
  lemma OnlyWindowsChange(s: State, e: Event, j: nat)
    requires Can(s, e) && !e.EAppWrite? && j < |s.cl.mem| && Outside(s, j) && !s.gh.torn && !s.gh.overrun
    requires Inv(s)
    ensures |Do(s, e).cl.mem| == |s.cl.mem| && Do(s, e).cl.mem[j] == s.cl.mem[j]
  {
    hide InvUpTo, Splice, CanIssue, CanAppWrite;
    if !AtMemory(e) {
      OthersLeaveMemory(s, e);
    } else {
      var x := s.net.s2c[s.net.landed];
      if x.Data? {
        NextToLand(s);
        if e.ELandPart? {
          SpliceElsewhere(s.cl.mem, x.off, x.body[..e.k], j);
        } else {
          SpliceElsewhere(s.cl.mem, x.off, x.body, j);
        }
      }
    }
  }

  /** What lands next is the payload of the GET whose header was sent right before it, at the offset that
      GET asked for and no longer than it asked for: of a torn stream as well. */
  ghost predicate LandsInside(s: State) {
    s.net.landed < |s.net.s2c| && s.net.s2c[s.net.landed].Data? ==>
      && s.net.landed > 0 && s.net.s2c[s.net.landed - 1].Ctl? && s.net.s2c[s.net.landed - 1].msg.GetMeta?
      && s.net.s2c[s.net.landed - 1].msg.reqId in s.cl.kinds
      && Inside(s.cl.kinds[s.net.s2c[s.net.landed - 1].msg.reqId], s.net.s2c[s.net.landed])
  }

  predicate Inside(k: Kind, x: Item) {
    k.Get? && x.Data? && x.off == k.off && x.off + |x.body| <= k.off + k.max
  }

  lemma LandsInOwnWindow(u: Setup, es: seq<Event>)
    requires Usable(u) && CanRun(Init(u), es) && Avoids(Init(u), es, Window) && Avoids(Init(u), es, Misread)
    ensures LandsInside(Run(Init(u), es))
  {
    hide InvUpTo, Can, Do, Causes, Init;
    var s := Run(Init(u), es);
    InitInv(u);
    RunKeeps(Init(u), es);
    InitFlawless(u);
    FlawlessIffAvoided(Init(u), es, Window);
    if s.net.landed < |s.net.s2c| && s.net.s2c[s.net.landed].Data? {
      OwnerOfNext(s);
    }
  }

  lemma InitFlawless(u: Setup)
    ensures forall f :: !Has(Init(u), f)
  {
  }

  /** A byte in the window of no GET ever made changes by the application's own writes only, of a torn
      stream as well. */
  lemma OnlyGetsChangeMemory(s: State, e: Event, j: nat)
    requires Can(s, e) && !e.EAppWrite? && j < |s.cl.mem| && !s.gh.overrun
    requires forall id <- s.cl.kinds :: s.cl.kinds[id].Get? ==> j < s.cl.kinds[id].off || s.cl.kinds[id].off + s.cl.kinds[id].max <= j
    requires Inv(s)
    ensures |Do(s, e).cl.mem| == |s.cl.mem| && Do(s, e).cl.mem[j] == s.cl.mem[j]
  {
    hide InvUpTo, Splice, CanIssue, CanAppWrite;
    if !AtMemory(e) {
      OthersLeaveMemory(s, e);
    } else {
      var x := s.net.s2c[s.net.landed];
      if x.Data? {
        OwnerOfNext(s);
        if e.ELandPart? {
          SpliceElsewhere(s.cl.mem, x.off, x.body[..e.k], j);
        } else {
          SpliceElsewhere(s.cl.mem, x.off, x.body, j);
        }
      }
    }
  }

  /** On an untorn stream the window it lands in is live. */
  lemma LandsInLiveWindow(s: State)
    requires s.net.landed < |s.net.s2c| && s.net.s2c[s.net.landed].Data? && !s.gh.torn
    requires Inv(s)
    ensures s.net.landed > 0 && s.net.s2c[s.net.landed - 1].Ctl? && s.net.s2c[s.net.landed - 1].msg.GetMeta?
    ensures s.net.s2c[s.net.landed - 1].msg.reqId in s.gh.live
  {
    hide InvUpTo;
    NextToLand(s);
  }

  /** The bytes that overrun: for a GET with max 0 every byte of the payload lands outside its window. */
  lemma ZeroMaxOverwrites(s: State)
    requires CanLand(s) && s.net.s2c[s.net.landed].Data?
    requires Inv(s)
    ensures s.net.landed > 0 && s.net.s2c[s.net.landed - 1].Ctl? && s.net.s2c[s.net.landed - 1].msg.GetMeta?
    ensures s.net.s2c[s.net.landed].off + |s.net.s2c[s.net.landed].body| <= |Land(s).cl.mem|
    ensures var id, x := s.net.s2c[s.net.landed - 1].msg.reqId, s.net.s2c[s.net.landed];
            && id in s.cl.kinds && s.cl.kinds[id].Get?
            && (s.cl.kinds[id].max == 0 ==>
                  && x.body != [] && Land(s).cl.mem[x.off..x.off + |x.body|] == x.body
                  && x.off == s.cl.kinds[id].off + s.cl.kinds[id].max)
  {
    hide ClientInv, StreamInv, GetInv, CreditInv, TaskRequests, Replies, TaskPlace, Splice, Region, Shared;
    RegionIsMemory(s);
    OwnerOfNext(s);
    var x := s.net.s2c[s.net.landed];
    assert FromServer(s.cl.kinds, s.sv.tasks, s.net.s2c, s.net.landed);
    SpliceSize(s.cl.mem, x.off, x.body);
  }

  /** Item q is a message for call id, or the payload sent with its header. */
  predicate About(log: seq<Item>, q: nat, id: nat)
    requires q < |log|
  {
    match log[q]
    case Ctl(m) => !m.Ack? && m.reqId == id
    case Data(_, _) => q > 0 && log[q - 1].Ctl? && log[q - 1].msg.GetMeta? && log[q - 1].msg.reqId == id
  }

  /** A GET whose window is live no more, because its caller saw an error, released its buffer, or
      left and the late payload was discarded: everything the server ever sends for it has been read. */
  lemma NothingLateArrives(s: State, id: nat, q: nat)
    requires id in s.cl.kinds && s.cl.kinds[id].Get? && id !in s.gh.live && !s.gh.torn && s.net.s2cRead <= q < |s.net.s2c|
    requires Inv(s)
    ensures !About(s.net.s2c, q, id)
  {
    hide Tables, Routes, Windows, Written, Read, TaskRequests, TaskPlace, Replies, Memory, Results, Tokens, OneHello, Credits;
    IdsPositive(s);
    assert FromServer(s.cl.kinds, s.sv.tasks, s.net.s2c, q);
  }

  // -------------------------------------------------------------------- results

  predicate TablesHold(s: State) {
    Tables(s.cl.nextReq, s.cl.kinds, s.cl.phase, s.cl.pending, s.cl.inbox, s.cl.got)
  }

  lemma ConsumeTables(s: State, id: nat)
    requires TablesHold(s) && id in s.cl.phase
    ensures TablesHold(Consume(s, id))
    ensures TablesHold(Consume(s, id).(cl := Consume(s, id).cl.(pending := s.cl.pending - {id})))
  {
    hide Tables;
    TablesConsume(s.cl.nextReq, s.cl.kinds, s.cl.phase, s.cl.pending, s.cl.inbox, s.cl.got, id);
  }

  lemma PhaseTables(s: State, e: Event)
    requires e.EIssue? || e.EEnqueue? || e.ESentOK?
    requires TablesHold(s) && CallerCan(s, e)
    ensures TablesHold(CallerDoes(s, e))
  {
    hide Tables, CanIssue;
    match e
    case EIssue(kind) => TablesNew(s.cl.nextReq, s.cl.kinds, s.cl.phase, s.cl.pending, s.cl.inbox, s.cl.got, kind);
    case EEnqueue(id) => TablesPhase(s.cl.nextReq, s.cl.kinds, s.cl.phase, s.cl.pending, s.cl.inbox, s.cl.got, id, Queued);
    case ESentOK(id) => TablesPhase(s.cl.nextReq, s.cl.kinds, s.cl.phase, s.cl.pending, s.cl.inbox, s.cl.got, id, Waiting);
  }

  lemma AckTables(s: State, id: nat, ok: bool)
    requires TablesHold(s)
    ensures TablesHold(Unlive(AckOne(s, ok), id))
  {
    hide Tables;
  }

  lemma TakeReplyTables(s: State, id: nat)
    requires TablesHold(s) && CanTakeReply(s, id)
    ensures TablesHold(TakeReply(s, id))
  {
    hide Tables, Consume;
    ConsumeTables(s, id);
  }

  lemma TakePayloadTables(s: State, id: nat, ok: bool)
    requires TablesHold(s) && CanTakePayload(s, id)
    ensures TablesHold(TakePayload(s, id, ok))
  {
    hide Tables, Acceptable, Consume, AckOne, Unlive;
    ConsumeTables(s, id);
    AckTables(Consume(s, id), id, ok);
  }

  lemma LeaveTables(s: State, id: nat, timeout: bool)
    requires TablesHold(s) && id in s.cl.inbox && id in s.cl.phase
    ensures TablesHold(Leave(s, id, timeout))
  {
    hide Tables;
    ConsumeTables(s, id);
  }

  lemma CallerTables(s: State, e: Event)
    requires TablesHold(s) && ByCaller(e) && CallerCan(s, e)
    ensures TablesHold(CallerDoes(s, e))
  {
    hide Tables, TakeReply, TakePayload, Leave, CanTakeReply, CanTakePayload, CanIssue, CanAppWrite, Splice;
    match e
    case ETakeReply(id) => TakeReplyTables(s, id);
    case ETakePayload(id, ok) => TakePayloadTables(s, id, ok);
    case ELeave(id, timeout) => LeaveTables(s, id, timeout);
    case EGiveUp(id) => LeaveTables(s, id, true);
    case ERelease(_, _) =>
    case ECloseClient =>
    case EAppWrite(_, _) =>
    case _ => PhaseTables(s, e);
  }

  lemma HandOverTables(cl: Client, id: nat, r: Inbound)
    requires Tables(cl.nextReq, cl.kinds, cl.phase, cl.pending, cl.inbox, cl.got) && For(r, id)
    ensures var cl' := HandOver(cl, id, r); Tables(cl'.nextReq, cl'.kinds, cl'.phase, cl'.pending, cl'.inbox, cl'.got)
  {
    hide Tables, For, HandOver;
    if id in cl.pending && id in cl.got {
      TablesHandOver(cl, id, r);
    } else {
      NoHandOver(cl, id, r);
    }
  }

  lemma NoHandOver(cl: Client, id: nat, r: Inbound)
    requires !(id in cl.pending && id in cl.got)
    ensures HandOver(cl, id, r) == cl
  {
  }

  lemma RecvControlTables(s: State)
    requires TablesHold(s) && CanRecvControl(s)
    ensures TablesHold(RecvControl(s))
  {
    hide Tables, HandOver, StopRecv, ClientTakes;
    match ClientTakes(s)
    case None => TablesStop(s.cl);
    case Some(m) =>
      if m.HelloResp? || m.RespOK? || m.RespErr? {
        HandOverTables(s.cl, m.reqId, Reply(m));
      }
  }

  lemma RecvFailTables(s: State)
    requires TablesHold(s)
    ensures TablesHold(RecvFail(s))
  {
    hide Tables, StopRecv;
    TablesStop(s.cl);
  }

  lemma HandedOverTables(s: State, frameLen: nat, ok: bool)
    requires TablesHold(s) && CanRecvPayload(s) && StillWaits(s)
    ensures TablesHold(RecvPayload(s, frameLen, ok))
  {
    hide Tables, HandOver, Unlive, AckOne;
    var m, x := s.cl.recv.meta, s.net.s2c[s.net.s2cRead];
    HandOverTables(s.cl.(recv := AtControl), m.reqId, if x.Data? then Payload(m, x.off, |x.body|) else Payload(m, -1, frameLen));
  }

  lemma DiscardedTables(s: State, frameLen: nat, ok: bool)
    requires TablesHold(s) && CanRecvPayload(s) && !StillWaits(s)
    ensures TablesHold(RecvPayload(s, frameLen, ok))
  {
    hide Tables, HandOver, Unlive, AckOne;
    var m, x := s.cl.recv.meta, s.net.s2c[s.net.s2cRead];
    var gh := if x.Ctl? && x.msg.GetMeta? then s.gh.(lost := s.gh.lost + 1) else s.gh;
    AckTables(s.(cl := s.cl.(recv := AtControl), net := s.net.(s2cRead := s.net.s2cRead + 1), gh := gh), m.reqId, ok);
  }

  lemma LoopTables(s: State, e: Event)
    requires TablesHold(s) && ByLoop(e) && LoopCan(s, e)
    ensures TablesHold(LoopDoes(s, e))
  {
    hide Tables, RecvControl, RecvPayload, RecvFail, SendControl, SendData;
    match e
    case ERecvControl => RecvControlTables(s);
    case ERecvPayload(n, ok) =>
      if StillWaits(s) {
        HandedOverTables(s, n, ok);
      } else {
        DiscardedTables(s, n, ok);
      }
    case ERecvFail => RecvFailTables(s);
    case ESendControl(ok) => SendTables(s, ok);
    case ESendData(ok) => PutTables(s, ok);
  }

  lemma SendTables(s: State, ok: bool)
    requires TablesHold(s) && CanSendControl(s)
    ensures TablesHold(SendControl(s, ok))
  {
    hide Tables, SendControl;
    if s.cl.ops[s.cl.opHead].Credit? {
      SendAckClient(s, ok);
    } else {
      SendRequestFrame(s, ok);
    }
  }

  lemma SendAckClient(s: State, ok: bool)
    requires CanSendControl(s) && s.cl.ops[s.cl.opHead].Credit?
    ensures SendControl(s, ok).cl == s.cl.(opHead := s.cl.opHead + 1)
  {
  }

  lemma PutTables(s: State, ok: bool)
    requires TablesHold(s) && CanSendData(s)
    ensures TablesHold(SendData(s, ok))
  {
    hide Tables, Cut, Wrap;
  }

  lemma TablesStay(s: State, e: Event)
    requires TablesHold(s) && Can(s, e)
    ensures TablesHold(Do(s, e))
  {
    hide Tables, CallerDoes, LoopDoes, CallerCan, LoopCan, ServeLoopDoes, RoutineDoes, ServeLoopCan, RoutineCan, Land, LandPart;
    if ByCaller(e) {
      CallerTables(s, e);
    } else if ByLoop(e) {
      LoopTables(s, e);
    } else if AtServer(e) {
      ServerLeaves(s, e);
    } else {
      match e
      case ELand => LandFrame(s);
      case ELandPart(k) => LandPartFrame(s, k);
      case _ =>
    }
  }

  lemma {:induction false} TablesOverRuns(s: State, es: seq<Event>)
    requires TablesHold(s) && CanRun(s, es)
    ensures TablesHold(Run(s, es))
    decreases |es|
  {
    hide TablesHold, Can, Do;
    if es != [] {
      TablesStay(s, es[0]);
      TablesOverRuns(Do(s, es[0]), es[1..]);
    }
  }

  /** Every call gets at most one result, and only one that carries its own id: over every run, whatever
      is torn, misread or obeyed. */
  lemma OneResultEach(u: Setup, es: seq<Event>, id: nat)
    requires CanRun(Init(u), es) && id in Run(Init(u), es).cl.kinds
    ensures var cl := Run(Init(u), es).cl;
            && id in cl.got && cl.got[id] <= 1 && id in cl.inbox
            && (cl.inbox[id].Some? ==> For(cl.inbox[id].value, id) && id !in cl.pending)
  {
    hide Can, Do, For;
    TablesOverRuns(Init(u), es);
  }
}
