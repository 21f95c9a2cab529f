/** The steps of callers and of the client's loops keep every invariant. */
module ZcopyClientSteps {
  import opened Wire
  import opened Protocol
  import opened Zcopy
  import opened ZcopyInv
  import G = Gate

  // ------------------------------------------------------------ parts of steps

  lemma AckOneStep(s: State, ok: bool, d: int)
    requires InvUpTo(s, d)
    ensures InvUpTo(AckOne(s, ok), d + 1)
  {
    hide Tables, Routes, Windows, Written, Read, TaskRequests, Places, Replies, Alive, Memory, Results, Tokens, OneHello, Credits;
    RoutesCredit(s.cl.kinds, s.cl.phase, s.gh.route, s.cl.ops, s.cl.opHead, s.cl.opMid, s.net.c2s);
    OpsFit(s);
    TotalPush(CreditOf, s.cl.ops, s.cl.opHead, Credit);
    CreditsSplit(s);
    CreditsSplit(AckOne(s, ok));
  }

  lemma OpsFit(s: State)
    requires ClientInv(s)
    ensures s.cl.opHead <= |s.cl.ops|
  {
  }

  /** The sum behind Credits, term by term. */
  lemma CreditsSplit(s: State)
    ensures Credits(s.sv.gate, s.sv.tasks, s.net.s2c, s.net.s2cRead, s.cl.recv, s.cl.inbox, s.cl.tokens, s.cl.ops,
                    s.cl.opHead, s.net.c2s, s.net.c2sRead)
         == s.sv.gate.credits + Count(s.sv.tasks, IsGranted) + Total(HeaderOf, s.net.s2c, s.net.s2cRead) + Held(s.cl.recv)
            + Count(s.cl.inbox, HoldsPayload) + |s.cl.tokens| + Total(CreditOf, s.cl.ops, s.cl.opHead)
            + Total(AckOf, s.net.c2s, s.net.c2sRead)
  {
  }

  function Lose(s: State): State {
    s.(gh := s.gh.(lost := s.gh.lost + 1))
  }

  lemma LoseStep(s: State, d: int)
    requires InvUpTo(s, d)
    ensures InvUpTo(Lose(s), d + 1)
  {
    hide Tables, Routes, Windows, Written, Read, TaskRequests, Places, Replies, Alive, Memory, Results, Tokens, OneHello, Credits;
  }

  /** A window may stop being live once its GET is settled and nobody holds its payload. */
  predicate MayUnlive(s: State, id: nat) {
    s.gh.torn || (
      && (id in s.cl.kinds && s.cl.kinds[id].Get? ==> id in s.sv.tasks && Settled(s.sv.tasks[id].phase, s.net.s2cRead))
      && (id in s.cl.inbox && s.cl.inbox[id].Some? ==> !s.cl.inbox[id].value.Payload?)
      && (forall t <- s.cl.tokens :: s.cl.tokens[t] != id))
  }

  lemma UnliveStep(s: State, id: nat, d: int)
    requires InvUpTo(s, d) && MayUnlive(s, id)
    ensures InvUpTo(Unlive(s, id), d)
  {
    hide Tables, Routes, Windows, Written, Read, TaskRequests, Places, Replies, Alive, Memory, Results, Tokens, OneHello, Credits;
    UnliveWindows(s, id);
    UnliveGet(s, id);
  }

  lemma UnliveWindows(s: State, id: nat)
    requires Windows(s.cl.kinds, s.gh.live, |s.cl.mem|)
    ensures Windows(s.cl.kinds, s.gh.live - {id}, |s.cl.mem|)
  {
  }

  lemma UnliveGet(s: State, id: nat)
    requires GetInv(s) && MayUnlive(s, id)
    ensures GetInv(Unlive(s, id))
  {
  }

  lemma ConsumeStep(s: State, id: nat, d: int)
    requires InvUpTo(s, d) && id in s.cl.phase
    ensures id in s.cl.inbox && InvUpTo(Consume(s, id), d - One(HoldsPayload(s.cl.inbox[id])))
  {
    hide Tables, Routes, Windows, Written, Read, TaskRequests, Places, Replies, Alive, Memory, Results, Tokens, OneHello, Credits;
    ConsumeGet(s, id);
    TablesConsume(s.cl.nextReq, s.cl.kinds, s.cl.phase, s.cl.pending, s.cl.inbox, s.cl.got, id);
    SameKeys(s, id);
    RoutesPhase(s.cl.kinds, s.cl.phase, s.gh.route, s.cl.ops, s.cl.opHead, s.cl.opMid, s.net.c2s, id, Finished);
    CountSet(s.cl.inbox, HoldsPayload, id, None);
    CreditsSplit(s);
    CreditsSplit(Consume(s, id));
  }

  lemma SameKeys(s: State, id: nat)
    requires ClientInv(s) && id in s.cl.phase
    ensures id in s.cl.inbox && id in s.cl.kinds && id in s.gh.route
  {
  }

  lemma ConsumeGet(s: State, id: nat)
    requires GetInv(s)
    ensures GetInv(Consume(s, id))
  {
  }

  function Unregister(s: State, id: nat): State {
    s.(cl := s.cl.(pending := s.cl.pending - {id}))
  }

  lemma UnregisterStep(s: State, id: nat, d: int)
    requires InvUpTo(s, d)
    ensures InvUpTo(Unregister(s, id), d)
  {
    hide Routes, Windows, Written, Read, TaskRequests, Places, Replies, Alive, Memory, Results, Tokens, OneHello, Credits;
  }

  // ---------------------------------------------------------------- callers

  lemma IssueKeeps(s: State, kind: Kind)
    requires Inv(s) && CanIssue(s, kind)
    ensures Inv(Issue(s, kind))
  {
    hide ServerInv, GetInv, CreditInv, Tables, Routes, Windows, Written, Read;
    TablesNew(s.cl.nextReq, s.cl.kinds, s.cl.phase, s.cl.pending, s.cl.inbox, s.cl.got, kind);
    RoutesNew(s.cl.kinds, s.cl.phase, s.gh.route, s.cl.ops, s.cl.opHead, s.cl.opMid, s.net.c2s, s.cl.nextReq + 1, kind);
    IssueWindows(s, kind);
    IssueServer(s, kind);
    IssueGet(s, kind);
    NewId(s);
    IssueCredit(s, kind);
  }

  lemma IssueCredit(s: State, kind: Kind)
    requires CreditInv(s, 0) && !kind.Hello?
    requires s.cl.nextReq + 1 !in s.cl.inbox && s.cl.nextReq + 1 !in s.gh.route
    ensures CreditInv(Issue(s, kind), 0)
  {
    hide OneHello, Credits;
    IssueHello(s, kind);
    CountSet(s.cl.inbox, HoldsPayload, s.cl.nextReq + 1, None);
    CreditsSplit(s);
    CreditsSplit(Issue(s, kind));
  }

  lemma IssueWindows(s: State, kind: Kind)
    requires Windows(s.cl.kinds, s.gh.live, |s.cl.mem|) && CanIssue(s, kind) && s.cl.nextReq + 1 !in s.cl.kinds
    ensures var s' := Issue(s, kind); Windows(s'.cl.kinds, s'.gh.live, |s'.cl.mem|)
  {
  }

  lemma IssueServer(s: State, kind: Kind)
    requires ServerInv(s) && s.cl.nextReq + 1 !in s.cl.kinds
    ensures ServerInv(Issue(s, kind))
  {
    hide Places;
    PlacesNewKind(s.cl.kinds, s.sv.tasks, s.sv.lock, s.net.s2c, s.gh.torn, s.cl.nextReq + 1, kind);
  }

  lemma IssueGet(s: State, kind: Kind)
    requires GetInv(s) && ServerInv(s) && s.cl.nextReq + 1 !in s.cl.kinds
    ensures GetInv(Issue(s, kind))
  {
    hide Places, Replies, RequestMsg, TaskFits, Results, Tokens;
    assert s.cl.nextReq + 1 !in s.sv.tasks;
    IssueResults(s, kind);
    IssueTokens(s, kind);
  }

  lemma IssueResults(s: State, kind: Kind)
    requires Results(s.cl.kinds, s.cl.inbox, s.sv.tasks, s.gh.live, s.net.s2cRead, s.gh.torn)
    requires s.cl.nextReq + 1 !in s.cl.kinds && s.cl.nextReq + 1 !in s.sv.tasks
    ensures var s' := Issue(s, kind);
            Results(s'.cl.kinds, s'.cl.inbox, s'.sv.tasks, s'.gh.live, s'.net.s2cRead, s'.gh.torn)
  {
    var s' := Issue(s, kind);
    if !s.gh.torn {
      forall id | id in s'.cl.inbox && s'.cl.inbox[id].Some?
        ensures GoodInbound(s'.cl.kinds, s'.sv.tasks, s'.gh.live, s'.net.s2cRead, id, s'.cl.inbox[id].value)
      {
        assert GoodInbound(s.cl.kinds, s.sv.tasks, s.gh.live, s.net.s2cRead, id, s.cl.inbox[id].value);
      }
    }
  }

  lemma IssueTokens(s: State, kind: Kind)
    requires Tokens(s.cl.kinds, s.cl.inbox, s.cl.got, s.cl.nextToken, s.cl.tokens, s.cl.refs, s.sv.tasks, s.gh.live,
                    s.net.s2cRead, s.gh.torn)
    requires s.cl.nextReq + 1 !in s.cl.kinds
    ensures var s' := Issue(s, kind);
            Tokens(s'.cl.kinds, s'.cl.inbox, s'.cl.got, s'.cl.nextToken, s'.cl.tokens, s'.cl.refs, s'.sv.tasks, s'.gh.live,
                   s'.net.s2cRead, s'.gh.torn)
  {
    hide Delivered;
  }

  lemma NewId(s: State)
    requires ClientInv(s)
    ensures s.cl.nextReq + 1 !in s.cl.inbox && s.cl.nextReq + 1 !in s.gh.route
  {
  }

  lemma IssueHello(s: State, kind: Kind)
    requires OneHello(s.cl.kinds, s.gh.route, s.net.c2sRead, s.gh.granted) && !kind.Hello?
    requires s.cl.nextReq + 1 !in s.gh.route
    ensures OneHello(Issue(s, kind).cl.kinds, Issue(s, kind).gh.route, s.net.c2sRead, s.gh.granted)
  {
  }

  lemma EnqueueKeeps(s: State, id: nat)
    requires Inv(s) && CanEnqueue(s, id)
    ensures Inv(Enqueue(s, id))
  {
    hide Tables, Routes, Windows, Written, Read, TaskRequests, Places, Replies, Alive, Memory, Results, Tokens, OneHello, CreditInv;
    TablesPhase(s.cl.nextReq, s.cl.kinds, s.cl.phase, s.cl.pending, s.cl.inbox, s.cl.got, id, Queued);
    RoutesEnqueue(s.cl.kinds, s.cl.phase, s.gh.route, s.cl.ops, s.cl.opHead, s.cl.opMid, s.net.c2s, id);
    EnqueueRoute(s, id);
    EnqueueCredits(s, id);
  }

  lemma EnqueueCredits(s: State, id: nat)
    requires ClientInv(s) && CanEnqueue(s, id) && CreditInv(s, 0)
    ensures CreditInv(Enqueue(s, id), 0)
  {
    hide Tables, Windows, OneHello, Credits;
    EnqueueHello(s, id);
    TotalPush(CreditOf, s.cl.ops, s.cl.opHead, Request(id));
    CreditsSplit(s);
    CreditsSplit(Enqueue(s, id));
  }

  lemma EnqueueRoute(s: State, id: nat)
    requires CanEnqueue(s, id)
    requires TaskRequests(s.cl.kinds, s.gh.route, s.net.c2sRead, s.sv.tasks, s.gh.overrun)
    ensures TaskRequests(s.cl.kinds, Enqueue(s, id).gh.route, s.net.c2sRead, s.sv.tasks, s.gh.overrun)
  {
  }

  lemma EnqueueHello(s: State, id: nat)
    requires CanEnqueue(s, id) && OneHello(s.cl.kinds, s.gh.route, s.net.c2sRead, s.gh.granted)
    ensures OneHello(s.cl.kinds, Enqueue(s, id).gh.route, s.net.c2sRead, s.gh.granted)
  {
  }

  lemma SentOKKeeps(s: State, id: nat)
    requires Inv(s) && CanSentOK(s, id)
    ensures Inv(SentOK(s, id))
  {
    hide Tables, Routes, Windows, Written, Read, TaskRequests, Places, Replies, Alive, Memory, Results, Tokens, OneHello, Credits;
    TablesPhase(s.cl.nextReq, s.cl.kinds, s.cl.phase, s.cl.pending, s.cl.inbox, s.cl.got, id, Waiting);
    RoutesPhase(s.cl.kinds, s.cl.phase, s.gh.route, s.cl.ops, s.cl.opHead, s.cl.opMid, s.net.c2s, id, Waiting);
  }

  lemma GiveUpKeeps(s: State, id: nat)
    requires Inv(s) && CanGiveUp(s, id)
    ensures Inv(GiveUp(s, id))
  {
    hide InvUpTo, Leave;
    AbandonKeeps(s, id, true);
  }

  /** What a result in the channel says about its window. */
  lemma InboundSettles(s: State, id: nat)
    requires Inv(s) && id in s.cl.inbox && s.cl.inbox[id].Some? && id in s.cl.phase
    requires s.cl.inbox[id].value.Payload? || (s.cl.inbox[id].value.Reply? && s.cl.inbox[id].value.msg.RespErr?)
    ensures MayUnlive(Consume(s, id), id)
  {
    hide Tables, Routes, Windows, Written, Read, TaskRequests, Places, Replies, Alive, Memory, OneHello, Credits;
    if !s.gh.torn {
      assert GoodInbound(s.cl.kinds, s.sv.tasks, s.gh.live, s.net.s2cRead, id, s.cl.inbox[id].value);
      forall t | t in s.cl.tokens ensures s.cl.tokens[t] != id {
        assert s.cl.inbox[s.cl.tokens[t]] == None;
      }
    }
  }

  lemma TakeReplyKeeps(s: State, id: nat)
    requires Inv(s) && CanTakeReply(s, id)
    ensures Inv(TakeReply(s, id))
  {
    hide Tables, Routes, Windows, Written, Read, TaskRequests, Places, Replies, Alive, Memory, Results, Tokens, OneHello, Credits;
    var r := s.cl.inbox[id].value;
    ConsumeStep(s, id, 0);
    if r.Reply? && r.msg.RespErr? {
      InboundSettles(s, id);
      UnliveStep(Consume(s, id), id, 0);
    }
  }

  lemma TakePayloadKeeps(s: State, id: nat, ok: bool)
    requires Inv(s) && CanTakePayload(s, id)
    ensures Inv(TakePayload(s, id, ok))
  {
    hide Tables, Routes, Windows, Written, Read, TaskRequests, Places, Replies, Alive, Memory, Results, Tokens, OneHello, Credits;
    var s1 := Consume(s, id);
    ConsumeStep(s, id, 0);
    InboundSettles(s, id);
    if Acceptable(s.cl.kinds[id], s.cl.inbox[id].value, |s.cl.mem|) {
      GotOnce(s, id);
      RegisterGet(s, id, ok);
      RegisterCredit(s, id, ok);
    } else if s.cl.kinds[id].Get? {
      AckOneStep(s1, ok, -1);
      UnliveStep(AckOne(s1, ok), id, 0);
    } else {
      LoseStep(s1, -1);
    }
  }

  lemma GotOnce(s: State, id: nat)
    requires ClientInv(s) && id in s.cl.inbox && s.cl.inbox[id].Some?
    ensures id in s.cl.got && s.cl.got[id] == 1
  {
  }

  lemma RegisterGet(s: State, id: nat, ok: bool)
    requires GetInv(s) && CanTakePayload(s, id) && Acceptable(s.cl.kinds[id], s.cl.inbox[id].value, |s.cl.mem|)
    requires id in s.cl.got && s.cl.got[id] == 1
    ensures GetInv(TakePayload(s, id, ok))
  {
    hide Memory, Alive, Delivered, Acceptable;
    var s' := TakePayload(s, id, ok);
    if !s.gh.torn {
      GoodArrival(s, id);
    }
    forall t | t in s.cl.tokens ensures s.cl.tokens[t] != id && t != s'.cl.nextToken {
      assert s.cl.inbox[s.cl.tokens[t]] == None;
    }
  }

  /** The payload a caller receives is the one its goroutine sent, into its own window. */
  lemma GoodArrival(s: State, id: nat)
    requires GetInv(s) && CanTakePayload(s, id) && !s.gh.torn
    ensures id in s.gh.live && Delivered(s.sv.tasks, id, s.net.s2cRead)
    ensures var r := s.cl.inbox[id].value; 0 <= r.off && Ref(r.off, r.len) == Ref(s.sv.tasks[id].off, |s.sv.tasks[id].body|)
  {
    hide Memory, Alive, Tokens;
    assert GoodInbound(s.cl.kinds, s.sv.tasks, s.gh.live, s.net.s2cRead, id, s.cl.inbox[id].value);
  }

  lemma RegisterCredit(s: State, id: nat, ok: bool)
    requires CanTakePayload(s, id) && Acceptable(s.cl.kinds[id], s.cl.inbox[id].value, |s.cl.mem|)
    requires CreditInv(Consume(s, id), -1) && GetInv(s)
    ensures CreditInv(TakePayload(s, id, ok), 0)
  {
    hide Memory, Alive, Results, Credits, OneHello;
    var s' := TakePayload(s, id, ok);
    assert s'.cl.nextToken !in s.cl.tokens;
    CreditsSplit(Consume(s, id));
    CreditsSplit(s');
  }

  lemma LeaveKeeps(s: State, id: nat, timeout: bool)
    requires Inv(s) && CanLeave(s, id, timeout)
    ensures Inv(Leave(s, id, timeout))
  {
    hide InvUpTo, Leave;
    AbandonKeeps(s, id, timeout);
  }

  lemma AbandonKeeps(s: State, id: nat, timeout: bool)
    requires Inv(s) && id in s.cl.inbox && id in s.cl.phase
    ensures Inv(Leave(s, id, timeout))
  {
    hide Tables, Routes, Windows, Written, Read, TaskRequests, Places, Replies, Alive, Memory, Results, Tokens, OneHello, Credits;
    var s1 := Consume(s, id);
    var holds := HoldsPayload(s.cl.inbox[id]);
    ConsumeStep(s, id, 0);
    var s2 := if timeout then Unregister(s1, id) else s1;
    UnregisterStep(s1, id, if holds then -1 else 0);
    if holds {
      InboundSettles(s, id);
      LoseStep(s2, -1);
      UnliveStep(Lose(s2), id, 0);
    }
  }

  function DropToken(s: State, t: nat): State {
    s.(cl := s.cl.(tokens := s.cl.tokens - {t}))
  }

  lemma DropTokenStep(s: State, t: nat)
    requires Inv(s) && t in s.cl.tokens
    ensures InvUpTo(DropToken(s, t), -1) && MayUnlive(DropToken(s, t), s.cl.tokens[t])
  {
    hide Tables, Routes, Windows, Written, Read, TaskRequests, Places, Replies, Alive, Memory, Results, Tokens, OneHello, Credits;
    DropTokenGet(s, t);
    CreditsSplit(s);
    CreditsSplit(DropToken(s, t));
    assert s.cl.tokens == (s.cl.tokens - {t})[t := s.cl.tokens[t]];
  }

  lemma DropTokenGet(s: State, t: nat)
    requires GetInv(s) && t in s.cl.tokens
    ensures GetInv(DropToken(s, t)) && MayUnlive(DropToken(s, t), s.cl.tokens[t])
  {
    hide Memory, Alive, Results;
    if !s.gh.torn {
      assert GoodRef(s.sv.tasks, s.gh.live, s.net.s2cRead, s.cl.refs, s.cl.tokens[t]);
    }
  }

  lemma ReleaseKeeps(s: State, t: nat, ok: bool)
    requires Inv(s) && CanRelease(s, t)
    ensures Inv(Release(s, t, ok))
  {
    hide Tables, Routes, Windows, Written, Read, TaskRequests, Places, Replies, Alive, Memory, Results, Tokens, OneHello, Credits;
    DropTokenStep(s, t);
    var s1 := DropToken(s, t);
    AckOneStep(s1, ok, -1);
    UnliveStep(AckOne(s1, ok), s.cl.tokens[t], 0);
  }

  lemma CloseClientKeeps(s: State)
    requires Inv(s)
    ensures Inv(CloseClient(s))
  {
    hide Tables, Routes, Windows, Written, Read, TaskRequests, Places, Replies, Alive, Memory, Results, Tokens, OneHello, Credits;
  }

  lemma SpliceSparesRange(mem: bytes, off: nat, data: bytes, lo: nat, len: nat)
    requires off + |data| <= |mem| && lo + len <= |mem| && Apart(off, |data|, lo, len)
    ensures Splice(mem, off, data)[lo..lo + len] == mem[lo..lo + len]
  {
  }

  lemma ApartWithin(a: nat, alen: nat, b: nat, blen: nat, blen': nat)
    requires Apart(a, alen, b, blen) && blen' <= blen
    ensures Apart(a, alen, b, blen')
  {
  }

  lemma AppWriteKeeps(s: State, off: nat, data: bytes)
    requires Inv(s) && CanAppWrite(s, off, data)
    ensures Inv(AppWrite(s, off, data))
  {
    hide Tables, Routes, Windows, Written, Read, TaskRequests, Places, Replies, Alive, Memory, Results, Tokens, OneHello, Credits;
    AppWriteMemory(s, off, data);
  }

  lemma AppWriteMemory(s: State, off: nat, data: bytes)
    requires CanAppWrite(s, off, data)
    requires TaskRequests(s.cl.kinds, s.gh.route, s.net.c2sRead, s.sv.tasks, s.gh.overrun)
    requires Memory(s.gh.live, s.sv.tasks, s.net.landed, s.cl.mem, s.gh.torn, s.gh.overrun)
    ensures Memory(s.gh.live, s.sv.tasks, s.net.landed, Splice(s.cl.mem, off, data), s.gh.torn, s.gh.overrun)
  {
    hide RequestMsg, Splice;
    if !s.gh.torn && !s.gh.overrun {
      var mem' := Splice(s.cl.mem, off, data);
      forall id | id in s.sv.tasks && id in s.gh.live && s.sv.tasks[id].phase.PayloadOut? && s.sv.tasks[id].phase.at + 1 < s.net.landed
        ensures InPlace(mem', s.sv.tasks[id])
      {
        var t, k := s.sv.tasks[id], s.cl.kinds[id];
        assert TaskFits(k, t, s.gh.overrun);
        ApartWithin(off, |data|, k.off, k.max, |t.body|);
        SpliceSparesRange(s.cl.mem, off, data, k.off, |t.body|);
      }
    }
  }
}
