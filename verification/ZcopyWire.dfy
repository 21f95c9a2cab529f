/** The channel to the client, as the protocol sees it, over the requests that carry it: a control
    message is one SEND frame, a payload is an offset write, and what the queue pair has moved of their
    requests is a number of items that have landed and part of the next one. */
module ZcopyWire {
  import opened Counters
  import opened Wire
  import opened SendRing
  import opened Transport
  import opened Protocol
  import opened ZcopyBreaks
  import F = ZcopyFrames
  import G = ZcopyGets
  import Z = Zcopy

  type Encoder = Message -> bytes

  /** What the transport is given, and when it takes it as one item: a control message that fits a frame
      and is not a notify frame, or bytes below 4 GiB within the peer's region. */
  predicate Carried(encode: Encoder, x: Item, cap: nat, memLen: nat) {
    match x
    case Ctl(m) => 0 < |encode(m)| <= cap && ParseNotify(encode(m)) == None
    case Data(off, body) => 0 < |body| < TWO32 && off < TWO32 && off + |body| <= memLen
  }

  function ItemRequests(encode: Encoder, x: Item, cap: nat): seq<Request>
    requires cap > 0
  {
    match x
    case Ctl(m) => [Send(encode(m))]
    case Data(off, body) => Asked(off, body, cap)
  }

  function ItemFrame(encode: Encoder, x: Item): bytes {
    match x
    case Ctl(m) => encode(m)
    case Data(off, body) => EncodeNotify(Notify(true, Wrap(|body|), Wrap(off)))
  }

  function LogOf(encode: Encoder, xs: seq<Item>, cap: nat): seq<Request>
    requires cap > 0
  {
    if xs == [] then [] else LogOf(encode, xs[..|xs| - 1], cap) + ItemRequests(encode, xs[|xs| - 1], cap)
  }

  /** The client's memory once all of these have landed. */
  function LandAll(mem: bytes, xs: seq<Item>): (r: bytes)
    ensures |r| == |mem|
  {
    if xs == [] then mem else LandOne(LandAll(mem, xs[..|xs| - 1]), xs[|xs| - 1])
  }

  function LandOne(mem: bytes, x: Item): (r: bytes)
    ensures |r| == |mem|
  {
    if x.Data? && x.off + |x.body| <= |mem| then Splice(mem, x.off, x.body) else mem
  }

  function FramesOf(encode: Encoder, xs: seq<Item>): (r: seq<bytes>)
    ensures |r| == |xs|
  {
    seq(|xs|, i requires 0 <= i < |xs| => ItemFrame(encode, xs[i]))
  }

  /** The peer when n items of xs have landed, and k bytes of the item after them. */
  ghost predicate Landed(encode: Encoder, p: Peer, q: Peer, xs: seq<Item>, n: nat, k: nat) {
    && n <= |xs| && q.fault == p.fault && q.inbox == p.inbox + FramesOf(encode, xs[..n])
    && if k == 0 then q.mem == LandAll(p.mem, xs[..n])
       else n < |xs| && xs[n].Data? && k <= |xs[n].body| && xs[n].off + |xs[n].body| <= |p.mem|
            && q.mem == Splice(LandAll(p.mem, xs[..n]), xs[n].off, xs[n].body[..k])
  }

  // --------------------------------------------------------------- one item

  /** Some of the chunks of a WRITE have replaced the first k bytes of its range. */
  lemma {:induction false} ChunksReplacePart(p: Peer, addr: nat, body: bytes, cap: nat, t: nat) returns (k: nat)
    requires cap > 0 && addr + |body| <= |p.mem| && t <= |Writes(addr, body, cap)|
    ensures k <= |body| && DeliverAll(p, Writes(addr, body, cap)[..t]) == p.(mem := Splice(p.mem, addr, body[..k]))
    decreases |body|
  {
    hide DeliverAll;
    k := 0;
    if t == 0 {
      DeliverNothing(p);
      assert Splice(p.mem, addr, body[..0]) == p.mem;
    } else {
      var n := Min(cap, |body|);
      var first, rest := Write(addr, body[..n]), Writes(addr + n, body[n..], cap);
      var q := Deliver(p, first);
      DeliverCons(p, first, rest[..t - 1]);
      var j := ChunksReplacePart(q, addr + n, body[n..], cap, t - 1);
      k := n + j;
      SpliceTwice(p.mem, addr, body[..n], body[n..][..j]);
      assert body[..n] + body[n..][..j] == body[..k];
      assert Writes(addr, body, cap)[..t] == [first] + rest[..t - 1];
    }
  }

  lemma ItemLands(encode: Encoder, p: Peer, x: Item, cap: nat)
    requires cap > 0 && Carried(encode, x, cap, |p.mem|)
    ensures DeliverAll(p, ItemRequests(encode, x, cap)) == Peer(LandOne(p.mem, x), p.inbox + [ItemFrame(encode, x)], p.fault)
  {
    hide DeliverAll, Writes, EncodeNotify, ParseNotify, Splice;
    match x
    case Ctl(m) => DeliverOne(p, Send(encode(m)));
    case Data(off, body) =>
      var note := Send(ItemFrame(encode, x));
      WritesReplaceExactly(p, off, body, cap);
      DeliverConcat(p, Writes(off, body, cap), [note]);
      DeliverOne(DeliverAll(p, Writes(off, body, cap)), note);
  }

  /** Short of its last request an item has put in place only part of its bytes, and no frame. */
  lemma PartLands(encode: Encoder, p: Peer, x: Item, cap: nat, t: nat) returns (k: nat)
    requires cap > 0 && Carried(encode, x, cap, |p.mem|) && t < |ItemRequests(encode, x, cap)|
    ensures if k == 0 then DeliverAll(p, ItemRequests(encode, x, cap)[..t]) == p
            else x.Data? && k <= |x.body| && DeliverAll(p, ItemRequests(encode, x, cap)[..t])
                                             == p.(mem := Splice(p.mem, x.off, x.body[..k]))
  {
    hide DeliverAll, Writes, EncodeNotify, ParseNotify;
    match x
    case Ctl(m) =>
      k := 0;
      DeliverNothing(p);
      assert ItemRequests(encode, x, cap)[..t] == [];
    case Data(off, body) =>
      assert ItemRequests(encode, x, cap)[..t] == Writes(off, body, cap)[..t];
      k := ChunksReplacePart(p, off, body, cap, t);
      assert k == 0 ==> Splice(p.mem, off, body[..k]) == p.mem;
  }

  // --------------------------------------------------------------- the log

  ghost predicate AllCarried(encode: Encoder, xs: seq<Item>, cap: nat, memLen: nat) {
    forall x <- xs :: Carried(encode, x, cap, memLen)
  }

  lemma {:induction false} AllLand(encode: Encoder, p: Peer, xs: seq<Item>, cap: nat)
    requires cap > 0 && AllCarried(encode, xs, cap, |p.mem|)
    ensures Landed(encode, p, DeliverAll(p, LogOf(encode, xs, cap)), xs, |xs|, 0)
  {
    hide DeliverAll, ItemRequests, Carried, LandOne, ItemFrame;
    assert xs[..|xs|] == xs;
    if xs == [] {
      DeliverNothing(p);
      assert FramesOf(encode, xs) == [];
    } else {
      var front, x := xs[..|xs| - 1], xs[|xs| - 1];
      assert front[..|front|] == front;
      AllLand(encode, p, front, cap);
      DeliverConcat(p, LogOf(encode, front, cap), ItemRequests(encode, x, cap));
      ItemLands(encode, DeliverAll(p, LogOf(encode, front, cap)), x, cap);
      assert FramesOf(encode, xs) == FramesOf(encode, front) + [ItemFrame(encode, x)];
    }
  }

  /** Whatever the queue pair has moved of the log, a number of items have landed, each with its frame,
      and of the next one, if it is a payload, some first bytes. */
  lemma {:induction false} LogLands(encode: Encoder, p: Peer, xs: seq<Item>, cap: nat, t: nat) returns (n: nat, k: nat)
    requires cap > 0 && AllCarried(encode, xs, cap, |p.mem|) && t <= |LogOf(encode, xs, cap)|
    ensures Landed(encode, p, DeliverAll(p, LogOf(encode, xs, cap)[..t]), xs, n, k)
    decreases |xs|
  {
    hide DeliverAll, ItemRequests, Carried, LandOne, ItemFrame, FramesOf;
    var log := LogOf(encode, xs, cap);
    if t == |log| {
      n, k := |xs|, 0;
      AllLand(encode, p, xs, cap);
      assert log[..t] == log;
    } else {
      var front, x := xs[..|xs| - 1], xs[|xs| - 1];
      var before := LogOf(encode, front, cap);
      if t <= |before| {
        n, k := LogLands(encode, p, front, cap, t);
        assert log[..t] == before[..t];
        assert front[..n] == xs[..n];
      } else {
        n := |front|;
        AllLand(encode, p, front, cap);
        assert front[..|front|] == front == xs[..n];
        assert log[..t] == before + ItemRequests(encode, x, cap)[..t - |before|];
        DeliverConcat(p, before, ItemRequests(encode, x, cap)[..t - |before|]);
        k := PartLands(encode, DeliverAll(p, before), x, cap, t - |before|);
        if x.Data? {
          CarriedFits(encode, x, cap, |p.mem|);
        }
      }
    }
  }

  lemma CarriedFits(encode: Encoder, x: Item, cap: nat, memLen: nat)
    requires Carried(encode, x, cap, memLen) && x.Data?
    ensures x.off + |x.body| <= memLen
  {
  }

  lemma LandedKeepsSize(encode: Encoder, p: Peer, q: Peer, xs: seq<Item>, n: nat, k: nat)
    requires Landed(encode, p, q, xs, n, k)
    ensures |q.mem| == |p.mem|
  {
  }

  function Seen(mem: bytes, off: nat, body: bytes): bytes {
    if off + |body| <= |mem| then mem[off..off + |body|] else body
  }

  /** A frame that has landed is read as the item it stands for: the encoded message, or a view of the
      memory at the payload's own offset and of its own length. */
  lemma LandedReads(encode: Encoder, region: Region, p: Peer, q: Peer, xs: seq<Item>, n: nat, k: nat, i: nat, cap: nat)
    requires Landed(encode, p, q, xs, n, k) && i < n && AllCarried(encode, xs, cap, |p.mem|)
    requires region.cap * region.slots == |p.mem|
    ensures Receive(region, q.mem, q.inbox[|p.inbox| + i])
         == match xs[i]
            case Ctl(m) => Message(encode(m), -1)
            case Data(off, body) => Message(Seen(q.mem, off, body), off)
  {
    hide Receive, Carried, LandAll, Splice, ItemFrame;
    assert q.inbox[|p.inbox| + i] == ItemFrame(encode, xs[i]);
    assert xs[i] in xs;
    LandedKeepsSize(encode, p, q, xs, n, k);
    ItemReads(encode, region, q.mem, xs[i], cap);
  }

  lemma ItemReads(encode: Encoder, region: Region, mem: bytes, x: Item, cap: nat)
    requires Carried(encode, x, cap, |mem|) && region.cap * region.slots == |mem|
    ensures Receive(region, mem, ItemFrame(encode, x))
         == match x case Ctl(m) => Message(encode(m), -1) case Data(off, body) => Message(Seen(mem, off, body), off)
  {
    hide EncodeNotify, ParseNotify;
    match x
    case Ctl(_) =>
    case Data(off, body) => ParseOfEncode(Notify(true, |body|, off));
  }

  // ------------------------------------------------------ the composed model

  /** What the server of the composed model has sent is what the transport takes, for a memory of `len`
      bytes, all of it registered: its messages by assumption, its payloads always. */
  predicate Fit(x: Item, len: nat) {
    x.Data? ==> 0 < |x.body| < TWO32 && x.off < TWO32 && x.off + |x.body| <= len
  }

  ghost predicate AllFit(s: Z.State, len: nat) {
    |s.cl.mem| == len && 0 < len < TWO32 && forall x <- s.net.s2c :: Fit(x, len)
  }

  lemma SentIsFit(s: Z.State, t: Z.Task, ok: bool)
    requires Z.Sent(s, t, ok) && 0 < |s.cl.mem| < TWO32
    ensures Fit(Data(Wrap(t.off), Z.Cut(t.body)), |s.cl.mem|)
  {
  }

  /** A step adds nothing to the stream to the client, or one thing that fits. */
  ghost predicate AddsFit(s: Z.State, s': Z.State, len: nat) {
    s'.net.s2c == s.net.s2c || exists x :: Fit(x, len) && s'.net.s2c == s.net.s2c + [x]
  }

  lemma Adds(s: Z.State, s': Z.State, len: nat, x: Item)
    requires Fit(x, len) && s'.net.s2c == s.net.s2c + [x]
    ensures AddsFit(s, s', len)
  {
  }

  lemma RoutineAdds(s: Z.State, e: Z.Event)
    requires Z.ByRoutine(e) && Z.RoutineCan(s, e) && 0 < |s.cl.mem| < TWO32
    ensures AddsFit(s, Z.RoutineDoes(s, e), |s.cl.mem|)
  {
    hide Z.LookUp, Z.SentWhole, Z.Sent, Z.Cut, Fit;
    match e
    case ELookUp(id) => LookUpWaits(s, id);
    case ESendHeader(id, ok) =>
      MessageFits(Z.Header(id, s.sv.tasks[id]), |s.cl.mem|);
      if ok && s.sv.tasks[id].off >= 0 {
        Adds(s, Z.SendHeader(s, id, ok), |s.cl.mem|, Ctl(Z.Header(id, s.sv.tasks[id])));
      }
    case ESendPayload(id, ok) =>
      var t := s.sv.tasks[id];
      if Z.Sent(s, t, ok) {
        SentIsFit(s, t, ok);
        Adds(s, Z.SendPayload(s, id, ok), |s.cl.mem|, Data(Wrap(t.off), Z.Cut(t.body)));
      }
    case ESendAnswer(id, ok) =>
      MessageFits(RespErr(id), |s.cl.mem|);
      if ok {
        Adds(s, Z.SendAnswer(s, id, ok), |s.cl.mem|, Ctl(RespErr(id)));
      }
    case _ =>
  }

  lemma MessageFits(m: Message, len: nat)
    ensures Fit(Ctl(m), len)
  {
  }

  lemma ServeLoopAdds(s: Z.State, e: Z.Event)
    requires Z.ByServeLoop(e) && Z.ServeLoopCan(s, e)
    ensures AddsFit(s, Z.ServeLoopDoes(s, e), |s.cl.mem|)
  {
    hide Z.Serve, Matches, Fit;
    match e
    case EServe => F.ServeFrame(s);
    case EServeReply(ok, goOn) =>
      if ok {
        MessageFits(s.sv.serve.reply, |s.cl.mem|);
        Adds(s, Z.ServeReply(s, ok, goOn), |s.cl.mem|, Ctl(s.sv.serve.reply));
      }
    case _ =>
  }

  lemma StepAdds(s: Z.State, e: Z.Event)
    requires Z.Can(s, e) && 0 < |s.cl.mem| < TWO32
    ensures AddsFit(s, Z.Do(s, e), |s.cl.mem|)
  {
    hide Z.CallerDoes, Z.LoopDoes, Z.ServeLoopDoes, Z.RoutineDoes, Z.WorldDoes, Z.CallerCan, Z.LoopCan, Z.ServeLoopCan, Z.RoutineCan,
      Z.WorldCan, Fit;
    if Z.ByCaller(e) {
      CallerWaits(s, e);
    } else if Z.ByLoop(e) {
      if e.ESendControl? || e.ESendData? {
        SendsToServer(s, e);
      } else {
        RecvWaits(s, e);
      }
    } else if Z.ByServeLoop(e) {
      ServeLoopAdds(s, e);
    } else if Z.ByRoutine(e) {
      RoutineAdds(s, e);
    } else {
      WorldWaits(s, e);
    }
  }

  lemma MemoryKeepsSize(s: Z.State, e: Z.Event)
    requires Z.Can(s, e)
    ensures |Z.Do(s, e).cl.mem| == |s.cl.mem|
  {
    hide Z.CanIssue;
    if !G.AtMemory(e) {
      G.OthersLeaveMemory(s, e);
    }
  }

  lemma {:induction false} AllFitOverRuns(s: Z.State, es: seq<Z.Event>)
    requires Z.CanRun(s, es) && AllFit(s, |s.cl.mem|)
    ensures |Z.Run(s, es).cl.mem| == |s.cl.mem| && AllFit(Z.Run(s, es), |s.cl.mem|)
    decreases |es|
  {
    hide Z.Can, Z.Do, Fit;
    if es != [] {
      StepAdds(s, es[0]);
      MemoryKeepsSize(s, es[0]);
      AllFitOverRuns(Z.Do(s, es[0]), es[1..]);
    }
  }

  /** Everything the server sends in any run is an item to the transport, as long as its messages are
      encoded as frames. */
  lemma RunIsCarried(u: Z.Setup, es: seq<Z.Event>, encode: Encoder, cap: nat)
    requires Z.Usable(u) && Z.CanRun(Z.Init(u), es)
    requires forall x <- Z.Run(Z.Init(u), es).net.s2c :: x.Ctl? ==> Carried(encode, x, cap, |u.mem|)
    ensures AllCarried(encode, Z.Run(Z.Init(u), es).net.s2c, cap, |u.mem|)
  {
    hide Z.Can, Z.Do;
    AllFitOverRuns(Z.Init(u), es);
  }

  lemma {:induction false} LandFirst(mem: bytes, xs: seq<Item>)
    requires xs != []
    ensures LandAll(mem, xs) == LandAll(LandOne(mem, xs[0]), xs[1..])
  {
    hide LandOne;
    if |xs| == 1 {
      assert xs[..0] == [] && xs[1..] == [];
    } else {
      LandFirst(mem, xs[..|xs| - 1]);
      assert xs[..|xs| - 1][1..] == xs[1..][..|xs[1..]| - 1];
    }
  }

  lemma LandStep(s: Z.State)
    requires Z.Can(s, Z.ELand)
    ensures Z.CanLand(s) && Z.Do(s, Z.ELand) == Z.Land(s)
    ensures Z.Land(s).net == s.net.(landed := s.net.landed + 1)
    ensures Z.Land(s).cl.mem == if Z.Shared(s.cl.mem) then LandOne(s.cl.mem, s.net.s2c[s.net.landed]) else s.cl.mem
  {
    hide Splice;
  }

  /** Landing steps of the composed model do to the client's memory what delivering the items does, if
      that memory is what is registered, and nothing otherwise. */
  lemma {:induction false} LandingsDeliver(s: Z.State, es: seq<Z.Event>)
    requires Z.CanRun(s, es) && (forall i :: 0 <= i < |es| ==> es[i] == Z.ELand) && s.net.landed <= |s.net.s2c|
    ensures var s' := Z.Run(s, es);
            && s'.net == s.net.(landed := s.net.landed + |es|) && s'.net.landed <= |s.net.s2c|
            && s'.cl.mem == if Z.Shared(s.cl.mem) then LandAll(s.cl.mem, s.net.s2c[s.net.landed..s'.net.landed]) else s.cl.mem
    decreases |es|
  {
    hide LandOne, Z.Can, Z.Do, Wrap;
    if es != [] {
      LandStep(s);
      LandingsDeliver(Z.Land(s), es[1..]);
      var to := s.net.landed + |es|;
      var xs := s.net.s2c[s.net.landed..to];
      LandFirst(s.cl.mem, xs);
      assert xs[1..] == s.net.s2c[s.net.landed + 1..to];
    }
  }

  /** For a live connection: if what it has posted is the requests of these items, or a prefix of them,
      its peer is the client's memory and inbox when some of the items have landed. */
  lemma ConnectionCarriesItems(c: Connection, encode: Encoder, xs: seq<Item>) returns (n: nat, k: nat)
    requires c.Valid() && AllCarried(encode, xs, c.frameCap, |c.peer0.mem|)
    requires Requests(c.posted) <= LogOf(encode, xs, c.frameCap)
    ensures Landed(encode, c.peer0, c.peer, xs, n, k)
  {
    hide Connection.Valid, Requests, DeliverAll, LogOf, Landed, Carried;
    c.Sizes();
    c.PeerIsFifoPrefix();
    assert Requests(c.posted)[..c.sent] == LogOf(encode, xs, c.frameCap)[..c.sent];
    n, k := LogLands(encode, c.peer0, xs, c.frameCap, c.sent);
  }

  lemma {:induction false} LogOfPrefix(encode: Encoder, xs: seq<Item>, cap: nat, k: nat)
    requires cap > 0 && k <= |xs|
    ensures LogOf(encode, xs[..k], cap) <= LogOf(encode, xs, cap)
  {
    hide ItemRequests;
    if k == |xs| {
      assert xs[..k] == xs;
    } else {
      assert xs[..|xs| - 1][..k] == xs[..k];
      LogOfPrefix(encode, xs[..|xs| - 1], cap, k);
    }
  }

  lemma NextItem(encode: Encoder, xs: seq<Item>, cap: nat, k: nat)
    requires cap > 0 && k < |xs|
    ensures LogOf(encode, xs[..k + 1], cap) == LogOf(encode, xs[..k], cap) + ItemRequests(encode, xs[k], cap)
    ensures LogOf(encode, xs[..k], cap) <= LogOf(encode, xs[..k + 1], cap) <= LogOf(encode, xs, cap)
  {
    hide ItemRequests;
    LogOfPrefix(encode, xs, cap, k + 1);
    assert xs[..k + 1][..k] == xs[..k];
  }

  lemma WholeItem(off: uint32, body: bytes, cap: nat)
    requires cap > 0 && 0 < |body| < TWO32
    ensures body[..Wrap(|body|)] == body && Wrap(off) == off
    ensures WriteAt(off, body, cap) == Asked(off, body, cap)
  {
    hide WriteAt, Asked;
    WholeIffShort(off, body, cap);
    WrapSmall(|body|);
    WrapSmall(off);
  }

  lemma WrapSmall(n: nat)
    requires n < TWO32
    ensures Wrap(n) == n
  {
  }

  /** The connection knows a region of at least so many bytes at its peer. */
  predicate Opens(c: Connection, memLen: nat) {
    c.RwUsable() && memLen <= c.peerCap * c.peerSlots < TWO32
  }

  /** One item: a control message by SendMessage, a payload by SendMessageAt. */
  method SendItem(c: Connection, encode: Encoder, x: Item, registered: bool, deregFails: bool, timeoutMs: int, ghost memLen: nat)
    returns (rc: Rc)
    requires c.Valid() && c.frameCap > 0 && Carried(encode, x, c.frameCap, memLen)
    requires c.sendDepth > 0 && Continuous(|c.posted| + |ItemRequests(encode, x, c.frameCap)|, c.sendDepth)
    modifies c, c.sendBuf
    ensures c.Valid()
    ensures Requests(c.posted) <= Requests(old(c.posted)) + ItemRequests(encode, x, c.frameCap)
    ensures Requests(old(c.posted)) <= Requests(c.posted)
    ensures rc == OK ==> Requests(c.posted) == Requests(old(c.posted)) + ItemRequests(encode, x, c.frameCap)
    ensures c.GoesThrough(timeoutMs) && !deregFails && Opens(c, memLen) ==> rc == OK
  {
    hide Connection.Valid, Continuous, EncodeNotify, ParseNotify, Writes, Frames, WriteAt, Asked;
    c.Sizes();
    match x
    case Ctl(m) =>
      SmallFrame(encode(m), c.frameCap);
      rc := c.SendPayload(encode(m), registered, deregFails, timeoutMs);
    case Data(off, body) =>
      WholeItem(off, body, c.frameCap);
      rc := c.SendPayloadAt(body, off, registered, deregFails, timeoutMs);
  }

  /** The items in turn, on a connection that has sent nothing, until one fails. */
  method SendItems(c: Connection, encode: Encoder, xs: seq<Item>, registered: seq<bool>, deregFails: bool, timeoutMs: int,
                   ghost memLen: nat)
    returns (k: nat, rc: Rc)
    requires c.Valid() && c.posted == [] && c.frameCap > 0 && c.sendDepth > 0
    requires AllCarried(encode, xs, c.frameCap, memLen) && |registered| == |xs|
    requires Continuous(|LogOf(encode, xs, c.frameCap)|, c.sendDepth)
    modifies c, c.sendBuf
    ensures c.Valid() && k <= |xs| && (rc == OK <==> k == |xs|)
    ensures c.GoesThrough(timeoutMs) && !deregFails && Opens(c, memLen) ==> k == |xs|
    ensures LogOf(encode, xs[..k], c.frameCap) <= Requests(c.posted) <= LogOf(encode, xs, c.frameCap)
  {
    hide Connection.Valid, Requests, Continuous, Carried, ItemRequests;
    k, rc := 0, OK;
    assert Requests(c.posted) == [];
    while k < |xs|
      invariant k <= |xs| && rc == OK && c.Valid()
      invariant Requests(c.posted) == LogOf(encode, xs[..k], c.frameCap)
    {
      NextItem(encode, xs, c.frameCap, k);
      c.PostedLength();
      ContinuousBelow(|LogOf(encode, xs[..k + 1], c.frameCap)|, |LogOf(encode, xs, c.frameCap)|, c.sendDepth);
      assert xs[k] in xs;
      rc := SendItem(c, encode, xs[k], registered[k], deregFails, timeoutMs, memLen);
      if rc != OK { return; }
      k := k + 1;
    }
    assert xs[..k] == xs;
  }

  /** The refinement, from a fresh connection alone: for every run of the composed protocol, when the
      server's connection is given what the server sends in it, then however far its queue pair has got,
      the client's memory and inbox are those of a number of landed items and part of the next one. */
  method ChannelIsRefined(c: Connection, encode: Encoder, u: Z.Setup, ghost es: seq<Z.Event>, xs: seq<Item>,
                          registered: seq<bool>, deregFails: bool, timeoutMs: int)
    returns (ghost n: nat, ghost k: nat, rc: Rc)
    requires Z.Usable(u) && Z.CanRun(Z.Init(u), es) && xs == Z.Run(Z.Init(u), es).net.s2c
    requires c.Valid() && c.posted == [] && c.frameCap > 0 && c.sendDepth > 0 && |c.peer0.mem| == |u.mem|
    requires forall x <- xs :: x.Ctl? ==> Carried(encode, x, c.frameCap, |u.mem|)
    requires |registered| == |xs| && Continuous(|LogOf(encode, xs, c.frameCap)|, c.sendDepth)
    modifies c, c.sendBuf
    ensures c.Valid() && Landed(encode, c.peer0, c.peer, xs, n, k)
    ensures c.GoesThrough(timeoutMs) && !deregFails && Opens(c, |u.mem|) ==> rc == OK
    ensures rc == OK && c.sent == |c.posted| ==> n == |xs| && k == 0
  {
    hide Connection.Valid, Requests, Continuous, Carried, LogOf, Landed, Z.Can, Z.Do, Z.Init;
    RunIsCarried(u, es, encode, c.frameCap);
    var done;
    done, rc := SendItems(c, encode, xs, registered, deregFails, timeoutMs, |u.mem|);
    c.NicRuns();
    n, k := ConnectionCarriesItems(c, encode, xs);
    if rc == OK && c.sent == |c.posted| {
      assert xs[..done] == xs;
      c.PeerIsFifoPrefix();
      assert Requests(c.posted)[..c.sent] == Requests(c.posted) == LogOf(encode, xs, c.frameCap);
      n, k := |xs|, 0;
      AllLand(encode, c.peer0, xs, c.frameCap);
    }
  }
}
