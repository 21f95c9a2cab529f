/** Concrete runs: a GET that succeeds, and one that is reported as a success without its bytes; the GET of
    an empty object, which tears the stream; GETs at an offset beyond 32 bits and with max 0, which land
    elsewhere; a header that fails with the only credit; a refused PUT whose payload is obeyed; and a PUT that
    succeeds and a GET that is refused. */
module ZcopyRuns {
  import opened Counters
  import opened Wire
  import opened Protocol
  import opened Zcopy
  import opened ZcopyInv
  import opened ZcopyFlaws
  import opened ZcopyTheorems
  import opened ZcopyBreaks
  import opened ZcopyStreams
  import opened ZcopyCredits
  import opened ZcopyGets
  import G = Gate

  lemma FirstEvent(s: State, e: Event, es: seq<Event>) returns (all: seq<Event>)
    requires Can(s, e) && CanRun(Do(s, e), es)
    ensures CanRun(s, all) && Run(s, all) == Run(Do(s, e), es)
  {
    hide Can, Do;
    all := [e] + es;
    assert all[1..] == es;
  }

  /** A client asks for an object at `at`, of `max` bytes or fewer; the server holds one object and, if
      `limit` is positive, refuses PUTs of more bytes. */
  datatype Case = Case(credits: nat, mem: bytes, body: bytes, at: nat, max: nat, limit: int, decode: Decoder, own: uint32)

  /** The client may ask for it. */
  predicate Asks(c: Case) {
    c.credits > 0 && c.at + c.max <= |c.mem|
  }

  /** And the server accepts. */
  predicate Fits(c: Case) {
    Asks(c) && c.at + |c.body| <= |c.mem| && (c.max == 0 || |c.body| <= c.max)
  }

  /** The object then goes out whole. */
  predicate Goes(c: Case) {
    Fits(c) && c.body != [] && |c.body| < TWO32 && c.at < TWO32 && c.at + |c.body| <= Region(c.mem, c.own)
  }

  /** And the shared memory is all registered. */
  predicate Fine(c: Case) {
    Fits(c) && c.body != [] && |c.body| <= c.max && |c.mem| < TWO32
  }

  lemma FineGoes(c: Case)
    requires Fine(c)
    ensures Goes(c) && Shared(c.mem)
  {
  }

  /** The client's memory after the object has been written. */
  function Filled(c: Case): (r: bytes)
    requires c.at + |c.body| <= |c.mem|
    ensures |r| == |c.mem|
  {
    if Shared(c.mem) then Splice(c.mem, c.at, c.body) else c.mem
  }

  function Shop(c: Case): Objects {
    map[("b", "k") := c.body]
  }

  function TheGet(c: Case): Kind {
    Get("b", "k", c.at, c.max)
  }

  function Start(c: Case): State {
    Init(Setup(c.credits, c.mem, Shop(c), c.limit, c.decode, c.own))
  }

  /** The server has read hello and answered. */
  function HelloAnswered(c: Case): State {
    State(
      Client(1, map[1 := Hello(c.credits)], map[1 := Queued], {1}, map[1 := None], map[1 := 0],
             [Request(1)], 1, false, AtControl, 0, map[], map[], c.mem, false, false),
      Server(G.Gate(c.credits, false), map[], None, Reading, Shop(c), c.limit),
      Net([Ctl(HelloReq(1, c.credits))], 1, [Ctl(HelloResp(1, c.credits, ""))], 0, 0),
      Ghost(map[1 := Route(Some(0), Some(0))], {}, c.credits, 0, false, false, false, false), c.decode, c.own)
  }

  /** The client has read the answer. */
  function HelloBuffered(c: Case): State {
    State(
      Client(1, map[1 := Hello(c.credits)], map[1 := Queued], {}, map[1 := Some(Reply(HelloResp(1, c.credits, "")))], map[1 := 1],
             [Request(1)], 1, false, AtControl, 0, map[], map[], c.mem, false, false),
      Server(G.Gate(c.credits, false), map[], None, Reading, Shop(c), c.limit),
      Net([Ctl(HelloReq(1, c.credits))], 1, [Ctl(HelloResp(1, c.credits, ""))], 1, 1),
      Ghost(map[1 := Route(Some(0), Some(0))], {}, c.credits, 0, false, false, false, false), c.decode, c.own)
  }

  /** hello has returned, and callers may go on. */
  function Ready(c: Case): State {
    State(
      Client(1, map[1 := Hello(c.credits)], map[1 := Finished], {}, map[1 := None], map[1 := 1],
             [Request(1)], 1, false, AtControl, 0, map[], map[], c.mem, true, false),
      Server(G.Gate(c.credits, false), map[], None, Reading, Shop(c), c.limit),
      Net([Ctl(HelloReq(1, c.credits))], 1, [Ctl(HelloResp(1, c.credits, ""))], 1, 1),
      Ghost(map[1 := Route(Some(0), Some(0))], {}, c.credits, 0, false, false, false, false), c.decode, c.own)
  }

  /** A caller asks for the object. */
  function Called(c: Case): State {
    State(
      Client(2, map[1 := Hello(c.credits), 2 := TheGet(c)], map[1 := Finished, 2 := Registered], {2}, map[1 := None, 2 := None],
             map[1 := 1, 2 := 0], [Request(1)], 1, false, AtControl, 0, map[], map[], c.mem, true, false),
      Server(G.Gate(c.credits, false), map[], None, Reading, Shop(c), c.limit),
      Net([Ctl(HelloReq(1, c.credits))], 1, [Ctl(HelloResp(1, c.credits, ""))], 1, 1),
      Ghost(map[1 := Route(Some(0), Some(0)), 2 := Route(None, None)], {2}, c.credits, 0, false, false, false, false), c.decode, c.own)
  }

  /** The request is in the send queue. */
  function Issued(c: Case): State {
    State(
      Client(2, map[1 := Hello(c.credits), 2 := TheGet(c)], map[1 := Finished, 2 := Queued], {2}, map[1 := None, 2 := None],
             map[1 := 1, 2 := 0], [Request(1), Request(2)], 1, false, AtControl, 0, map[], map[], c.mem, true, false),
      Server(G.Gate(c.credits, false), map[], None, Reading, Shop(c), c.limit),
      Net([Ctl(HelloReq(1, c.credits))], 1, [Ctl(HelloResp(1, c.credits, ""))], 1, 1),
      Ghost(map[1 := Route(Some(0), Some(0)), 2 := Route(Some(1), None)], {2}, c.credits, 0, false, false, false, false), c.decode, c.own)
  }

  function AskingClient(c: Case, mem: bytes): Client {
    Client(2, map[1 := Hello(c.credits), 2 := TheGet(c)], map[1 := Finished, 2 := Waiting], {2}, map[1 := None, 2 := None],
           map[1 := 1, 2 := 0], [Request(1), Request(2)], 2, false, AtControl, 0, map[], map[], mem, true, false)
  }

  function Asking(c: Case): seq<Item> {
    [Ctl(HelloReq(1, c.credits)), Ctl(RequestMsg(2, TheGet(c)))]
  }

  function AskingGhost(c: Case): Ghost {
    Ghost(map[1 := Route(Some(0), Some(0)), 2 := Route(Some(1), Some(1))], {2}, c.credits, 0, false, false, false, false)
  }

  /** Once the object has been looked up. */
  function FoundGhost(c: Case): Ghost {
    AskingGhost(c).(overrun := |c.body| > c.max)
  }

  function TheTask(c: Case, phase: TaskPhase, body: bytes): Task {
    Task(phase, RequestMsg(2, TheGet(c)), if phase == Looking then 0 else c.at, body)
  }

  /** It is on its way to the server. */
  function InTransit(c: Case): State {
    State(AskingClient(c, c.mem),
          Server(G.Gate(c.credits, false), map[], None, Reading, Shop(c), c.limit),
          Net(Asking(c), 1, [Ctl(HelloResp(1, c.credits, ""))], 1, 1), AskingGhost(c), c.decode, c.own)
  }

  /** It has reached the server. */
  function Asked(c: Case): State {
    State(AskingClient(c, c.mem),
          Server(G.Gate(c.credits, false), map[2 := TheTask(c, Looking, [])], None, Reading, Shop(c), c.limit),
          Net(Asking(c), 2, [Ctl(HelloResp(1, c.credits, ""))], 1, 1), AskingGhost(c), c.decode, c.own)
  }

  /** Its object has been found, and it has a credit. */
  function HasCredit(c: Case): State {
    State(AskingClient(c, c.mem),
          Server(G.Gate(c.credits - 1, false), map[2 := TheTask(c, Granted, c.body)], None, Reading, Shop(c), c.limit),
          Net(Asking(c), 2, [Ctl(HelloResp(1, c.credits, ""))], 1, 1), FoundGhost(c), c.decode, c.own)
  }

  /** The header of the answer is out. */
  function HeaderSent(c: Case): State {
    State(AskingClient(c, c.mem),
          Server(G.Gate(c.credits - 1, false), map[2 := TheTask(c, HeaderOut(1), c.body)], Some(2), Reading, Shop(c), c.limit),
          Net(Asking(c), 2, [Ctl(HelloResp(1, c.credits, "")), Ctl(Header(2, TheTask(c, Waits, c.body)))], 1, 1), FoundGhost(c), c.decode, c.own)
  }

  /** The payload is in the client's memory. */
  function Arrived(c: Case): State
    requires c.at + |c.body| <= |c.mem|
  {
    State(AskingClient(c, Filled(c)),
          Server(G.Gate(c.credits - 1, false), map[2 := TheTask(c, PayloadOut(1), c.body)], None, Reading, Shop(c), c.limit),
          Net(Asking(c), 2, [Ctl(HelloResp(1, c.credits, "")), Ctl(Header(2, TheTask(c, Waits, c.body))), Data(c.at, c.body)], 1, 3), FoundGhost(c), c.decode, c.own)
  }

  /** The receive loop has given it to the call. */
  function Buffered(c: Case): State
    requires c.at + |c.body| <= |c.mem|
  {
    State(
      AskingClient(c, Filled(c)).(pending := {}, got := map[1 := 1, 2 := 1],
             inbox := map[1 := None, 2 := Some(Payload(Header(2, TheTask(c, Waits, c.body)), c.at, |c.body|))]),
      Server(G.Gate(c.credits - 1, false), map[2 := TheTask(c, PayloadOut(1), c.body)], None, Reading, Shop(c), c.limit),
      Net(Asking(c), 2, [Ctl(HelloResp(1, c.credits, "")), Ctl(Header(2, TheTask(c, Waits, c.body))), Data(c.at, c.body)], 3, 3), FoundGhost(c), c.decode, c.own)
  }

  /** The caller holds it. */
  function Done(c: Case): State
    requires c.at + |c.body| <= |c.mem|
  {
    State(
      Client(2, map[1 := Hello(c.credits), 2 := TheGet(c)], map[1 := Finished, 2 := Finished], {}, map[1 := None, 2 := None],
             map[1 := 1, 2 := 1], [Request(1), Request(2)], 2, false, AtControl,
             1, map[1 := 2], map[2 := Ref(c.at, |c.body|)], Filled(c), true, false),
      Server(G.Gate(c.credits - 1, false), map[2 := TheTask(c, PayloadOut(1), c.body)], None, Reading, Shop(c), c.limit),
      Net(Asking(c), 2, [Ctl(HelloResp(1, c.credits, "")), Ctl(Header(2, TheTask(c, Waits, c.body))), Data(c.at, c.body)], 3, 3), FoundGhost(c), c.decode, c.own)
  }

  lemma HelloSent(c: Case, rest: seq<Event>) returns (es: seq<Event>)
    requires c.credits > 0
    requires CanRun(HelloAnswered(c), rest)
    ensures CanRun(Start(c), es) && Run(Start(c), es) == Run(HelloAnswered(c), rest)
  {
    hide Splice, CanRun, Run, RoutineCan, RoutineDoes, WorldCan, WorldDoes;
    var s0 := Start(c);
    var s1 := Do(s0, EEnqueue(1));
    var s2 := Do(s1, ESendControl(true));
    var s3 := Do(s2, EServe);
    var s4 := Do(s3, EServeReply(true, true));
    assert s4 == HelloAnswered(c);
    es := FirstEvent(s3, EServeReply(true, true), rest);
    es := FirstEvent(s2, EServe, es);
    es := FirstEvent(s1, ESendControl(true), es);
    es := FirstEvent(s0, EEnqueue(1), es);
  }

  lemma HelloRead(c: Case, rest: seq<Event>) returns (es: seq<Event>)
    requires c.credits > 0
    requires CanRun(HelloBuffered(c), rest)
    ensures CanRun(HelloAnswered(c), es) && Run(HelloAnswered(c), es) == Run(HelloBuffered(c), rest)
  {
    hide Splice, CanRun, Run, CallerCan, CallerDoes, ServeLoopCan, ServeLoopDoes, RoutineCan, RoutineDoes;
    var s0 := HelloAnswered(c);
    var s1 := Do(s0, ELand);
    var s2 := Do(s1, ERecvControl);
    assert s2 == HelloBuffered(c);
    es := FirstEvent(s1, ERecvControl, rest);
    es := FirstEvent(s0, ELand, es);
  }

  lemma HelloTaken(c: Case, rest: seq<Event>) returns (es: seq<Event>)
    requires c.credits > 0
    requires CanRun(Ready(c), rest)
    ensures CanRun(HelloBuffered(c), es) && Run(HelloBuffered(c), es) == Run(Ready(c), rest)
  {
    hide Splice, CanRun, Run, LoopCan, LoopDoes, ServeLoopCan, ServeLoopDoes, RoutineCan, RoutineDoes, WorldCan, WorldDoes;
    var s0 := HelloBuffered(c);
    var s1 := Do(s0, ESentOK(1));
    var s2 := Do(s1, ETakeReply(1));
    assert s2 == Ready(c);
    es := FirstEvent(s1, ETakeReply(1), rest);
    es := FirstEvent(s0, ESentOK(1), es);
  }

  lemma GetCalled(c: Case, rest: seq<Event>) returns (es: seq<Event>)
    requires Asks(c)
    requires CanRun(Called(c), rest)
    ensures CanRun(Ready(c), es) && Run(Ready(c), es) == Run(Called(c), rest)
  {
    hide Splice, CanRun, Run, LoopCan, LoopDoes, ServeLoopCan, ServeLoopDoes, RoutineCan, RoutineDoes, WorldCan, WorldDoes;
    var s0 := Ready(c);
    var s1 := Do(s0, EIssue(TheGet(c)));
    assert s1 == Called(c);
    es := FirstEvent(s0, EIssue(TheGet(c)), rest);
  }

  lemma GetIssued(c: Case, rest: seq<Event>) returns (es: seq<Event>)
    requires Asks(c)
    requires CanRun(Issued(c), rest)
    ensures CanRun(Called(c), es) && Run(Called(c), es) == Run(Issued(c), rest)
  {
    hide Splice, CanRun, Run, LoopCan, LoopDoes, ServeLoopCan, ServeLoopDoes, RoutineCan, RoutineDoes, WorldCan, WorldDoes;
    var s0 := Called(c);
    var s1 := Do(s0, EEnqueue(2));
    assert s1 == Issued(c);
    es := FirstEvent(s0, EEnqueue(2), rest);
  }

  lemma GetSent(c: Case, rest: seq<Event>) returns (es: seq<Event>)
    requires Asks(c)
    requires CanRun(InTransit(c), rest)
    ensures CanRun(Issued(c), es) && Run(Issued(c), es) == Run(InTransit(c), rest)
  {
    hide Splice, CanRun, Run, ServeLoopCan, ServeLoopDoes, RoutineCan, RoutineDoes, WorldCan, WorldDoes;
    var s0 := Issued(c);
    var s1 := Do(s0, ESendControl(true));
    var s2 := Do(s1, ESentOK(2));
    assert s2 == InTransit(c);
    es := FirstEvent(s1, ESentOK(2), rest);
    es := FirstEvent(s0, ESendControl(true), es);
  }

  lemma GetServed(c: Case, rest: seq<Event>) returns (es: seq<Event>)
    requires Asks(c)
    requires CanRun(Asked(c), rest)
    ensures CanRun(InTransit(c), es) && Run(InTransit(c), es) == Run(Asked(c), rest)
  {
    hide Splice, CanRun, Run, CallerCan, CallerDoes, LoopCan, LoopDoes, RoutineCan, RoutineDoes, WorldCan, WorldDoes;
    var s0 := InTransit(c);
    var s1 := Do(s0, EServe);
    assert s1 == Asked(c);
    es := FirstEvent(s0, EServe, rest);
  }

  lemma GetGranted(c: Case, rest: seq<Event>) returns (es: seq<Event>)
    requires Fits(c)
    requires CanRun(HasCredit(c), rest)
    ensures CanRun(Asked(c), es) && Run(Asked(c), es) == Run(HasCredit(c), rest)
  {
    hide Splice, CanRun, Run, CallerCan, CallerDoes, LoopCan, LoopDoes, ServeLoopCan, ServeLoopDoes, WorldCan, WorldDoes;
    var s0 := Asked(c);
    var s1 := Do(s0, ELookUp(2));
    assert Do(s1, EGrant(2)) == HasCredit(c);
    es := FirstEvent(s1, EGrant(2), rest);
    es := FirstEvent(s0, ELookUp(2), es);
  }

  lemma HeaderGoes(c: Case, rest: seq<Event>) returns (es: seq<Event>)
    requires Fits(c)
    requires CanRun(HeaderSent(c), rest)
    ensures CanRun(HasCredit(c), es) && Run(HasCredit(c), es) == Run(HeaderSent(c), rest)
  {
    hide Splice, CanRun, Run, CallerCan, CallerDoes, LoopCan, LoopDoes, ServeLoopCan, ServeLoopDoes, WorldCan, WorldDoes;
    var s0 := HasCredit(c);
    assert Do(s0, ESendHeader(2, true)) == HeaderSent(c);
    es := FirstEvent(s0, ESendHeader(2, true), rest);
  }

  /** The payload is on its way. */
  function Underway(c: Case): State {
    State(AskingClient(c, c.mem),
          Server(G.Gate(c.credits - 1, false), map[2 := TheTask(c, PayloadOut(1), c.body)], None, Reading, Shop(c), c.limit),
          Net(Asking(c), 2, [Ctl(HelloResp(1, c.credits, "")), Ctl(Header(2, TheTask(c, Waits, c.body))), Data(c.at, c.body)], 1, 1),
          FoundGhost(c), c.decode, c.own)
  }

  lemma PayloadLands(c: Case, rest: seq<Event>) returns (es: seq<Event>)
    requires Goes(c)
    requires CanRun(Arrived(c), rest)
    ensures CanRun(Underway(c), es) && Run(Underway(c), es) == Run(Arrived(c), rest)
  {
    hide Splice, CanRun, Run, CallerCan, CallerDoes, LoopCan, LoopDoes, ServeLoopCan, ServeLoopDoes, RoutineCan, RoutineDoes;
    var s0 := Underway(c);
    var s1 := Do(s0, ELand);
    var s2 := Do(s1, ELand);
    assert s2 == Arrived(c);
    es := FirstEvent(s1, ELand, rest);
    es := FirstEvent(s0, ELand, es);
  }

  lemma WholeBody(c: Case)
    requires Goes(c)
    ensures var s, t := HeaderSent(c), TheTask(c, HeaderOut(1), c.body);
            Cut(c.body) == c.body && Wrap(c.at) == c.at && Sent(s, t, true) && SentWhole(s, t, true)
  {
  }

  lemma PayloadSent(c: Case, rest: seq<Event>) returns (es: seq<Event>)
    requires Goes(c)
    requires CanRun(Underway(c), rest)
    ensures CanRun(HeaderSent(c), es) && Run(HeaderSent(c), es) == Run(Underway(c), rest)
  {
    hide Splice, CanRun, Run, CallerCan, CallerDoes, LoopCan, LoopDoes, ServeLoopCan, ServeLoopDoes, WorldCan, WorldDoes, Cut, Sent, SentWhole;
    var s0 := HeaderSent(c);
    WholeBody(c);
    assert Do(s0, ESendPayload(2, true)) == Underway(c);
    es := FirstEvent(s0, ESendPayload(2, true), rest);
  }

  lemma PayloadRead(c: Case, rest: seq<Event>) returns (es: seq<Event>)
    requires Goes(c)
    requires CanRun(Buffered(c), rest)
    ensures CanRun(Arrived(c), es) && Run(Arrived(c), es) == Run(Buffered(c), rest)
  {
    hide Splice, Filled, CanRun, Run, CallerCan, CallerDoes, ServeLoopCan, ServeLoopDoes, RoutineCan, RoutineDoes, WorldCan, WorldDoes;
    var s0 := Arrived(c);
    var s1 := Do(s0, ERecvControl);
    var s2 := Do(s1, ERecvPayload(0, true));
    assert s2 == Buffered(c);
    es := FirstEvent(s1, ERecvPayload(0, true), rest);
    es := FirstEvent(s0, ERecvControl, es);
  }

  lemma PayloadTaken(c: Case, rest: seq<Event>) returns (es: seq<Event>)
    requires Goes(c) && |c.body| <= c.max
    requires CanRun(Done(c), rest)
    ensures CanRun(Buffered(c), es) && Run(Buffered(c), es) == Run(Done(c), rest)
  {
    hide Splice, Filled, CanRun, Run, LoopCan, LoopDoes, ServeLoopCan, ServeLoopDoes, RoutineCan, RoutineDoes, WorldCan, WorldDoes;
    var s0 := Buffered(c);
    var s1 := Do(s0, ETakePayload(2, true));
    assert s1 == Done(c);
    es := FirstEvent(s0, ETakePayload(2, true), rest);
  }

  lemma ToReady(c: Case, rest: seq<Event>) returns (es: seq<Event>)
    requires c.credits > 0 && CanRun(Ready(c), rest)
    ensures CanRun(Start(c), es) && Run(Start(c), es) == Run(Ready(c), rest)
  {
    hide *;
    es := HelloTaken(c, rest);
    es := HelloRead(c, es);
    es := HelloSent(c, es);
  }

  lemma ToAsked(c: Case, rest: seq<Event>) returns (es: seq<Event>)
    requires Asks(c) && CanRun(Asked(c), rest)
    ensures CanRun(Start(c), es) && Run(Start(c), es) == Run(Asked(c), rest)
  {
    hide CanRun, Run, Do, Start, Ready, Called, Issued, InTransit, Asked;
    es := GetServed(c, rest);
    es := GetSent(c, es);
    es := GetIssued(c, es);
    es := GetCalled(c, es);
    es := ToReady(c, es);
  }

  lemma ToCredit(c: Case, rest: seq<Event>) returns (es: seq<Event>)
    requires Fits(c) && CanRun(HasCredit(c), rest)
    ensures CanRun(Start(c), es) && Run(Start(c), es) == Run(HasCredit(c), rest)
  {
    hide CanRun, Run, Do, Start, Asked, HasCredit;
    es := GetGranted(c, rest);
    es := ToAsked(c, es);
  }

  lemma ToHeader(c: Case, rest: seq<Event>) returns (es: seq<Event>)
    requires Fits(c) && CanRun(HeaderSent(c), rest)
    ensures CanRun(Start(c), es) && Run(Start(c), es) == Run(HeaderSent(c), rest)
  {
    hide *;
    es := HeaderGoes(c, rest);
    es := ToCredit(c, es);
  }

  lemma ToUnderway(c: Case, rest: seq<Event>) returns (es: seq<Event>)
    requires Goes(c) && CanRun(Underway(c), rest)
    ensures CanRun(Start(c), es) && Run(Start(c), es) == Run(Underway(c), rest)
  {
    hide CanRun, Run, Do, Start, HeaderSent, Underway;
    es := PayloadSent(c, rest);
    es := ToHeader(c, es);
  }

  lemma ToDone(c: Case, rest: seq<Event>) returns (es: seq<Event>)
    requires Goes(c) && |c.body| <= c.max && CanRun(Done(c), rest)
    ensures CanRun(Start(c), es) && Run(Start(c), es) == Run(Done(c), rest)
  {
    hide CanRun, Run, Do, Start, HeaderSent, Underway, Arrived, Buffered, Done;
    es := PayloadTaken(c, rest);
    es := PayloadRead(c, es);
    es := PayloadLands(c, es);
    es := ToUnderway(c, es);
  }

  lemma DoneWithoutFlaw(c: Case)
    requires Goes(c) && |c.body| <= c.max
    ensures forall f :: !Has(Done(c), f) && !Has(Start(c), f)
  {
  }

  lemma NoFlaw(c: Case) returns (es: seq<Event>)
    requires Goes(c) && |c.body| <= c.max
    ensures CanRun(Start(c), es) && forall f :: Avoids(Start(c), es, f)
    ensures Run(Start(c), es) == Done(c)
  {
    hide Splice, Causes, Can, Do, Avoids, Run, CanRun, Start, Done, Has;
    es := NoEvents(Done(c));
    es := ToDone(c, es);
    DoneWithoutFlaw(c);
    forall f ensures Avoids(Start(c), es, f) {
      FlawlessIffAvoided(Start(c), es, f);
    }
  }

  /** A run without flaws in which a caller gets the object it asked for: it exists, so what is proved of
      such runs is not about nothing. */
  lemma AGetSucceeds(c: Case) returns (es: seq<Event>)
    requires Fine(c)
    ensures CanRun(Start(c), es) && forall f :: Avoids(Start(c), es, f)
    ensures var cl := Run(Start(c), es).cl;
            cl.tokens == map[1 := 2] && cl.refs == map[2 := Ref(c.at, |c.body|)] && cl.mem == Splice(c.mem, c.at, c.body)
  {
    hide Splice, Causes, Can, Do, Avoids, CanRun, Run;
    FineGoes(c);
    es := NoFlaw(c);
  }

  /** Shared memory of exactly 4 GiB, or a multiple: its length is cut to zero, and the transport registers
      a buffer of its own. The same run, without any of the four flaws: the GET is reported as a success,
      and no byte of the object is in the shared memory. */
  lemma SuccessWithoutBytes(c: Case) returns (es: seq<Event>)
    requires Fits(c) && 0 < |c.body| <= c.max && |c.mem| % TWO32 == 0 && c.at + |c.body| <= c.own
    ensures CanRun(Start(c), es) && forall f :: Avoids(Start(c), es, f)
    ensures var cl := Run(Start(c), es).cl;
            cl.tokens == map[1 := 2] && cl.refs == map[2 := Ref(c.at, |c.body|)] && cl.mem == c.mem
  {
    hide Splice, Causes, Can, Do, Avoids, CanRun, Run;
    es := NoFlaw(c);
  }

  /** The GET of an empty object: its header goes out and nothing follows, so the next control message
      of the server, whatever it is, will be taken for the payload. */
  lemma EmptyObjectTearsStream(c: Case, m: Message) returns (es: seq<Event>)
    requires Fits(c) && c.body == []
    ensures CanRun(Start(c), es)
    ensures var s := Run(Start(c), es);
            s.gh.torn && LeftOpen(s, GetMeta(2, 0, Some(c.at)), m)
  {
    hide Splice, Can, Do, LeftOpen, Causes, Avoids, Aligned;
    var s := HeaderSent(c);
    es := NoPayload(c);
    var before := NoEvents(s);
    before := ToHeader(c, before);
    StartsAligned(Setup(c.credits, c.mem, Shop(c), c.limit, c.decode, c.own), ToClient);
    FlawlessIffAvoided(Start(c), before, Down);
    AlignedRun(Start(c), before);
    MissingPayloadBreaksStream(s, 2, true, m);
    es := ToHeader(c, es);
  }

  lemma NoPayload(c: Case) returns (es: seq<Event>)
    requires Fits(c) && c.body == []
    ensures CanSendPayload(HeaderSent(c), 2) && !Sent(HeaderSent(c), HeaderSent(c).sv.tasks[2], true)
    ensures CanRun(HeaderSent(c), es)
    ensures Run(HeaderSent(c), es) == SendPayload(HeaderSent(c), 2, true)
    ensures SendPayload(HeaderSent(c), 2, true).gh.torn
  {
    es := FirstEvent(HeaderSent(c), ESendPayload(2, true), []);
  }

  /** A GET at offset 2^32 or beyond passes every check of a client with that much shared memory. Its
      object is written where the offset cut to 32 bits points, if that is inside the region. */
  lemma HighOffsetLandsElsewhere(c: Case) returns (es: seq<Event>)
    requires Fits(c) && 0 < |c.body| < TWO32 && c.at >= TWO32
    requires Shared(c.mem) && Wrap(c.at) + |c.body| <= Wrap(|c.mem|)
    ensures CanRun(Start(c), es)
    ensures var cl := Run(Start(c), es).cl;
            && 2 in cl.kinds && cl.kinds[2] == Get("b", "k", c.at, c.max)
            && Wrap(c.at) + |c.body| <= |c.mem| && cl.mem == Splice(c.mem, Wrap(c.at), c.body)
  {
    hide Can, Do, Splice;
    es := LandsLow(c);
    es := ToHeader(c, es);
  }

  lemma LandsLow(c: Case) returns (es: seq<Event>)
    requires Fits(c) && 0 < |c.body| < TWO32 && c.at >= TWO32
    requires Shared(c.mem) && Wrap(c.at) + |c.body| <= Wrap(|c.mem|)
    ensures CanRun(HeaderSent(c), es) && Wrap(c.at) + |c.body| <= |c.mem|
    ensures Run(HeaderSent(c), es).cl == AskingClient(c, Splice(c.mem, Wrap(c.at), c.body))
  {
    hide Splice, CanRun, Run, CallerCan, CallerDoes, LoopCan, LoopDoes, ServeLoopCan, ServeLoopDoes, Wrap, Cut;
    LowItem(c);
    var s0 := HeaderSent(c);
    var s1 := Do(s0, ESendPayload(2, true));
    var s2 := Do(s1, ELand);
    var s3 := Do(s2, ELand);
    es := NoEvents(s3);
    es := FirstEvent(s2, ELand, es);
    es := FirstEvent(s1, ELand, es);
    es := FirstEvent(s0, ESendPayload(2, true), es);
  }

  lemma LowItem(c: Case)
    requires 0 < |c.body| < TWO32 && Shared(c.mem) && Wrap(c.at) + |c.body| <= Wrap(|c.mem|)
    ensures Cut(c.body) == c.body && Region(c.mem, c.own) == Wrap(|c.mem|) <= |c.mem|
  {
  }

  /** A GET with max 0 of an object: its window is empty, and the object is written over what lies there. */
  lemma ZeroMaxRun(c: Case) returns (es: seq<Event>)
    requires Fits(c) && c.max == 0 && c.body != [] && |c.mem| < TWO32
    ensures CanRun(Start(c), es)
    ensures var s := Run(Start(c), es);
            && s.gh.live == {2} && 2 in s.cl.kinds && s.cl.kinds[2] == Get("b", "k", c.at, 0)
            && s.cl.mem == Splice(c.mem, c.at, c.body)
  {
    hide Can, Do, Splice, CanRun, Run, Start, Underway, Arrived;
    ZeroMaxArrives(c);
    es := NoEvents(Arrived(c));
    es := PayloadLands(c, es);
    es := ToUnderway(c, es);
  }

  lemma ZeroMaxArrives(c: Case)
    requires Fits(c) && c.max == 0 && c.body != [] && |c.mem| < TWO32
    ensures Goes(c)
    ensures var s := Arrived(c);
            && s.gh.live == {2} && 2 in s.cl.kinds && s.cl.kinds[2] == Get("b", "k", c.at, 0)
            && s.cl.mem == Splice(c.mem, c.at, c.body)
  {
    hide Splice, Goes, Filled, Header, Asking;
    ZeroMaxGoes(c);
  }

  lemma ZeroMaxGoes(c: Case)
    requires Fits(c) && c.max == 0 && c.body != [] && |c.mem| < TWO32
    ensures Goes(c) && Filled(c) == Splice(c.mem, c.at, c.body)
  {
    hide Splice;
  }

  /** A client with one credit whose first GET fails at its header: the only credit is lost. */
  lemma OnlyCreditLost(c: Case) returns (es: seq<Event>)
    requires Fits(c) && c.credits == 1 && 0 < |c.mem| < TWO32
    ensures CanRun(Start(c), es)
    ensures var s := Run(Start(c), es);
            Inv(s) && GrantedOf(s, 1) && s.gh.lost == s.gh.granted == 1
  {
    hide Can, Do, Splice, CanRun, Run, Inv, Causes, Avoids;
    var s := HeaderFailed(c);
    es := NoEvents(s);
    es := FirstEvent(HasCredit(c), ESendHeader(2, false), es);
    es := ToCredit(c, es);
    InitInv(Setup(c.credits, c.mem, Shop(c), c.limit, c.decode, c.own));
    FlawlessIffAvoided(Start(c), es, Misread);
    RunKeeps(Start(c), es);
  }

  lemma HeaderFailed(c: Case) returns (s: State)
    requires Fits(c)
    ensures Can(HasCredit(c), ESendHeader(2, false)) && s == Do(HasCredit(c), ESendHeader(2, false))
    ensures s.gh.lost == 1 && s.gh.granted == c.credits && !s.gh.misread && GrantedOf(s, c.credits)
  {
    s := SendHeader(HasCredit(c), 2, false);
  }

  lemma NoEvents(s: State) returns (es: seq<Event>)
    ensures CanRun(s, es) && Run(s, es) == s
  {
    es := [];
  }

  // --------------------------------------------------- a payload that is obeyed

  /** Nothing is under way. */
  predicate Quiescent(s: State) {
    && s.cl.ready && !s.cl.opMid && s.cl.opHead == |s.cl.ops|
    && s.sv.serve == Reading && s.sv.lock == None
    && s.net.c2sRead == |s.net.c2s| && s.net.landed == |s.net.s2c|
  }

  /** A PUT from the shared memory. */
  predicate Within(s: State, off: nat, size: nat) {
    off + size <= |s.cl.mem| < TWO32
  }

  /** One of more bytes than the server takes. */
  predicate TooLarge(s: State, off: nat, size: nat) {
    Within(s, off, size) && 0 < s.sv.maxObjectSize < size
  }

  function ThePut(off: nat, size: nat): Kind {
    Put("b", "x", off, size)
  }

  function PutCalled(s: State, off: nat, size: nat): State {
    var id := s.cl.nextReq + 1;
    s.(cl := s.cl.(nextReq := id, kinds := s.cl.kinds[id := ThePut(off, size)], phase := s.cl.phase[id := Queued],
                   pending := s.cl.pending + {id}, inbox := s.cl.inbox[id := None], got := s.cl.got[id := 0],
                   ops := s.cl.ops + [Request(id)]),
       gh := s.gh.(route := s.gh.route[id := Route(Some(|s.cl.ops|), None)]))
  }

  /** The server has answered it with an error, and has its payload before it. */
  function PutRefused(s: State, off: nat, size: nat): State
    requires off + size <= |s.cl.mem|
  {
    var id, s1 := s.cl.nextReq + 1, PutCalled(s, off, size);
    s1.(cl := s1.cl.(opHead := s.cl.opHead + 1),
        net := s.net.(c2s := s.net.c2s + [Ctl(RequestMsg(id, ThePut(off, size))), Data(off, s.cl.mem[off..off + size])],
                      c2sRead := s.net.c2sRead + 1, s2c := s.net.s2c + [Ctl(RespErr(id))]),
        gh := s1.gh.(route := s.gh.route[id := Route(Some(|s.cl.ops|), Some(|s.net.c2s|))], upTorn := true))
  }

  lemma CallPut(s: State, off: nat, size: nat, rest: seq<Event>) returns (es: seq<Event>)
    requires Quiescent(s) && Within(s, off, size) && CanRun(PutCalled(s, off, size), rest)
    ensures CanRun(s, es) && Run(s, es) == Run(PutCalled(s, off, size), rest)
  {
    hide Splice, CanRun, Run, LoopCan, LoopDoes, ServeLoopCan, ServeLoopDoes, RoutineCan, RoutineDoes, WorldCan, WorldDoes;
    var id := s.cl.nextReq + 1;
    var s1 := Do(s, EIssue(ThePut(off, size)));
    var s2 := Do(s1, EEnqueue(id));
    assert s2 == PutCalled(s, off, size);
    es := FirstEvent(s1, EEnqueue(id), rest);
    es := FirstEvent(s, EIssue(ThePut(off, size)), es);
  }

  /** Its header and its bytes, if there are any. */
  function PutItems(s: State, off: nat, size: nat): seq<Item>
    requires off + size <= |s.cl.mem|
  {
    [Ctl(RequestMsg(s.cl.nextReq + 1, ThePut(off, size)))] + if size == 0 then [] else [Data(off, s.cl.mem[off..off + size])]
  }

  function PutOut(s: State, off: nat, size: nat): State
    requires off + size <= |s.cl.mem|
  {
    var id, s1 := s.cl.nextReq + 1, PutCalled(s, off, size);
    s1.(cl := s1.cl.(opHead := s.cl.opHead + 1), net := s.net.(c2s := s.net.c2s + PutItems(s, off, size)),
        gh := s1.gh.(route := s.gh.route[id := Route(Some(|s.cl.ops|), Some(|s.net.c2s|))]))
  }

  lemma SendPut(s: State, off: nat, size: nat, rest: seq<Event>) returns (es: seq<Event>)
    requires Quiescent(s) && Within(s, off, size) && CanRun(PutOut(s, off, size), rest)
    ensures CanRun(PutCalled(s, off, size), es) && Run(PutCalled(s, off, size), es) == Run(PutOut(s, off, size), rest)
  {
    hide Splice, CanRun, Run, CallerCan, CallerDoes, ServeLoopCan, ServeLoopDoes, RoutineCan, RoutineDoes, WorldCan, WorldDoes;
    var s0 := PutCalled(s, off, size);
    assert Cut(s.cl.mem[off..off + size]) == s.cl.mem[off..off + size];
    var s1 := Do(s0, ESendControl(true));
    if size == 0 {
      assert s1 == PutOut(s, off, size);
      es := FirstEvent(s0, ESendControl(true), rest);
    } else {
      var s2 := Do(s1, ESendData(true));
      assert s2 == PutOut(s, off, size);
      es := FirstEvent(s1, ESendData(true), rest);
      es := FirstEvent(s0, ESendControl(true), es);
    }
  }

  lemma RefusePut(s: State, off: nat, size: nat, rest: seq<Event>) returns (es: seq<Event>)
    requires Quiescent(s) && TooLarge(s, off, size) && CanRun(PutRefused(s, off, size), rest)
    ensures CanRun(PutOut(s, off, size), es) && Run(PutOut(s, off, size), es) == Run(PutRefused(s, off, size), rest)
  {
    hide Splice, CanRun, Run, CallerCan, CallerDoes, LoopCan, LoopDoes, RoutineCan, RoutineDoes, WorldCan, WorldDoes;
    var s0 := PutOut(s, off, size);
    var s1 := Do(s0, EServe);
    var s2 := Do(s1, EServeReply(true, true));
    assert s2 == PutRefused(s, off, size);
    es := FirstEvent(s1, EServeReply(true, true), rest);
    es := FirstEvent(s0, EServe, es);
  }

  /** From any state in which nothing is under way: a PUT too large for the server is answered with an
      error, and its payload is what the serve loop reads next. */
  lemma ToRefusedPut(s: State, off: nat, size: nat, rest: seq<Event>) returns (es: seq<Event>)
    requires Quiescent(s) && TooLarge(s, off, size) && CanRun(PutRefused(s, off, size), rest)
    ensures CanRun(s, es) && Run(s, es) == Run(PutRefused(s, off, size), rest)
  {
    hide Splice, CanRun, Run, Can, Do, PutRefused, PutOut, PutCalled;
    es := RefusePut(s, off, size, rest);
    es := SendPut(s, off, size, es);
    es := CallPut(s, off, size, es);
  }

  lemma DoneIsQuiescent(c: Case)
    requires Fine(c)
    ensures Quiescent(Done(c)) && Done(c).cl.tokens == map[1 := 2] && Done(c).cl.mem == Splice(c.mem, c.at, c.body)
    ensures Done(c).gh.granted == c.credits && Done(c).gh.lost == 0 && Done(c).decode == c.decode && Done(c).sv.maxObjectSize == c.limit
    ensures Done(c).sv.gate == G.Gate(c.credits - 1, false) && Done(c).sv.objects == Shop(c) && 9 !in Done(c).sv.tasks
  {
    hide Splice;
  }

  /** The bytes of the PUT at `off`. */
  function PutBytes(c: Case, off: nat, size: nat): bytes
    requires c.at + |c.body| <= |c.mem| && off + size <= |c.mem|
  {
    Splice(c.mem, c.at, c.body)[off..off + size]
  }

  /** When the payload of a refused PUT has the form of an ack, credits appear that nobody granted. */
  lemma RefusedPutAddsCredits(c: Case, off: nat, size: nat, n: int) returns (es: seq<Event>)
    requires Fine(c) && off + size <= |c.mem| && 0 < c.limit < size
    requires c.decode(PutBytes(c, off, size)) == Some(Ack(n)) && n > 0
    ensures CanRun(Start(c), es)
    ensures var s := Run(Start(c), es); CreditsOf(s) + s.gh.lost == s.gh.granted + n
  {
    hide Splice, Can, Do, CanRun, Run, Causes, Avoids, Inv, Quiescent, PutRefused;
    var s := PutRefused(Done(c), off, size);
    DoneIsQuiescent(c);
    BeforePayload(c, off, size);
    var before := NoEvents(s);
    before := ToRefusedPut(Done(c), off, size, before);
    before := ToDone(c, before);
    RefusedKeepsInv(c, off, size, before);
    ObeyedAckAddsCredits(s, n);
    es := OneServe(s);
    es := ToRefusedPut(Done(c), off, size, es);
    es := ToDone(c, es);
  }

  lemma BeforePayload(c: Case, off: nat, size: nat)
    requires Fine(c) && off + size <= |c.mem|
    ensures Done(c).cl.mem == Splice(c.mem, c.at, c.body)
    ensures var s := PutRefused(Done(c), off, size);
            && CanServe(s) && s.net.c2s[s.net.c2sRead] == Data(off, PutBytes(c, off, size)) && ServerTakes(s) == c.decode(PutBytes(c, off, size))
            && s.gh.misread == false
  {
    hide Splice;
  }

  lemma RefusedKeepsInv(c: Case, off: nat, size: nat, es: seq<Event>)
    requires Fine(c) && off + size <= |c.mem|
    requires CanRun(Start(c), es) && Run(Start(c), es) == PutRefused(Done(c), off, size)
    ensures Inv(PutRefused(Done(c), off, size))
  {
    hide Splice, Can, Do, CanRun, Run, Causes, Avoids, Inv;
    BeforePayload(c, off, size);
    InitInv(Setup(c.credits, c.mem, Shop(c), c.limit, c.decode, c.own));
    FlawlessIffAvoided(Start(c), es, Misread);
    RunKeeps(Start(c), es);
  }

  lemma OneServe(s: State) returns (es: seq<Event>)
    requires CanServe(s)
    ensures CanRun(s, es) && Run(s, es) == Serve(s)
  {
    es := NoEvents(Do(s, EServe));
    es := FirstEvent(s, EServe, es);
  }

  /** A GET that nobody made, at an offset of its own choice. */
  function Stray(at: nat): Message {
    GetReq(9, "b", "k", 4, Some(at))
  }

  function StrayTask(phase: TaskPhase, at: nat, body: bytes): Task {
    Task(phase, Stray(at), at, body)
  }

  /** The payload in front of the serve loop has the form of such a GET, and there is a credit left. */
  predicate Misleading(s: State, at: nat, other: bytes) {
    && CanServe(s) && s.net.c2s[s.net.c2sRead].Data? && ServerTakes(s) == Some(Stray(at))
    && s.sv.lock == None && s.sv.gate.credits > 0
    && s.net.landed + 1 == |s.net.s2c| && s.net.s2c[s.net.landed].Ctl?
    && 0 < |other| <= 4 && at + |other| <= |s.cl.mem| < TWO32
  }

  /** The GET is obeyed, and the header of its answer is out. */
  function StrayHeader(s: State, at: nat, other: bytes): State {
    s.(sv := s.sv.(gate := s.sv.gate.(credits := s.sv.gate.credits - 1), lock := Some(9), objects := map[("b", "k") := other],
                   tasks := s.sv.tasks[9 := StrayTask(HeaderOut(|s.net.s2c|), at, other)]),
       net := s.net.(c2sRead := s.net.c2sRead + 1, s2c := s.net.s2c + [Ctl(Header(9, StrayTask(Waits, at, other)))]),
       gh := s.gh.(misread := true))
  }

  /** The GET is obeyed, and has yet to look for its object. */
  function StrayStart(s: State, at: nat, other: bytes): State {
    s.(sv := s.sv.(objects := map[("b", "k") := other], tasks := s.sv.tasks[9 := Task(Looking, Stray(at), 0, [])]),
       net := s.net.(c2sRead := s.net.c2sRead + 1), gh := s.gh.(misread := true))
  }

  lemma ServeStray(s: State, at: nat, other: bytes, rest: seq<Event>) returns (es: seq<Event>)
    requires Misleading(s, at, other) && CanRun(StrayStart(s, at, other), rest)
    ensures CanRun(s, es) && Run(s, es) == Run(StrayStart(s, at, other), rest)
  {
    hide Splice, CanRun, Run, CallerCan, CallerDoes, LoopCan, LoopDoes, RoutineCan, RoutineDoes, Trim;
    var s1 := Do(s, EChangeObjects(map[("b", "k") := other]));
    assert Do(s1, EServe) == StrayStart(s, at, other);
    es := FirstEvent(s1, EServe, rest);
    es := FirstEvent(s, EChangeObjects(map[("b", "k") := other]), es);
  }

  lemma ObeyStray(s: State, at: nat, other: bytes, rest: seq<Event>) returns (es: seq<Event>)
    requires Misleading(s, at, other) && CanRun(StrayHeader(s, at, other), rest)
    ensures CanRun(s, es) && Run(s, es) == Run(StrayHeader(s, at, other), rest)
  {
    hide Splice, CanRun, Run, CallerCan, CallerDoes, LoopCan, LoopDoes, ServeLoopCan, ServeLoopDoes, WorldCan, WorldDoes, ServerTakes;
    var s2 := StrayStart(s, at, other);
    assert Trim("b") == "b" && Trim("k") == "k";
    var s3 := Do(s2, ELookUp(9));
    var s4 := Do(s3, EGrant(9));
    assert Do(s4, ESendHeader(9, true)) == StrayHeader(s, at, other);
    es := FirstEvent(s4, ESendHeader(9, true), rest);
    es := FirstEvent(s3, EGrant(9), es);
    es := FirstEvent(s2, ELookUp(9), es);
    es := ServeStray(s, at, other, es);
  }

  lemma StrayLands(s: State, at: nat, other: bytes) returns (es: seq<Event>)
    requires Misleading(s, at, other)
    ensures CanRun(StrayHeader(s, at, other), es)
    ensures Run(StrayHeader(s, at, other), es).cl == s.cl.(mem := Splice(s.cl.mem, at, other))
  {
    hide Splice, CanRun, Run, CallerCan, CallerDoes, LoopCan, LoopDoes, ServeLoopCan, ServeLoopDoes;
    var s0 := StrayHeader(s, at, other);
    assert Cut(other) == other;
    var s1 := Do(s0, ESendPayload(9, true));
    var s2 := Do(s1, ELand);
    var s3 := Do(s2, ELand);
    var s4 := Do(s3, ELand);
    es := NoEvents(s4);
    es := FirstEvent(s3, ELand, es);
    es := FirstEvent(s2, ELand, es);
    es := FirstEvent(s1, ELand, es);
    es := FirstEvent(s0, ESendPayload(9, true), es);
  }

  /** When the payload of a refused PUT has the form of a GET, the server obeys it and writes an object
      over a buffer that a caller still holds. */
  lemma RefusedPutOverwritesBuffer(c: Case, off: nat, size: nat, other: bytes) returns (es: seq<Event>)
    requires Fine(c) && c.credits > 1 && |other| == |c.body| && |c.body| <= 4 && other != c.body && off + size <= |c.mem| && 0 < c.limit < size
    requires c.decode(PutBytes(c, off, size)) == Some(Stray(c.at))
    ensures CanRun(Start(c), es)
    ensures var cl := Run(Start(c), es).cl;
            && cl.tokens == map[1 := 2] && 2 in cl.refs && cl.refs[2] == Ref(c.at, |c.body|)
            && |cl.mem| == |c.mem| && cl.mem[c.at..c.at + |c.body|] == other
  {
    hide Splice, Can, Do, CanRun, Run, Quiescent, PutRefused, StrayHeader;
    var s := PutRefused(Done(c), off, size);
    DoneIsQuiescent(c);
    RefusedMisleads(c, off, size, other);
    es := StrayLands(s, c.at, other);
    es := ObeyStray(s, c.at, other, es);
    es := ToRefusedPut(Done(c), off, size, es);
    es := ToDone(c, es);
  }

  lemma RefusedMisleads(c: Case, off: nat, size: nat, other: bytes)
    requires Fine(c) && c.credits > 1 && |other| == |c.body| && |c.body| <= 4 && off + size <= |c.mem| && 0 < c.limit < size
    requires c.decode(PutBytes(c, off, size)) == Some(Stray(c.at))
    ensures var s := PutRefused(Done(c), off, size);
            && Misleading(s, c.at, other) && s.cl.tokens == map[1 := 2] && 2 in s.cl.refs && s.cl.refs[2] == Ref(c.at, |c.body|)
            && |s.cl.mem| == |c.mem|
    ensures |Splice(Splice(c.mem, c.at, c.body), c.at, other)| == |c.mem|
    ensures Splice(Splice(c.mem, c.at, c.body), c.at, other)[c.at..c.at + |c.body|] == other
    ensures PutRefused(Done(c), off, size).cl.mem == Splice(c.mem, c.at, c.body)
  {
    hide Splice, Trim;
    SplicedTwice(c.mem, c.at, c.body, other);
    BeforePayload(c, off, size);
  }

  lemma SplicedTwice(mem: bytes, at: nat, body: bytes, other: bytes)
    requires at + |body| <= |mem| && |other| == |body|
    ensures |Splice(mem, at, body)| == |mem| && |Splice(Splice(mem, at, body), at, other)| == |mem|
    ensures Splice(Splice(mem, at, body), at, other)[at..at + |body|] == other
  {
  }

  // --------------------------------------------------------- calls and their answers

  /** Nothing is left to be read either. */
  predicate Idle(s: State) {
    Quiescent(s) && s.cl.recv == AtControl && s.net.s2cRead == |s.net.s2c| && !s.sv.gate.closed
  }

  /** The answer to the newest call is out. */
  function Replied(s: State, m: Message): State {
    s.(sv := s.sv.(serve := Reading), net := s.net.(c2sRead := |s.net.c2s|, s2c := s.net.s2c + [Ctl(m)]))
  }

  /** And it has been read. */
  function HandedReply(s: State, id: nat, m: Message): State
    requires id in s.cl.got
  {
    s.(cl := s.cl.(phase := s.cl.phase[id := Waiting], pending := s.cl.pending - {id}, inbox := s.cl.inbox[id := Some(Reply(m))],
                   got := s.cl.got[id := s.cl.got[id] + 1]),
       net := s.net.(s2cRead := |s.net.s2c|, landed := |s.net.s2c|))
  }

  /** The server takes the PUT, reads its payload if it has one, and answers. */
  lemma TakePut(s: State, off: nat, size: nat, rest: seq<Event>) returns (es: seq<Event>)
    requires Idle(s) && Within(s, off, size) && (s.sv.maxObjectSize <= 0 || size <= s.sv.maxObjectSize)
    requires CanRun(Replied(PutOut(s, off, size), RespOK(s.cl.nextReq + 1)), rest)
    ensures CanRun(PutOut(s, off, size), es)
    ensures Run(PutOut(s, off, size), es) == Run(Replied(PutOut(s, off, size), RespOK(s.cl.nextReq + 1)), rest)
  {
    hide Splice, CanRun, Run, CallerCan, CallerDoes, LoopCan, LoopDoes, RoutineCan, RoutineDoes, WorldCan, WorldDoes;
    var s0 := PutOut(s, off, size);
    assert Trim("b") == "b" && Trim("x") == "x";
    var s1 := Do(s0, EServe);
    if size == 0 {
      assert Do(s1, EServeReply(true, true)) == Replied(s0, RespOK(s.cl.nextReq + 1));
      es := FirstEvent(s1, EServeReply(true, true), rest);
    } else {
      var s2 := Do(s1, EServePayload);
      assert Do(s2, EServeReply(true, true)) == Replied(s0, RespOK(s.cl.nextReq + 1));
      es := FirstEvent(s2, EServeReply(true, true), rest);
      es := FirstEvent(s1, EServePayload, es);
    }
    es := FirstEvent(s0, EServe, es);
  }

  /** The answer to a call that waits in the queue lands and is read. */
  lemma ReadReply(s: State, id: nat, m: Message, rest: seq<Event>) returns (es: seq<Event>)
    requires s.cl.recv == AtControl && s.net.s2cRead == s.net.landed && s.net.landed + 1 == |s.net.s2c| && s.net.s2c[s.net.landed] == Ctl(m)
    requires (m.RespOK? || m.RespErr?) && m.reqId == id && id in s.cl.pending && id in s.cl.got && CanSentOK(s, id)
    requires CanRun(HandedReply(s, id, m), rest)
    ensures CanRun(s, es) && Run(s, es) == Run(HandedReply(s, id, m), rest)
  {
    hide Splice, CanRun, Run, ServeLoopCan, ServeLoopDoes, RoutineCan, RoutineDoes;
    var s1 := Do(s, ESentOK(id));
    var s2 := Do(s1, ELand);
    assert Do(s2, ERecvControl) == HandedReply(s, id, m);
    es := FirstEvent(s2, ERecvControl, rest);
    es := FirstEvent(s1, ELand, es);
    es := FirstEvent(s, ESentOK(id), es);
  }

  /** From any state in which nothing is under way: a PUT of a size that the server takes, none included, is
      answered with success. */
  lemma PutFromIdle(s: State, off: nat, size: nat, rest: seq<Event>) returns (es: seq<Event>)
    requires Idle(s) && Within(s, off, size) && (s.sv.maxObjectSize <= 0 || size <= s.sv.maxObjectSize)
    requires CanRun(PutDone(s, off, size), rest)
    ensures CanRun(s, es) && Run(s, es) == Run(PutDone(s, off, size), rest)
  {
    hide Splice, Can, Do, CanRun, Run, PutItems, ThePut;
    var id := s.cl.nextReq + 1;
    es := ReadReply(Replied(PutOut(s, off, size), RespOK(id)), id, RespOK(id), rest);
    es := TakePut(s, off, size, es);
    es := SendPut(s, off, size, es);
    es := CallPut(s, off, size, es);
  }

  function PutDone(s: State, off: nat, size: nat): State
    requires off + size <= |s.cl.mem|
  {
    var id := s.cl.nextReq + 1;
    HandedReply(Replied(PutOut(s, off, size), RespOK(id)), id, RespOK(id))
  }

  /** For every memory and every such size there is a run without flaws in which a PUT ends with success. */
  lemma APutSucceeds(c: Case, off: nat, size: nat) returns (es: seq<Event>)
    requires c.credits > 0 && off + size <= |c.mem| < TWO32 && (c.limit <= 0 || size <= c.limit)
    ensures CanRun(Start(c), es) && forall f :: Avoids(Start(c), es, f)
    ensures var s := Run(Start(c), es);
            2 in s.cl.kinds && s.cl.kinds[2] == ThePut(off, size) && CanTakeReply(s, 2) && s.cl.inbox[2] == Some(Reply(RespOK(2)))
  {
    hide Splice, Can, Do, CanRun, Run, Causes, Avoids, PutItems, Start;
    es := NoEvents(PutDone(Ready(c), off, size));
    es := PutFromIdle(Ready(c), off, size, es);
    es := ToReady(c, es);
    StartsFlawless(c);
    forall f ensures Avoids(Start(c), es, f) {
      FlawlessIffAvoided(Start(c), es, f);
    }
  }

  lemma StartsFlawless(c: Case)
    ensures forall f :: !Has(Start(c), f)
  {
  }

  /** The GET of an object that is larger than the limit it gives. */
  function GetRefused(c: Case): State {
    Asked(c).(sv := Asked(c).sv.(tasks := map[2 := TheTask(c, Looking, []).(phase := Answered(1))]),
              net := Asked(c).net.(s2c := [Ctl(HelloResp(1, c.credits, "")), Ctl(RespErr(2))]))
  }

  lemma RefuseGet(c: Case, rest: seq<Event>) returns (es: seq<Event>)
    requires Asks(c) && 0 < c.max < |c.body|
    requires CanRun(GetRefused(c), rest)
    ensures CanRun(Asked(c), es) && Run(Asked(c), es) == Run(GetRefused(c), rest)
  {
    hide Splice, CanRun, Run, CallerCan, CallerDoes, LoopCan, LoopDoes, ServeLoopCan, ServeLoopDoes, WorldCan, WorldDoes;
    var s0 := Asked(c);
    var s1 := Do(s0, ELookUp(2));
    assert Do(s1, ESendAnswer(2, true)) == GetRefused(c);
    es := FirstEvent(s1, ESendAnswer(2, true), rest);
    es := FirstEvent(s0, ELookUp(2), es);
  }

  /** A run without flaws in which such a GET ends with an error. */
  lemma AGetIsRefused(c: Case) returns (es: seq<Event>)
    requires Asks(c) && 0 < c.max < |c.body|
    ensures CanRun(Start(c), es) && forall f :: Avoids(Start(c), es, f)
    ensures var s := Run(Start(c), es); CanTakeReply(s, 2) && s.cl.inbox[2] == Some(Reply(RespErr(2)))
  {
    hide Splice, Can, Do, CanRun, Run, Causes, Avoids, Start;
    es := NoEvents(RefusalRead(c));
    es := ReadRefusal(c, es);
    es := RefuseGet(c, es);
    es := ToAsked(c, es);
    StartsFlawless(c);
    forall f ensures Avoids(Start(c), es, f) {
      FlawlessIffAvoided(Start(c), es, f);
    }
  }

  function RefusalRead(c: Case): State {
    GetRefused(c).(cl := GetRefused(c).cl.(pending := {}, inbox := map[1 := None, 2 := Some(Reply(RespErr(2)))], got := map[1 := 1, 2 := 1]),
                   net := GetRefused(c).net.(s2cRead := 2, landed := 2))
  }

  lemma ReadRefusal(c: Case, rest: seq<Event>) returns (es: seq<Event>)
    requires CanRun(RefusalRead(c), rest)
    ensures CanRun(GetRefused(c), es) && Run(GetRefused(c), es) == Run(RefusalRead(c), rest)
  {
    hide Splice, CanRun, Run, CallerCan, CallerDoes, ServeLoopCan, ServeLoopDoes, RoutineCan, RoutineDoes;
    var s0 := GetRefused(c);
    var s1 := Do(s0, ELand);
    assert Do(s1, ERecvControl) == RefusalRead(c);
    es := FirstEvent(s1, ERecvControl, rest);
    es := FirstEvent(s0, ELand, es);
  }
}
