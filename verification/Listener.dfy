/** The RDMA listener: accept workers that feed a channel of connections, and Close. */
module Listener {

  /** An accept worker: about to look at the listener, inside accept, or with a connection to hand on. */
  datatype Worker = Looking | Accepting | Carrying(conn: nat) | Exited

  /** Close: not begun; the listener taken away and `done` closed, waiting for the workers; the C
      listener destroyed; the channel closed. */
  datatype Phase = Open | Draining | Destroyed | Finished

  /** `fault`: an accept on a destroyed listener, or a send on a closed channel. */
  datatype Sys = Sys(phase: Phase, workers: map<nat, Worker>, capacity: nat, buffer: seq<nat>, nextConn: nat,
                     handed: set<nat>, dropped: set<nat>, fault: bool)

  datatype Step =
    | Look(w: nat) | AcceptFails(w: nat) | AcceptsNothing(w: nat) | Accepts(w: nat) | HandOn(w: nat) | Drop(w: nat)
    | BeginClose | DestroyListener | CloseChannel
    | Take

  predicate In(s: Sys, w: nat, p: Worker) {
    w in s.workers && s.workers[w] == p
  }

  function Set(s: Sys, w: nat, p: Worker): Sys {
    s.(workers := s.workers[w := p])
  }

  predicate CanStep(s: Sys, m: Step) {
    !s.fault && match m
    case Look(w) => In(s, w, Looking)
    case AcceptFails(w) => In(s, w, Accepting)
    case AcceptsNothing(w) => In(s, w, Accepting)
    case Accepts(w) => In(s, w, Accepting)
    case HandOn(w) => w in s.workers && s.workers[w].Carrying? && (|s.buffer| < s.capacity || s.phase == Finished)
    case Drop(w) => w in s.workers && s.workers[w].Carrying? && s.phase != Open
    case BeginClose => s.phase == Open
    case DestroyListener => s.phase == Draining && forall w <- s.workers :: s.workers[w] == Exited
    case CloseChannel => s.phase == Destroyed
    case Take => s.buffer != []
  }

  /** Accept touches the C listener; a send on the channel is a fault once it is closed. */
  function StepTo(s: Sys, m: Step): Sys
    requires CanStep(s, m)
  {
    match m
    case Look(w) => Set(s, w, if s.phase == Open then Accepting else Exited)
    case AcceptFails(w) =>
      if s.phase == Destroyed || s.phase == Finished then s.(fault := true)
      else Set(s, w, if s.phase == Open then Looking else Exited)
    case AcceptsNothing(w) =>
      if s.phase == Destroyed || s.phase == Finished then s.(fault := true) else Set(s, w, Looking)
    case Accepts(w) =>
      if s.phase == Destroyed || s.phase == Finished then s.(fault := true)
      else Set(s, w, Carrying(s.nextConn)).(nextConn := s.nextConn + 1)
    case HandOn(w) =>
      if s.phase == Finished then s.(fault := true)
      else Set(s, w, Looking).(buffer := s.buffer + [s.workers[w].conn])
    case Drop(w) => Set(s, w, Exited).(dropped := s.dropped + {s.workers[w].conn})
    case BeginClose => s.(phase := Draining)
    case DestroyListener => s.(phase := Destroyed)
    case CloseChannel => s.(phase := Finished)
    case Take => s.(buffer := s.buffer[1..], handed := s.handed + {s.buffer[0]})
  }

  ghost predicate CanSteps(s: Sys, ms: seq<Step>)
    decreases |ms|
  {
    ms == [] || (CanStep(s, ms[0]) && CanSteps(StepTo(s, ms[0]), ms[1..]))
  }

  function Steps(s: Sys, ms: seq<Step>): Sys
    requires CanSteps(s, ms)
    decreases |ms|
  {
    if ms == [] then s else Steps(StepTo(s, ms[0]), ms[1..])
  }

  // ------------------------------------------------------------ connections

  predicate Carried(s: Sys, c: nat) {
    exists w :: w in s.workers && s.workers[w] == Carrying(c)
  }

  /** Every accepted connection is in exactly one of the four places, once. */
  predicate OnePlace(s: Sys, c: nat) {
    || (Carried(s, c) && c !in s.buffer && c !in s.handed && c !in s.dropped)
    || (!Carried(s, c) && c in s.buffer && c !in s.handed && c !in s.dropped)
    || (!Carried(s, c) && c !in s.buffer && c in s.handed && c !in s.dropped)
    || (!Carried(s, c) && c !in s.buffer && c !in s.handed && c in s.dropped)
  }

  predicate Once(s: Sys) {
    && (forall i, j :: 0 <= i < j < |s.buffer| ==> s.buffer[i] != s.buffer[j])
    && (forall v <- s.workers, w <- s.workers ::
          v != w && s.workers[v].Carrying? && s.workers[w].Carrying? ==> s.workers[v].conn != s.workers[w].conn)
  }

  ghost predicate SysInv(s: Sys) {
    && !s.fault && Once(s)
    && (s.phase == Destroyed || s.phase == Finished ==> forall w <- s.workers :: s.workers[w] == Exited)
    && (forall c | 0 <= c < s.nextConn :: OnePlace(s, c))
    && (forall w <- s.workers :: s.workers[w].Carrying? ==> s.workers[w].conn < s.nextConn)
    && (forall c <- s.buffer :: c < s.nextConn)
    && (forall c <- s.handed :: c < s.nextConn) && (forall c <- s.dropped :: c < s.nextConn)
  }

  function Init(workers: set<nat>): Sys {
    Sys(Open, map w | w in workers :: Looking, 4 * |workers|, [], 0, {}, {}, false)
  }

  lemma StartsClean(workers: set<nat>)
    ensures SysInv(Init(workers))
  {
  }

  lemma CarriedElsewhere(s: Sys, s': Sys, w: nat, c: nat)
    requires w in s.workers && w in s'.workers && s'.workers == s.workers[w := s'.workers[w]]
    requires s.workers[w] != Carrying(c) && s'.workers[w] != Carrying(c)
    ensures Carried(s', c) <==> Carried(s, c)
  {
    if Carried(s, c) {
      var v :| v in s.workers && s.workers[v] == Carrying(c);
      assert s'.workers[v] == Carrying(c);
    }
    if Carried(s', c) {
      var v :| v in s'.workers && s'.workers[v] == Carrying(c);
      assert s.workers[v] == Carrying(c);
    }
  }

  lemma AcceptKeepsInv(s: Sys, w: nat)
    requires SysInv(s) && CanStep(s, Accepts(w))
    ensures SysInv(StepTo(s, Accepts(w)))
  {
    hide Carried;
    var s' := StepTo(s, Accepts(w));
    CarriedBy(s', w);
    forall c | 0 <= c < s.nextConn ensures OnePlace(s', c) {
      assert OnePlace(s, c);
      CarriedElsewhere(s, s', w, c);
    }
    assert OnePlace(s', s.nextConn);
  }

  lemma CarriedBy(s: Sys, w: nat)
    requires w in s.workers && s.workers[w].Carrying?
    ensures Carried(s, s.workers[w].conn)
  {
  }

  /** A worker lets go of its connection, which goes to one other place. */
  lemma LetGo(s: Sys, s': Sys, w: nat)
    requires w in s.workers && s.workers[w].Carrying? && Once(s)
    requires w in s'.workers && s'.workers == s.workers[w := s'.workers[w]] && !s'.workers[w].Carrying?
    ensures forall c :: Carried(s', c) <==> Carried(s, c) && c != s.workers[w].conn
  {
    forall c ensures Carried(s', c) <==> Carried(s, c) && c != s.workers[w].conn {
      if c == s.workers[w].conn {
      } else {
        CarriedElsewhere(s, s', w, c);
      }
    }
  }

  lemma HandOnKeepsInv(s: Sys, w: nat)
    requires SysInv(s) && CanStep(s, HandOn(w))
    ensures SysInv(StepTo(s, HandOn(w)))
  {
    hide Carried;
    var s' := StepTo(s, HandOn(w));
    CarriedBy(s, w);
    assert OnePlace(s, s.workers[w].conn);
    LetGo(s, s', w);
    forall c | 0 <= c < s'.nextConn ensures OnePlace(s', c) {
      assert OnePlace(s, c);
    }
  }

  lemma DropKeepsInv(s: Sys, w: nat)
    requires SysInv(s) && CanStep(s, Drop(w))
    ensures SysInv(StepTo(s, Drop(w)))
  {
    hide Carried;
    var s' := StepTo(s, Drop(w));
    CarriedBy(s, w);
    assert OnePlace(s, s.workers[w].conn);
    LetGo(s, s', w);
    forall c | 0 <= c < s'.nextConn ensures OnePlace(s', c) {
      assert OnePlace(s, c);
    }
  }

  lemma TakeKeepsInv(s: Sys)
    requires SysInv(s) && CanStep(s, Take)
    ensures SysInv(StepTo(s, Take))
  {
    var s' := StepTo(s, Take);
    assert s.buffer == [s.buffer[0]] + s'.buffer;
    forall j | 0 <= j < |s'.buffer| ensures s'.buffer[j] != s.buffer[0] {
      assert s'.buffer[j] == s.buffer[j + 1] != s.buffer[0];
    }
    forall c | 0 <= c < s'.nextConn ensures OnePlace(s', c) {
      assert OnePlace(s, c);
      assert Carried(s', c) <==> Carried(s, c);
    }
    forall c | c in s'.buffer ensures c < s'.nextConn {
      assert c in s.buffer;
    }
    assert s.buffer[0] in s.buffer;
  }

  lemma EmptyHandedKeepsInv(s: Sys, m: Step, w: nat)
    requires SysInv(s) && CanStep(s, m) && (m == Look(w) || m == AcceptFails(w) || m == AcceptsNothing(w))
    ensures SysInv(StepTo(s, m))
  {
    hide Carried;
    var s' := StepTo(s, m);
    forall c | 0 <= c < s.nextConn ensures OnePlace(s', c) {
      assert OnePlace(s, c);
      CarriedElsewhere(s, s', w, c);
    }
  }

  lemma CloseKeepsInv(s: Sys, m: Step)
    requires SysInv(s) && CanStep(s, m) && (m == BeginClose || m == DestroyListener || m == CloseChannel)
    ensures SysInv(StepTo(s, m))
  {
    var s' := StepTo(s, m);
    forall c | 0 <= c < s.nextConn ensures OnePlace(s', c) {
      assert OnePlace(s, c);
      assert Carried(s', c) <==> Carried(s, c);
    }
  }

  lemma StepKeepsInv(s: Sys, m: Step)
    requires SysInv(s) && CanStep(s, m)
    ensures SysInv(StepTo(s, m))
  {
    hide SysInv, StepTo;
    match m
    case Look(w) => EmptyHandedKeepsInv(s, m, w);
    case AcceptFails(w) => EmptyHandedKeepsInv(s, m, w);
    case AcceptsNothing(w) => EmptyHandedKeepsInv(s, m, w);
    case Accepts(w) => AcceptKeepsInv(s, w);
    case HandOn(w) => HandOnKeepsInv(s, w);
    case Drop(w) => DropKeepsInv(s, w);
    case Take => TakeKeepsInv(s);
    case _ => CloseKeepsInv(s, m);
  }

  /** In every run: no accept on a destroyed listener, no send on the closed channel, the listener
      destroyed and the channel closed only after every worker is gone, and every accepted connection
      handed out, closed by its worker, still in the channel, or with one worker, and just one of these. */
  lemma {:induction false} ShutdownIsSafe(s: Sys, ms: seq<Step>)
    requires SysInv(s) && CanSteps(s, ms)
    ensures var s' := Steps(s, ms);
            && !s'.fault && Once(s')
            && (s'.phase == Destroyed || s'.phase == Finished ==> forall w <- s'.workers :: s'.workers[w] == Exited)
            && (forall c | 0 <= c < s'.nextConn :: OnePlace(s', c))
    decreases |ms|
  {
    if ms != [] {
      StepKeepsInv(s, ms[0]);
      ShutdownIsSafe(StepTo(s, ms[0]), ms[1..]);
    }
  }

  /** The same from the start, for any number of workers. */
  lemma ShutdownIsSafeFromStart(workers: set<nat>, ms: seq<Step>)
    requires CanSteps(Init(workers), ms)
    ensures var s := Steps(Init(workers), ms);
            && !s.fault && Once(s)
            && (s.phase == Destroyed || s.phase == Finished ==> forall w <- s.workers :: s.workers[w] == Exited)
            && (forall c | 0 <= c < s.nextConn :: OnePlace(s, c))
  {
    StartsClean(workers);
    ShutdownIsSafe(Init(workers), ms);
  }

  /** Until Close begins no worker has gone and no connection has been closed by one. */
  predicate LosesNothing(s: Sys) {
    s.phase == Open ==> s.dropped == {} && forall w <- s.workers :: s.workers[w] != Exited
  }

  lemma {:induction false} LosesNothingOverRuns(s: Sys, ms: seq<Step>)
    requires CanSteps(s, ms) && LosesNothing(s)
    ensures LosesNothing(Steps(s, ms))
    decreases |ms|
  {
    if ms != [] {
      LosesNothingOverRuns(StepTo(s, ms[0]), ms[1..]);
    }
  }

  /** Until then every connection accepted is with a worker, in the channel or taken. */
  lemma OpenLosesNothing(workers: set<nat>, ms: seq<Step>, c: nat)
    requires CanSteps(Init(workers), ms) && Steps(Init(workers), ms).phase == Open && c < Steps(Init(workers), ms).nextConn
    ensures var s := Steps(Init(workers), ms);
            && (Carried(s, c) || c in s.buffer || c in s.handed)
            && forall w <- s.workers :: s.workers[w] != Exited
  {
    hide Carried;
    ShutdownIsSafeFromStart(workers, ms);
    LosesNothingOverRuns(Init(workers), ms);
    assert OnePlace(Steps(Init(workers), ms), c);
  }

  // --------------------------------------------------------- what is left behind

  function HandOns(ms: seq<Step>): nat {
    if ms == [] then 0 else (if ms[0].HandOn? then 1 else 0) + HandOns(ms[1..])
  }

  function Takes(ms: seq<Step>): nat {
    if ms == [] then 0 else (if ms[0].Take? then 1 else 0) + Takes(ms[1..])
  }

  lemma {:induction false} ChannelCounts(s: Sys, ms: seq<Step>)
    requires SysInv(s) && CanSteps(s, ms)
    ensures |Steps(s, ms).buffer| == |s.buffer| + HandOns(ms) - Takes(ms)
    decreases |ms|
  {
    if ms != [] {
      StepKeepsInv(s, ms[0]);
      ChannelStep(s, ms[0]);
      ChannelCounts(StepTo(s, ms[0]), ms[1..]);
    }
  }

  lemma ChannelStep(s: Sys, m: Step)
    requires SysInv(s) && CanStep(s, m)
    ensures |StepTo(s, m).buffer| == |s.buffer| + (if m.HandOn? then 1 else 0) - if m.Take? then 1 else 0
  {
    StepKeepsInv(s, m);
  }

  /** When Close has finished no connection is left in the channel if and only if callers of
      AcceptMessage have taken out as many as the workers put in. Nobody closes the others: Close does
      not empty the channel, and a caller that finds both `done` closed and a connection waiting may
      take either. */
  lemma LeftIffNotTaken(workers: set<nat>, ms: seq<Step>)
    requires CanSteps(Init(workers), ms) && Steps(Init(workers), ms).phase == Finished
    ensures var s := Steps(Init(workers), ms);
            && |s.buffer| == HandOns(ms) - Takes(ms)
            && (s.buffer == [] <==> Takes(ms) == HandOns(ms))
            && forall c <- s.buffer :: c !in s.handed && c !in s.dropped
  {
    StartsClean(workers);
    ChannelCounts(Init(workers), ms);
    ShutdownIsSafeFromStart(workers, ms);
    var s := Steps(Init(workers), ms);
    BufferedAreNew(Init(workers), ms);
    forall c | c in s.buffer ensures c !in s.handed && c !in s.dropped {
      assert OnePlace(s, c);
    }
  }

  lemma {:induction false} BufferedAreNew(s: Sys, ms: seq<Step>)
    requires SysInv(s) && CanSteps(s, ms)
    ensures forall c <- Steps(s, ms).buffer :: c < Steps(s, ms).nextConn
    decreases |ms|
  {
    if ms != [] {
      StepKeepsInv(s, ms[0]);
      BufferedAreNew(StepTo(s, ms[0]), ms[1..]);
    }
  }

  /** Such a run: one is left. */
  lemma ClosedWithConnectionLeft() returns (ms: seq<Step>)
    ensures CanSteps(Init({0}), ms)
    ensures Steps(Init({0}), ms).phase == Finished && Steps(Init({0}), ms).buffer == [0]
  {
    hide CanSteps, Steps;
    var s0 := Init({0});
    var s1 := StepTo(s0, Look(0));
    var s2 := StepTo(s1, Accepts(0));
    ms := ClosesWith(StepTo(s2, HandOn(0)));
    ms := FirstStep(s2, HandOn(0), ms);
    ms := FirstStep(s1, Accepts(0), ms);
    ms := FirstStep(s0, Look(0), ms);
  }

  /** From an open listener with one idle worker, Close leaves in the channel what is there. */
  lemma ClosesWith(s: Sys) returns (ms: seq<Step>)
    requires s.phase == Open && s.workers == map[0 := Looking] && !s.fault
    ensures CanSteps(s, ms)
    ensures Steps(s, ms).phase == Finished && Steps(s, ms).buffer == s.buffer
  {
    hide CanSteps, Steps;
    var s1 := StepTo(s, BeginClose);
    var s2 := StepTo(s1, Look(0));
    var s3 := StepTo(s2, DestroyListener);
    ms := NoSteps(StepTo(s3, CloseChannel));
    ms := FirstStep(s3, CloseChannel, ms);
    ms := FirstStep(s2, DestroyListener, ms);
    ms := FirstStep(s1, Look(0), ms);
    ms := FirstStep(s, BeginClose, ms);
  }

  lemma NoSteps(s: Sys) returns (ms: seq<Step>)
    ensures CanSteps(s, ms) && Steps(s, ms) == s
  {
    ms := [];
  }

  lemma FirstStep(s: Sys, m: Step, ms: seq<Step>) returns (all: seq<Step>)
    requires CanStep(s, m) && CanSteps(StepTo(s, m), ms)
    ensures CanSteps(s, all) && Steps(s, all) == Steps(StepTo(s, m), ms)
  {
    all := [m] + ms;
    assert all[1..] == ms;
  }

  // ----------------------------------------------------------------- draining

  /** How many more steps a worker can take once Close has begun. */
  function Left(p: Worker): nat {
    match p case Exited => 0 case Looking => 1 case Carrying(_) => 2 case Accepting => 3
  }

  ghost function Sum(ws: map<nat, Worker>, ids: set<nat>): nat
    requires ids <= ws.Keys
  {
    if ids == {} then 0 else
      var w := Pick(ids); Left(ws[w]) + Sum(ws, ids - {w})
  }

  ghost function Pick(ids: set<nat>): (w: nat)
    requires ids != {}
    ensures w in ids
  {
    var w :| w in ids;
    w
  }

  lemma {:induction false} SumChanges(ws: map<nat, Worker>, ids: set<nat>, w: nat, p: Worker)
    requires ids <= ws.Keys && w in ws
    ensures Sum(ws[w := p], ids) == Sum(ws, ids) + if w in ids then Left(p) - Left(ws[w]) else 0
    decreases |ids|
  {
    if ids != {} {
      SumChanges(ws, ids - {Pick(ids)}, w, p);
    }
  }

  predicate WorkerStep(m: Step) {
    m.Look? || m.AcceptFails? || m.AcceptsNothing? || m.Accepts? || m.HandOn? || m.Drop?
  }

  /** Once Close has begun every step of a worker brings it nearer to its end. */
  lemma DrainingEnds(s: Sys, m: Step)
    requires SysInv(s) && s.phase == Draining && CanStep(s, m) && WorkerStep(m)
    ensures Sum(StepTo(s, m).workers, s.workers.Keys) < Sum(s.workers, s.workers.Keys)
  {
    SumChanges(s.workers, s.workers.Keys, m.w, StepTo(s, m).workers[m.w]);
  }

  /** And while a worker is left, one of its steps is possible: nobody is stuck on a full channel. */
  lemma DrainingMoves(s: Sys, w: nat)
    requires SysInv(s) && s.phase == Draining && w in s.workers && s.workers[w] != Exited
    ensures exists m :: CanStep(s, m) && WorkerStep(m) && m.w == w
  {
    match s.workers[w]
    case Looking => assert CanStep(s, Look(w));
    case Accepting => assert CanStep(s, AcceptFails(w));
    case Carrying(_) => assert CanStep(s, Drop(w));
    case Exited =>
  }
}
