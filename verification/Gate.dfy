/** Credits of a zcopy connection: the counter and closed flag that GET goroutines wait on. */
module Gate {
  datatype Gate = Gate(credits: int, closed: bool)

  function SetCredits(g: Gate, n: int): Gate {
    g.(credits := if n < 1 then 1 else n)
  }

  function AddCredits(g: Gate, n: int): Gate {
    if n <= 0 then g else g.(credits := g.credits + n)
  }

  function Close(g: Gate): Gate {
    g.(closed := true)
  }

  datatype Outcome = Granted | Refused | Sleeps

  /** Which server: s3-rdma-server still hands out credits after close, inmem-s3-server does not. */
  datatype Variant = Draining | Refusing

  /** One pass of waitCredit while it holds the mutex. */
  function Look(v: Variant, g: Gate): Outcome {
    if g.credits <= 0 && !g.closed then Sleeps
    else match v
      case Draining => if g.credits > 0 then Granted else Refused
      case Refusing => if g.closed then Refused else Granted
  }

  function After(v: Variant, g: Gate): Gate {
    if Look(v, g) == Granted then g.(credits := g.credits - 1) else g
  }

  function One(b: bool): nat {
    if b then 1 else 0
  }

  // ------------------------------------------------------- what a gate is worth

  /** How many of k looks in a row are granted. */
  function Grants(v: Variant, g: Gate, k: nat): nat
    decreases k
  {
    if k == 0 then 0 else (if Look(v, g) == Granted then 1 else 0) + Grants(v, After(v, g), k - 1)
  }

  /** As many as there are credits, unless the gate is closed and of the refusing kind. */
  lemma {:induction false} GrantsAreCredits(v: Variant, g: Gate, k: nat)
    requires g.credits >= 0
    ensures Grants(v, g, k) == if v == Refusing && g.closed then 0 else Min(g.credits, k)
    decreases k
  {
    if k > 0 {
      GrantsAreCredits(v, After(v, g), k - 1);
    }
  }

  /** Nothing passes a closed gate of the refusing kind. */
  predicate Shuts(v: Variant, g: Gate) {
    v == Refusing && g.closed
  }

  /** A hello of n credits lets exactly n GETs through, whatever was there before, and one if n is not
      positive. */
  lemma HelloServes(v: Variant, g: Gate, n: int, k: nat)
    ensures Grants(v, SetCredits(g, n), k) == if Shuts(v, g) then 0 else Min(if n < 1 then 1 else n, k)
  {
    GrantsAreCredits(v, SetCredits(g, n), k);
  }

  /** An ack of n lets exactly n more through than would have got through without it. */
  lemma AckServes(v: Variant, g: Gate, n: int, k: nat)
    requires g.credits >= 0 && k >= g.credits + n
    ensures Grants(v, AddCredits(g, n), k) == Grants(v, g, k) + if n > 0 && !Shuts(v, g) then n else 0
  {
    GrantsAreCredits(v, g, k);
    GrantsAreCredits(v, AddCredits(g, n), k);
  }

  /** After close no look leaves a goroutine asleep, however many have looked before it. */
  lemma CloseLeavesNobodyAsleep(v: Variant, g: Gate, k: nat)
    ensures Look(v, Looked(v, Close(g), k)) != Sleeps
  {
    StaysClosed(v, Close(g), k);
  }

  /** The gate after k looks. */
  function Looked(v: Variant, g: Gate, k: nat): Gate
    decreases k
  {
    if k == 0 then g else Looked(v, After(v, g), k - 1)
  }

  lemma {:induction false} StaysClosed(v: Variant, g: Gate, k: nat)
    requires g.closed
    ensures Looked(v, g, k).closed
    decreases k
  {
    if k > 0 {
      StaysClosed(v, After(v, g), k - 1);
    }
  }

  /** zcopyConn, the fields guarded by creditMu. Each method is one critical section. */
  class CreditGate {
    var credits: int
    var closed: bool

    function Value(): Gate
      reads this
    {
      Gate(credits, closed)
    }

    constructor ()
      ensures Value() == Gate(0, false)
    {
      credits, closed := 0, false;
    }

    method Shut()
      modifies this
      ensures Value() == Close(old(Value()))
    {
      closed := true;
    }

    method Add(n: int)
      modifies this
      ensures Value() == AddCredits(old(Value()), n)
    {
      if n <= 0 { return; }
      credits := credits + n;
    }

    method Set(n: int)
      modifies this
      ensures Value() == SetCredits(old(Value()), n)
    {
      var m := n;
      if m < 1 {
        m := 1;
      }
      credits := m;
    }

    /** waitCredit from one wake-up to the next sleep or to its return. */
    method WaitOnce() returns (o: Outcome)
      modifies this
      ensures o == Granted <==> old(credits) > 0
      ensures o == Sleeps <==> old(credits) <= 0 && !old(closed)
      ensures credits == old(credits) - One(o == Granted) && closed == old(closed)
      ensures o == Look(Draining, old(Value())) && Value() == After(Draining, old(Value()))
    {
      if credits <= 0 && !closed { return Sleeps; }
      if credits > 0 {
        credits := credits - 1;
        return Granted;
      }
      return Refused;
    }

    method WaitOnceInMemory() returns (o: Outcome)
      modifies this
      ensures o == Granted <==> old(credits) > 0 && !old(closed)
      ensures o == Sleeps <==> old(credits) <= 0 && !old(closed)
      ensures credits == old(credits) - One(o == Granted) && closed == old(closed)
      ensures o == Look(Refusing, old(Value())) && Value() == After(Refusing, old(Value()))
    {
      if credits <= 0 && !closed { return Sleeps; }
      if closed { return Refused; }
      credits := credits - 1;
      return Granted;
    }
  }

  // ------------------------------------------------------- waiting goroutines

  datatype Waiter = Runnable | Asleep | Got | Failed

  datatype Room = Room(gate: Gate, waiters: map<nat, Waiter>)

  /** A goroutine enters waitCredit, a runnable one takes the mutex and looks, a credit message or
      close changes the gate and broadcasts. */
  datatype Move = Enter(w: nat) | Try(w: nat) | Ack(n: int) | Hello(n: int) | Shut

  predicate CanMove(r: Room, m: Move) {
    match m
    case Enter(w) => w !in r.waiters
    case Try(w) => w in r.waiters && r.waiters[w] == Runnable
    case Ack(_) => !r.gate.closed
    case Hello(_) => !r.gate.closed
    case Shut => true
  }

  function WakeAll(ws: map<nat, Waiter>): map<nat, Waiter> {
    map w | w in ws :: if ws[w] == Asleep then Runnable else ws[w]
  }

  function Result(o: Outcome): Waiter {
    match o case Granted => Got case Refused => Failed case Sleeps => Asleep
  }

  function MoveTo(v: Variant, r: Room, m: Move): Room
    requires CanMove(r, m)
  {
    match m
    case Enter(w) => r.(waiters := r.waiters[w := Runnable])
    case Try(w) => Room(After(v, r.gate), r.waiters[w := Result(Look(v, r.gate))])
    case Ack(n) => if n <= 0 then r else Room(AddCredits(r.gate, n), WakeAll(r.waiters))
    case Hello(n) => Room(SetCredits(r.gate, n), WakeAll(r.waiters))
    case Shut => Room(Close(r.gate), WakeAll(r.waiters))
  }

  ghost predicate Runs(v: Variant, r: Room, ms: seq<Move>)
    decreases |ms|
  {
    ms == [] || (CanMove(r, ms[0]) && Runs(v, MoveTo(v, r, ms[0]), ms[1..]))
  }

  function RunTo(v: Variant, r: Room, ms: seq<Move>): Room
    requires Runs(v, r, ms)
    decreases |ms|
  {
    if ms == [] then r else RunTo(v, MoveTo(v, r, ms[0]), ms[1..])
  }

  /** Nobody sleeps through a credit or through close, and credits never go negative. */
  predicate NoLostWakeup(r: Room) {
    r.gate.credits >= 0 && forall w <- r.waiters :: r.waiters[w] == Asleep ==> r.gate.credits <= 0 && !r.gate.closed
  }

  lemma {:induction false} WakeupsReachEveryone(v: Variant, r: Room, ms: seq<Move>)
    requires NoLostWakeup(r) && Runs(v, r, ms)
    ensures NoLostWakeup(RunTo(v, r, ms))
    decreases |ms|
  {
    if ms != [] {
      WakeupsReachEveryone(v, MoveTo(v, r, ms[0]), ms[1..]);
    }
  }

  function In(r: Room, what: Waiter): set<nat> {
    set w | w in r.waiters && r.waiters[w] == what
  }

  /** The credits that acks bring in during a run. */
  function Acked(ms: seq<Move>): nat {
    if ms == [] then 0 else (if ms[0].Ack? && ms[0].n > 0 then ms[0].n else 0) + Acked(ms[1..])
  }

  ghost predicate NoHello(ms: seq<Move>) {
    forall i :: 0 <= i < |ms| ==> !ms[i].Hello?
  }

  /** One look is one credit for one goroutine, or none: in every interleaving of goroutines that enter,
      wake, look and sleep, acks and close, those that got through have taken exactly the credits that
      are no longer there. */
  lemma {:induction false} EachCreditOneGoroutine(v: Variant, r: Room, ms: seq<Move>)
    requires Runs(v, r, ms) && NoHello(ms)
    ensures var r' := RunTo(v, r, ms);
            |In(r', Got)| + r'.gate.credits == |In(r, Got)| + r.gate.credits + Acked(ms)
    decreases |ms|
  {
    hide MoveTo, CanMove;
    if ms != [] {
      GotStep(v, r, ms[0]);
      EachCreditOneGoroutine(v, MoveTo(v, r, ms[0]), ms[1..]);
    }
  }

  lemma GotStep(v: Variant, r: Room, m: Move)
    requires CanMove(r, m) && !m.Hello?
    ensures var r' := MoveTo(v, r, m);
            |In(r', Got)| + r'.gate.credits == |In(r, Got)| + r.gate.credits + if m.Ack? && m.n > 0 then m.n else 0
  {
    var r' := MoveTo(v, r, m);
    if m.Try? {
      Moved(r, r', m.w, Result(Look(v, r.gate)));
    } else {
      assert In(r', Got) == In(r, Got);
    }
  }

  /** Moves after close: only goroutines that are already in waitCredit get to run. */
  ghost predicate OnlyTries(ms: seq<Move>) {
    forall i :: 0 <= i < |ms| ==> ms[i].Try?
  }

  function Min(a: int, b: int): int {
    if a < b then a else b
  }

  lemma TryMoves(v: Variant, r: Room, w: nat)
    requires CanMove(r, Try(w)) && r.gate.closed && NoLostWakeup(r)
    ensures var r' := MoveTo(v, r, Try(w));
            && In(r', Runnable) == In(r, Runnable) - {w} && |In(r', Runnable)| == |In(r, Runnable)| - 1
            && In(r', Asleep) == {} == In(r, Asleep)
            && (if v == Draining && r.gate.credits > 0
                then |In(r', Got)| == |In(r, Got)| + 1 && In(r', Failed) == In(r, Failed)
                else In(r', Got) == In(r, Got) && |In(r', Failed)| == |In(r, Failed)| + 1)
  {
    Moved(r, MoveTo(v, r, Try(w)), w, Result(Look(v, r.gate)));
  }

  lemma Moved(r: Room, r': Room, w: nat, now: Waiter)
    requires w in r.waiters && r.waiters[w] == Runnable && now != Runnable
    requires r'.waiters == r.waiters[w := now]
    ensures In(r', Runnable) == In(r, Runnable) - {w} && |In(r', Runnable)| == |In(r, Runnable)| - 1
    ensures In(r', now) == In(r, now) + {w} && |In(r', now)| == |In(r, now)| + 1
    ensures forall x :: x != now && x != Runnable ==> In(r', x) == In(r, x)
  {
    assert In(r', Runnable) == In(r, Runnable) - {w};
    assert In(r', now) == In(r, now) + {w};
    forall x | x != now && x != Runnable ensures In(r', x) == In(r, x) {
    }
  }

  /** Shutdown: of the goroutines still in waitCredit when the connection is closed, in whatever
      order they run, exactly min(credits, number) get a credit and the others fail; the in-memory
      server grants none. While one is left a move is possible, and every move ends one wait, so
      nobody stays in waitCredit. */
  lemma {:induction false} ShutdownDrains(v: Variant, r: Room, ms: seq<Move>)
    requires r.gate.closed && NoLostWakeup(r) && OnlyTries(ms) && Runs(v, r, ms)
    ensures |ms| <= |In(r, Runnable)|
    ensures In(RunTo(v, r, ms), Asleep) == {}
    ensures In(RunTo(v, r, ms), Runnable) == {} <==> |ms| == |In(r, Runnable)|
    ensures |In(RunTo(v, r, ms), Got)| - |In(r, Got)|
            == if v == Draining then Min(r.gate.credits, |ms|) else 0
    ensures |In(RunTo(v, r, ms), Failed)| - |In(r, Failed)|
            == if v == Draining then |ms| - Min(r.gate.credits, |ms|) else |ms|
    decreases |ms|
  {
    if ms != [] {
      var r' := MoveTo(v, r, ms[0]);
      TryMoves(v, r, ms[0].w);
      ShutdownDrains(v, r', ms[1..]);
    }
  }
}
