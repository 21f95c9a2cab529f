/** The client's table of calls waiting for a result, with its one-slot result channels. */
module Pending {
  import opened Wire

  datatype Outcome = Answer(reqId: nat, code: int) | Failed

  /** A channel of capacity one; `sent` counts what was ever sent on it. */
  datatype Chan = Chan(buf: Option<Outcome>, sent: nat, closed: bool)

  datatype Table = Table(next: nat, pending: set<nat>, chans: map<nat, Chan>)

  function Register(t: Table): Table {
    Table(t.next + 1, t.pending + {t.next + 1}, t.chans[t.next + 1 := Chan(None, 0, false)])
  }

  function Remove(t: Table, id: nat): Table {
    t.(pending := t.pending - {id})
  }

  function Fill(c: Chan, r: Outcome): Chan {
    c.(buf := Some(r), sent := c.sent + 1)
  }

  /** failAllPending: every entry goes, with an error in its channel, which is closed. */
  function FailAll(t: Table): Table {
    Table(t.next, {}, map id | id in t.chans :: if id in t.pending then Fill(t.chans[id], Failed).(closed := true) else t.chans[id])
  }

  predicate TableInv(t: Table) {
    && (forall id <- t.pending :: id in t.chans && t.chans[id] == Chan(None, 0, false))
    && (forall id <- t.chans :: 1 <= id <= t.next && t.chans[id].sent <= 1)
    && (forall id <- t.chans :: t.chans[id].buf.Some? ==> OwnResult(t.chans[id].buf.value, id) && t.chans[id].sent == 1)
  }

  predicate OwnResult(r: Outcome, id: nat) {
    r.Answer? ==> r.reqId == id
  }

  lemma FailAllKeeps(t: Table)
    requires TableInv(t)
    ensures TableInv(FailAll(t))
  {
  }

  /** The table as the source keeps it; each method is one or more critical sections of pendingMu. */
  class PendingTable {
    var next: nat
    var pending: set<nat>
    var chans: map<nat, Chan>

    function Value(): Table
      reads this
    {
      Table(next, pending, chans)
    }

    constructor ()
      ensures Value() == Table(0, {}, map[]) && TableInv(Value())
    {
      next, pending, chans := 0, {}, map[];
    }

    method RegisterPending() returns (id: nat)
      requires TableInv(Value())
      modifies this
      ensures Value() == Register(old(Value())) && id == next && id !in old(chans) && TableInv(Value())
    {
      next := next + 1;
      id := next;
      chans := chans[id := Chan(None, 0, false)];
      pending := pending + {id};
    }

    method RemovePending(id: nat)
      requires TableInv(Value())
      modifies this
      ensures Value() == Remove(old(Value()), id) && TableInv(Value())
    {
      pending := pending - {id};
    }

    /** The send neither blocks nor meets a closed channel, so both are preconditions of the channel. */
    method Send(id: nat, r: Outcome)
      requires id in chans && chans[id].buf == None && !chans[id].closed
      modifies this`chans
      ensures chans == old(chans)[id := Fill(old(chans[id]), r)]
    {
      chans := chans[id := Fill(chans[id], r)];
    }

    method CloseChan(id: nat)
      requires id in chans && !chans[id].closed
      modifies this`chans
      ensures chans == old(chans)[id := old(chans[id]).(closed := true)]
    {
      chans := chans[id := chans[id].(closed := true)];
    }

    method Deliver(id: nat, r: Outcome) returns (ok: bool)
      requires TableInv(Value()) && OwnResult(r, id)
      modifies this
      ensures TableInv(Value()) && (ok <==> id in old(pending)) && (!ok ==> Value() == old(Value()))
      ensures ok ==> pending == old(pending) - {id} && chans == old(chans)[id := Chan(Some(r), 1, true)]
    {
      ok := id in pending;
      if !ok { return; }
      pending := pending - {id};
      Send(id, r);
      CloseChan(id);
    }

    method FailAllPending()
      requires TableInv(Value())
      modifies this
      ensures Value() == FailAll(old(Value())) && TableInv(Value())
    {
      ghost var was := Value();
      while pending != {}
        invariant pending <= was.pending && next == was.next && chans.Keys == was.chans.Keys
        invariant TableInv(was)
        invariant forall id <- chans :: id in pending || id !in was.pending ==> chans[id] == was.chans[id]
        invariant forall id <- chans :: id in was.pending && id !in pending ==>
                    chans[id] == Fill(was.chans[id], Failed).(closed := true)
        decreases |pending|
      {
        var id :| id in pending;
        pending := pending - {id};
        Send(id, Failed);
        CloseChan(id);
      }
      assert chans == FailAll(was).chans;
      FailAllKeeps(was);
    }
  }

  // ------------------------------------------------------------ interleavings

  /** A goroutine inside deliver or failAllPending: it has taken an entry out of the table, then
      filled its channel, and will close it. */
  datatype Courier = Idle | Holding(id: nat, r: Outcome) | Posted(id: nat)

  /** `crashed`: a send on, or a close of, a closed channel. */
  datatype Sys = Sys(table: Table, couriers: map<nat, Courier>, crashed: bool)

  datatype Step =
    | DoRegister | DoRemove(id: nat) | DoReceive(id: nat)
    | DoClaim(g: nat, id: nat, r: Outcome) | DoPost(g: nat) | DoClose(g: nat)

  function At(s: Sys, g: nat): Courier {
    if g in s.couriers then s.couriers[g] else Idle
  }

  /** A send waits while the channel is full. */
  predicate CanStep(s: Sys, m: Step) {
    !s.crashed && match m
    case DoRegister => true
    case DoRemove(_) => true
    case DoReceive(id) => id in s.table.chans && s.table.chans[id].buf.Some?
    case DoClaim(g, id, r) => At(s, g) == Idle && OwnResult(r, id)
    case DoPost(g) => At(s, g).Holding? && At(s, g).id in s.table.chans
                      && (s.table.chans[At(s, g).id].buf == None || s.table.chans[At(s, g).id].closed)
    case DoClose(g) => At(s, g).Posted? && At(s, g).id in s.table.chans
  }

  function StepTo(s: Sys, m: Step): Sys
    requires CanStep(s, m)
  {
    match m
    case DoRegister => s.(table := Register(s.table))
    case DoRemove(id) => s.(table := Remove(s.table, id))
    case DoReceive(id) => s.(table := s.table.(chans := s.table.chans[id := s.table.chans[id].(buf := None)]))
    case DoClaim(g, id, r) =>
      if id in s.table.pending then Sys(Remove(s.table, id), s.couriers[g := Holding(id, r)], false) else s
    case DoPost(g) =>
      var id := At(s, g).id;
      if s.table.chans[id].closed then s.(crashed := true)
      else s.(table := s.table.(chans := s.table.chans[id := Fill(s.table.chans[id], At(s, g).r)]),
              couriers := s.couriers[g := Posted(id)])
    case DoClose(g) =>
      var id := At(s, g).id;
      if s.table.chans[id].closed then s.(crashed := true)
      else s.(table := s.table.(chans := s.table.chans[id := s.table.chans[id].(closed := true)]), couriers := s.couriers[g := Idle])
  }

  ghost predicate CanSteps(s: Sys, ms: seq<Step>)
    decreases |ms|
  {
    ms == [] || (CanStep(s, ms[0]) && CanSteps(StepTo(s, ms[0]), ms[1..]))
  }

  function Steps(s: Sys, ms: seq<Step>): Sys
    requires CanSteps(s, ms)
    decreases |ms|
  {
    if ms == [] then s else Steps(StepTo(s, ms[0]), ms[1..])
  }

  /** Whoever holds an entry is alone with its empty open channel. */
  ghost predicate SysInv(s: Sys) {
    && !s.crashed && TableInv(s.table)
    && (forall g <- s.couriers :: s.couriers[g].Holding? ==>
          && s.couriers[g].id in s.table.chans && s.table.chans[s.couriers[g].id] == Chan(None, 0, false)
          && s.couriers[g].id !in s.table.pending && OwnResult(s.couriers[g].r, s.couriers[g].id))
    && (forall g <- s.couriers :: s.couriers[g].Posted? ==>
          && s.couriers[g].id in s.table.chans && s.table.chans[s.couriers[g].id].sent == 1
          && !s.table.chans[s.couriers[g].id].closed && s.couriers[g].id !in s.table.pending)
    && (forall g <- s.couriers, h <- s.couriers ::
          g != h && !s.couriers[g].Idle? && !s.couriers[h].Idle? ==> s.couriers[g].id != s.couriers[h].id)
    && (forall id <- s.table.chans :: s.table.chans[id].closed ==> s.table.chans[id].sent == 1)
  }

  lemma StepKeepsInv(s: Sys, m: Step)
    requires SysInv(s) && CanStep(s, m)
    ensures SysInv(StepTo(s, m))
  {
    hide SysInv, StepTo;
    match m
    case DoClaim(g, id, r) => ClaimKeepsInv(s, g, id, r);
    case DoPost(g) => PostKeepsInv(s, g);
    case DoClose(g) => CloseKeepsInv(s, g);
    case _ => TableStepKeepsInv(s, m);
  }

  lemma TableStepKeepsInv(s: Sys, m: Step)
    requires SysInv(s) && CanStep(s, m) && (m.DoRegister? || m.DoRemove? || m.DoReceive?)
    ensures SysInv(StepTo(s, m))
  {
  }

  lemma ClaimKeepsInv(s: Sys, g: nat, id: nat, r: Outcome)
    requires SysInv(s) && CanStep(s, DoClaim(g, id, r))
    ensures SysInv(StepTo(s, DoClaim(g, id, r)))
  {
  }

  lemma PostKeepsInv(s: Sys, g: nat)
    requires SysInv(s) && CanStep(s, DoPost(g))
    ensures SysInv(StepTo(s, DoPost(g)))
  {
    assert At(s, g) == s.couriers[g];
  }

  lemma CloseKeepsInv(s: Sys, g: nat)
    requires SysInv(s) && CanStep(s, DoClose(g))
    ensures SysInv(StepTo(s, DoClose(g)))
  {
    assert At(s, g) == s.couriers[g];
  }

  /** Over all interleavings of calls registering and giving up, results arriving and the whole table
      failing: no call ever gets a second result or one of another id, no channel is sent on or closed
      after it is closed, every goroutine that holds an entry can send at once, and a closed channel
      was given its result first. */
  lemma {:induction false} OneResultPerCall(s: Sys, ms: seq<Step>)
    requires SysInv(s) && CanSteps(s, ms)
    ensures var s' := Steps(s, ms);
            && !s'.crashed
            && (forall id <- s'.table.chans :: s'.table.chans[id].sent <= 1)
            && (forall id <- s'.table.chans :: s'.table.chans[id].buf.Some? ==> OwnResult(s'.table.chans[id].buf.value, id))
            && (forall g <- s'.couriers :: s'.couriers[g].Holding? ==> CanStep(s', DoPost(g)))
            && (forall id <- s'.table.chans :: s'.table.chans[id].closed ==> s'.table.chans[id].sent == 1)
    decreases |ms|
  {
    if ms != [] {
      StepKeepsInv(s, ms[0]);
      OneResultPerCall(StepTo(s, ms[0]), ms[1..]);
    }
  }

  function Start(): Sys {
    Sys(Table(0, {}, map[]), map[], false)
  }

  lemma StartsEmpty()
    ensures SysInv(Start())
  {
  }

  /** The same from a client's start. */
  lemma OneResultPerCallFromStart(ms: seq<Step>)
    requires CanSteps(Start(), ms)
    ensures var s := Steps(Start(), ms);
            && !s.crashed
            && (forall id <- s.table.chans :: s.table.chans[id].sent <= 1)
            && (forall id <- s.table.chans :: s.table.chans[id].buf.Some? ==> OwnResult(s.table.chans[id].buf.value, id))
            && (forall g <- s.couriers :: s.couriers[g].Holding? ==> CanStep(s, DoPost(g)))
  {
    StartsEmpty();
    OneResultPerCall(Start(), ms);
  }
}
