/** The receiving half of a connection: a fixed set of receive slots that circulate between the
    receive queue, the receive CQ and at most one slot held by the reader. */
module RecvSlots {
  import opened Counters
  import opened Wire
  import opened SendRing
  import opened Transport

  // ----------------------------------------------------- who holds the slot

  /** The reader's side in the abstract: how many frames it has polled, the number of the frame
      whose slot it still holds, and the borrowed messages not released yet. */
  datatype Reader = Reader(polled: nat, held: Option<nat>, unreleased: set<nat>)

  /** What a reader does: take the next frame and keep it (a plain frame), take it and hand the slot
      straight back (a notify), take a frame it cannot use; wait for a frame in vain; fail to receive
      because the held slot cannot be given back; release a borrowed message, or fail to. */
  datatype Action =
    | TakePlain | TakeNotify | TakeUnusable
    | TimeOut | Refused
    | Release(number: nat) | ReleaseRefused(number: nat)

  /** Every receive first gives back the held slot, and only then looks for a frame. A release gives
      back whatever slot is held now: the call behind it does not know which message it was made for. */
  function Act(r: Reader, a: Action): Reader {
    match a
    case TakePlain => Reader(r.polled + 1, Some(r.polled), r.unreleased + {r.polled})
    case TakeNotify => Reader(r.polled + 1, None, r.unreleased)
    case TakeUnusable => Reader(r.polled + 1, Some(r.polled), r.unreleased)
    case TimeOut => Reader(r.polled, None, r.unreleased)
    case Refused => r
    case Release(k) => if k in r.unreleased then Reader(r.polled, None, r.unreleased - {k}) else r
    case ReleaseRefused(k) => Reader(r.polled, r.held, r.unreleased - {k})
  }

  function ActAll(r: Reader, actions: seq<Action>): Reader
    decreases |actions|
  {
    if actions == [] then r else ActAll(Act(r, actions[0]), actions[1..])
  }

  /** An action that leaves the held slot alone: nothing is received or waited for, and no release that
      is still open gets through. */
  predicate SparesView(r: Reader, a: Action) {
    a.Refused? || a.ReleaseRefused? || (a.Release? && a.number !in r.unreleased)
  }

  predicate KeepsView(r: Reader, actions: seq<Action>)
    decreases |actions|
  {
    actions == [] || (SparesView(r, actions[0]) && KeepsView(Act(r, actions[0]), actions[1..]))
  }

  /** The view of the frame just taken stays the reader's own exactly while no receive is attempted, not
      even in vain, and no release that is still open, its own or that of any earlier message, is used
      (unless the queue pair refuses to take the slot back). */
  lemma {:induction false} ViewKeptIff(r: Reader, actions: seq<Action>)
    requires r.held.Some? && r.held.value + 1 == r.polled
    ensures ActAll(r, actions).held == r.held <==> KeepsView(r, actions)
    decreases |actions|
  {
    if actions != [] {
      var r' := Act(r, actions[0]);
      if SparesView(r, actions[0]) {
        ViewKeptIff(r', actions[1..]);
      } else {
        HeldOnlyNewer(r', actions[1..], r.held.value);
      }
    }
  }

  lemma {:induction false} HeldOnlyNewer(r: Reader, actions: seq<Action>, k: nat)
    requires k < r.polled && r.held != Some(k)
    ensures ActAll(r, actions).held != Some(k)
    decreases |actions|
  {
    if actions != [] {
      HeldOnlyNewer(Act(r, actions[0]), actions[1..], k);
    }
  }

  /** A late release of message 0 takes away the slot of message 1, which nobody has released and
      after which nothing was received. */
  lemma LateReleaseHitsNewerView()
    ensures var r := ActAll(Reader(0, None, {}), [TakePlain, TakePlain, Release(0)]);
            r.polled == 2 && 1 in r.unreleased && r.held == None
  {
    var r0 := Reader(0, None, {});
    var r1 := Act(r0, TakePlain);
    var r2 := Act(r1, TakePlain);
    assert ActAll(r2, [Release(0)]) == ActAll(Act(r2, Release(0)), []);
    assert [TakePlain, Release(0)][1..] == [Release(0)];
    assert [TakePlain, TakePlain, Release(0)][1..] == [TakePlain, Release(0)];
  }

  /** A receive that times out takes the view away as well. */
  lemma WaitingInVainLosesView()
    ensures var r := ActAll(Reader(0, None, {}), [TakePlain, TimeOut]);
            r.polled == 1 && 0 in r.unreleased && r.held == None
  {
    assert [TakePlain, TimeOut][1..] == [TimeOut];
    assert ActAll(Act(Reader(0, None, {}), TakePlain), [TimeOut])
        == ActAll(Act(Act(Reader(0, None, {}), TakePlain), TimeOut), []);
  }

  // ------------------------------------------------------------- the slots

  function AllSlots(depth: nat): multiset<int> {
    if depth == 0 then multiset{} else AllSlots(depth - 1) + multiset{depth - 1}
  }

  lemma {:induction false} EachSlotOnce(depth: nat, i: int)
    ensures AllSlots(depth)[i] == if 0 <= i < depth then 1 else 0
  {
    if depth > 0 {
      EachSlotOnce(depth - 1, i);
    }
  }

  /** A receive completion: the work request (slot number plus one) and the length of the frame. */
  datatype Completion = Completion(wrId: nat, byteLen: nat)

  function SlotNumbers(cq: seq<Completion>): (r: seq<int>)
    ensures |r| == |cq| && forall i :: 0 <= i < |cq| ==> r[i] == cq[i].wrId - 1
  {
    seq(|cq|, i requires 0 <= i < |cq| => cq[i].wrId - 1)
  }

  lemma TakeFirst(s: seq<int>)
    requires s != []
    ensures multiset(s) == multiset{s[0]} + multiset(s[1..])
  {
    assert s == [s[0]] + s[1..];
  }

  lemma FirstCompletion(cq: seq<Completion>)
    requires cq != []
    ensures multiset(SlotNumbers(cq)) == multiset{cq[0].wrId - 1} + multiset(SlotNumbers(cq[1..]))
  {
    TakeFirst(SlotNumbers(cq));
    assert SlotNumbers(cq)[1..] == SlotNumbers(cq[1..]);
  }

  lemma LastCompletion(cq: seq<Completion>, c: Completion)
    ensures multiset(SlotNumbers(cq + [c])) == multiset(SlotNumbers(cq)) + multiset{c.wrId - 1}
  {
    assert SlotNumbers(cq + [c]) == SlotNumbers(cq) + [c.wrId - 1];
  }

  function One(held: Option<int>): multiset<int> {
    match held case None => multiset{} case Some(i) => multiset{i}
  }

  /** Every slot is posted, completed but not polled, or held; each exactly once. */
  ghost predicate Partition(depth: nat, queue: seq<int>, cq: seq<Completion>, held: Option<int>) {
    multiset(queue) + multiset(SlotNumbers(cq)) + One(held) == AllSlots(depth)
  }

  lemma PartitionPlaces(depth: nat, queue: seq<int>, cq: seq<Completion>, held: Option<int>, i: int)
    requires Partition(depth, queue, cq, held)
    ensures multiset(queue)[i] + multiset(SlotNumbers(cq))[i] + One(held)[i] == if 0 <= i < depth then 1 else 0
  {
    EachSlotOnce(depth, i);
  }

  /** A frame moves the oldest posted slot, which is in nobody else's hands, to the CQ. */
  lemma PartitionArrive(depth: nat, queue: seq<int>, cq: seq<Completion>, held: Option<int>, len: nat)
    requires Partition(depth, queue, cq, held) && queue != []
    ensures 0 <= queue[0] < depth && held != Some(queue[0])
    ensures forall k :: 0 <= k < |cq| ==> cq[k].wrId - 1 != queue[0]
    ensures Partition(depth, queue[1..], cq + [Completion(queue[0] + 1, len)], held)
  {
    var i := queue[0];
    TakeFirst(queue);
    PartitionPlaces(depth, queue, cq, held, i);
    LastCompletion(cq, Completion(i + 1, len));
    forall k | 0 <= k < |cq| ensures cq[k].wrId - 1 != i {
      assert SlotNumbers(cq)[k] in multiset(SlotNumbers(cq));
    }
  }

  lemma PartitionPoll(depth: nat, queue: seq<int>, cq: seq<Completion>)
    requires Partition(depth, queue, cq, None) && cq != []
    ensures 1 <= cq[0].wrId <= depth
    ensures Partition(depth, queue, cq[1..], Some(cq[0].wrId - 1))
  {
    FirstCompletion(cq);
    PartitionPlaces(depth, queue, cq, None, cq[0].wrId - 1);
  }

  lemma PartitionRepost(depth: nat, queue: seq<int>, cq: seq<Completion>, i: int)
    requires Partition(depth, queue, cq, Some(i))
    ensures Partition(depth, queue + [i], cq, None)
  {
  }

  class Receiver {
    // go_rdma_conn
    const notifyDepth: nat
    const frameCap: nat

    /** The queue pair is known to take back every slot. */
    const accepts: bool
    const bufs: array<bytes>
    var lastNotifySlot: nat
    var hasLastNotifySlot: bool

    // The queue pair: the receive queue (posted slots in order) and the receive CQ.
    var recvQueue: seq<int>
    var recvCq: seq<Completion>

    /** Every frame that has arrived. */
    ghost var arrived: seq<bytes>

    // The reader's side, see Reader.
    var polled: nat
    var held: Option<nat>
    var unreleased: set<nat>

    function State(): Reader
      reads this`polled, this`held, this`unreleased
    {
      Reader(polled, held, unreleased)
    }

    ghost predicate Conserved()
      reads this`hasLastNotifySlot, this`lastNotifySlot, this`recvQueue, this`recvCq
    {
      Partition(notifyDepth, recvQueue, recvCq, if hasLastNotifySlot then Some(lastNotifySlot) else None)
    }

    ghost predicate Buffers()
      reads bufs
    {
      bufs.Length == notifyDepth > 0 && forall i :: 0 <= i < notifyDepth ==> |bufs[i]| == frameCap
    }

    /** Slot i holds this frame. */
    ghost predicate Holds(i: int, frame: bytes)
      reads bufs
    {
      0 <= i < bufs.Length && |frame| <= |bufs[i]| && bufs[i][..|frame|] == frame
    }

    /** The frames not polled yet sit in their slots, in arrival order. */
    ghost predicate Waiting()
      reads this`recvCq, this`arrived, this`polled, bufs
    {
      && polled + |recvCq| == |arrived|
      && forall k :: 0 <= k < |recvCq| ==>
           recvCq[k].byteLen == |arrived[polled + k]| && Holds(recvCq[k].wrId - 1, arrived[polled + k])
    }

    /** The frame last polled is still in the slot held for it. */
    ghost predicate HeldIntact()
      reads this`hasLastNotifySlot, this`lastNotifySlot, this`arrived, this`polled, this`held, bufs
    {
      && (hasLastNotifySlot <==> held.Some?)
      && (held.Some? ==> held.value + 1 == polled <= |arrived| && Holds(lastNotifySlot, arrived[held.value]))
    }

    ghost predicate Valid()
      reads this`hasLastNotifySlot, this`lastNotifySlot, this`recvQueue, this`recvCq, this`arrived
      reads this`polled, this`held, bufs
    {
      Buffers() && Conserved() && Waiting() && HeldIntact()
    }

    /** go_rdma_init_notify_slots: allocates and posts every slot. */
    constructor (depth: nat, frameCap: nat, accepts: bool)
      requires depth > 0
      ensures Valid() && notifyDepth == depth && this.frameCap == frameCap && this.accepts == accepts
      ensures arrived == [] && State() == Reader(0, None, {}) && |recvQueue| == depth
      ensures fresh(bufs)
    {
      notifyDepth, this.frameCap, this.accepts := depth, frameCap, accepts;
      var blank: bytes := seq(frameCap, i => 0);
      bufs := new bytes[depth](i => blank);
      lastNotifySlot, hasLastNotifySlot, recvQueue, recvCq := 0, false, [], [];
      arrived, polled, held, unreleased := [], 0, None, {};
      new;
      hide Buffers, Holds;
      var i := 0;
      while i < depth
        invariant i <= depth && |recvQueue| == i
        invariant multiset(recvQueue) == AllSlots(i)
        invariant recvCq == [] && !hasLastNotifySlot && arrived == [] && State() == Reader(0, None, {})
        invariant Buffers()
      {
        recvQueue := recvQueue + [i];
        i := i + 1;
      }
    }

    /** Hardware: a frame of the peer fills the oldest posted slot. */
    method Arrive(frame: bytes)
      requires Valid() && recvQueue != [] && |frame| <= frameCap
      modifies this`recvQueue, this`recvCq, this`arrived, bufs
      ensures Valid() && arrived == old(arrived) + [frame]
    {
      hide Partition;
      var i := recvQueue[0];
      PartitionArrive(notifyDepth, recvQueue, recvCq, if hasLastNotifySlot then Some(lastNotifySlot) else None, |frame|);
      recvQueue := recvQueue[1..];
      recvCq := recvCq + [Completion(i + 1, |frame|)];
      arrived := arrived + [frame];
      bufs[i] := frame + bufs[i][|frame|..];
    }

    /** Reposts the held slot, if any; the repost may be refused, and then the slot stays held. */
    method ReleaseLastRecvSlot() returns (rc: Rc)
      requires Valid()
      modifies this`hasLastNotifySlot, this`recvQueue, this`held
      ensures Valid() && (rc == OK || rc == EIO)
      ensures rc == OK ==> held == None
      ensures rc != OK ==> held == old(held) && held.Some?
      ensures accepts ==> rc == OK
    {
      hide Partition, Buffers, Holds;
      if !hasLastNotifySlot { return OK; }
      var refused: bool := *;
      if refused && !accepts { return EIO; }
      PartitionRepost(notifyDepth, recvQueue, recvCq, lastNotifySlot);
      recvQueue := recvQueue + [lastNotifySlot];
      hasLastNotifySlot := false;
      held := None;
      rc := OK;
    }

    lemma PolledArrived()
      requires Valid()
      ensures polled <= |arrived|
    {
    }

    /** With nothing received and nothing held every slot is posted, and there is one. */
    lemma SomeSlotPosted()
      requires Valid() && recvCq == [] && held == None
      ensures recvQueue != [] && polled == |arrived|
    {
      EachSlotOnce(notifyDepth, 0);
    }

    /** go_rdma_recv_frame; `incoming` frames arrive while the call waits. The k-th successful
        call returns the k-th frame that arrived. */
    method RecvFrame(incoming: seq<bytes>, timeoutMs: int) returns (rc: Rc, payload: bytes)
      requires Valid() && forall i :: 0 <= i < |incoming| ==> |incoming[i]| <= frameCap
      modifies this`hasLastNotifySlot, this`lastNotifySlot, this`recvQueue, this`recvCq, this`polled, this`held, this`arrived, bufs
      ensures Valid() && old(arrived) <= arrived
      ensures rc == OK || rc == EIO || rc == EAGAIN
      ensures rc == OK ==> old(polled) < |arrived| && payload == arrived[old(polled)]
      ensures rc == OK ==> polled == old(polled) + 1 && held == Some(old(polled))
      ensures rc != OK ==> polled == old(polled)
      ensures rc == EAGAIN ==> held == None
      ensures rc == EIO ==> held == old(held) && !accepts
      ensures rc == EAGAIN ==> polled == |arrived| && incoming == []
      ensures arrived <= old(arrived) + incoming
      ensures rc == OK && old(polled) == |old(arrived)| ==> |arrived| > |old(arrived)|
    {
      hide Valid;
      PolledArrived();
      payload := [];
      rc := ReleaseLastRecvSlot();
      if rc != OK { return; }
      var n := 0;
      while n < |incoming| && recvQueue != []
        invariant n <= |incoming| && Valid() && old(arrived) <= arrived
        invariant held == None && polled == old(polled)
        invariant arrived == old(arrived) + incoming[..n]
      {
        Arrive(incoming[n]);
        n := n + 1;
        assert incoming[..n] == incoming[..n - 1] + [incoming[n - 1]];
      }
      if recvCq == [] {
        SomeSlotPosted();
        return EAGAIN, [];
      }
      rc, payload := PollRecvCq();
    }

    lemma FirstInPlace()
      requires Valid() && recvCq != []
      ensures polled < |arrived| && recvCq[0].byteLen == |arrived[polled]|
      ensures Holds(recvCq[0].wrId - 1, arrived[polled])
    {
      assert arrived[polled + 0] == arrived[polled];
    }

    /** The rest of go_rdma_recv_frame once a completion is there: its checks on the work request
        number and the length never fail. */
    method PollRecvCq() returns (rc: Rc, payload: bytes)
      requires Valid() && recvCq != [] && held == None
      modifies this`hasLastNotifySlot, this`lastNotifySlot, this`recvCq, this`polled, this`held
      ensures Valid() && rc == OK
      ensures polled == old(polled) + 1 && held == Some(old(polled))
      ensures old(polled) < |arrived| && payload == arrived[old(polled)]
    {
      hide Partition;
      var wc := recvCq[0];
      PartitionPoll(notifyDepth, recvQueue, recvCq);
      FirstInPlace();
      if wc.wrId == 0 || wc.wrId > notifyDepth { return EIO, []; }
      if wc.byteLen > frameCap { return EIO, []; }
      payload := bufs[wc.wrId - 1][..wc.byteLen];
      ghost var was, p := recvCq, polled;
      recvCq := recvCq[1..];
      lastNotifySlot, hasLastNotifySlot := wc.wrId - 1, true;
      held := Some(polled);
      polled := polled + 1;
      forall k | 0 <= k < |recvCq|
        ensures recvCq[k].byteLen == |arrived[polled + k]| && Holds(recvCq[k].wrId - 1, arrived[polled + k])
      {
        assert recvCq[k] == was[k + 1] && polled + k == p + (k + 1);
      }
      rc := OK;
    }

    /** go_rdma_repost_recv. */
    method RepostRecv() returns (rc: Rc)
      requires Valid()
      modifies this`hasLastNotifySlot, this`recvQueue, this`held
      ensures Valid()
      ensures rc == OK || rc == EINVAL || rc == EIO
      ensures rc == EINVAL <==> old(held) == None
      ensures rc == OK || rc == EINVAL ==> held == None
      ensures rc == EIO ==> held == old(held) && !accepts
    {
      hide Conserved, Buffers, Waiting;
      if !hasLastNotifySlot { return EINVAL; }
      rc := ReleaseLastRecvSlot();
    }

    /** RecvBorrowedMessage, one round: a notify frame becomes a view of the region and its slot
        goes straight back; any other frame is lent out until released. */
    method RecvBorrowedMessage(region: Region, mem: bytes, incoming: seq<bytes>, timeoutMs: int)
      returns (rc: Rc, msg: Received, number: nat)
      requires Valid() && forall i :: 0 <= i < |incoming| ==> |incoming[i]| <= frameCap
      modifies this`hasLastNotifySlot, this`lastNotifySlot, this`recvQueue, this`recvCq
      modifies this`polled, this`held, this`unreleased, this`arrived, bufs
      ensures Valid() && old(arrived) <= arrived
      ensures rc == OK ==> number == old(polled) < |arrived|
      ensures rc == OK ==> msg == Receive(region, mem, arrived[number]) && msg.Message?
      ensures rc == OK ==> State() == Act(old(State()), if ParseNotify(arrived[number]) == None then TakePlain else TakeNotify)
      ensures rc == EAGAIN ==> State() == Act(old(State()), TimeOut)
      ensures rc == EIO ==> State() == Act(old(State()), Refused) || State() == Act(old(State()), TakeUnusable)
      ensures rc == OK || rc == EAGAIN || rc == EIO
      ensures arrived <= old(arrived) + incoming
      ensures old(polled) < |old(arrived)| || incoming != [] ==>
                if accepts then polled == old(polled) + 1 <= |arrived| else rc != EAGAIN
      ensures old(polled) < polled <= |arrived| && Receive(region, mem, arrived[old(polled)]).Message? ==>
                rc == OK || (rc == EIO && held.Some? && !accepts)
      ensures old(polled) < polled <= |arrived| && !Receive(region, mem, arrived[old(polled)]).Message? ==> rc == EIO
    {
      hide Valid, ParseNotify, SlotStart;
      var payload;
      msg, number := BadNotify, polled;
      rc, payload := RecvFrame(incoming, timeoutMs);
      if rc != OK { return; }
      msg := Receive(region, mem, payload);
      match ParseNotify(payload)
      case None =>
        unreleased := unreleased + {number};
      case Some(_) =>
        if msg.BadNotify? { return EIO, msg, number; }
        rc := RepostRecv();
    }

    /** BorrowedMessage.Release for message `number`: one-shot, and it reposts the held slot. */
    method ReleaseBorrowed(number: nat) returns (rc: Rc)
      requires Valid()
      modifies this`hasLastNotifySlot, this`recvQueue, this`held, this`unreleased
      ensures Valid()
      ensures number !in old(unreleased) ==> rc == OK && State() == old(State())
      ensures rc == OK || rc == EINVAL ==> State() == Act(old(State()), Release(number))
      ensures rc == EIO ==> State() == Act(old(State()), ReleaseRefused(number))
      ensures rc == OK || rc == EINVAL || rc == EIO
    {
      hide Valid;
      if number !in unreleased { return OK; }
      unreleased := unreleased - {number};
      rc := RepostRecv();
    }
  }

  // ------------------------------------------------- from end to end

  /** Moves everything that is posted. */
  method NicFinishes(c: Connection)
    requires c.Valid()
    modifies c`sent, c`peer
    ensures c.Valid() && c.sent == |c.posted|
  {
    Order(c);
    while c.sent < |c.posted|
      invariant c.Valid() && c.sent <= |c.posted|
    {
      c.Transmit();
    }
  }

  lemma Order(c: Connection)
    requires c.Valid()
    ensures c.sent <= |c.posted|
  {
    c.PeerIsFifoPrefix();
  }

  lemma {:induction false} FramesFit(path: Path, msgs: seq<bytes>, i: nat)
    requires OneFrameEach(path, msgs) && i < |msgs| && path.frameCap >= DESC_SIZE
    ensures |Inbox(path, msgs)[i]| <= path.frameCap
  {
    hide OneFrame, EncodeNotify, ParseNotify, SlottedCount;
    var front, m := msgs[..|msgs| - 1], msgs[|msgs| - 1];
    if i < |front| {
      FramesFit(path, front, i);
    } else {
      FrameFits(path, Wrap(SlottedCount(path, front)), m);
    }
  }

  lemma FrameFits(path: Path, seqNo: uint32, m: bytes)
    requires OneFrame(path, m) && path.frameCap >= DESC_SIZE
    ensures |FrameOf(path, seqNo, m)| <= path.frameCap
  {
    Widths();
  }

  /** Sender to receiver: messages sent on a fresh connection of which nothing is refused, and moved by
      the NIC, are returned one by one, each whole and in order, by a receiver whose queue takes slots back.
      Each slot of the region is used at most once, so none is written again before it is read. */
  method SendAndReceive(c: Connection, r: Receiver, region: Region, msgs: seq<bytes>, registered: seq<bool>, timeoutMs: int)
    returns (got: seq<bytes>)
    requires c.Valid() && c.posted == [] && c.rwSendSeq == 0 && c.peer0.inbox == [] && c.GoesThrough(timeoutMs)
    requires r.Valid() && r.accepts && r.arrived == [] && r.polled == 0 && r.frameCap >= c.frameCap >= DESC_SIZE
    requires c.sendBuf != r.bufs
    requires OneFrameEach(c.MessagePath(), msgs) && |registered| == |msgs|
    requires var path := c.MessagePath();
             && Continuous(|Log(path, msgs)|, c.sendDepth)
             && (path.slots > 0 ==> Continuous(SlottedCount(path, msgs), path.slots))
             && SlottedCount(path, msgs) <= path.slots
             && region.cap == path.slotCap && region.slots == path.slots && |c.peer0.mem| == path.slots * path.slotCap
    modifies c, c.sendBuf, r, r.bufs
    ensures got == msgs && c.Valid() && r.Valid()
  {
    hide Connection.Valid, Receiver.Valid, Requests, Continuous, Log, SlottedCount, OneFrame, Receive, ParseNotify;
    ghost var path := c.MessagePath();
    var k, sentRc := SendAll(c, msgs, registered, false, timeoutMs);
    assert msgs[..k] == msgs;
    NicFinishes(c);
    ConnectionDelivers(c, msgs);
    InboxIs(c, msgs);
    got := [];
    while |got| < |msgs|
      invariant |got| <= |msgs| && got == msgs[..|got|]
      invariant c.peer.inbox == Inbox(path, msgs)
      invariant c.Valid() && c.sent == |c.posted| && Requests(c.posted) == Log(path, msgs)
      invariant r.Valid() && r.polled == |got| && r.arrived == c.peer.inbox[..|got|]
    {
      var j := |got|;
      FramesFit(path, msgs, j);
      ConnectionIsFifo(c, region, msgs, j);
      var rc, msg, number := r.RecvBorrowedMessage(region, c.peer.mem, [c.peer.inbox[j]], timeoutMs);
      assert r.arrived == c.peer.inbox[..j + 1];
      got := got + [msg.payload];
    }
  }

  lemma InboxIs(c: Connection, msgs: seq<bytes>)
    requires c.Valid() && c.sent == |c.posted| && c.peer0.inbox == []
    requires OneFrameEach(c.MessagePath(), msgs) && Requests(c.posted) == Log(c.MessagePath(), msgs)
    requires |c.peer0.mem| == c.MessagePath().slots * c.MessagePath().slotCap
    ensures c.peer.inbox == Inbox(c.MessagePath(), msgs)
  {
    hide Connection.Valid, Requests, OneFrame, Sendable, Log, DeliverAll;
    c.Sizes();
    c.PeerIsFifoPrefix();
    assert Requests(c.posted)[..c.sent] == Requests(c.posted);
    LogArrives(c.MessagePath(), c.peer0, msgs);
  }
}
