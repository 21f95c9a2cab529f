/** The sending half of a connection: the ring of staging buffers, its two wrapping 32-bit
    counters, selective signalling, and the SEND and RDMA WRITE paths, over a queue pair that
    runs on its own: it moves requests to the peer in order, retires them in order, and reports
    only the signalled ones. */
module SendRing {
  import opened Counters
  import opened Wire

  datatype Rc = OK | EAGAIN | EMSGSIZE | ENOTSUP | EINVAL | EIO

  /** Where the NIC fetches the bytes of a request: a slot of the ring, the request itself
      (inline), or memory of the caller. */
  datatype Source = Staged(slot: nat) | Inline | Pinned

  datatype Posted = Posted(req: Request, source: Source, signalled: bool)

  function Data(r: Request): bytes {
    match r case Send(frame) => frame case Write(_, data) => data
  }

  function WithData(r: Request, b: bytes): Request {
    match r case Send(_) => Send(b) case Write(addr, _) => Write(addr, b)
  }

  function Requests(ps: seq<Posted>): (r: seq<Request>)
    ensures |r| == |ps| && forall i :: 0 <= i < |ps| ==> r[i] == ps[i].req
  {
    seq(|ps|, i requires 0 <= i < |ps| => ps[i].req)
  }

  lemma RequestsAppend(ps: seq<Posted>, p: Posted)
    ensures Requests(ps + [p]) == Requests(ps) + [p.req]
  {
  }

  /** The completions that retiring requests lo, .., hi-1 has put on the send CQ. */
  function Completions(ps: seq<Posted>, lo: nat, hi: nat): seq<uint32>
    requires hi <= |ps|
    decreases hi
  {
    if lo >= hi then [] else
      Completions(ps, lo, hi - 1) + if ps[hi - 1].signalled then [Wrap(hi - 1)] else []
  }

  lemma {:induction false} CompletionsOfPrefix(ps: seq<Posted>, p: Posted, lo: nat, hi: nat)
    requires hi <= |ps|
    ensures Completions(ps + [p], lo, hi) == Completions(ps, lo, hi)
  {
    if lo < hi {
      CompletionsOfPrefix(ps, p, lo, hi - 1);
    }
  }

  /** There are never more unreaped completions than requests not yet known to be complete. */
  lemma {:induction false} CompletionsBound(ps: seq<Posted>, lo: nat, hi: nat)
    requires lo <= hi <= |ps|
    ensures |Completions(ps, lo, hi)| <= hi - lo
  {
    if lo < hi {
      CompletionsBound(ps, lo, hi - 1);
    }
  }

  lemma {:induction false} SignalledIsReported(ps: seq<Posted>, lo: nat, hi: nat, r: nat)
    requires lo <= r < hi <= |ps| && ps[r].signalled
    ensures Completions(ps, lo, hi) != []
  {
    if r < hi - 1 {
      SignalledIsReported(ps, lo, hi - 1, r);
    }
  }

  /** The head of the CQ names the oldest signalled request; what follows it belongs to later ones. */
  lemma {:induction false} OldestCompletion(ps: seq<Posted>, lo: nat, hi: nat) returns (r: nat)
    requires hi <= |ps| && Completions(ps, lo, hi) != []
    ensures lo <= r < hi && ps[r].signalled
    ensures Completions(ps, lo, hi)[0] == Wrap(r)
    ensures Completions(ps, lo, hi)[1..] == Completions(ps, r + 1, hi)
  {
    if Completions(ps, lo, hi - 1) == [] {
      r := hi - 1;
    } else {
      r := OldestCompletion(ps, lo, hi - 1);
      var c := Completions(ps, lo, hi - 1);
      var last := if ps[hi - 1].signalled then [Wrap(hi - 1)] else [];
      assert (c + last)[1..] == c[1..] + last;
    }
  }

  /** The requests of one WRITE message: its chunks, then the notify frame. */
  function Announced(addr: nat, payload: bytes, n: Notify, cap: nat): seq<Request>
    requires cap > 0
  {
    Writes(addr, payload, cap) + [Send(EncodeNotify(n))]
  }

  function WriteAt(off: uint32, payload: bytes, cap: nat): seq<Request>
    requires cap > 0 && |payload| < TWO32
  {
    if payload == [] then [] else Announced(off, payload, Notify(true, |payload|, off), cap)
  }

  /** The requests that would place a payload at an offset of any size; the notify frame has room for
      32 bits of each. */
  function Asked(off: nat, payload: bytes, cap: nat): seq<Request>
    requires cap > 0
  {
    Announced(off, payload, Notify(true, Wrap(|payload|), Wrap(off)), cap)
  }

  /** The bytes a log of WRITEs carries. */
  function Carried(rs: seq<Request>): nat {
    if rs == [] then 0 else |Data(rs[0])| + Carried(rs[1..])
  }

  lemma {:induction false} WritesCarry(addr: nat, payload: bytes, cap: nat)
    requires cap > 0
    ensures Carried(Writes(addr, payload, cap)) == |payload|
    ensures payload != [] ==> Writes(addr, payload, cap) != [] && Writes(addr, payload, cap)[0].Write?
                              && Writes(addr, payload, cap)[0].addr == addr
    decreases |payload|
  {
    hide Writes;
    if payload == [] {
      CutsOfNothing(addr, cap);
    } else {
      var n := Min(cap, |payload|);
      var rest := Writes(addr + n, payload[n..], cap);
      WritesCarry(addr + n, payload[n..], cap);
      WritesFirst(addr, payload, cap);
      assert Writes(addr, payload, cap)[1..] == rest;
    }
  }

  lemma WritesFirst(addr: nat, payload: bytes, cap: nat)
    requires cap > 0 && payload != []
    ensures var n := Min(cap, |payload|);
            Writes(addr, payload, cap) == [Write(addr, payload[..n])] + Writes(addr + n, payload[n..], cap)
  {
  }

  /** Cut to 32 bits, length and offset still give the requests asked for exactly when neither was cut. */
  lemma WholeIffShort(off: nat, payload: bytes, cap: nat)
    requires cap > 0 && payload != []
    ensures WriteAt(Wrap(off), payload[..Wrap(|payload|)], cap) == Asked(off, payload, cap)
            <==> off < TWO32 && |payload| < TWO32
  {
    hide Writes, EncodeNotify, Carried;
    var cut := payload[..Wrap(|payload|)];
    if off < TWO32 && |payload| < TWO32 {
      assert cut == payload;
    } else if WriteAt(Wrap(off), cut, cap) == Asked(off, payload, cap) {
      var a, b := Writes(Wrap(off), cut, cap), Writes(off, payload, cap);
      var wa, wb := WriteAt(Wrap(off), cut, cap), Asked(off, payload, cap);
      assert wa[..|wa| - 1] == a && wb[..|wb| - 1] == b;
      WritesCarry(Wrap(off), cut, cap);
      WritesCarry(off, payload, cap);
      assert false;
    }
  }

  /** Offsets 2^32 apart are the same to the code. */
  lemma HighOffsetIsLow(off: uint32, k: nat, payload: bytes, cap: nat)
    requires cap > 0 && |payload| < TWO32
    ensures WriteAt(Wrap(off + k * TWO32), payload, cap) == WriteAt(off, payload, cap)
  {
    hide WriteAt;
    OffsetCut(off, k);
  }

  lemma OffsetCut(off: uint32, k: nat)
    ensures Wrap(off + k * TWO32) == off
  {
    DivModUnique(off + k * TWO32, TWO32, k, off);
  }

  lemma SamePrefix<T>(a: seq<T>, b: seq<T>, c: seq<T>)
    ensures a + b == a + c <==> b == c
  {
    assert (a + b)[|a|..] == b && (a + c)[|a|..] == c;
  }

  /** Where slot number `slot` of a region begins. */
  function SlotStart(slot: nat, cap: nat): nat {
    slot * cap
  }

  function WriteSlot(slot: uint32, slotCap: nat, payload: bytes, cap: nat): seq<Request>
    requires cap > 0 && |payload| < TWO32
  {
    if payload == [] then [] else Announced(SlotStart(slot, slotCap), payload, Notify(false, |payload|, slot), cap)
  }

  /** What decides the route of a message: frame capacity, the size above which a WRITE is tried,
      and the peer's slots (none when it advertised no usable region). */
  datatype Path = Path(frameCap: nat, cutover: nat, slotCap: uint32, slots: uint32) {
    predicate Slotted(payload: bytes) {
      cutover < |payload| <= slotCap && slots > 0
    }
  }

  /** The requests of one message, when `seqNo` slotted messages went before it. */
  function MessageRequests(path: Path, seqNo: uint32, payload: bytes): seq<Request>
    requires path.frameCap > 0 && |payload| < TWO32
  {
    if path.Slotted(payload) then WriteSlot(seqNo % path.slots, path.slotCap, payload, path.frameCap)
    else Frames(payload, path.frameCap)
  }

  /** One round of a chunk loop takes the first piece of what is left. */
  lemma FramesStep(payload: bytes, offset: nat, cap: nat)
    requires cap > 0 && offset < |payload|
    ensures var n := Min(cap, |payload| - offset);
            Frames(payload[offset..], cap) == [Send(payload[offset..offset + n])] + Frames(payload[offset + n..], cap)
  {
    var n := Min(cap, |payload| - offset);
    assert payload[offset..][..n] == payload[offset..offset + n];
    assert payload[offset..][n..] == payload[offset + n..];
  }

  lemma WritesStep(addr: nat, payload: bytes, offset: nat, cap: nat)
    requires cap > 0 && offset < |payload|
    ensures var n := Min(cap, |payload| - offset);
            Writes(addr + offset, payload[offset..], cap)
            == [Write(addr + offset, payload[offset..offset + n])] + Writes(addr + offset + n, payload[offset + n..], cap)
  {
    var n := Min(cap, |payload| - offset);
    assert payload[offset..][..n] == payload[offset..offset + n];
    assert payload[offset..][n..] == payload[offset + n..];
  }

  lemma PrefixIsLe<T>(a: seq<T>, b: seq<T>)
    ensures a <= a + b
  {
  }

  lemma SmallFrame(payload: bytes, cap: nat)
    requires 0 < |payload| <= cap
    ensures Frames(payload, cap) == [Send(payload)]
  {
    assert payload[..|payload|] == payload && payload[|payload|..] == [];
  }

  lemma CutsOfNothing(addr: nat, cap: nat)
    requires cap > 0
    ensures Frames([], cap) == [] && Writes(addr, [], cap) == []
  {
  }

  /** What is known of the surroundings of a connection: the NIC gets nothing done while calls wait with a
      timeout; ibv_post_send accepts everything; every payload that is not registered lies in the
      connection's own region. When none of it is known anything may happen. */
  datatype Known = Known(stalled: bool, accepts: bool, ownPayloads: bool)

  class Connection {
    const known: Known

    // go_rdma_conn
    const frameCap: nat
    const sendDepth: nat
    const signalInterval: nat
    const inlineThreshold: nat
    const rwReady: bool
    const peerCap: uint32
    const peerSlots: uint32
    var txProd: uint32
    var sendCompleted: uint32
    var rwSendSeq: uint32
    const sendBuf: array<bytes>

    // The queue pair: everything posted so far, how far it has been moved and retired,
    // the send CQ, and the peer.
    var posted: seq<Posted>
    var sent: nat
    var retired: nat
    var cq: seq<uint32>
    var peer: Peer
    ghost const peer0: Peer

    /** The unbounded count that `send_completed` abbreviates. */
    ghost var completed: nat

    ghost predicate Shape()
      reads sendBuf
    {
      && NOTIFY_SIZE <= DESC_SIZE <= frameCap < TWO32
      && 0 < sendDepth < TWO31 && sendBuf.Length == sendDepth
      && (forall i :: 0 <= i < sendDepth ==> |sendBuf[i]| == frameCap)
    }

    ghost predicate CountersFaithful()
      reads this`txProd, this`posted, this`sendCompleted, this`completed, this`retired, this`sent
    {
      && txProd == Wrap(|posted|) && sendCompleted == Wrap(completed)
      && completed <= retired <= sent <= |posted| && |posted| - completed <= sendDepth
    }

    /** The NIC will still find, in the buffer it was told to read, the bytes it was told to send. */
    ghost predicate BuffersIntact()
      requires Shape()
      reads this`posted, this`sent, sendBuf
    {
      forall i :: sent <= i < |posted| && posted[i].source.Staged? ==>
        && posted[i].source.slot == Slot(i, sendDepth)
        && |Data(posted[i].req)| <= frameCap
        && sendBuf[posted[i].source.slot][..|Data(posted[i].req)|] == Data(posted[i].req)
    }

    /** A full ring can always be drained: its newest request will be reported. */
    ghost predicate NeverStuck()
      reads this`posted, this`completed
    {
      |posted| - completed >= sendDepth ==> |posted| > 0 && posted[|posted| - 1].signalled
    }

    /** The peer has seen exactly the requests moved so far, each as it was meant. */
    ghost predicate PeerUpToDate()
      reads this`posted, this`sent, this`peer
    {
      sent <= |posted| && peer == DeliverAll(peer0, Requests(posted[..sent]))
    }

    ghost predicate Valid()
      reads this`txProd, this`sendCompleted, this`posted, this`sent, this`retired, this`cq, this`peer, this`completed
      reads sendBuf
    {
      && Shape() && CountersFaithful() && Continuous(|posted|, sendDepth)
      && BuffersIntact() && NeverStuck() && PeerUpToDate()
      && cq == Completions(posted, completed, retired)
    }

    /** No request still to be moved reads memory that belongs to a caller. */
    ghost predicate PinnedSent()
      reads this
    {
      forall i :: sent <= i < |posted| ==> !posted[i].source.Pinned?
    }

    /** A completion the sender has not seen yet is or will be on the send CQ. */
    ghost predicate WillComplete()
      reads this
    {
      exists r :: completed <= r < |posted| && posted[r].signalled
    }

    constructor (frameCap: nat, sendDepth: nat, signalInterval: nat, inlineThreshold: nat,
                 rwReady: bool, peerCap: uint32, peerSlots: uint32, peer: Peer, known: Known)
      requires DESC_SIZE <= frameCap < TWO32 && 0 < sendDepth < TWO31
      ensures Valid() && posted == [] && cq == [] && sent == completed == 0 && rwSendSeq == 0
      ensures this.peer == peer0 == peer && this.known == known
      ensures this.frameCap == frameCap && this.sendDepth == sendDepth
      ensures this.rwReady == rwReady && this.peerCap == peerCap && this.peerSlots == peerSlots
      ensures fresh(sendBuf)
    {
      this.frameCap, this.sendDepth, this.signalInterval := frameCap, sendDepth, signalInterval;
      this.inlineThreshold, this.rwReady := inlineThreshold, rwReady;
      this.peerCap, this.peerSlots := peerCap, peerSlots;
      txProd, sendCompleted, rwSendSeq := 0, 0, 0;
      posted, sent, retired, cq, completed := [], 0, 0, [], 0;
      this.peer, peer0, this.known := peer, peer, known;
      var zero: bytes := seq(frameCap, i => 0);
      sendBuf := new bytes[sendDepth](i => zero);
    }

    /** The refinement in one line: the peer is what a plain FIFO of requests would have made of it. */
    lemma PeerIsFifoPrefix()
      requires Valid()
      ensures sent <= |posted| == |Requests(posted)|
      ensures peer == DeliverAll(peer0, Requests(posted)[..sent])
    {
      assert Requests(posted[..sent]) == Requests(posted)[..sent];
    }

    // ------------------------------------------------------------ hardware

    /** The bytes the NIC actually reads for request i, at the moment it reads them. */
    function Fetched(i: nat): Request
      requires Shape() && i < |posted|
      reads this, sendBuf
    {
      var p := posted[i];
      if p.source.Staged? && p.source.slot < sendDepth && |Data(p.req)| <= frameCap
      then WithData(p.req, sendBuf[p.source.slot][..|Data(p.req)|])
      else p.req
    }

    method Transmit()
      requires Valid() && sent < |posted|
      modifies this`sent, this`peer
      ensures Valid() && sent == old(sent) + 1
      ensures peer == Deliver(old(peer), old(Fetched(sent)))
    {
      var r := Fetched(sent);
      assert r == posted[sent].req;
      peer := Deliver(peer, r);
      sent := sent + 1;
      var rs := Requests(posted[..sent]);
      assert rs[..|rs| - 1] == Requests(posted[..sent - 1]);
    }

    method Retire()
      requires Valid() && retired < sent
      modifies this`retired, this`cq
      ensures Valid() && retired == old(retired) + 1 && old(cq) <= cq
    {
      if posted[retired].signalled {
        cq := cq + [Wrap(retired)];
      }
      retired := retired + 1;
    }

    /** Any amount of NIC activity; it may happen between any two steps of the code. */
    method NicRuns()
      requires Valid()
      modifies this`sent, this`peer, this`retired, this`cq
      ensures Valid() && sent >= old(sent)
      ensures known.stalled ==> sent == old(sent) && peer == old(peer) && cq == old(cq)
      ensures old(cq) <= cq
    {
      var steps: nat := *;
      while steps > 0 && !known.stalled
        invariant Valid() && sent >= old(sent)
        invariant known.stalled ==> sent == old(sent) && peer == old(peer) && cq == old(cq)
        invariant old(cq) <= cq
      {
        if * {
          if sent < |posted| { Transmit(); }
        } else {
          if retired < sent { Retire(); }
        }
        steps := steps - 1;
      }
    }

    method NicRunsUntilCompletion()
      requires Valid() && WillComplete()
      modifies this`sent, this`peer, this`retired, this`cq
      ensures Valid() && sent >= old(sent) && cq != [] && old(cq) <= cq
    {
      hide BuffersIntact, Slot, NeverStuck, Requests, DeliverAll, Continuous, PeerUpToDate, Completions, Wrap;
      ghost var s :| completed <= s < |posted| && posted[s].signalled;
      while cq == []
        invariant Valid() && sent >= old(sent) && old(cq) <= cq
        decreases |posted| - sent, |posted| - retired
      {
        if s < retired {
          SignalledIsReported(posted, completed, retired, s);
        }
        if retired < sent {
          Retire();
        } else {
          Transmit();
        }
      }
    }

    /** A wait with a timeout while the NIC gets nothing done. */
    predicate GivesUp(timeoutMs: int) {
      known.stalled && timeoutMs >= 0
    }

    /** ibv_poll_cq under go_rdma_poll_cq_with_timeout: with a timeout it may give up; without
        one it waits for a completion, so there has to be one to wait for. */
    method PollSendCq(timeoutMs: int) returns (rc: Rc, wrId: uint32, ghost r: nat)
      requires Valid()
      requires timeoutMs < 0 ==> WillComplete()
      modifies this`sent, this`peer, this`retired, this`cq
      ensures Shape() && CountersFaithful() && BuffersIntact() && sent >= old(sent)
      ensures PeerUpToDate()
      ensures rc == OK || (rc == EAGAIN && timeoutMs >= 0)
      ensures rc == OK ==> completed <= r < retired && posted[r].signalled && wrId == Wrap(r)
      ensures cq == Completions(posted, if rc == OK then r + 1 else completed, retired)
      ensures GivesUp(timeoutMs) && old(cq) == [] ==> rc == EAGAIN && sent == old(sent) && peer == old(peer)
      ensures old(cq) != [] ==> rc == OK
    {
      hide BuffersIntact, Slot, NeverStuck, Requests, DeliverAll, Continuous;
      NicRuns();
      if timeoutMs < 0 {
        NicRunsUntilCompletion();
      }
      rc, wrId, r := TakeCompletion();
    }

    /** The end of a poll: the head of the CQ, or a timeout if there is none. */
    method TakeCompletion() returns (rc: Rc, wrId: uint32, ghost r: nat)
      requires Valid()
      modifies this`cq
      ensures Shape() && CountersFaithful() && BuffersIntact() && PeerUpToDate()
      ensures old(cq) == [] ==> Valid()
      ensures rc == if old(cq) == [] then EAGAIN else OK
      ensures rc == OK ==> completed <= r < retired && posted[r].signalled && wrId == Wrap(r)
      ensures cq == Completions(posted, if rc == OK then r + 1 else completed, retired)
    {
      hide BuffersIntact, Slot, NeverStuck, Requests, DeliverAll, Continuous;
      if cq == [] {
        return EAGAIN, 0, 0;
      }
      r := OldestCompletion(posted, completed, retired);
      wrId := cq[0];
      cq := cq[1..];
      rc := OK;
    }

    /** The unreaped completions fit the CQ created for them. */
    lemma CompletionQueueFits(recvWr: nat)
      requires Valid()
      ensures |cq| <= sendDepth <= sendDepth + recvWr + 16
    {
      CompletionsBound(posted, completed, retired);
    }

    // ------------------------------------------------------- reaping, waiting

    method ReapDataSendCompletion(timeoutMs: int) returns (rc: Rc)
      requires Valid()
      requires timeoutMs < 0 ==> WillComplete()
      modifies this`sent, this`peer, this`retired, this`cq, this`sendCompleted, this`completed
      ensures Valid() && sent >= old(sent)
      ensures rc == OK || (rc == EAGAIN && timeoutMs >= 0)
      ensures rc == OK ==> completed > old(completed)
      ensures rc != OK ==> completed == old(completed)
      ensures GivesUp(timeoutMs) && old(cq) == [] ==> rc == EAGAIN && sent == old(sent) && peer == old(peer)
      ensures old(cq) != [] ==> rc == OK
    {
      hide BuffersIntact, PeerUpToDate, Completions, Continuous, Slot;
      var wrId: uint32;
      ghost var r: nat;
      rc, wrId, r := PollSendCq(timeoutMs);
      if rc != OK { return; }
      var done: uint32 := Wrap(wrId + 1);
      WrapStep(r);
      SignedDifference(r + 1, completed);
      if Signed(Minus(done, sendCompleted)) > 0 {
        sendCompleted := done;
        completed := r + 1;
      }
    }

    ghost predicate Free()
      reads this`posted, this`completed
    {
      |posted| - completed < sendDepth
    }

    method WaitLocalSendSlot(timeoutMs: int) returns (rc: Rc)
      requires Valid()
      modifies this`sent, this`peer, this`retired, this`cq, this`sendCompleted, this`completed
      ensures Valid() && sent >= old(sent)
      ensures rc == OK || (rc == EAGAIN && timeoutMs >= 0)
      ensures rc == OK ==> |posted| - completed < sendDepth
      ensures old(Free()) ==> rc == OK && sent == old(sent) && peer == old(peer) && cq == old(cq) && completed == old(completed)
    {
      SignedDifference(|posted|, completed);
      while Minus(txProd, sendCompleted) >= sendDepth
        invariant Valid() && sent >= old(sent)
        invariant Minus(txProd, sendCompleted) == |posted| - completed
        invariant old(Free()) ==> sent == old(sent) && peer == old(peer) && cq == old(cq) && completed == old(completed)
        decreases |posted| - completed
      {
        assert completed <= |posted| - 1 < |posted| && posted[|posted| - 1].signalled;
        rc := ReapDataSendCompletion(timeoutMs);
        if rc != OK { return; }
        SignedDifference(|posted|, completed);
      }
      rc := OK;
    }

    /** Waits until everything posted so far is retired. */
    method WaitSendCompletedUntil(target: uint32, timeoutMs: int) returns (rc: Rc)
      requires Valid() && target == txProd
      requires |posted| == 0 || posted[|posted| - 1].signalled
      modifies this`sent, this`peer, this`retired, this`cq, this`sendCompleted, this`completed
      ensures Valid() && sent >= old(sent)
      ensures rc == OK || (rc == EAGAIN && timeoutMs >= 0)
      ensures rc == OK ==> completed == |posted| == sent == retired
      ensures GivesUp(timeoutMs) && old(cq) == [] && old(completed) < |posted| ==> rc == EAGAIN && sent == old(sent) && peer == old(peer)
    {
      hide BuffersIntact, PeerUpToDate, Completions, Continuous, Slot, Shape;
      Sizes();
      SignedDifference(|posted|, completed);
      while Signed(Minus(target, sendCompleted)) > 0
        invariant Valid() && sent >= old(sent)
        invariant Signed(Minus(target, sendCompleted)) == |posted| - completed
        invariant GivesUp(timeoutMs) && old(cq) == [] && old(completed) < |posted| ==>
                    sent == old(sent) && peer == old(peer) && cq == [] && completed == old(completed)
        decreases |posted| - completed
      {
        assert completed <= |posted| - 1 < |posted| && posted[|posted| - 1].signalled;
        rc := ReapDataSendCompletion(timeoutMs);
        if rc != OK { return; }
        SignedDifference(|posted|, completed);
      }
      rc := OK;
    }

    // -------------------------------------------------------------- posting

    /** memcpy into a slot. The slot must not be one the NIC may still have to read. */
    method Stage(slot: nat, data: bytes)
      requires Valid() && slot < sendDepth && |data| <= frameCap
      requires forall i :: completed <= i < |posted| ==> Slot(i, sendDepth) != slot
      modifies sendBuf
      ensures Valid()
      ensures sendBuf[slot][..|data|] == data
      ensures forall i :: 0 <= i < sendDepth && i != slot ==> sendBuf[i] == old(sendBuf[i])
    {
      sendBuf[slot] := data + sendBuf[slot][|data|..];
    }

    /** A free ring has a free slot: the one `tx_prod` points at. */
    lemma SlotIsFree()
      requires Valid() && |posted| - completed < sendDepth
      requires Continuous(|posted| + 1, sendDepth)
      ensures txProd % sendDepth == Slot(|posted|, sendDepth)
      ensures forall i :: completed <= i < |posted| ==> Slot(i, sendDepth) != Slot(|posted|, sendDepth)
    {
      forall i: nat | completed <= i < |posted|
        ensures Slot(i, sendDepth) != Slot(|posted|, sendDepth)
      {
        SlotsDistinct(i, |posted|, sendDepth);
      }
    }

    lemma Sizes()
      requires Valid()
      ensures DESC_SIZE <= frameCap < TWO32 && 0 < sendDepth < TWO31
    {
    }

    lemma OutstandingIsTrue()
      requires Valid()
      ensures Minus(txProd, sendCompleted) == |posted| - completed
    {
      SignedDifference(|posted|, completed);
    }

    /** Which SENDs ask for a completion: forced ones, every `send_signal_interval`-th one, and
        the one that fills the ring. */
    function NeedSignal(outstanding: uint32, forceSignal: bool): (r: bool)
      requires sendDepth < TWO31
      reads this`txProd
      ensures forceSignal || signalInterval <= 1 ==> r
      ensures outstanding < sendDepth && outstanding + 1 >= sendDepth ==> r
      ensures signalInterval > 1 && !forceSignal && outstanding + 1 < sendDepth ==>
                (r <==> Wrap(txProd + 1) % signalInterval == 0)
    {
      forceSignal || signalInterval <= 1 || Wrap(txProd + 1) % signalInterval == 0
      || Wrap(outstanding + 1) >= sendDepth
    }

    /** ibv_post_send; it may be refused, and then nothing is posted. */
    method PostSend(req: Request, source: Source, signalled: bool) returns (rc: Rc)
      requires Valid() && |posted| - completed < sendDepth
      requires Continuous(|posted| + 1, sendDepth)
      requires |posted| + 1 - completed >= sendDepth ==> signalled
      requires source.Staged? ==>
                 && source.slot == Slot(|posted|, sendDepth)
                 && |Data(req)| <= frameCap && sendBuf[source.slot][..|Data(req)|] == Data(req)
      modifies this`posted, this`txProd
      ensures Valid()
      ensures rc == OK || rc == EIO
      ensures known.accepts ==> rc == OK
      ensures rc == OK ==> posted == old(posted) + [Posted(req, source, signalled)]
      ensures rc != OK ==> posted == old(posted)
    {
      var refused: bool := *;
      if refused && !known.accepts { return EIO; }
      Enqueue(req, source, signalled);
      rc := OK;
    }

    /** A request the queue pair has accepted. */
    method Enqueue(req: Request, source: Source, signalled: bool)
      requires Valid() && |posted| - completed < sendDepth
      requires Continuous(|posted| + 1, sendDepth)
      requires |posted| + 1 - completed >= sendDepth ==> signalled
      requires source.Staged? ==>
                 && source.slot == Slot(|posted|, sendDepth)
                 && |Data(req)| <= frameCap && sendBuf[source.slot][..|Data(req)|] == Data(req)
      modifies this`posted, this`txProd
      ensures Valid()
      ensures posted == old(posted) + [Posted(req, source, signalled)]
    {
      hide Slot, Requests, DeliverAll, Completions, Continuous, Wrap;
      ghost var was := posted;
      WrapStep(|posted|);
      CompletionsOfPrefix(posted, Posted(req, source, signalled), completed, retired);
      posted := posted + [Posted(req, source, signalled)];
      txProd := Wrap(txProd + 1);
      assert posted[..sent] == was[..sent];
    }

    /** A call without a timeout, of which no request is refused. */
    predicate GoesThrough(timeoutMs: int) {
      known.accepts && timeoutMs < 0
    }

    method SendFrame(payload: bytes, forceSignal: bool, timeoutMs: int) returns (rc: Rc)
      requires Valid() && Continuous(|posted| + 1, sendDepth)
      modifies this`sent, this`peer, this`retired, this`cq, this`sendCompleted, this`completed
      modifies this`posted, this`txProd, sendBuf
      ensures Valid() && sent >= old(sent)
      ensures rc == EMSGSIZE <==> |payload| > frameCap
      ensures rc == OK || rc == EAGAIN || rc == EIO || rc == EMSGSIZE
      ensures rc == OK ==> old(posted) <= posted && |posted| == |old(posted)| + 1
      ensures rc == OK ==> Requests(posted) == Requests(old(posted)) + [Send(payload)]
      ensures rc == OK ==> !posted[|posted| - 1].source.Pinned?
      ensures rc == OK && forceSignal ==> posted[|posted| - 1].signalled
      ensures rc != OK ==> posted == old(posted)
      ensures GoesThrough(timeoutMs) && |payload| <= frameCap ==> rc == OK
    {
      hide BuffersIntact, PeerUpToDate, CountersFaithful, NeverStuck, Completions, Continuous, Slot, Requests, Minus;
      if |payload| > frameCap { return EMSGSIZE; }
      rc := WaitLocalSendSlot(timeoutMs);
      if rc != OK { return; }

      var localSlot := txProd % sendDepth;
      SlotIsFree();
      OutstandingIsTrue();
      var outstanding := Minus(txProd, sendCompleted);
      var signalled := NeedSignal(outstanding, forceSignal);
      var source := Staged(localSlot);
      if inlineThreshold > 0 && |payload| <= inlineThreshold {
        source := Inline;
      } else {
        Stage(localSlot, payload);
      }
      NicRuns();
      RequestsAppend(posted, Posted(Send(payload), source, signalled));
      rc := PostSend(Send(payload), source, signalled);
    }

    method SendMessage(payload: bytes, timeoutMs: int) returns (rc: Rc)
      requires Valid() && |payload| < TWO32
      requires Continuous(|posted| + |Frames(payload, frameCap)|, sendDepth)
      modifies this`sent, this`peer, this`retired, this`cq, this`sendCompleted, this`completed
      modifies this`posted, this`txProd, sendBuf
      ensures Valid() && sent >= old(sent)
      ensures old(posted) <= posted && Requests(posted) <= Requests(old(posted)) + Frames(payload, frameCap)
      ensures rc == OK ==> Requests(posted) == Requests(old(posted)) + Frames(payload, frameCap)
      ensures rc == OK && payload != [] ==> |posted| > 0 && posted[|posted| - 1].signalled
      ensures forall i :: |old(posted)| <= i < |posted| ==> !posted[i].source.Pinned?
      ensures 0 < |payload| <= frameCap && rc != OK ==> posted == old(posted)
      ensures rc == OK || rc == EAGAIN || rc == EIO
      ensures GoesThrough(timeoutMs) ==> rc == OK
    {
      hide Valid, Continuous, Requests, Frames;
      var offset := 0;
      Sizes();
      ghost var all := Requests(posted) + Frames(payload, frameCap);
      assert payload[0..] == payload;
      while offset < |payload|
        invariant offset <= |payload| && Valid() && sent >= old(sent)
        invariant old(posted) <= posted
        invariant Requests(posted) + Frames(payload[offset..], frameCap) == all
        invariant offset == |payload| && payload != [] ==> |posted| > 0 && posted[|posted| - 1].signalled
        invariant forall i :: |old(posted)| <= i < |posted| ==> !posted[i].source.Pinned?
        invariant offset == 0 ==> posted == old(posted)
        invariant |payload| <= frameCap ==> offset == 0 || offset == |payload|
      {
        var chunkLen := Min(frameCap, |payload| - offset);
        var chunk := payload[offset..offset + chunkLen];
        ghost var was := Requests(posted);
        FramesStep(payload, offset, frameCap);
        PrefixIsLe(was, Frames(payload[offset..], frameCap));
        ContinuousBelow(|posted| + 1, |all|, sendDepth);
        rc := SendFrame(chunk, offset + chunkLen >= |payload|, timeoutMs);
        if rc != OK { return; }
        AppendAssoc(was, Send(chunk), Frames(payload[offset + chunkLen..], frameCap));
        offset := offset + chunkLen;
      }
      CutsOfNothing(0, frameCap);
      assert payload[offset..] == [];
      assert Requests(posted) + [] == Requests(posted);
      rc := OK;
    }

    // ----------------------------------------------------------- RDMA WRITE

    /** One chunk of the connection's own memory, an idle ring, and a NIC that gets nothing done. */
    ghost predicate Unlucky(payload: bytes, registered: bool)
      reads this`posted, this`completed, this`cq
    {
      known == Known(true, true, true) && !registered && 0 < |payload| <= frameCap && cq == [] && Free()
    }

    /** The chunk loop shared by both WRITE paths. With a registered payload the NIC reads the
        caller's memory; otherwise it reads either the connection's own region, when the chunk
        lies in it, or a staged copy. */
    method PostWriteChunks(base: nat, payload: bytes, registered: bool, timeoutMs: int) returns (rc: Rc)
      requires Valid() && |payload| < TWO32
      requires Continuous(|posted| + |Writes(base, payload, frameCap)|, sendDepth)
      modifies this`sent, this`peer, this`retired, this`cq, this`sendCompleted, this`completed
      modifies this`posted, this`txProd, sendBuf
      ensures Valid() && sent >= old(sent)
      ensures old(posted) <= posted
      ensures Requests(posted) <= Requests(old(posted)) + Writes(base, payload, frameCap)
      ensures rc == OK ==> Requests(posted) == Requests(old(posted)) + Writes(base, payload, frameCap)
      ensures |posted| > |old(posted)| ==> posted[|posted| - 1].signalled
      ensures rc == OK && payload != [] ==> |posted| > |old(posted)|
      ensures |posted| - |old(posted)| < TWO31 - 1
      ensures rc == OK || rc == EAGAIN || rc == EIO
      ensures GoesThrough(timeoutMs) ==> rc == OK
      ensures old(Unlucky(payload, registered)) ==>
                rc == OK && posted != old(posted) && posted[|posted| - 1].source == Pinned
                && sent == old(sent) && peer == old(peer) && cq == [] && completed == old(completed)
    {
      hide Valid, Continuous, Requests, Writes, Slot;
      var offset := 0;
      Sizes();
      ghost var all := Requests(posted) + Writes(base, payload, frameCap);
      assert payload[0..] == payload;
      while offset < |payload|
        invariant offset <= |payload| && Valid() && sent >= old(sent)
        invariant old(posted) <= posted
        invariant Requests(posted) + Writes(base + offset, payload[offset..], frameCap) == all
        invariant |posted| > |old(posted)| ==> posted[|posted| - 1].signalled
        invariant if offset < |payload| then DESC_SIZE * (|posted| - |old(posted)|) <= offset
                  else DESC_SIZE * (|posted| - |old(posted)| - 1) <= offset
        invariant offset > 0 ==> |posted| > |old(posted)|
        invariant old(Unlucky(payload, registered)) ==>
                    && (offset == 0 ==> Free()) && (offset == 0 || offset == |payload|)
                    && (offset > 0 ==> posted[|posted| - 1].source == Pinned)
                    && sent == old(sent) && peer == old(peer) && cq == [] && completed == old(completed)
      {
        var chunkLen := Min(frameCap, |payload| - offset);
        var chunk := payload[offset..offset + chunkLen];
        ghost var was := Requests(posted);
        WritesStep(base, payload, offset, frameCap);
        PrefixIsLe(was, Writes(base + offset, payload[offset..], frameCap));
        ContinuousBelow(|posted| + 1, |all|, sendDepth);
        rc := PostWrite(base + offset, chunk, registered, timeoutMs);
        if rc != OK { return; }
        AppendAssoc(was, Write(base + offset, chunk), Writes(base + offset + chunkLen, payload[offset + chunkLen..], frameCap));
        offset := offset + chunkLen;
      }
      CutsOfNothing(base + offset, frameCap);
      assert payload[offset..] == [];
      assert Requests(posted) + [] == Requests(posted);
      rc := OK;
    }

    /** One round of the chunk loop. */
    method PostWrite(addr: nat, chunk: bytes, registered: bool, timeoutMs: int) returns (rc: Rc)
      requires Valid() && Continuous(|posted| + 1, sendDepth) && |chunk| <= frameCap
      modifies this`sent, this`peer, this`retired, this`cq, this`sendCompleted, this`completed
      modifies this`posted, this`txProd, sendBuf
      ensures Valid() && sent >= old(sent)
      ensures rc == OK ==> old(posted) <= posted && |posted| == |old(posted)| + 1
      ensures rc == OK ==> Requests(posted) == Requests(old(posted)) + [Write(addr, chunk)]
      ensures rc == OK ==> posted[|posted| - 1].signalled
      ensures rc != OK ==> posted == old(posted)
      ensures rc == OK || rc == EAGAIN || rc == EIO
      ensures GoesThrough(timeoutMs) ==> rc == OK
      ensures known.stalled && known.accepts && old(Free()) ==>
                rc == OK && sent == old(sent) && peer == old(peer) && cq == old(cq) && completed == old(completed)
      ensures rc == OK && !registered && known.ownPayloads ==> posted[|posted| - 1].source == Pinned
    {
      hide BuffersIntact, PeerUpToDate, CountersFaithful, NeverStuck, Completions, Continuous, Slot, Requests, Minus;
      rc := WaitLocalSendSlot(timeoutMs);
      if rc != OK { return; }
      var source := Pinned;
      if !registered {
        var inOwnRegion: bool := *;
        if !inOwnRegion && !known.ownPayloads {
          SlotIsFree();
          source := Staged(txProd % sendDepth);
          Stage(source.slot, chunk);
        }
      }
      NicRuns();
      RequestsAppend(posted, Posted(Write(addr, chunk), source, true));
      rc := PostSend(Write(addr, chunk), source, true);
    }

    /** The common exit: while anything posted since `writesStart` may still read a registered
        payload, the call does not return. */
    method Cleanup(writesStart: uint32, ghost start: nat, registered: bool, deregFails: bool, rc: Rc) returns (finalRc: Rc)
      requires Valid() && start <= |posted| && writesStart == Wrap(start) && |posted| - start < TWO31
      requires |posted| > start ==> posted[|posted| - 1].signalled
      modifies this`sent, this`peer, this`retired, this`cq, this`sendCompleted, this`completed
      ensures Valid() && sent >= old(sent)
      ensures registered && |posted| > start ==> sent == |posted|
      ensures finalRc == if rc == OK && registered && deregFails then EIO else rc
      ensures !registered ==> sent == old(sent) && peer == old(peer)
    {
      hide BuffersIntact, PeerUpToDate, NeverStuck, Completions, Continuous, Slot, Requests;
      finalRc := rc;
      if registered {
        SignedDifference(|posted|, start);
        if Signed(Minus(txProd, writesStart)) > 0 {
          var waitRc := WaitSendCompletedUntil(txProd, -1);
          if waitRc != OK && finalRc == OK {
            finalRc := waitRc;
          }
        }
        if deregFails && finalRc == OK {
          finalRc := EIO;
        }
      }
    }

    /** The newest request is to be read from memory that belongs to a caller, and the NIC is where it was. */
    ghost predicate LeavesPinned(was: nat, p: Peer)
      reads this`posted, this`sent, this`peer
    {
      sent == was < |posted| && posted[|posted| - 1].source == Pinned && peer == p
    }

    lemma InOrder()
      requires Valid()
      ensures completed <= sent <= |posted|
    {
    }

    /** Posts the chunks and waits until every one of them is retired. */
    method WriteAndWait(addr: nat, payload: bytes, registered: bool, timeoutMs: int) returns (rc: Rc)
      requires Valid() && 0 < |payload| < TWO32
      requires Continuous(|posted| + |Writes(addr, payload, frameCap)|, sendDepth)
      modifies this`sent, this`peer, this`retired, this`cq, this`sendCompleted, this`completed
      modifies this`posted, this`txProd, sendBuf
      ensures Valid() && sent >= old(sent)
      ensures old(posted) <= posted
      ensures Requests(posted) <= Requests(old(posted)) + Writes(addr, payload, frameCap)
      ensures rc == OK ==> Requests(posted) == Requests(old(posted)) + Writes(addr, payload, frameCap)
      ensures rc == OK ==> sent == |posted|
      ensures |posted| > |old(posted)| ==> posted[|posted| - 1].signalled
      ensures |posted| - |old(posted)| < TWO31 - 1
      ensures rc == OK || rc == EAGAIN || rc == EIO
      ensures GoesThrough(timeoutMs) ==> rc == OK
      ensures old(Unlucky(payload, registered)) && timeoutMs >= 0 ==> rc == EAGAIN && LeavesPinned(old(sent), old(peer))
    {
      hide Valid, Continuous, Requests, Writes, Slot, Wrap;
      InOrder();
      rc := PostWriteChunks(addr, payload, registered, timeoutMs);
      if rc == OK {
        rc := WaitSendCompletedUntil(txProd, timeoutMs);
      }
    }

    /** What both WRITE paths do once their checks have passed: only when all chunks are retired
        is the notify frame posted. */
    method WriteThenAnnounce(addr: nat, payload: bytes, n: Notify, registered: bool, deregFails: bool, timeoutMs: int)
      returns (rc: Rc, announced: bool)
      requires Valid() && 0 < |payload| < TWO32
      requires Continuous(|posted| + |Announced(addr, payload, n, frameCap)|, sendDepth)
      modifies this`sent, this`peer, this`retired, this`cq, this`sendCompleted, this`completed
      modifies this`posted, this`txProd, sendBuf
      ensures Valid() && sent >= old(sent)
      ensures old(posted) <= posted
      ensures rc == OK ==> announced
      ensures announced ==> rc == if registered && deregFails then EIO else OK
      ensures GoesThrough(timeoutMs) ==> announced
      ensures old(Unlucky(payload, registered)) && timeoutMs >= 0 ==>
                rc == EAGAIN && !announced && LeavesPinned(old(sent), old(peer))
      ensures announced ==> Requests(posted) == Requests(old(posted)) + Announced(addr, payload, n, frameCap)
      ensures !announced ==> Requests(posted) <= Requests(old(posted)) + Writes(addr, payload, frameCap)
      ensures announced ==> sent >= |posted| - 1
      ensures (rc == OK || registered) && old(PinnedSent()) ==> PinnedSent()
      ensures rc == OK || rc == EAGAIN || rc == EIO
    {
      hide Valid, Continuous, Requests, Writes, Slot, Frames, EncodeNotify, Wrap;
      Sizes();
      PostedLength();
      var writesStart := txProd;
      ghost var start := |posted|;
      ghost var writes := Writes(addr, payload, frameCap);
      ContinuousBelow(|posted| + |writes|, |posted| + |writes| + 1, sendDepth);
      rc := WriteAndWait(addr, payload, registered, timeoutMs);
      announced := false;
      if rc == OK {
        PostedLength();
        SmallFrame(EncodeNotify(n), frameCap);
        rc := SendMessage(EncodeNotify(n), timeoutMs);
        announced := rc == OK;
      }
      PostedLength();
      rc := Cleanup(writesStart, start, registered, deregFails, rc);
    }

    lemma PostedLength()
      requires Valid()
      ensures |Requests(posted)| == |posted| && txProd == Wrap(|posted|)
    {
    }

    predicate RwUsable() {
      rwReady && peerCap > 0 && peerSlots > 0
    }

    /** The payload fits the peer's region there. */
    predicate Reaches(off: nat, payload: bytes) {
      payload != [] && RwUsable() && peerCap * peerSlots < TWO32 && off + |payload| <= peerCap * peerSlots
    }

    /** go_rdma_send_message_rw_at. `registered` is whether the payload could be registered as a
        memory region, `deregFails` whether that cannot be undone afterwards: then the caller gets an
        error although the message was announced and every byte is in place. */
    method SendMessageRwAt(payload: bytes, remoteOffset: uint32, registered: bool, deregFails: bool, timeoutMs: int)
      returns (rc: Rc)
      requires Valid() && |payload| < TWO32
      requires Continuous(|posted| + |WriteAt(remoteOffset, payload, frameCap)|, sendDepth)
      modifies this`sent, this`peer, this`retired, this`cq, this`sendCompleted, this`completed
      modifies this`posted, this`txProd, sendBuf
      ensures Valid() && sent >= old(sent)
      ensures payload == [] ==> rc == OK && posted == old(posted)
      ensures payload != [] && !RwUsable() ==> rc == ENOTSUP && posted == old(posted)
      ensures payload != [] && RwUsable() && peerCap * peerSlots >= TWO32 ==> rc == EINVAL && posted == old(posted)
      ensures payload != [] && RwUsable() && peerCap * peerSlots < TWO32 && remoteOffset + |payload| > peerCap * peerSlots
              ==> rc == EMSGSIZE && posted == old(posted)
      ensures rc == EMSGSIZE ==> payload != [] && remoteOffset + |payload| > peerCap * peerSlots
      ensures old(posted) <= posted
      ensures Requests(posted) <= Requests(old(posted)) + WriteAt(remoteOffset, payload, frameCap)
      ensures rc == OK ==> Requests(posted) == Requests(old(posted)) + WriteAt(remoteOffset, payload, frameCap)
      ensures payload != [] && |posted| == |old(posted)| + |WriteAt(remoteOffset, payload, frameCap)|
              ==> sent >= |posted| - 1 && rc == if registered && deregFails then EIO else OK
      ensures Reaches(remoteOffset, payload) && GoesThrough(timeoutMs)
              ==> |posted| == |old(posted)| + |WriteAt(remoteOffset, payload, frameCap)|
      ensures Reaches(remoteOffset, payload) && old(Unlucky(payload, registered)) && timeoutMs >= 0
              ==> rc == EAGAIN && LeavesPinned(old(sent), old(peer))
      ensures (rc == OK || registered) && old(PinnedSent()) ==> PinnedSent()
    {
      hide Valid, Requests, Writes, EncodeNotify, Slot, Continuous;
      if payload == [] {
        assert Requests(posted) + [] == Requests(posted);
        return OK;
      }
      Sizes();
      PrefixIsLe(Requests(posted), WriteAt(remoteOffset, payload, frameCap));
      if !RwUsable() { return ENOTSUP; }
      var peerTotal := peerCap * peerSlots;
      if peerTotal == 0 || peerTotal >= TWO32 { return EINVAL; }
      if remoteOffset + |payload| > peerTotal { return EMSGSIZE; }
      var announced;
      rc, announced := WriteThenAnnounce(remoteOffset, payload, Notify(true, |payload|, remoteOffset),
                                         registered, deregFails, timeoutMs);
    }

    /** How a WRITE ends that nothing gets in the way of. */
    function Ended(payload: bytes, registered: bool, deregFails: bool): Rc {
      if payload != [] && registered && deregFails then EIO else OK
    }

    /** go_rdma_send_message_rw: the payload goes to the next slot of the peer's region. */
    method SendMessageRw(payload: bytes, registered: bool, deregFails: bool, timeoutMs: int) returns (rc: Rc)
      requires Valid() && |payload| < TWO32
      requires RwUsable() && |payload| <= peerCap ==>
                 Continuous(|posted| + |WriteSlot(rwSendSeq % peerSlots, peerCap, payload, frameCap)|, sendDepth)
      modifies this`sent, this`peer, this`retired, this`cq, this`sendCompleted, this`completed
      modifies this`posted, this`txProd, this`rwSendSeq, sendBuf
      ensures Valid() && sent >= old(sent)
      ensures payload == [] ==> rc == OK && posted == old(posted) && rwSendSeq == old(rwSendSeq)
      ensures payload != [] && !RwUsable() ==> rc == ENOTSUP && posted == old(posted)
      ensures payload != [] && RwUsable() && |payload| > peerCap ==> rc == EMSGSIZE && posted == old(posted)
      ensures rc == EMSGSIZE || rc == ENOTSUP ==> (!RwUsable() || |payload| > peerCap) && rwSendSeq == old(rwSendSeq)
      ensures rc == OK || rc == EAGAIN || rc == EIO || rc == EMSGSIZE || rc == ENOTSUP
      ensures GoesThrough(timeoutMs) && RwUsable() && |payload| <= peerCap ==> rc == Ended(payload, registered, deregFails)
      ensures old(posted) <= posted
      ensures peerSlots > 0 ==>
                var all := WriteSlot(old(rwSendSeq) % peerSlots, peerCap, payload, frameCap);
                && Requests(posted) <= Requests(old(posted)) + all
                && (rc == OK ==> Requests(posted) == Requests(old(posted)) + all)
                && (payload != [] && |posted| == |old(posted)| + |all| ==>
                      sent >= |posted| - 1 && rc == if registered && deregFails then EIO else OK)
                && (payload != [] ==>
                      rwSendSeq == if |posted| == |old(posted)| + |all| then Wrap(old(rwSendSeq) + 1) else old(rwSendSeq))
      ensures (rc == OK || registered) && old(PinnedSent()) ==> PinnedSent()
    {
      hide Valid, Requests, Writes, EncodeNotify, Slot, Continuous;
      if payload == [] {
        assert Requests(posted) + [] == Requests(posted);
        return OK;
      }
      Sizes();
      if !RwUsable() { return ENOTSUP; }
      if |payload| > peerCap { return EMSGSIZE; }
      var slot := rwSendSeq % peerSlots;
      var announced;
      rc, announced := WriteThenAnnounce(SlotStart(slot, peerCap), payload, Notify(false, |payload|, slot),
                                         registered, deregFails, timeoutMs);
      if announced {
        rwSendSeq := Wrap(rwSendSeq + 1);
      }
    }

    // ------------------------------------------------- verbsMessageConn (Go)

    function MessagePath(): Path {
      Path(frameCap, if inlineThreshold < frameCap then frameCap else inlineThreshold,
           if rwReady then peerCap else 0, if rwReady then peerSlots else 0)
    }

    /** verbsMessageConn.SendMessage: SEND up to the cutover, a slotted WRITE above it, and SEND
        again when the WRITE path refuses the payload. */
    method SendPayload(payload: bytes, registered: bool, deregFails: bool, timeoutMs: int) returns (rc: Rc)
      requires Valid() && |payload| < TWO32
      requires Continuous(|posted| + |MessageRequests(MessagePath(), rwSendSeq, payload)|, sendDepth)
      modifies this`sent, this`peer, this`retired, this`cq, this`sendCompleted, this`completed
      modifies this`posted, this`txProd, this`rwSendSeq, sendBuf
      ensures Valid() && sent >= old(sent)
      ensures old(posted) <= posted
      ensures var all := MessageRequests(MessagePath(), old(rwSendSeq), payload);
              && Requests(posted) <= Requests(old(posted)) + all
              && (rc == OK ==> Requests(posted) == Requests(old(posted)) + all)
              && rwSendSeq == if MessagePath().Slotted(payload) && |posted| == |old(posted)| + |all|
                              then Wrap(old(rwSendSeq) + 1) else old(rwSendSeq)
      ensures (rc == OK || registered) && old(PinnedSent()) ==> PinnedSent()
      ensures rc == OK || rc == EAGAIN || rc == EIO
      ensures GoesThrough(timeoutMs) && !(registered && deregFails) ==> rc == OK
      ensures rc == OK ==>
                Requests(posted) == Requests(old(posted)) +
                  if |payload| > frameCap && |payload| > inlineThreshold && RwUsable() && |payload| <= peerCap
                  then WriteSlot(old(rwSendSeq) % peerSlots, peerCap, payload, frameCap) else Frames(payload, frameCap)
    {
      hide Valid, Requests, Frames, WriteSlot, Slot, Continuous;
      Sizes();
      var rwCutover := inlineThreshold;
      if rwCutover < frameCap {
        rwCutover := frameCap;
      }
      if |payload| > rwCutover {
        rc := SendMessageRw(payload, registered, deregFails, timeoutMs);
        if rc == EMSGSIZE || rc == ENOTSUP {
          rc := SendMessage(payload, timeoutMs);
        }
      } else {
        rc := SendMessage(payload, timeoutMs);
      }
    }

    /** verbsMessageConn.SendMessageAt. Length and offset are cut to 32 bits on the way into C, so a
        success has placed the payload at the offset asked for exactly when both are below 2^32. */
    method SendPayloadAt(payload: bytes, sharedOffset: int, registered: bool, deregFails: bool, timeoutMs: int)
      returns (rc: Rc)
      requires Valid()
      requires Continuous(|posted| + |WriteAt(Wrap(sharedOffset), payload[..Wrap(|payload|)], frameCap)|, sendDepth)
      modifies this`sent, this`peer, this`retired, this`cq, this`sendCompleted, this`completed
      modifies this`posted, this`txProd, sendBuf
      ensures Valid() && sent >= old(sent)
      ensures old(posted) <= posted
      ensures sharedOffset < 0 ==> rc == EINVAL && posted == old(posted)
      ensures var sentPart := payload[..Wrap(|payload|)];
              var all := WriteAt(Wrap(sharedOffset), sentPart, frameCap);
              && Requests(posted) <= Requests(old(posted)) + all
              && (rc == OK ==> Requests(posted) == Requests(old(posted)) + all)
              && (rc == OK && sentPart != [] ==> sent >= |posted| - 1)
      ensures rc == OK && payload != [] ==>
                (Requests(posted) == Requests(old(posted)) + Asked(sharedOffset, payload, frameCap)
                 <==> sharedOffset < TWO32 && |payload| < TWO32)
      ensures GoesThrough(timeoutMs) && sharedOffset >= 0 && Reaches(Wrap(sharedOffset), payload[..Wrap(|payload|)])
              ==> rc == if registered && deregFails then EIO else OK
      ensures sharedOffset >= 0 && Wrap(|payload|) == 0 ==> rc == OK
      ensures (rc == OK || registered) && old(PinnedSent()) ==> PinnedSent()
    {
      hide Valid, Requests, WriteAt, Slot, Continuous, Asked;
      Sizes();
      ghost var all := WriteAt(Wrap(sharedOffset), payload[..Wrap(|payload|)], frameCap);
      PrefixIsLe(Requests(posted), all);
      if sharedOffset < 0 { return EINVAL; }
      if payload != [] {
        WholeIffShort(sharedOffset, payload, frameCap);
        SamePrefix(Requests(posted), all, Asked(sharedOffset, payload, frameCap));
      }
      rc := SendMessageRwAt(payload[..Wrap(|payload|)], Wrap(sharedOffset), registered, deregFails, timeoutMs);
      PostedLength();
    }
  }

  // ------------------------------------------- what callers may not expect

  /** A SendMessageRwAt that fails and leaves the caller's memory to be read: the payload is not
      registered and lies in the connection's own region, its request is accepted, the NIC does not get to
      it, and the wait gives up. */
  method CallerMemoryInFlight(payload: bytes, off: uint32, frameCap: nat, sendDepth: nat, peer: Peer)
    returns (c: Connection, rc: Rc)
    requires DESC_SIZE <= frameCap < TWO32 && 0 < sendDepth < TWO31
    requires 0 < |payload| <= frameCap && off + |payload| < TWO32
    ensures fresh(c) && c.Valid() && rc == EAGAIN
    ensures c.peer == peer && !c.PinnedSent()
  {
    hide Connection.Valid, Writes, Slot;
    c := new Connection(frameCap, sendDepth, 0, 0, true, off + |payload|, 1, peer, Known(true, true, true));
    ShortRun(c, off, payload);
    rc := c.SendMessageRwAt(payload, off, false, false, 0);
    assert c.posted[|c.posted| - 1].source.Pinned?;
  }

  lemma ShortRun(c: Connection, off: uint32, payload: bytes)
    requires 0 < |payload| <= c.frameCap < TWO32 && c.sendDepth > 0
    ensures Continuous(|WriteAt(off, payload, c.frameCap)|, c.sendDepth)
  {
    OneChunk(off, payload, c.frameCap);
  }

  lemma OneChunk(addr: nat, payload: bytes, cap: nat)
    requires 0 < |payload| <= cap
    ensures Writes(addr, payload, cap) == [Write(addr, payload)]
  {
    assert payload[..|payload|] == payload && payload[|payload|..] == [];
  }

  /** A SendMessageRwAt that fails although the peer gets the message: nothing is refused, there is no
      timeout, and the payload cannot be deregistered. */
  method AnnouncedYetFailed(payload: bytes, off: uint32, frameCap: nat, sendDepth: nat, peer: Peer)
    returns (c: Connection, rc: Rc)
    requires DESC_SIZE <= frameCap < TWO32 && 0 < sendDepth < TWO31
    requires 0 < |payload| <= frameCap && off + |payload| < TWO32
    ensures fresh(c) && c.Valid() && rc == EIO
    ensures Requests(c.posted) == WriteAt(off, payload, frameCap) && c.sent >= |c.posted| - 1
  {
    hide Connection.Valid, Writes, Slot, EncodeNotify;
    c := new Connection(frameCap, sendDepth, 0, 0, true, off + |payload|, 1, peer, Known(false, true, false));
    ShortRun(c, off, payload);
    assert Requests([]) == [];
    rc := c.SendMessageRwAt(payload, off, true, true, -1);
    c.PostedLength();
  }
}
