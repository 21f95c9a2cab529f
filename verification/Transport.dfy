/** The transport as its users see it: a log of posted requests, moved in order and possibly
    only in part, against what the receiver reads out of its inbox and its memory. */
module Transport {
  import opened Counters
  import opened Wire
  import opened SendRing

  // ------------------------------------------------------------- receiving

  /** The receiver's registered region: `slots` slots of `cap` bytes, or caller memory registered
      as a single slot, whose offsets are then reported to the caller. */
  datatype Region = Region(cap: nat, slots: nat, external: bool)

  datatype Received = Message(payload: bytes, sharedOffset: int) | BadNotify

  /** What RecvBorrowedMessage makes of a frame: a notify is turned into a view of memory, any
      other frame is the message itself. */
  function Receive(region: Region, mem: bytes, frame: bytes): Received {
    match ParseNotify(frame)
    case None => Message(frame, -1)
    case Some(n) =>
      if n.at then
        if n.length == 0 then Message([], n.token)
        else if n.token + n.length > region.cap * region.slots || n.token + n.length > |mem| then BadNotify
        else Message(mem[n.token..n.token + n.length], n.token)
      else
        if n.length == 0 then Message([], -1)
        else if n.token >= region.slots || n.length > region.cap then BadNotify
        else
          var start := SlotStart(n.token, region.cap);
          if start + n.length > |mem| then BadNotify
          else Message(mem[start..start + n.length], if region.external then start else -1)
  }

  // ------------------------------------------------- one announced message

  /** The notify frame of a WRITE is never receivable before its bytes: from the moment it is in
      the inbox, at the place after everything sent before, the written range holds the payload
      for as long as no later request touches it. */
  lemma AnnouncedArrives(p: Peer, pre: seq<Request>, addr: nat, payload: bytes, n: Notify, cap: nat,
                         post: seq<Request>, t: nat)
    requires cap > 0 && addr + |payload| <= |p.mem|
    requires t <= |pre + Announced(addr, payload, n, cap) + post|
    ensures var log := pre + Announced(addr, payload, n, cap) + post;
            var now, k := DeliverAll(p, log[..t]), |DeliverAll(p, pre).inbox|;
            |now.inbox| > k ==>
              && t >= |pre| + |Announced(addr, payload, n, cap)|
              && now.inbox[k] == EncodeNotify(n)
              && |now.mem| == |p.mem|
              && (Untouched(log[|pre| + |Announced(addr, payload, n, cap)|..t], addr, addr + |payload|) ==>
                    now.mem[addr..addr + |payload|] == payload)
  {
    hide DeliverAll, Writes, EncodeNotify, Splice;
    var ann := Announced(addr, payload, n, cap);
    var writes := Writes(addr, payload, cap);
    var log := pre + ann + post;
    var before := DeliverAll(p, pre);
    DeliverKeepsSize(p, pre);
    var u := |pre| + |writes|;
    assert log[..u] == pre + writes;
    DeliverConcat(p, pre, writes);
    WritesReplaceExactly(before, addr, payload, cap);
    var now := DeliverAll(p, log[..t]);
    if t <= u {
      InboxGrows(p, log, t, u);
    } else {
      assert log[..u + 1] == pre + writes + [Send(EncodeNotify(n))];
      var filled := DeliverAll(p, pre + writes);
      DeliverConcat(p, pre + writes, [Send(EncodeNotify(n))]);
      DeliverOne(filled, Send(EncodeNotify(n)));
      var announced := DeliverAll(p, log[..u + 1]);
      InboxGrows(p, log, u + 1, t);
      assert now.inbox[|before.inbox|] == announced.inbox[|before.inbox|];
      var later := log[u + 1..t];
      assert log[..t] == log[..u + 1] + later;
      DeliverConcat(p, log[..u + 1], later);
      DeliverKeepsSize(announced, later);
      SpliceReads(before.mem, addr, payload);
      if Untouched(later, addr, addr + |payload|) {
        UntouchedKeeps(announced, later, addr, addr + |payload|);
      }
    }
  }

  /** The round trip of an offset write: the receiver gets the payload back, and the offset it was
      sent to, unless a later request has touched the range. */
  lemma WriteAtRoundTrip(region: Region, p: Peer, pre: seq<Request>, off: uint32, payload: bytes, cap: nat,
                         post: seq<Request>, t: nat)
    requires cap > 0 && 0 < |payload| < TWO32
    requires |p.mem| == region.cap * region.slots && off + |payload| <= |p.mem|
    requires t <= |pre + WriteAt(off, payload, cap) + post|
    requires |DeliverAll(p, (pre + WriteAt(off, payload, cap) + post)[..t]).inbox| > |DeliverAll(p, pre).inbox|
    ensures t >= |pre| + |WriteAt(off, payload, cap)|
    ensures var log := pre + WriteAt(off, payload, cap) + post;
            var now, k := DeliverAll(p, log[..t]), |DeliverAll(p, pre).inbox|;
            Untouched(log[|pre| + |WriteAt(off, payload, cap)|..t], off, off + |payload|) ==>
              Receive(region, now.mem, now.inbox[k]) == Message(payload, off)
  {
    hide DeliverAll, EncodeNotify, ParseNotify, Writes, Untouched;
    var n := Notify(true, |payload|, off);
    AnnouncedArrives(p, pre, off, payload, n, cap, post, t);
    ParseOfEncode(n);
  }

  /** At every moment an offset write has changed nothing outside its own range. */
  lemma WriteAtStaysInside(p: Peer, pre: seq<Request>, off: uint32, payload: bytes, cap: nat, t: nat,
                           lo: nat, hi: nat)
    requires cap > 0 && |payload| < TWO32
    requires |pre| <= t <= |pre + WriteAt(off, payload, cap)|
    requires lo <= hi <= |p.mem| && (hi <= off || off + |payload| <= lo)
    ensures |DeliverAll(p, pre).mem| == |DeliverAll(p, (pre + WriteAt(off, payload, cap))[..t]).mem| == |p.mem|
    ensures DeliverAll(p, (pre + WriteAt(off, payload, cap))[..t]).mem[lo..hi] == DeliverAll(p, pre).mem[lo..hi]
  {
    var w := WriteAt(off, payload, cap);
    var part := w[..t - |pre|];
    assert (pre + w)[..t] == pre + part;
    DeliverConcat(p, pre, part);
    DeliverKeepsSize(p, pre);
    WritesStayInside(off, payload, cap, lo, hi);
    UntouchedKeeps(DeliverAll(p, pre), part, lo, hi);
  }

  // -------------------------------------------------------- FIFO of messages

  /** A message that travels as exactly one frame of the inbox. */
  predicate OneFrame(path: Path, m: bytes) {
    0 < |m| < TWO32 && (path.Slotted(m) || (|m| <= path.frameCap && ParseNotify(m) == None))
  }

  ghost predicate OneFrameEach(path: Path, msgs: seq<bytes>) {
    Sendable(msgs) && forall i :: 0 <= i < |msgs| ==> OneFrame(path, msgs[i])
  }

  predicate Sendable(msgs: seq<bytes>) {
    forall i :: 0 <= i < |msgs| ==> |msgs[i]| < TWO32
  }

  function SlottedCount(path: Path, msgs: seq<bytes>): nat {
    if msgs == [] then 0 else
      SlottedCount(path, msgs[..|msgs| - 1]) + if path.Slotted(msgs[|msgs| - 1]) then 1 else 0
  }

  /** The requests of a run of messages on a fresh connection; `rw_send_seq` counts the slotted ones. */
  function Log(path: Path, msgs: seq<bytes>): seq<Request>
    requires path.frameCap > 0 && Sendable(msgs)
  {
    if msgs == [] then [] else
      var front, m := msgs[..|msgs| - 1], msgs[|msgs| - 1];
      Log(path, front) + MessageRequests(path, Wrap(SlottedCount(path, front)), m)
  }

  /** The frame a message puts into the inbox. */
  function FrameOf(path: Path, seqNo: uint32, m: bytes): bytes
    requires |m| < TWO32
  {
    if path.Slotted(m) then EncodeNotify(Notify(false, |m|, seqNo % path.slots)) else m
  }

  function Inbox(path: Path, msgs: seq<bytes>): (r: seq<bytes>)
    requires Sendable(msgs)
    ensures |r| == |msgs|
  {
    if msgs == [] then [] else
      var front, m := msgs[..|msgs| - 1], msgs[|msgs| - 1];
      Inbox(path, front) + [FrameOf(path, Wrap(SlottedCount(path, front)), m)]
  }

  lemma SlotInside(slot: nat, slots: nat, cap: nat, len: nat)
    requires slot < slots && len <= cap
    ensures SlotStart(slot, cap) + len <= slots * cap
  {
    MulApart(cap, slot, slots);
  }

  lemma MessageArrives(path: Path, p: Peer, seqNo: uint32, m: bytes)
    requires path.frameCap > 0 && OneFrame(path, m) && |p.mem| == path.slots * path.slotCap
    ensures DeliverAll(p, MessageRequests(path, seqNo, m)).inbox == p.inbox + [FrameOf(path, seqNo, m)]
    ensures |DeliverAll(p, MessageRequests(path, seqNo, m)).mem| == |p.mem|
  {
    hide SlotStart, EncodeNotify, DeliverAll, Writes, Frames, Splice, Chunks;
    DeliverKeepsSize(p, MessageRequests(path, seqNo, m));
    if path.Slotted(m) {
      var slot := seqNo % path.slots;
      SlotInside(slot, path.slots, path.slotCap, |m|);
      var writes := Writes(SlotStart(slot, path.slotCap), m, path.frameCap);
      WritesReplaceExactly(p, SlotStart(slot, path.slotCap), m, path.frameCap);
      var note := Send(EncodeNotify(Notify(false, |m|, slot)));
      DeliverConcat(p, writes, [note]);
      DeliverOne(DeliverAll(p, writes), note);
    } else {
      FramesArrive(p, m, path.frameCap);
      ChunksRebuild(m, path.frameCap);
    }
  }

  lemma {:induction false} LogArrives(path: Path, p: Peer, msgs: seq<bytes>)
    requires path.frameCap > 0 && |p.mem| == path.slots * path.slotCap
    requires OneFrameEach(path, msgs)
    ensures DeliverAll(p, Log(path, msgs)).inbox == p.inbox + Inbox(path, msgs)
    ensures |DeliverAll(p, Log(path, msgs)).mem| == |p.mem|
  {
    hide MessageRequests, FrameOf, SlottedCount, DeliverAll;
    if msgs == [] {
      DeliverNothing(p);
    } else {
      var front, m := msgs[..|msgs| - 1], msgs[|msgs| - 1];
      var seqNo := Wrap(SlottedCount(path, front));
      LogArrives(path, p, front);
      DeliverConcat(p, Log(path, front), MessageRequests(path, seqNo, m));
      MessageArrives(path, DeliverAll(p, Log(path, front)), seqNo, m);
    }
  }

  lemma {:induction false} LogOfPrefix(path: Path, msgs: seq<bytes>, j: nat)
    requires path.frameCap > 0 && j <= |msgs| && Sendable(msgs)
    ensures Log(path, msgs[..j]) <= Log(path, msgs)
    ensures Inbox(path, msgs[..j]) <= Inbox(path, msgs)
    ensures SlottedCount(path, msgs[..j]) <= SlottedCount(path, msgs)
  {
    if j == |msgs| {
      assert msgs[..j] == msgs;
    } else {
      var front := msgs[..|msgs| - 1];
      assert front[..j] == msgs[..j];
      LogOfPrefix(path, front, j);
    }
  }

  /** Distinct slots never overlap. */
  lemma SlotsApart(a: nat, b: nat, cap: nat)
    requires a != b
    ensures SlotStart(a, cap) + cap <= SlotStart(b, cap) || SlotStart(b, cap) + cap <= SlotStart(a, cap)
  {
    MulApart(cap, a, b);
  }

  /** Until `slots` further slotted writes have been started, nothing sent later touches the slot
      that the j-th message was written to. */
  lemma {:induction false} LaterSparesSlot(path: Path, msgs: seq<bytes>, j: nat)
    requires path.frameCap > 0 && j < |msgs| && Sendable(msgs)
    requires path.Slotted(msgs[j])
    requires Continuous(SlottedCount(path, msgs), path.slots)
    requires SlottedCount(path, msgs) <= SlottedCount(path, msgs[..j]) + path.slots
    ensures |Log(path, msgs[..j + 1])| <= |Log(path, msgs)|
    ensures var start := SlotStart(Slot(SlottedCount(path, msgs[..j]), path.slots), path.slotCap);
            Untouched(Log(path, msgs)[|Log(path, msgs[..j + 1])|..], start, start + |msgs[j]|)
  {
    hide SlotStart, Slot, Continuous, MessageRequests, Untouched, Log, SlottedCount, Wrap;
    LogLengths(path, msgs, j + 1);
    var q := SlottedCount(path, msgs[..j]);
    var lo := SlotStart(Slot(q, path.slots), path.slotCap);
    var hi := lo + |msgs[j]|;
    if j + 1 == |msgs| {
      assert msgs[..j + 1] == msgs;
      UntouchedNothing(Log(path, msgs), lo, hi);
    } else {
      var front, m := msgs[..|msgs| - 1], msgs[|msgs| - 1];
      FrontSlices(msgs, j);
      LogStep(path, msgs);
      var q' := SlottedCount(path, front);
      ContinuousBelow(q', SlottedCount(path, msgs), path.slots);
      LaterSparesSlot(path, front, j);
      CountAfter(path, msgs, j);
      LastMessageSparesSlot(path, q, q', m, |msgs[j]|);
      ConcatSpares(Log(path, front), MessageRequests(path, Wrap(q'), m), |Log(path, msgs[..j + 1])|, lo, hi);
    }
  }

  lemma LogLengths(path: Path, msgs: seq<bytes>, j: nat)
    requires path.frameCap > 0 && j <= |msgs| && Sendable(msgs)
    ensures |Log(path, msgs[..j])| <= |Log(path, msgs)|
  {
    LogOfPrefix(path, msgs, j);
  }

  lemma FrontSlices(msgs: seq<bytes>, j: nat)
    requires j + 1 < |msgs|
    ensures var front := msgs[..|msgs| - 1];
            front[..j] == msgs[..j] && front[..j + 1] == msgs[..j + 1] && front[j] == msgs[j]
  {
  }

  lemma CountAfter(path: Path, msgs: seq<bytes>, j: nat)
    requires path.frameCap > 0 && j + 1 < |msgs| && Sendable(msgs) && path.Slotted(msgs[j])
    ensures SlottedCount(path, msgs[..j]) < SlottedCount(path, msgs[..|msgs| - 1])
  {
    var front := msgs[..|msgs| - 1];
    assert front[..j + 1] == msgs[..j + 1] && msgs[..j + 1][..j] == msgs[..j];
    LogStep(path, msgs[..j + 1]);
    LogOfPrefix(path, front, j + 1);
  }

  lemma ConcatSpares(a: seq<Request>, b: seq<Request>, k: nat, lo: nat, hi: nat)
    requires k <= |a| && Untouched(a[k..], lo, hi) && Untouched(b, lo, hi)
    ensures Untouched((a + b)[k..], lo, hi)
  {
    DropConcat(a, b, k);
    UntouchedConcat(a[k..], b, lo, hi);
  }

  lemma LogStep(path: Path, msgs: seq<bytes>)
    requires path.frameCap > 0 && msgs != [] && Sendable(msgs)
    ensures var front, m := msgs[..|msgs| - 1], msgs[|msgs| - 1];
            && Log(path, msgs) == Log(path, front) + MessageRequests(path, Wrap(SlottedCount(path, front)), m)
            && SlottedCount(path, msgs) == SlottedCount(path, front) + if path.Slotted(m) then 1 else 0
  {
  }

  lemma UntouchedNothing(log: seq<Request>, lo: nat, hi: nat)
    ensures Untouched(log[|log|..], lo, hi)
  {
  }

  lemma UntouchedConcat(a: seq<Request>, b: seq<Request>, lo: nat, hi: nat)
    requires Untouched(a, lo, hi) && Untouched(b, lo, hi)
    ensures Untouched(a + b, lo, hi)
  {
  }

  lemma DropConcat<T>(a: seq<T>, b: seq<T>, k: nat)
    requires k <= |a|
    ensures (a + b)[k..] == a[k..] + b
  {
  }

  lemma SlotOfWrapped(q: nat, slots: nat)
    requires slots > 0
    ensures Wrap(q) % slots == Slot(q, slots) < slots
  {
  }

  lemma LastMessageSparesSlot(path: Path, q: nat, q': nat, m: bytes, len: nat)
    requires path.frameCap > 0 && |m| < TWO32 && path.slots > 0 && len <= path.slotCap
    requires q < q' && (path.Slotted(m) ==> q' < q + path.slots && Continuous(q' + 1, path.slots))
    ensures var lo := SlotStart(Slot(q, path.slots), path.slotCap);
            Untouched(MessageRequests(path, Wrap(q'), m), lo, lo + len)
  {
    hide SlotStart, Slot, Continuous, Writes, EncodeNotify, Frames;
    var lo := SlotStart(Slot(q, path.slots), path.slotCap);
    if path.Slotted(m) {
      SlotsDistinct(q, q', path.slots);
      SlotsApart(Slot(q, path.slots), Slot(q', path.slots), path.slotCap);
      SlotOfWrapped(q', path.slots);
      var addr := SlotStart(Slot(q', path.slots), path.slotCap);
      WritesStayInside(addr, m, path.frameCap, lo, lo + len);
      var note := Send(EncodeNotify(Notify(false, |m|, Slot(q', path.slots))));
      assert !Touches(note, lo, lo + len);
      UntouchedConcat(Writes(addr, m, path.frameCap), [note], lo, lo + len);
    } else {
      FramesTouchNothing(m, path.frameCap, lo, lo + len);
    }
  }

  /** Messages arrive whole, once each and in order: whatever part of the log has been moved, if the
      inbox holds a frame number j then reading it gives message j, provided at most `slots` slotted
      writes were started since that message's own (itself included). */
  lemma MessagesAreFifo(path: Path, region: Region, p: Peer, msgs: seq<bytes>, t: nat, j: nat)
    requires path.frameCap > 0 && OneFrameEach(path, msgs)
    requires region.cap == path.slotCap && region.slots == path.slots
    requires |p.mem| == path.slots * path.slotCap && t <= |Log(path, msgs)| && j < |msgs|
    requires path.slots > 0 ==> Continuous(SlottedCount(path, msgs), path.slots)
    requires SlottedCount(path, msgs) <= SlottedCount(path, msgs[..j]) + path.slots
    requires |DeliverAll(p, Log(path, msgs)[..t]).inbox| > |p.inbox| + j
    ensures var now := DeliverAll(p, Log(path, msgs)[..t]);
            match Receive(region, now.mem, now.inbox[|p.inbox| + j])
            case Message(payload, _) => payload == msgs[j]
            case BadNotify => false
  {
    hide DeliverAll, SlottedCount, Log, Inbox, Writes, EncodeNotify, Frames;
    var log := Log(path, msgs);
    var now, k := DeliverAll(p, log[..t]), |p.inbox| + j;
    LogArrives(path, p, msgs);
    InboxGrows(p, log, t, |log|);
    assert log[..|log|] == log;
    FrameNumber(path, msgs, j);
    assert now.inbox[k] == FrameOf(path, Wrap(SlottedCount(path, msgs[..j])), msgs[j]);
    if path.Slotted(msgs[j]) {
      SlottedMessageReads(path, region, p, msgs, t, j);
    }
  }

  lemma FrameNumber(path: Path, msgs: seq<bytes>, j: nat)
    requires path.frameCap > 0 && j < |msgs| && Sendable(msgs)
    ensures Inbox(path, msgs)[j] == FrameOf(path, Wrap(SlottedCount(path, msgs[..j])), msgs[j])
  {
    LogOfPrefix(path, msgs, j + 1);
    assert msgs[..j + 1][..j] == msgs[..j];
  }

  lemma SlottedMessageReads(path: Path, region: Region, p: Peer, msgs: seq<bytes>, t: nat, j: nat)
    requires path.frameCap > 0 && OneFrameEach(path, msgs)
    requires region.cap == path.slotCap && region.slots == path.slots
    requires |p.mem| == path.slots * path.slotCap && t <= |Log(path, msgs)| && j < |msgs|
    requires path.Slotted(msgs[j]) && Continuous(SlottedCount(path, msgs), path.slots)
    requires SlottedCount(path, msgs) <= SlottedCount(path, msgs[..j]) + path.slots
    requires |DeliverAll(p, Log(path, msgs)[..t]).inbox| > |p.inbox| + j
    ensures var now := DeliverAll(p, Log(path, msgs)[..t]);
            var start := SlotStart(Slot(SlottedCount(path, msgs[..j]), path.slots), path.slotCap);
            Receive(region, now.mem, now.inbox[|p.inbox| + j])
            == Message(msgs[j], if region.external then start else -1)
  {
    hide DeliverAll, SlottedCount, Inbox, Writes, EncodeNotify, Frames, Log, Slot, SlotStart, Untouched, Continuous, ParseNotify;
    LogStep(path, msgs[..j + 1]);
    SlotOfWrapped(SlottedCount(path, msgs[..j]), path.slots);
    var log, pre, m := Log(path, msgs), Log(path, msgs[..j]), msgs[j];
    var slot := Slot(SlottedCount(path, msgs[..j]), path.slots);
    var n := Notify(false, |m|, slot);
    var addr := SlotStart(slot, path.slotCap);
    SlotInside(slot, path.slots, path.slotCap, |m|);
    LogArrives(path, p, msgs[..j]);
    LaterSparesSlot(path, msgs, j);
    var post := log[|Log(path, msgs[..j + 1])|..];
    LogOfPrefix(path, msgs, j + 1);
    assert msgs[..j + 1][..j] == msgs[..j];
    var ann := Announced(addr, m, n, path.frameCap);
    assert log == pre + ann + post;
    AnnouncedArrives(p, pre, addr, m, n, path.frameCap, post, t);
    ParseOfEncode(n);
    UntouchedPrefix(log, |pre| + |ann|, t, addr, addr + |m|);
  }

  lemma UntouchedPrefix(log: seq<Request>, s: nat, t: nat, lo: nat, hi: nat)
    requires s <= t <= |log| && Untouched(log[s..], lo, hi)
    ensures Untouched(log[s..t], lo, hi)
  {
    forall i | 0 <= i < t - s ensures !Touches(log[s..t][i], lo, hi) {
      assert log[s..t][i] == log[s..][i];
    }
  }

  /** A payload too large for the peer's slots still gets through, as frames that concatenate to it. */
  lemma FallbackArrivesInPieces(path: Path, p: Peer, seqNo: uint32, payload: bytes)
    requires path.frameCap > 0 && |payload| < TWO32 && !path.Slotted(payload)
    ensures var q := DeliverAll(p, MessageRequests(path, seqNo, payload));
            && q.mem == p.mem && p.inbox <= q.inbox
            && Concat(q.inbox[|p.inbox|..]) == payload
            && (forall i :: |p.inbox| <= i < |q.inbox| ==> 0 < |q.inbox[i]| <= path.frameCap)
  {
    FramesArrive(p, payload, path.frameCap);
    ChunksRebuild(payload, path.frameCap);
    var cs := Chunks(payload, path.frameCap);
    assert (p.inbox + cs)[|p.inbox|..] == cs;
  }

  /** The slot bound is exact: the slotted message number q + slots goes to the slot of number q. */
  lemma SlotComesRound(q: nat, slots: nat)
    requires slots > 0 && (TWO32 % slots == 0 || q + slots < TWO32)
    ensures Slot(q + slots, slots) == Slot(q, slots)
  {
    SlotIsTrueSlot(q, slots);
    SlotIsTrueSlot(q + slots, slots);
    StepMod(q, slots);
  }

  /** The same for a live connection: whatever its NIC has done so far, the peer reads the messages
      the connection was given, in order. The last message may be only partly posted. */
  lemma ConnectionIsFifo(c: Connection, region: Region, msgs: seq<bytes>, j: nat)
    requires c.Valid()
    requires var path := c.MessagePath();
             && OneFrameEach(path, msgs) && Requests(c.posted) <= Log(path, msgs)
             && region.cap == path.slotCap && region.slots == path.slots
             && |c.peer0.mem| == path.slots * path.slotCap && j < |msgs|
             && (path.slots > 0 ==> Continuous(SlottedCount(path, msgs), path.slots))
             && SlottedCount(path, msgs) <= SlottedCount(path, msgs[..j]) + path.slots
    requires |c.peer.inbox| > |c.peer0.inbox| + j
    ensures IsMessage(Receive(region, c.peer.mem, c.peer.inbox[|c.peer0.inbox| + j]), msgs[j])
  {
    hide Connection.Valid, Requests, OneFrame, Sendable, SlottedCount, Log, DeliverAll, Continuous;
    c.Sizes();
    c.PeerIsFifoPrefix();
    assert Requests(c.posted)[..c.sent] == Log(c.MessagePath(), msgs)[..c.sent];
    MessagesAreFifo(c.MessagePath(), region, c.peer0, msgs, c.sent, j);
  }

  /** Once the NIC has moved everything, each message of the run has its frame. */
  lemma ConnectionDelivers(c: Connection, msgs: seq<bytes>)
    requires c.Valid() && c.sent == |c.posted|
    requires OneFrameEach(c.MessagePath(), msgs) && Requests(c.posted) == Log(c.MessagePath(), msgs)
    requires |c.peer0.mem| == c.MessagePath().slots * c.MessagePath().slotCap
    ensures |c.peer.inbox| == |c.peer0.inbox| + |msgs|
  {
    hide Connection.Valid, Requests, OneFrame, Sendable, Log, DeliverAll;
    c.Sizes();
    c.PeerIsFifoPrefix();
    assert Requests(c.posted)[..c.sent] == Requests(c.posted);
    LogArrives(c.MessagePath(), c.peer0, msgs);
  }

  lemma StartOfLog(c: Connection, msgs: seq<bytes>)
    requires c.frameCap > 0 && c.posted == []
    ensures Requests(c.posted) == Log(c.MessagePath(), msgs[..0]) && SlottedCount(c.MessagePath(), msgs[..0]) == 0
  {
  }

  lemma NextOfLog(path: Path, msgs: seq<bytes>, k: nat)
    requires path.frameCap > 0 && k < |msgs| && Sendable(msgs)
    ensures |msgs[k]| < TWO32 && Sendable(msgs[..k]) && Sendable(msgs[..k + 1])
    ensures Log(path, msgs[..k]) <= Log(path, msgs[..k + 1]) <= Log(path, msgs)
    ensures var n := SlottedCount(path, msgs[..k]);
            && Log(path, msgs[..k + 1]) == Log(path, msgs[..k]) + MessageRequests(path, Wrap(n), msgs[k])
            && Wrap(SlottedCount(path, msgs[..k + 1])) == if path.Slotted(msgs[k]) then Wrap(Wrap(n) + 1) else Wrap(n)
  {
    hide Log, SlottedCount, MessageRequests, Inbox;
    LogOfPrefix(path, msgs, k + 1);
    assert msgs[..k + 1][..k] == msgs[..k];
    LogStep(path, msgs[..k + 1]);
    WrapStep(SlottedCount(path, msgs[..k]));
  }

  /** SendMessage for each message in turn, on a connection that has sent nothing, until one fails.
      What is posted is the log of the run, or a prefix of it. */
  method SendAll(c: Connection, msgs: seq<bytes>, registered: seq<bool>, deregFails: bool, timeoutMs: int)
    returns (k: nat, rc: Rc)
    requires c.Valid() && c.posted == [] && c.rwSendSeq == 0
    requires Sendable(msgs) && |registered| == |msgs|
    requires Continuous(|Log(c.MessagePath(), msgs)|, c.sendDepth)
    modifies c, c.sendBuf
    ensures c.Valid() && k <= |msgs| && (rc == OK <==> k == |msgs|)
    ensures c.GoesThrough(timeoutMs) && !deregFails ==> k == |msgs|
    ensures Log(c.MessagePath(), msgs[..k]) <= Requests(c.posted) <= Log(c.MessagePath(), msgs)
  {
    hide Connection.Valid, Requests, MessageRequests, Continuous, Log, SlottedCount;
    ghost var path := c.MessagePath();
    k, rc := 0, OK;
    c.Sizes();
    StartOfLog(c, msgs);
    while k < |msgs|
      invariant k <= |msgs| && rc == OK && c.Valid()
      invariant Requests(c.posted) == Log(path, msgs[..k]) && c.rwSendSeq == Wrap(SlottedCount(path, msgs[..k]))
    {
      NextOfLog(path, msgs, k);
      c.PostedLength();
      ContinuousBelow(|Log(path, msgs[..k + 1])|, |Log(path, msgs)|, c.sendDepth);
      rc := c.SendPayload(msgs[k], registered[k], deregFails, timeoutMs);
      c.PostedLength();
      if rc != OK { return; }
      k := k + 1;
    }
    assert msgs[..k] == msgs;
  }

  /** So whatever is sent on a fresh connection is read in order: after SendAll and any amount of NIC
      activity each frame in the peer's inbox, if it is read while its slot is still its own, is the
      message of its number, and once everything is moved all messages of a successful run are there. */
  method SendAllIsFifo(c: Connection, region: Region, msgs: seq<bytes>, registered: seq<bool>, deregFails: bool,
                       timeoutMs: int)
    returns (k: nat, rc: Rc)
    requires c.Valid() && c.posted == [] && c.rwSendSeq == 0
    requires OneFrameEach(c.MessagePath(), msgs) && |registered| == |msgs|
    requires var path := c.MessagePath();
             && Continuous(|Log(path, msgs)|, c.sendDepth)
             && (path.slots > 0 ==> Continuous(SlottedCount(path, msgs), path.slots))
             && region.cap == path.slotCap && region.slots == path.slots && |c.peer0.mem| == path.slots * path.slotCap
    modifies c, c.sendBuf
    ensures c.Valid() && k <= |msgs| && (rc == OK <==> k == |msgs|)
    ensures c.GoesThrough(timeoutMs) && !deregFails ==> k == |msgs|
    ensures forall j :: 0 <= j < |msgs| && |c.peer.inbox| > |c.peer0.inbox| + j
                        && SlottedCount(c.MessagePath(), msgs)
                           <= SlottedCount(c.MessagePath(), msgs[..j]) + c.MessagePath().slots ==>
              IsMessage(Receive(region, c.peer.mem, c.peer.inbox[|c.peer0.inbox| + j]), msgs[j])
    ensures rc == OK && c.sent == |c.posted| ==> |c.peer.inbox| == |c.peer0.inbox| + |msgs|
  {
    hide Connection.Valid, Connection.MessagePath, Requests, Continuous, Log, SlottedCount, OneFrame, Receive;
    k, rc := SendAll(c, msgs, registered, deregFails, timeoutMs);
    c.NicRuns();
    forall j | 0 <= j < |msgs| && |c.peer.inbox| > |c.peer0.inbox| + j
               && SlottedCount(c.MessagePath(), msgs)
                  <= SlottedCount(c.MessagePath(), msgs[..j]) + c.MessagePath().slots
      ensures IsMessage(Receive(region, c.peer.mem, c.peer.inbox[|c.peer0.inbox| + j]), msgs[j])
    {
      ConnectionIsFifo(c, region, msgs, j);
    }
    if rc == OK && c.sent == |c.posted| {
      assert msgs[..k] == msgs;
      ConnectionDelivers(c, msgs);
    }
  }

  predicate IsMessage(r: Received, payload: bytes) {
    r.Message? && r.payload == payload
  }

  /** When an offset write has reported success, its bytes are in the peer's memory. */
  lemma WrittenBytesInPlace(c: Connection, pre: seq<Request>, off: uint32, payload: bytes)
    requires c.Valid() && |payload| < TWO32 && off + |payload| <= |c.peer0.mem|
    requires payload != [] && Requests(c.posted) == pre + WriteAt(off, payload, c.frameCap) && c.sent >= |c.posted| - 1
    ensures |DeliverAll(c.peer0, pre).mem| == |c.peer0.mem|
    ensures c.peer.mem == Splice(DeliverAll(c.peer0, pre).mem, off, payload)
  {
    hide Connection.Valid, Requests, DeliverAll, Writes, EncodeNotify;
    c.Sizes();
    c.PeerIsFifoPrefix();
    var log := Requests(c.posted);
    var writes := Writes(off, payload, c.frameCap);
    var before := DeliverAll(c.peer0, pre);
    DeliverKeepsSize(c.peer0, pre);
    WritesReplaceExactly(before, off, payload, c.frameCap);
    DeliverConcat(c.peer0, pre, writes);
    var note := Send(EncodeNotify(Notify(true, |payload|, off)));
    DeliverConcat(c.peer0, pre + writes, [note]);
    DeliverOne(DeliverAll(c.peer0, pre + writes), note);
    assert log == pre + writes + [note];
    assert log[..|log| - 1] == pre + writes && log[..|log|] == log;
  }
}
