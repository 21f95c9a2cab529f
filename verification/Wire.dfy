/** What one direction of a queue pair carries: SEND frames and RDMA WRITEs, in posting order,
    and what they do to the peer. The notify frame that announces a WRITE is encoded and parsed
    here, and a received frame is turned back into a message. */
module Wire {
  import opened Counters

  type byte = x: int | 0 <= x < 256
  type bytes = seq<byte>

  datatype Option<+T> = None | Some(value: T)

  datatype Request = Send(frame: bytes) | Write(addr: nat, data: bytes)

  /** The receiving side: its registered region, the frames that arrived, and whether a WRITE
      ever fell outside the region (a remote access error). */
  datatype Peer = Peer(mem: bytes, inbox: seq<bytes>, fault: bool)

  // ---------------------------------------------------------------- memory

  function Splice(mem: bytes, off: nat, data: bytes): (r: bytes)
    requires off + |data| <= |mem|
    ensures |r| == |mem|
    ensures forall i :: 0 <= i < |mem| ==> r[i] == if off <= i < off + |data| then data[i - off] else mem[i]
  {
    mem[..off] + data + mem[off + |data|..]
  }

  lemma SpliceReads(mem: bytes, off: nat, data: bytes)
    requires off + |data| <= |mem|
    ensures Splice(mem, off, data)[off..off + |data|] == data
  {
  }

  lemma SpliceTwice(mem: bytes, off: nat, a: bytes, b: bytes)
    requires off + |a| + |b| <= |mem|
    ensures Splice(Splice(mem, off, a), off + |a|, b) == Splice(mem, off, a + b)
  {
    var l, r := Splice(Splice(mem, off, a), off + |a|, b), Splice(mem, off, a + b);
    forall i | 0 <= i < |mem| ensures l[i] == r[i] {
    }
  }

  // -------------------------------------------------------------- delivery

  function Deliver(p: Peer, r: Request): Peer {
    match r
    case Send(frame) => p.(inbox := p.inbox + [frame])
    case Write(addr, data) =>
      if addr + |data| <= |p.mem| then p.(mem := Splice(p.mem, addr, data)) else p.(fault := true)
  }

  function DeliverAll(p: Peer, rs: seq<Request>): Peer {
    if rs == [] then p else Deliver(DeliverAll(p, rs[..|rs| - 1]), rs[|rs| - 1])
  }

  lemma {:induction false} DeliverConcat(p: Peer, a: seq<Request>, b: seq<Request>)
    ensures DeliverAll(p, a + b) == DeliverAll(DeliverAll(p, a), b)
  {
    if b == [] {
      assert a + b == a;
    } else {
      var b' := b[..|b| - 1];
      assert (a + b)[..|a + b| - 1] == a + b';
      DeliverConcat(p, a, b');
    }
  }

  lemma DeliverNothing(p: Peer)
    ensures DeliverAll(p, []) == p
  {
  }

  lemma DeliverOne(p: Peer, r: Request)
    ensures DeliverAll(p, [r]) == Deliver(p, r)
  {
    assert [r][..0] == [];
    assert DeliverAll(p, [r][..0]) == p;
  }

  lemma DeliverCons(p: Peer, r: Request, rs: seq<Request>)
    ensures DeliverAll(p, [r] + rs) == DeliverAll(Deliver(p, r), rs)
  {
    DeliverConcat(p, [r], rs);
    DeliverOne(p, r);
  }

  lemma {:induction false} DeliverKeepsSize(p: Peer, rs: seq<Request>)
    ensures |DeliverAll(p, rs).mem| == |p.mem|
    ensures p.inbox <= DeliverAll(p, rs).inbox
  {
    if rs != [] {
      DeliverKeepsSize(p, rs[..|rs| - 1]);
    }
  }

  /** Delivering more of a log only adds frames. */
  lemma InboxGrows(p: Peer, rs: seq<Request>, s: nat, t: nat)
    requires s <= t <= |rs|
    ensures DeliverAll(p, rs[..s]).inbox <= DeliverAll(p, rs[..t]).inbox
  {
    assert rs[..t] == rs[..s] + rs[s..t];
    DeliverConcat(p, rs[..s], rs[s..t]);
    DeliverKeepsSize(DeliverAll(p, rs[..s]), rs[s..t]);
  }

  predicate Touches(r: Request, lo: nat, hi: nat) {
    r.Write? && r.addr < hi && lo < r.addr + |r.data|
  }

  ghost predicate Untouched(rs: seq<Request>, lo: nat, hi: nat) {
    forall i :: 0 <= i < |rs| ==> !Touches(rs[i], lo, hi)
  }

  lemma {:induction false} UntouchedKeeps(p: Peer, rs: seq<Request>, lo: nat, hi: nat)
    requires lo <= hi <= |p.mem| && Untouched(rs, lo, hi)
    ensures |DeliverAll(p, rs).mem| == |p.mem|
    ensures DeliverAll(p, rs).mem[lo..hi] == p.mem[lo..hi]
  {
    DeliverKeepsSize(p, rs);
    if rs != [] {
      UntouchedKeeps(p, rs[..|rs| - 1], lo, hi);
      assert !Touches(rs[|rs| - 1], lo, hi);
      DeliverKeepsSize(p, rs[..|rs| - 1]);
      var q := DeliverAll(p, rs[..|rs| - 1]);
      var d := Deliver(q, rs[|rs| - 1]);
      forall i | lo <= i < hi ensures d.mem[i] == q.mem[i] {
      }
      assert d.mem[lo..hi] == q.mem[lo..hi];
    }
  }

  // ---------------------------------------------------------------- chunks

  function Min(a: nat, b: nat): nat {
    if a < b then a else b
  }

  /** A payload cut into consecutive pieces of at most `cap` bytes. */
  function Chunks(payload: bytes, cap: nat): seq<bytes>
    requires cap > 0
    decreases |payload|
  {
    if payload == [] then [] else
      var n := Min(cap, |payload|);
      [payload[..n]] + Chunks(payload[n..], cap)
  }

  function Frames(payload: bytes, cap: nat): seq<Request>
    requires cap > 0
    decreases |payload|
  {
    if payload == [] then [] else
      var n := Min(cap, |payload|);
      [Send(payload[..n])] + Frames(payload[n..], cap)
  }

  function Writes(addr: nat, payload: bytes, cap: nat): seq<Request>
    requires cap > 0
    decreases |payload|
  {
    if payload == [] then [] else
      var n := Min(cap, |payload|);
      [Write(addr, payload[..n])] + Writes(addr + n, payload[n..], cap)
  }

  function Concat(pieces: seq<bytes>): bytes {
    if pieces == [] then [] else pieces[0] + Concat(pieces[1..])
  }

  /** Cutting loses nothing: the pieces are non-empty, fit a frame, and concatenate to the payload. */
  lemma {:induction false} ChunksRebuild(payload: bytes, cap: nat)
    requires cap > 0
    ensures Concat(Chunks(payload, cap)) == payload
    ensures forall i :: 0 <= i < |Chunks(payload, cap)| ==> 0 < |Chunks(payload, cap)[i]| <= cap
    ensures 0 < |payload| <= cap ==> Chunks(payload, cap) == [payload]
    decreases |payload|
  {
    if payload != [] {
      var n := Min(cap, |payload|);
      ChunksRebuild(payload[n..], cap);
      assert Chunks(payload, cap)[1..] == Chunks(payload[n..], cap);
      assert payload[..n] + payload[n..] == payload;
      if |payload| <= cap {
        assert payload[..n] == payload && payload[n..] == [];
      }
    }
  }

  /** The frames of a message land in the inbox as its chunks, in order, and touch no memory. */
  lemma {:induction false} FramesArrive(p: Peer, payload: bytes, cap: nat)
    requires cap > 0
    ensures DeliverAll(p, Frames(payload, cap)) == p.(inbox := p.inbox + Chunks(payload, cap))
    decreases |payload|
  {
    if payload == [] {
      assert p.inbox + [] == p.inbox;
    } else {
      var n := Min(cap, |payload|);
      var first, rest := Send(payload[..n]), payload[n..];
      var q := Deliver(p, first);
      DeliverCons(p, first, Frames(rest, cap));
      FramesArrive(q, rest, cap);
      assert Frames(payload, cap) == [first] + Frames(rest, cap);
      AppendAssoc(p.inbox, payload[..n], Chunks(rest, cap));
    }
  }

  lemma AppendAssoc<T>(s: seq<T>, x: T, t: seq<T>)
    ensures s + [x] + t == s + ([x] + t)
  {
  }

  lemma {:induction false} FramesTouchNothing(payload: bytes, cap: nat, lo: nat, hi: nat)
    requires cap > 0
    ensures Untouched(Frames(payload, cap), lo, hi)
    decreases |payload|
  {
    if payload != [] {
      FramesTouchNothing(payload[Min(cap, |payload|)..], cap, lo, hi);
    }
  }

  /** The chunk loop of a WRITE replaces exactly [addr, addr + |payload|). */
  lemma {:induction false} WritesReplaceExactly(p: Peer, addr: nat, payload: bytes, cap: nat)
    requires cap > 0 && addr + |payload| <= |p.mem|
    ensures DeliverAll(p, Writes(addr, payload, cap)) == p.(mem := Splice(p.mem, addr, payload))
    decreases |payload|
  {
    hide DeliverAll;
    if payload == [] {
      assert Splice(p.mem, addr, []) == p.mem;
      DeliverNothing(p);
    } else {
      var n := Min(cap, |payload|);
      var first := Write(addr, payload[..n]);
      var q := Deliver(p, first);
      DeliverCons(p, first, Writes(addr + n, payload[n..], cap));
      WritesReplaceExactly(q, addr + n, payload[n..], cap);
      SpliceTwice(p.mem, addr, payload[..n], payload[n..]);
      assert payload[..n] + payload[n..] == payload;
      assert Writes(addr, payload, cap) == [first] + Writes(addr + n, payload[n..], cap);
    }
  }

  lemma {:induction false} WritesStayInside(addr: nat, payload: bytes, cap: nat, lo: nat, hi: nat)
    requires cap > 0 && (hi <= addr || addr + |payload| <= lo)
    ensures Untouched(Writes(addr, payload, cap), lo, hi)
    decreases |payload|
  {
    if payload != [] {
      var n := Min(cap, |payload|);
      WritesStayInside(addr + n, payload[n..], cap, lo, hi);
    }
  }

  // ---------------------------------------------------------- notify frame

  const NOTIFY_MAGIC := 0x5244574e4f544659
  const NOTIFY_SIZE := 20
  const DESC_SIZE := 28
  const KIND_WRITE: uint32 := 1
  const KIND_WRITE_AT: uint32 := 2

  /** The announcement of a completed WRITE: how many bytes, and the slot number or, for an
      offset write, the byte offset they were put at. */
  datatype Notify = Notify(at: bool, length: uint32, token: uint32)

  function LittleEndian(x: nat, width: nat): (r: bytes)
    ensures |r| == width
  {
    if width == 0 then [] else [x % 256] + LittleEndian(x / 256, width - 1)
  }

  function FromLittleEndian(s: bytes): nat {
    if s == [] then 0 else s[0] + 256 * FromLittleEndian(s[1..])
  }

  function Pow256(width: nat): nat {
    if width == 0 then 1 else 256 * Pow256(width - 1)
  }

  lemma {:induction false} DecodeEncode(x: nat, width: nat)
    requires x < Pow256(width)
    ensures FromLittleEndian(LittleEndian(x, width)) == x
  {
    if width > 0 {
      DecodeEncode(x / 256, width - 1);
      assert LittleEndian(x, width)[1..] == LittleEndian(x / 256, width - 1);
    }
  }

  lemma SplitLowByte(low: byte, rest: nat)
    ensures (low + 256 * rest) % 256 == low && (low + 256 * rest) / 256 == rest
  {
  }

  lemma {:induction false} EncodeDecode(s: bytes)
    ensures LittleEndian(FromLittleEndian(s), |s|) == s
    ensures FromLittleEndian(s) < Pow256(|s|)
  {
    if s != [] {
      EncodeDecode(s[1..]);
      SplitLowByte(s[0], FromLittleEndian(s[1..]));
      assert s == [s[0]] + s[1..];
    }
  }

  lemma Widths()
    ensures Pow256(4) == TWO32 && Pow256(8) == TWO32 * TWO32
  {
    assert Pow256(2) == 0x1_0000;
    assert Pow256(4) == 0x1_0000 * 0x1_0000;
    assert Pow256(6) == 0x1_0000 * 0x1_0000 * 0x1_0000;
  }

  function EncodeNotify(n: Notify): (r: bytes)
    ensures |r| == NOTIFY_SIZE
  {
    LittleEndian(NOTIFY_MAGIC, 8) + LittleEndian(if n.at then KIND_WRITE_AT else KIND_WRITE, 4)
    + LittleEndian(n.length, 4) + LittleEndian(n.token, 4)
  }

  function ParseNotify(frame: bytes): Option<Notify> {
    if |frame| != NOTIFY_SIZE then None
    else if FromLittleEndian(frame[..8]) != NOTIFY_MAGIC then None
    else
      var kind := FromLittleEndian(frame[8..12]);
      if kind != KIND_WRITE && kind != KIND_WRITE_AT then None
      else
        EncodeDecode(frame[12..16]);
        EncodeDecode(frame[16..20]);
        Widths();
        Some(Notify(kind == KIND_WRITE_AT, FromLittleEndian(frame[12..16]), FromLittleEndian(frame[16..20])))
  }

  /** A frame is taken for a notify exactly when it is the encoding of one. */
  lemma NotifyRoundTrip(frame: bytes, n: Notify)
    ensures ParseNotify(frame) == Some(n) <==> frame == EncodeNotify(n)
  {
    Widths();
    if frame == EncodeNotify(n) {
      ParseOfEncode(n);
    }
    if ParseNotify(frame) == Some(n) {
      EncodeDecode(frame[..8]);
      EncodeDecode(frame[8..12]);
      EncodeDecode(frame[12..16]);
      EncodeDecode(frame[16..20]);
      Pieces(frame);
    }
  }

  lemma Pieces(frame: bytes)
    requires |frame| == 20
    ensures frame == frame[..8] + frame[8..12] + frame[12..16] + frame[16..20]
  {
  }

  lemma FourFields(a: bytes, b: bytes, c: bytes, d: bytes)
    requires |a| == 8 && |b| == |c| == |d| == 4
    ensures (a + b + c + d)[..8] == a && (a + b + c + d)[8..12] == b
    ensures (a + b + c + d)[12..16] == c && (a + b + c + d)[16..20] == d
  {
  }

  lemma ParseOfEncode(n: Notify)
    ensures ParseNotify(EncodeNotify(n)) == Some(n)
  {
    var f := EncodeNotify(n);
    Widths();
    var kind := if n.at then KIND_WRITE_AT else KIND_WRITE;
    FourFields(LittleEndian(NOTIFY_MAGIC, 8), LittleEndian(kind, 4), LittleEndian(n.length, 4), LittleEndian(n.token, 4));
    DecodeEncode(NOTIFY_MAGIC, 8);
    DecodeEncode(kind, 4);
    DecodeEncode(n.length, 4);
    DecodeEncode(n.token, 4);
  }
}
