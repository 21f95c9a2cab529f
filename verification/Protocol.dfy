/** The zcopy control messages, what travels on a channel, and how a stream of control and data
    messages is meant to be read: a data message has nothing to tell it apart but its position. */
module Protocol {
  import opened Wire

  /** `Unknown` is a message with any other op. */
  datatype Message =
    | HelloReq(reqId: nat, credits: int)
    | HelloResp(reqId: nat, credits: int, err: string)
    | EnsureBucketReq(reqId: nat, bucket: string)
    | PutReq(reqId: nat, bucket: string, key: string, size: int, dataOffset: Option<int>)
    | GetReq(reqId: nat, bucket: string, key: string, max: int, dataOffset: Option<int>)
    | Ack(ack: int)
    | RespOK(reqId: nat)
    | RespErr(reqId: nat)
    | GetMeta(reqId: nat, size: int, dataOffset: Option<int>)
    | Unknown(reqId: nat)

  /** A control message, or a payload written to an offset of the receiver's shared memory. */
  datatype Item = Ctl(msg: Message) | Data(off: nat, body: bytes)

  // ------------------------------------------------------------- alignment

  datatype Mode = Clear | Expect(header: Message) | Broken

  /** A header that is followed by its payload. */
  predicate Announces(m: Message) {
    m.GetMeta? || (m.PutReq? && m.size > 0)
  }

  predicate Matches(m: Message, off: nat, body: bytes) {
    (m.GetMeta? || m.PutReq?) && m.dataOffset == Some(off) && m.size == |body|
  }

  function Advance(mode: Mode, x: Item): Mode {
    match mode
    case Broken => Broken
    case Clear => if x.Ctl? then (if Announces(x.msg) then Expect(x.msg) else Clear) else Broken
    case Expect(m) => if x.Data? && Matches(m, x.off, x.body) then Clear else Broken
  }

  function ModeOf(log: seq<Item>): Mode {
    if log == [] then Clear else Advance(ModeOf(log[..|log| - 1]), log[|log| - 1])
  }

  lemma ModeStep(log: seq<Item>, x: Item)
    ensures ModeOf(log + [x]) == Advance(ModeOf(log), x)
  {
    assert (log + [x])[..|log|] == log;
  }

  /** What is broken stays broken, so a sound log is sound at every prefix. */
  lemma {:induction false} PrefixSound(log: seq<Item>, k: nat)
    requires k <= |log| && ModeOf(log) != Broken
    ensures ModeOf(log[..k]) != Broken
  {
    if k == |log| {
      assert log[..k] == log;
    } else {
      PrefixSound(log[..|log| - 1], k);
      assert log[..|log| - 1][..k] == log[..k];
    }
  }

  /** Reading item k of a sound log: what the reader's mode has to be for it. */
  lemma ReadsSound(log: seq<Item>, k: nat)
    requires k < |log| && ModeOf(log) != Broken
    ensures ModeOf(log[..k + 1]) == Advance(ModeOf(log[..k]), log[k]) != Broken
    ensures ModeOf(log[..k]) != Broken
  {
    PrefixSound(log, k + 1);
    PrefixSound(log, k);
    ModeStep(log[..k], log[k]);
    assert log[..k] + [log[k]] == log[..k + 1];
  }

  /** Reading a log unit by unit: control messages, and headers directly followed by their data. */
  ghost predicate Parses(log: seq<Item>)
    decreases |log|
  {
    || log == []
    || (log[0].Ctl? && !Announces(log[0].msg) && Parses(log[1..]))
    || (log[0].Ctl? && Announces(log[0].msg) && (|log| == 1
          || (log[1].Data? && Matches(log[0].msg, log[1].off, log[1].body) && Parses(log[2..]))))
  }

  function ModeFrom(mode: Mode, log: seq<Item>): Mode
    decreases |log|
  {
    if log == [] then mode else ModeFrom(Advance(mode, log[0]), log[1..])
  }

  lemma {:induction false} ModeFromAppend(mode: Mode, log: seq<Item>, x: Item)
    ensures ModeFrom(mode, log + [x]) == Advance(ModeFrom(mode, log), x)
    decreases |log|
  {
    if log == [] {
      assert (log + [x])[1..] == [];
    } else {
      ModeFromAppend(Advance(mode, log[0]), log[1..], x);
      assert (log + [x])[1..] == log[1..] + [x];
    }
  }

  lemma {:induction false} ModeFromStart(log: seq<Item>)
    ensures ModeFrom(Clear, log) == ModeOf(log)
  {
    if log != [] {
      var front := log[..|log| - 1];
      ModeFromStart(front);
      ModeFromAppend(Clear, front, log[|log| - 1]);
      assert front + [log[|log| - 1]] == log;
    }
  }

  lemma {:induction false} BrokenStays(log: seq<Item>)
    ensures ModeFrom(Broken, log) == Broken
    decreases |log|
  {
    if log != [] {
      BrokenStays(log[1..]);
    }
  }

  lemma {:induction false} ParsesFromClear(log: seq<Item>)
    ensures Parses(log) <==> ModeFrom(Clear, log) != Broken
    decreases |log|
  {
    if log != [] {
      var m1 := Advance(Clear, log[0]);
      if m1 == Clear {
        ParsesFromClear(log[1..]);
      } else if m1 == Broken {
        BrokenStays(log[1..]);
      } else if |log| > 1 {
        assert log[1..][0] == log[1] && log[1..][1..] == log[2..];
        var m2 := Advance(m1, log[1]);
        if m2 == Clear {
          ParsesFromClear(log[2..]);
        } else {
          BrokenStays(log[2..]);
        }
      }
    }
  }

  /** The two readings agree: a log parses into control messages and adjacent header-data pairs
      exactly when the position-by-position reader never breaks. */
  lemma ParsesIffSound(log: seq<Item>)
    ensures Parses(log) <==> ModeOf(log) != Broken
  {
    ParsesFromClear(log);
    ModeFromStart(log);
  }

  // -------------------------------------------------------------- counting

  /** Total weight of log[from..]. */
  function Total<T>(w: T -> nat, log: seq<T>, from: nat): nat {
    if |log| <= from then 0 else Total(w, log[..|log| - 1], from) + w(log[|log| - 1])
  }

  lemma TotalPush<T>(w: T -> nat, log: seq<T>, from: nat, x: T)
    requires from <= |log|
    ensures Total(w, log + [x], from) == Total(w, log, from) + w(x)
  {
    assert (log + [x])[..|log|] == log;
  }

  lemma {:induction false} TotalPop<T>(w: T -> nat, log: seq<T>, from: nat)
    requires from < |log|
    ensures Total(w, log, from) == w(log[from]) + Total(w, log, from + 1)
  {
    if from + 1 < |log| {
      TotalPop(w, log[..|log| - 1], from);
    }
  }

  lemma {:induction false} TotalPositive<T>(w: T -> nat, log: seq<T>, from: nat)
    requires Total(w, log, from) > 0
    ensures exists k :: from <= k < |log| && w(log[k]) > 0
  {
    var last := |log| - 1;
    if w(log[last]) == 0 {
      TotalPositive(w, log[..last], from);
      var k :| from <= k < last && w(log[..last][k]) > 0;
      assert w(log[k]) > 0;
    }
  }

  /** The entries of a table that satisfy p, and how many there are. */
  function Matching<V>(m: map<nat, V>, p: V -> bool): set<nat> {
    set id | id in m && p(m[id])
  }

  function Count<V>(m: map<nat, V>, p: V -> bool): nat {
    |Matching(m, p)|
  }

  function One(b: bool): nat {
    if b then 1 else 0
  }

  lemma CountSet<V>(m: map<nat, V>, p: V -> bool, id: nat, v: V)
    ensures Count(m[id := v], p) + One(id in m && p(m[id])) == Count(m, p) + One(p(v))
  {
    var m' := m[id := v];
    var was, now := Matching(m, p), Matching(m', p);
    SameElsewhere(m, p, id, v);
    WithoutOne(was, id);
    WithoutOne(now, id);
    assert id in was <==> id in m && p(m[id]);
    assert id in now <==> p(v);
  }

  lemma SameElsewhere<V>(m: map<nat, V>, p: V -> bool, id: nat, v: V)
    ensures Matching(m[id := v], p) - {id} == Matching(m, p) - {id}
  {
  }

  lemma WithoutOne(s: set<nat>, id: nat)
    ensures |s| == |s - {id}| + One(id in s)
  {
    if id in s {
      assert s == (s - {id}) + {id};
    } else {
      assert s == s - {id};
    }
  }

  lemma CountSame<V>(m: map<nat, V>, m': map<nat, V>, p: V -> bool)
    requires m.Keys == m'.Keys && forall id <- m :: p(m[id]) == p(m'[id])
    ensures Count(m', p) == Count(m, p)
  {
    assert Matching(m, p) == Matching(m', p);
  }

  lemma CountPositive<V>(m: map<nat, V>, p: V -> bool)
    requires Count(m, p) > 0
    ensures exists id :: id in m && p(m[id])
  {
    var id :| id in Matching(m, p);
    assert id in m && p(m[id]);
  }

  /** A mode that expects a payload was set by the header read last. */
  lemma ExpectsLast(log: seq<Item>, m: Message)
    requires ModeOf(log) == Expect(m)
    ensures log != [] && log[|log| - 1] == Ctl(m) && ModeOf(log[..|log| - 1]) == Clear
  {
  }

  /** The credits an item gives back. */
  function AckOf(x: Item): nat {
    if x.Ctl? && x.msg.Ack? && x.msg.ack > 0 then x.msg.ack else 0
  }

  // ------------------------------------------------- one direction of a channel

  /** The writer's side: outside a torn stream the log is between units, or, while the writer is in
      the middle of one, right after its header. */
  predicate Written(log: seq<Item>, mid: bool, torn: bool) {
    torn || if mid then log != [] && log[|log| - 1].Ctl? && ModeOf(log) == Expect(log[|log| - 1].msg)
            else ModeOf(log) == Clear
  }

  /** The reader's side: it waits for what the position in the stream calls for. */
  predicate Read(log: seq<Item>, read: nat, mode: Option<Mode>, torn: bool) {
    read <= |log| && (torn || mode == None || Some(ModeOf(log[..read])) == mode)
  }

  lemma WritePlain(log: seq<Item>, m: Message, torn: bool)
    requires Written(log, false, torn) && !Announces(m)
    ensures Written(log + [Ctl(m)], false, torn)
  {
    ModeStep(log, Ctl(m));
  }

  lemma WriteHeader(log: seq<Item>, m: Message, torn: bool)
    requires Written(log, false, torn) && Announces(m)
    ensures Written(log + [Ctl(m)], true, torn)
  {
    ModeStep(log, Ctl(m));
  }

  lemma WritePayload(log: seq<Item>, off: nat, body: bytes, torn: bool)
    requires Written(log, true, torn)
    requires log != [] && log[|log| - 1].Ctl? && Matches(log[|log| - 1].msg, off, body)
    ensures Written(log + [Data(off, body)], false, torn)
  {
    ModeStep(log, Data(off, body));
  }

  lemma ReadStays(log: seq<Item>, x: Item, read: nat, mode: Option<Mode>, torn: bool)
    requires Read(log, read, mode, torn)
    ensures Read(log + [x], read, mode, torn)
  {
    assert (log + [x])[..read] == log[..read];
  }

  /** Reading the next item of a stream that is not torn: its kind is what the mode calls for. */
  lemma ReadNext(log: seq<Item>, read: nat, mode: Mode, mid: bool, torn: bool)
    requires Written(log, mid, torn) && Read(log, read, Some(mode), torn) && read < |log| && !torn
    ensures mode == Clear ==> log[read].Ctl?
    ensures mode.Expect? ==> log[read].Data? && Matches(mode.header, log[read].off, log[read].body)
    ensures mode.Expect? ==> read > 0 && log[read - 1] == Ctl(mode.header)
    ensures Read(log, read + 1, Some(Advance(mode, log[read])), torn)
    ensures mode != Broken && Advance(mode, log[read]) != Broken
  {
    ReadsSound(log, read);
    if mode.Expect? {
      ExpectsLast(log[..read], mode.header);
    }
  }

  /** strings.TrimSpace, on the ASCII white space characters. */
  function Trim(s: string): string
    decreases |s|
  {
    if s == [] then []
    else if IsSpace(s[0]) then Trim(s[1..])
    else if IsSpace(s[|s| - 1]) then Trim(s[..|s| - 1])
    else s
  }

  predicate IsSpace(c: char) {
    c == ' ' || c == '\t' || c == '\n' || c == '\r' || c == 11 as char || c == 12 as char
  }
}
