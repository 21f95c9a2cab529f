/** What the in-memory store holds, as the list of its objects in the order they were put. */
module StoreSpec {
  import opened Wire
  import opened ObjectIds

  datatype Entry = Entry(bucket: string, key: string, body: bytes)

  function IdOf(e: Entry): string {
    MakeId(e.bucket, e.key)
  }

  predicate Is(e: Entry, bucket: string, key: string) {
    e.bucket == bucket && e.key == key
  }

  function Names(es: seq<Entry>): set<(string, string)> {
    set e | e in es :: (e.bucket, e.key)
  }

  /** One entry for each object. */
  predicate Distinct(es: seq<Entry>) {
    forall i, j :: 0 <= i < j < |es| ==> !Is(es[i], es[j].bucket, es[j].key)
  }

  function Size(es: seq<Entry>): nat {
    if es == [] then 0 else |es[0].body| + Size(es[1..])
  }

  function Without(es: seq<Entry>, bucket: string, key: string): seq<Entry> {
    if es == [] then []
    else if Is(es[0], bucket, key) then Without(es[1..], bucket, key)
    else [es[0]] + Without(es[1..], bucket, key)
  }

  function WithoutBucket(es: seq<Entry>, bucket: string): seq<Entry> {
    if es == [] then []
    else if es[0].bucket == bucket then WithoutBucket(es[1..], bucket)
    else [es[0]] + WithoutBucket(es[1..], bucket)
  }

  /** The shortest prefix is dropped that leaves at most `room` bytes. */
  function Trimmed(es: seq<Entry>, room: nat): seq<Entry> {
    if Size(es) <= room then es else Trimmed(es[1..], room)
  }

  datatype Policy = Reject | FIFO | Other

  /** What is left of the other objects when `size` more bytes are let in, if they are. */
  function Room(policy: Policy, maxBytes: int, others: seq<Entry>, size: nat): Option<seq<Entry>> {
    if maxBytes <= 0 || Size(others) + size <= maxBytes then Some(others)
    else if policy == FIFO && size <= maxBytes then Some(Trimmed(others, maxBytes - size))
    else None
  }

  /** A put: the old object of the name goes, older objects make room if the policy is fifo, and the
      new one is last; or nothing happens. */
  function Put(policy: Policy, maxBytes: int, es: seq<Entry>, e: Entry): Option<seq<Entry>> {
    match Room(policy, maxBytes, Without(es, e.bucket, e.key), |e.body|)
    case Some(kept) => Some(kept + [e])
    case None => None
  }

  // ------------------------------------------------------------------- sums

  lemma {:induction false} SizeConcat(a: seq<Entry>, b: seq<Entry>)
    ensures Size(a + b) == Size(a) + Size(b)
  {
    if a == [] {
      assert a + b == b;
    } else {
      SizeConcat(a[1..], b);
      assert (a + b)[1..] == a[1..] + b;
    }
  }

  lemma SizePush(es: seq<Entry>, e: Entry)
    ensures Size(es + [e]) == Size(es) + |e.body|
  {
    SizeConcat(es, [e]);
    assert Size([e]) == |e.body|;
  }

  lemma SizeSplit(es: seq<Entry>, n: nat)
    requires n <= |es|
    ensures Size(es) == Size(es[..n]) + Size(es[n..])
  {
    SizeConcat(es[..n], es[n..]);
    assert es == es[..n] + es[n..];
  }

  // --------------------------------------------------------------- removing

  lemma {:induction false} WithoutGone(es: seq<Entry>, bucket: string, key: string)
    ensures Names(Without(es, bucket, key)) == Names(es) - {(bucket, key)}
    ensures forall e :: e in Without(es, bucket, key) <==> e in es && !Is(e, bucket, key)
  {
    if es != [] {
      WithoutGone(es[1..], bucket, key);
      assert es == [es[0]] + es[1..];
    }
  }

  lemma HeadApart(e: Entry, fewer: seq<Entry>, rest: seq<Entry>)
    requires Distinct(fewer) && (e.bucket, e.key) !in Names(rest) && forall x <- fewer :: x in rest
    ensures Distinct([e] + fewer)
  {
    var es := [e] + fewer;
    forall i, j | 0 <= i < j < |es| ensures !Is(es[i], es[j].bucket, es[j].key) {
      assert es[j] == fewer[j - 1] && fewer[j - 1] in fewer;
      assert (es[j].bucket, es[j].key) in Names(rest);
    }
  }

  lemma {:induction false} WithoutDistinct(es: seq<Entry>, bucket: string, key: string)
    requires Distinct(es)
    ensures Distinct(Without(es, bucket, key))
  {
    if es != [] {
      WithoutDistinct(es[1..], bucket, key);
      WithoutGone(es[1..], bucket, key);
      HeadAbsent(es);
      HeadApart(es[0], Without(es[1..], bucket, key), es[1..]);
    }
  }

  lemma {:induction false} WithoutAbsent(es: seq<Entry>, bucket: string, key: string)
    requires (bucket, key) !in Names(es)
    ensures Without(es, bucket, key) == es
  {
    if es != [] {
      assert (es[0].bucket, es[0].key) in Names(es);
      TailNames(es);
      WithoutAbsent(es[1..], bucket, key);
    }
  }

  lemma TailNames(es: seq<Entry>)
    requires es != []
    ensures Names(es) == {(es[0].bucket, es[0].key)} + Names(es[1..])
  {
    assert es == [es[0]] + es[1..];
  }

  lemma {:induction false} SizeWithout(es: seq<Entry>, i: nat)
    requires Distinct(es) && i < |es|
    ensures Size(Without(es, es[i].bucket, es[i].key)) == Size(es) - |es[i].body|
  {
    var e := es[i];
    if i == 0 {
      HeadAbsent(es);
      WithoutAbsent(es[1..], e.bucket, e.key);
    } else {
      SizeWithout(es[1..], i - 1);
      assert Without(es, e.bucket, e.key) == [es[0]] + Without(es[1..], e.bucket, e.key);
    }
  }

  lemma HeadAbsent(es: seq<Entry>)
    requires Distinct(es) && es != []
    ensures (es[0].bucket, es[0].key) !in Names(es[1..])
  {
    forall e | e in es[1..] ensures !Is(e, es[0].bucket, es[0].key) {
      var j :| 0 <= j < |es[1..]| && es[1..][j] == e;
      assert es[j + 1] == e && !Is(es[0], es[j + 1].bucket, es[j + 1].key);
    }
  }

  lemma {:induction false} WithoutConcat(a: seq<Entry>, b: seq<Entry>, bucket: string, key: string)
    ensures Without(a + b, bucket, key) == Without(a, bucket, key) + Without(b, bucket, key)
  {
    if a == [] {
      assert a + b == b;
    } else {
      WithoutConcat(a[1..], b, bucket, key);
      assert (a + b)[1..] == a[1..] + b;
    }
  }

  lemma {:induction false} WithoutCommutes(es: seq<Entry>, b1: string, k1: string, b2: string, k2: string)
    ensures Without(Without(es, b1, k1), b2, k2) == Without(Without(es, b2, k2), b1, k1)
  {
    if es != [] {
      WithoutCommutes(es[1..], b1, k1, b2, k2);
    }
  }

  lemma {:induction false} WithoutBucketStep(es: seq<Entry>, bucket: string, key: string)
    ensures WithoutBucket(Without(es, bucket, key), bucket) == WithoutBucket(es, bucket)
  {
    if es != [] {
      WithoutBucketStep(es[1..], bucket, key);
    }
  }

  lemma {:induction false} WithoutBucketSame(es: seq<Entry>, bucket: string)
    requires forall e <- es :: e.bucket != bucket
    ensures WithoutBucket(es, bucket) == es
  {
    if es != [] {
      WithoutBucketSame(es[1..], bucket);
    }
  }

  /** Deleting a bucket removes its objects and no other. */
  lemma {:induction false} WithoutBucketExact(es: seq<Entry>, bucket: string)
    ensures forall e :: e in WithoutBucket(es, bucket) <==> e in es && e.bucket != bucket
  {
    if es != [] {
      WithoutBucketExact(es[1..], bucket);
      assert es == [es[0]] + es[1..];
    }
  }

  /** The rest keep their order. */
  lemma {:induction false} WithoutBucketConcat(a: seq<Entry>, b: seq<Entry>, bucket: string)
    ensures WithoutBucket(a + b, bucket) == WithoutBucket(a, bucket) + WithoutBucket(b, bucket)
  {
    if a == [] {
      assert a + b == b;
    } else {
      var x, rest := WithoutBucket(a[1..], bucket), WithoutBucket(b, bucket);
      WithoutBucketConcat(a[1..], b, bucket);
      assert (a + b)[1..] == a[1..] + b;
      assert [a[0]] + (x + rest) == ([a[0]] + x) + rest;
    }
  }

  // --------------------------------------------------------------- evicting

  /** What is dropped is the shortest prefix that frees enough: one entry fewer would not. */
  lemma {:induction false} TrimmedIsSuffix(es: seq<Entry>, room: nat) returns (n: nat)
    ensures n <= |es| && Trimmed(es, room) == es[n..] && Size(es[n..]) <= room
    ensures forall m :: 0 <= m < n ==> Size(es[m..]) > room
  {
    if Size(es) <= room {
      n := 0;
    } else {
      var k := TrimmedIsSuffix(es[1..], room);
      n := k + 1;
      forall m | 0 <= m < n ensures Size(es[m..]) > room {
        if m > 0 {
          assert es[m..] == es[1..][m - 1..];
        }
      }
    }
  }

  lemma {:induction false} TrimmedAt(es: seq<Entry>, room: nat, n: nat)
    requires n <= |es| && Size(es[n..]) <= room
    requires n > 0 ==> Size(es[n - 1..]) > room
    ensures Trimmed(es, room) == es[n..]
  {
    if n == 0 {
    } else {
      SizeSplit(es, n - 1);
      if n > 1 {
        assert es[1..][n - 2..] == es[n - 1..];
      }
      assert es[1..][n - 1..] == es[n..];
      TrimmedAt(es[1..], room, n - 1);
    }
  }

  lemma {:induction false} TrimmedFits(es: seq<Entry>, room: nat)
    ensures Size(Trimmed(es, room)) <= room
  {
    if Size(es) > room {
      TrimmedFits(es[1..], room);
    }
  }

  // -------------------------------------------------- the fifo store as a cache

  /** All of these puts, one after another, starting from `es`; a refused one changes nothing. */
  function PutAll(maxBytes: int, es: seq<Entry>, log: seq<Entry>): seq<Entry>
    decreases |log|
  {
    if log == [] then es
    else
      var r := Put(FIFO, maxBytes, es, log[0]);
      PutAll(maxBytes, if r.Some? then r.value else es, log[1..])
  }

  /** The puts that can be stored at all. */
  function Storable(maxBytes: int, log: seq<Entry>): seq<Entry> {
    if log == [] then []
    else if |log[0].body| <= maxBytes then [log[0]] + Storable(maxBytes, log[1..])
    else Storable(maxBytes, log[1..])
  }

  lemma {:induction false} TrimTwice(es: seq<Entry>, room: nat, less: nat)
    requires less <= room
    ensures Trimmed(Trimmed(es, room), less) == Trimmed(es, less)
  {
    if Size(es) > room {
      TrimTwice(es[1..], room, less);
    }
  }

  lemma {:induction false} TrimPush(es: seq<Entry>, e: Entry, room: nat)
    requires |e.body| <= room
    ensures Trimmed(es + [e], room) == Trimmed(es, room - |e.body|) + [e]
  {
    SizePush(es, e);
    if Size(es) > room - |e.body| {
      TrimPush(es[1..], e, room);
      assert (es + [e])[1..] == es[1..] + [e];
    }
  }

  lemma {:induction false} TrimmedNames(es: seq<Entry>, room: nat)
    ensures forall e :: e in Trimmed(es, room) ==> e in es
  {
    if Size(es) > room {
      TrimmedNames(es[1..], room);
    }
  }

  lemma {:induction false} PutAllTrims(maxBytes: nat, before: seq<Entry>, log: seq<Entry>)
    requires maxBytes > 0 && Distinct(before + log)
    ensures PutAll(maxBytes, Trimmed(before, maxBytes), log) == Trimmed(before + Storable(maxBytes, log), maxBytes)
    decreases |log|
  {
    if log == [] {
      assert before + [] == before;
    } else {
      var e, held := log[0], Trimmed(before, maxBytes);
      assert (before + [e]) + log[1..] == before + log;
      if |e.body| <= maxBytes {
        FreshAmong(before, log);
        TrimmedNames(before, maxBytes);
        NotIn(held, e);
        WithoutAbsent(held, e.bucket, e.key);
        TrimTwice(before, maxBytes, maxBytes - |e.body|);
        TrimPush(before, e, maxBytes);
        assert Put(FIFO, maxBytes, held, e) == Some(Trimmed(before + [e], maxBytes));
        PutAllTrims(maxBytes, before + [e], log[1..]);
        assert (before + [e]) + Storable(maxBytes, log[1..]) == before + Storable(maxBytes, log);
      } else {
        DropOne(before, log);
        PutAllTrims(maxBytes, before, log[1..]);
      }
    }
  }

  lemma FreshAmong(before: seq<Entry>, log: seq<Entry>)
    requires log != [] && Distinct(before + log)
    ensures forall e <- before :: !Is(e, log[0].bucket, log[0].key)
  {
    forall e | e in before ensures !Is(e, log[0].bucket, log[0].key) {
      var i :| 0 <= i < |before| && before[i] == e;
      assert (before + log)[i] == e && (before + log)[|before|] == log[0];
    }
  }

  lemma NotIn(es: seq<Entry>, e: Entry)
    requires forall x <- es :: !Is(x, e.bucket, e.key)
    ensures (e.bucket, e.key) !in Names(es)
  {
  }

  lemma DropOne(before: seq<Entry>, log: seq<Entry>)
    requires log != [] && Distinct(before + log)
    ensures Distinct(before + log[1..])
  {
    var all, fewer := before + log, before + log[1..];
    forall i, j | 0 <= i < j < |fewer| ensures !Is(fewer[i], fewer[j].bucket, fewer[j].key) {
      var i' := if i < |before| then i else i + 1;
      var j' := if j < |before| then j else j + 1;
      assert fewer[i] == all[i'] && fewer[j] == all[j'];
    }
  }

  /** The fifo store is an offline optimum: after any puts of distinct names it holds exactly the
      longest suffix of the puts it could take whose total size fits. */
  lemma FifoKeepsLongestSuffix(maxBytes: nat, log: seq<Entry>) returns (n: nat)
    requires maxBytes > 0 && Distinct(log)
    ensures var puts := Storable(maxBytes, log);
            && n <= |puts| && PutAll(maxBytes, [], log) == puts[n..]
            && Size(puts[n..]) <= maxBytes
            && forall m :: 0 <= m < n ==> Size(puts[m..]) > maxBytes
  {
    assert [] + log == log && [] + Storable(maxBytes, log) == Storable(maxBytes, log);
    PutAllTrims(maxBytes, [], log);
    n := TrimmedIsSuffix(Storable(maxBytes, log), maxBytes);
  }

  // ------------------------------------------------------------- single puts

  /** A fifo put fails exactly when the new body alone is too large; otherwise it evicts n objects,
      the shortest prefix of the other objects that makes room, and the new object is last. */
  lemma FifoPut(maxBytes: nat, es: seq<Entry>, e: Entry) returns (n: nat)
    requires maxBytes > 0
    ensures Put(FIFO, maxBytes, es, e) == None <==> |e.body| > maxBytes
    ensures var others, r := Without(es, e.bucket, e.key), Put(FIFO, maxBytes, es, e);
            r.Some? ==>
              && n <= |others| && r.value == others[n..] + [e] && Size(r.value) <= maxBytes
              && forall m :: 0 <= m < n ==> Size(others[m..] + [e]) > maxBytes
  {
    hide Without, Size, Trimmed;
    var others := Without(es, e.bucket, e.key);
    n := 0;
    assert others[0..] == others;
    SizePush(others, e);
    if |e.body| <= maxBytes < Size(others) + |e.body| {
      n := TrimmedIsSuffix(others, maxBytes - |e.body|);
      SizePush(others[n..], e);
      forall m | 0 <= m < n ensures Size(others[m..] + [e]) > maxBytes {
        SizePush(others[m..], e);
      }
    }
  }

  /** Under reject a put fails exactly when the object does not fit beside the others. */
  lemma RejectPut(maxBytes: nat, es: seq<Entry>, e: Entry)
    requires maxBytes > 0
    ensures var others, r := Without(es, e.bucket, e.key), Put(Reject, maxBytes, es, e);
            && (r == None <==> Size(others + [e]) > maxBytes)
            && (r.Some? ==> r.value == others + [e])
  {
    SizePush(Without(es, e.bucket, e.key), e);
  }

  /** A put that succeeds stores its object, once, within the limit, and adds nothing else. */
  lemma PutKeepsInvariants(policy: Policy, maxBytes: int, es: seq<Entry>, e: Entry)
    requires Distinct(es) && Put(policy, maxBytes, es, e).Some?
    ensures var es' := Put(policy, maxBytes, es, e).value;
            && Distinct(es') && e in es' && (maxBytes > 0 ==> Size(es') <= maxBytes)
            && forall x :: x in es' ==> x == e || (x in es && !Is(x, e.bucket, e.key))
  {
    hide Without, Size, Trimmed, Distinct, Names;
    var others := Without(es, e.bucket, e.key);
    WithoutDistinct(es, e.bucket, e.key);
    WithoutGone(es, e.bucket, e.key);
    SizePush(others, e);
    if 0 < maxBytes < Size(others) + |e.body| {
      var n := TrimmedIsSuffix(others, maxBytes - |e.body|);
      SizePush(others[n..], e);
      LastOfSuffix(others, n, e);
    } else {
      assert others[0..] == others;
      LastOfSuffix(others, 0, e);
    }
  }

  lemma LastOfSuffix(others: seq<Entry>, n: nat, e: Entry)
    requires Distinct(others) && n <= |others| && forall x <- others :: !Is(x, e.bucket, e.key)
    ensures Distinct(others[n..] + [e]) && e in others[n..] + [e]
    ensures forall x :: x in others[n..] + [e] ==> x == e || x in others
  {
    var es := others[n..] + [e];
    assert es[|es| - 1] == e;
    forall i, j | 0 <= i < j < |es| ensures !Is(es[i], es[j].bucket, es[j].key) {
      assert others[n + i] in others;
      assert es[i] == others[n + i];
    }
  }
}
