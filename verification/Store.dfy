/** MemoryStore of the in-memory S3 server: nested maps of objects, a byte counter, a linked list of
    object ids in the order they were put, and an index into that list. */
module Store {
  import opened Wire
  import opened ObjectIds
  import opened StoreSpec

  /** A list element: its id, and a handle that stands for the element itself. */
  datatype Element = Element(handle: nat, id: string)

  type Buckets = map<string, map<string, bytes>>

  datatype Error = CapacityExceeded | UnsupportedPolicy

  /** list.List.Remove. */
  function Unlink(order: seq<Element>, handle: nat): seq<Element> {
    if order == [] then []
    else if order[0].handle == handle then Unlink(order[1..], handle)
    else [order[0]] + Unlink(order[1..], handle)
  }

  function Detach(order: seq<Element>, index: map<string, nat>, id: string): seq<Element> {
    if id in index then Unlink(order, index[id]) else order
  }

  // -------------------------------------------------------- representation

  predicate Listed(order: seq<Element>, es: seq<Entry>) {
    |order| == |es| && forall i :: 0 <= i < |es| ==> order[i].id == IdOf(es[i]) && GoodBucket(es[i].bucket)
  }

  predicate Indexed(order: seq<Element>, index: map<string, nat>, next: nat) {
    && (forall i :: 0 <= i < |order| ==> order[i].handle < next && order[i].id in index && index[order[i].id] == order[i].handle)
    && HandlesDiffer(order)
    && (forall id <- index :: exists i :: 0 <= i < |order| && order[i].id == id)
  }

  predicate Holds(buckets: Buckets, es: seq<Entry>) {
    && (forall e <- es :: e.bucket in buckets && e.key in buckets[e.bucket] && buckets[e.bucket][e.key] == e.body)
    && (forall b <- buckets, k <- buckets[b] :: (b, k) in Names(es))
  }

  lemma {:induction false} UnlinkAligned(order: seq<Element>, es: seq<Entry>, handle: nat, bucket: string, key: string)
    requires Listed(order, es)
    requires forall i :: 0 <= i < |es| ==> (order[i].handle == handle <==> Is(es[i], bucket, key))
    ensures Listed(Unlink(order, handle), Without(es, bucket, key))
  {
    if es != [] {
      UnlinkAligned(order[1..], es[1..], handle, bucket, key);
    }
  }

  lemma {:induction false} UnlinkGone(order: seq<Element>, handle: nat)
    ensures forall x :: x in Unlink(order, handle) <==> x in order && x.handle != handle
  {
    if order != [] {
      UnlinkGone(order[1..], handle);
      assert order == [order[0]] + order[1..];
    }
  }

  predicate HandlesDiffer(order: seq<Element>) {
    forall i, j :: 0 <= i < j < |order| ==> order[i].handle != order[j].handle
  }

  lemma {:induction false} UnlinkDistinct(order: seq<Element>, handle: nat)
    requires HandlesDiffer(order)
    ensures HandlesDiffer(Unlink(order, handle))
  {
    if order != [] {
      UnlinkDistinct(order[1..], handle);
      UnlinkGone(order[1..], handle);
      var o := Unlink(order[1..], handle);
      forall i | 0 <= i < |o| ensures o[i].handle != order[0].handle {
        assert o[i] in order[1..];
      }
    }
  }

  lemma UnlinkKeepsIndex(order: seq<Element>, index: map<string, nat>, next: nat, id: string)
    requires Indexed(order, index, next) && id in index
    ensures Indexed(Unlink(order, index[id]), index - {id}, next)
  {
    var h, order' := index[id], Unlink(order, index[id]);
    UnlinkGone(order, h);
    UnlinkDistinct(order, h);
    forall i | 0 <= i < |order'|
      ensures order'[i].handle < next && order'[i].id in index - {id} && index[order'[i].id] == order'[i].handle
    {
      assert order'[i] in order;
    }
    forall j | 0 <= j < |order| && order[j].handle == h ensures order[j].id == id {
      HandlesName(order, index, next, id, j);
    }
    forall x | x in index - {id} ensures exists i :: 0 <= i < |order'| && order'[i].id == x {
      var j :| 0 <= j < |order| && order[j].id == x;
      assert order[j] in order';
    }
  }

  lemma SameHandle(order: seq<Element>, i: nat, j: nat)
    requires HandlesDiffer(order) && i < |order| && j < |order| && order[i].handle == order[j].handle
    ensures i == j
  {
  }

  lemma HandlesName(order: seq<Element>, index: map<string, nat>, next: nat, id: string, j: nat)
    requires Indexed(order, index, next) && j < |order| && id in index && order[j].handle == index[id]
    ensures order[j].id == id
  {
    var i :| 0 <= i < |order| && order[i].id == id;
    assert order[i].handle == index[id];
    SameHandle(order, i, j);
  }

  lemma HandleOfName(order: seq<Element>, index: map<string, nat>, next: nat, es: seq<Entry>, bucket: string, key: string)
    requires Listed(order, es) && Indexed(order, index, next) && Distinct(es) && GoodBucket(bucket)
    ensures (bucket, key) in Names(es) <==> MakeId(bucket, key) in index
    ensures MakeId(bucket, key) in index ==>
              forall i :: 0 <= i < |es| ==> (order[i].handle == index[MakeId(bucket, key)] <==> Is(es[i], bucket, key))
  {
    var id := MakeId(bucket, key);
    forall i | 0 <= i < |es| && order[i].id == id ensures Is(es[i], bucket, key) {
      IdsApart(es[i].bucket, es[i].key, bucket, key);
    }
    if (bucket, key) in Names(es) {
      var e :| e in es && (e.bucket, e.key) == (bucket, key);
      var i :| 0 <= i < |es| && es[i] == e;
      assert order[i].id == id;
    }
    if id in index {
      var j :| 0 <= j < |order| && order[j].id == id;
      assert es[j] in es && (es[j].bucket, es[j].key) == (bucket, key);
      forall i | 0 <= i < |es| ensures order[i].handle == index[id] <==> Is(es[i], bucket, key) {
        if i != j {
          assert order[i].handle != order[j].handle;
          assert !Is(es[i], es[j].bucket, es[j].key);
        }
      }
    }
  }

  lemma RemoveKeepsIndex(order: seq<Element>, index: map<string, nat>, next: nat, es: seq<Entry>, bucket: string, key: string)
    requires Listed(order, es) && Indexed(order, index, next) && Distinct(es) && (bucket, key) in Names(es) && GoodBucket(bucket)
    ensures MakeId(bucket, key) in index
    ensures var id, order' := MakeId(bucket, key), Detach(order, index, MakeId(bucket, key));
            Listed(order', Without(es, bucket, key)) && Indexed(order', index - {id}, next)
  {
    hide Listed, Indexed, IdOf, GoodBucket, MakeId, Distinct, Names;
    HandleOfName(order, index, next, es, bucket, key);
    ListedSize(order, es);
    UnlinkAligned(order, es, index[MakeId(bucket, key)], bucket, key);
    UnlinkKeepsIndex(order, index, next, MakeId(bucket, key));
  }

  lemma ListedSize(order: seq<Element>, es: seq<Entry>)
    requires Listed(order, es)
    ensures |order| == |es|
  {
  }

  lemma PushKeepsDistinct(es: seq<Entry>, e: Entry)
    requires Distinct(es) && (e.bucket, e.key) !in Names(es)
    ensures Distinct(es + [e])
  {
    forall i, j | 0 <= i < j < |es + [e]| ensures !Is((es + [e])[i], (es + [e])[j].bucket, (es + [e])[j].key) {
      if j == |es| {
        assert es[i] in es;
      }
    }
  }

  /** Whatever the id: the list and its index stay each other's. */
  lemma DetachKeepsIndex(order: seq<Element>, index: map<string, nat>, next: nat, id: string)
    requires Indexed(order, index, next)
    ensures Indexed(Detach(order, index, id), index - {id}, next)
  {
    hide Indexed;
    if id in index {
      UnlinkKeepsIndex(order, index, next, id);
    } else {
      assert index - {id} == index;
    }
  }

  lemma PushKeepsIndex(order: seq<Element>, index: map<string, nat>, next: nat, id: string)
    requires Indexed(order, index - {id}, next)
    ensures Indexed(order + [Element(next, id)], index[id := next], next + 1)
  {
    var order', index' := order + [Element(next, id)], index[id := next];
    forall x | x in index' ensures exists i :: 0 <= i < |order'| && order'[i].id == x {
      if x == id {
        assert order'[|order|].id == x;
      } else {
        assert x in index - {id};
        var i :| 0 <= i < |order| && order[i].id == x;
        assert order'[i].id == x;
      }
    }
  }

  /** No id is in the list twice. */
  lemma IdsOnce(order: seq<Element>, index: map<string, nat>, next: nat, i: nat, j: nat)
    requires Indexed(order, index, next) && i < j < |order|
    ensures order[i].id != order[j].id
  {
  }

  lemma InsertKeepsList(order: seq<Element>, index: map<string, nat>, next: nat, es: seq<Entry>, e: Entry)
    requires Listed(order, es) && Indexed(order, index, next) && Distinct(es) && (e.bucket, e.key) !in Names(es) && GoodBucket(e.bucket)
    ensures IdOf(e) !in index && Listed(order + [Element(next, IdOf(e))], es + [e])
  {
    hide GoodBucket, MakeId, Indexed, Names;
    HandleOfName(order, index, next, es, e.bucket, e.key);
  }

  // ------------------------------------------------------- what ids lead to

  /** lookupObjectByIDLocked. */
  function Resolve(buckets: Buckets, id: string): Option<bytes> {
    var split := SplitId(id);
    if split.Some? && split.value.0 in buckets && split.value.1 in buckets[split.value.0]
    then Some(buckets[split.value.0][split.value.1]) else None
  }

  function Freed(buckets: Buckets, id: string): nat {
    if Resolve(buckets, id).Some? then |Resolve(buckets, id).value| else 0
  }

  /** The bytes of the objects that the list leads to, without the current one. */
  function Evictable(order: seq<Element>, buckets: Buckets, skip: Option<string>): nat {
    if order == [] then 0
    else
      var id := order[|order| - 1].id;
      Evictable(order[..|order| - 1], buckets, skip) + if skip == Some(id) then 0 else Freed(buckets, id)
  }

  lemma EvictableNext(order: seq<Element>, buckets: Buckets, skip: Option<string>, i: nat)
    requires i < |order|
    ensures Evictable(order[..i + 1], buckets, skip)
         == Evictable(order[..i], buckets, skip) + if skip == Some(order[i].id) then 0 else Freed(buckets, order[i].id)
  {
    assert order[..i + 1][..i] == order[..i];
  }

  lemma {:induction false} EvictableGrows(order: seq<Element>, buckets: Buckets, skip: Option<string>, i: nat)
    requires i <= |order|
    ensures Evictable(order[..i], buckets, skip) <= Evictable(order, buckets, skip)
  {
    hide Freed;
    if i == |order| {
      assert order[..i] == order;
    } else {
      EvictableGrows(order[..|order| - 1], buckets, skip, i);
      assert order[..|order| - 1][..i] == order[..i];
    }
  }

  function Sizes(buckets: Buckets, ids: seq<string>): nat {
    if ids == [] then 0 else Sizes(buckets, ids[..|ids| - 1]) + Freed(buckets, ids[|ids| - 1])
  }

  lemma SizesPush(buckets: Buckets, ids: seq<string>, id: string)
    ensures Sizes(buckets, ids + [id]) == Sizes(buckets, ids) + Freed(buckets, id)
  {
    assert (ids + [id])[..|ids|] == ids;
  }

  lemma {:induction false} SizesFirst(buckets: Buckets, ids: seq<string>)
    requires ids != []
    ensures Sizes(buckets, ids) == Freed(buckets, ids[0]) + Sizes(buckets, ids[1..])
  {
    hide Freed;
    if |ids| > 1 {
      SizesFirst(buckets, ids[..|ids| - 1]);
      assert ids[..|ids| - 1][1..] == ids[1..][..|ids| - 2];
    } else {
      assert ids[..0] == [] == ids[1..];
    }
  }

  /** Ids to evict: each once, each of a stored object, none of them the current one. */
  predicate Chosen(buckets: Buckets, ids: seq<string>, skip: Option<string>) {
    && (forall i, j :: 0 <= i < j < |ids| ==> ids[i] != ids[j])
    && (forall i :: 0 <= i < |ids| ==> Resolve(buckets, ids[i]).Some? && skip != Some(ids[i]))
  }

  function Evicted(buckets: Buckets, id: string): Buckets {
    var split := SplitId(id);
    if Resolve(buckets, id).Some? && split.Some? && split.value.0 in buckets
    then buckets[split.value.0 := buckets[split.value.0] - {split.value.1}] else buckets
  }

  lemma EvictedIs(buckets: Buckets, id: string)
    ensures match SplitId(id)
            case Some(p) =>
              if p.0 in buckets && p.1 in buckets[p.0]
              then Freed(buckets, id) == |buckets[p.0][p.1]| && Evicted(buckets, id) == buckets[p.0 := buckets[p.0] - {p.1}]
              else Freed(buckets, id) == 0 && Evicted(buckets, id) == buckets
            case None => Freed(buckets, id) == 0 && Evicted(buckets, id) == buckets
  {
  }

  /** Evicting one id leaves the others what they lead to. */
  lemma EvictSpares(buckets: Buckets, id: string, other: string)
    requires id != other
    ensures Resolve(Evicted(buckets, id), other) == Resolve(buckets, other)
  {
    if SplitId(id).Some? && SplitId(other).Some? {
      MakeOfSplit(id);
      MakeOfSplit(other);
    }
  }

  lemma {:induction false} EvictSparesAll(buckets: Buckets, id: string, ids: seq<string>)
    requires id !in ids
    ensures Sizes(Evicted(buckets, id), ids) == Sizes(buckets, ids)
  {
    hide Resolve, Evicted;
    if ids != [] {
      EvictSparesAll(buckets, id, ids[..|ids| - 1]);
      EvictSpares(buckets, id, ids[|ids| - 1]);
    }
  }

  lemma RestChosen(buckets: Buckets, ids: seq<string>, skip: Option<string>)
    requires ids != [] && Chosen(buckets, ids, skip)
    ensures Chosen(Evicted(buckets, ids[0]), ids[1..], skip)
    ensures Sizes(Evicted(buckets, ids[0]), ids[1..]) == Sizes(buckets, ids) - Freed(buckets, ids[0])
  {
    hide Resolve, Evicted, Sizes, Freed;
    SizesFirst(buckets, ids);
    EvictSparesAll(buckets, ids[0], ids[1..]);
    forall i | 0 <= i < |ids[1..]| ensures Resolve(Evicted(buckets, ids[0]), ids[1..][i]).Some? {
      EvictSpares(buckets, ids[0], ids[i + 1]);
    }
  }

  lemma NewBucketKeepsObjects(buckets: Buckets, es: seq<Entry>, bucket: string)
    requires Holds(buckets, es) && bucket !in buckets
    ensures Holds(buckets[bucket := map[]], es)
  {
  }

  lemma RemoveKeepsObjects(buckets: Buckets, es: seq<Entry>, bucket: string, key: string)
    requires Holds(buckets, es) && bucket in buckets
    ensures Holds(buckets[bucket := buckets[bucket] - {key}], Without(es, bucket, key))
  {
    hide Without, Names;
    WithoutGone(es, bucket, key);
    var bs, fewer := buckets[bucket := buckets[bucket] - {key}], Without(es, bucket, key);
    forall b, k | b in bs && k in bs[b] ensures (b, k) in Names(fewer) {
      assert (b, k) in Names(es);
    }
  }

  lemma InsertKeepsObjects(buckets: Buckets, es: seq<Entry>, e: Entry)
    requires Holds(buckets, es) && e.bucket in buckets && (e.bucket, e.key) !in Names(es)
    ensures Holds(buckets[e.bucket := buckets[e.bucket][e.key := e.body]], es + [e])
  {
    var es', bs := es + [e], buckets[e.bucket := buckets[e.bucket][e.key := e.body]];
    assert Names(es') == Names(es) + {(e.bucket, e.key)} by {
      forall n | n in Names(es) + {(e.bucket, e.key)} ensures n in Names(es') {
        if n in Names(es) {
          var x :| x in es && (x.bucket, x.key) == n;
          assert x in es';
        } else {
          assert e in es';
        }
      }
    }
    forall x | x in es' ensures x.bucket in bs && x.key in bs[x.bucket] && bs[x.bucket][x.key] == x.body {
      if x in es {
        assert (x.bucket, x.key) in Names(es);
      }
    }
  }

  /** The object of a name, through the maps, is the one in the list. */
  lemma StoredIffNamed(buckets: Buckets, es: seq<Entry>, bucket: string, key: string)
    requires Holds(buckets, es)
    ensures bucket in buckets && key in buckets[bucket] <==> (bucket, key) in Names(es)
  {
  }

  lemma OneOfName(es: seq<Entry>, buckets: Buckets, bucket: string, key: string) returns (i: nat)
    requires Holds(buckets, es) && bucket in buckets && key in buckets[bucket]
    ensures i < |es| && es[i] == Entry(bucket, key, buckets[bucket][key])
  {
    assert (bucket, key) in Names(es);
    var e :| e in es && (e.bucket, e.key) == (bucket, key);
    i :| 0 <= i < |es| && es[i] == e;
  }

  // ------------------------------------------------------------------ the store

  class MemoryStore {
    var buckets: Buckets
    const maxBytes: int
    const evictPolicy: Policy
    var usedBytes: int
    var fifoOrder: seq<Element>
    var orderIndex: map<string, nat>
    var nextHandle: nat
    ghost var contents: seq<Entry>

    /** The maps and the counter hold `contents`. */
    ghost predicate Sound()
      reads this
    {
      Holds(buckets, contents) && Distinct(contents) && usedBytes == Size(contents) && (maxBytes > 0 ==> usedBytes <= maxBytes)
    }

    /** And the list and its index are each other's. This holds whatever names are put. */
    ghost predicate Kept()
      reads this
    {
      Sound() && Indexed(fifoOrder, orderIndex, nextHandle)
    }

    /** The list is that of the objects, which takes names that ids can carry. */
    ghost predicate Valid()
      reads this
    {
      Kept() && Listed(fifoOrder, contents)
    }

    /** Only evicting looks at the list. */
    ghost predicate Usable()
      reads this
    {
      Kept() && (Valid() || maxBytes <= 0 || evictPolicy != FIFO)
    }

    lemma ValidIsUsable()
      requires Valid()
      ensures Kept() && Usable()
    {
    }

    constructor (maxBytes: int, evictPolicy: Policy)
      ensures Valid() && contents == [] && buckets == map[]
      ensures this.maxBytes == maxBytes && this.evictPolicy == evictPolicy
    {
      this.maxBytes, this.evictPolicy := maxBytes, evictPolicy;
      buckets, usedBytes, fifoOrder, orderIndex, nextHandle, contents := map[], 0, [], map[], 0, [];
    }

    method CreateBucket(name: string)
      requires Kept()
      modifies this
      ensures Kept() && contents == old(contents) && buckets.Keys == old(buckets.Keys) + {name}
      ensures old(Valid()) ==> Valid()
      ensures fifoOrder == old(fifoOrder) && usedBytes == old(usedBytes)
      ensures forall id :: Resolve(buckets, id) == Resolve(old(buckets), id)
    {
      hide Listed, Indexed, Holds, Distinct, Size;
      if name !in buckets {
        NewBucketKeepsObjects(buckets, contents, name);
        buckets := buckets[name := map[]];
      }
    }

    method GetObject(bucket: string, key: string) returns (r: Option<bytes>)
      requires Sound()
      ensures r.Some? <==> (bucket, key) in Names(contents)
      ensures r.Some? ==> Entry(bucket, key, r.value) in contents
    {
      if bucket !in buckets || key !in buckets[bucket] { return None; }
      ghost var i := OneOfName(contents, buckets, bucket, key);
      return Some(buckets[bucket][key]);
    }

    method LookupObjectByIdLocked(id: string) returns (r: Option<bytes>)
      requires Kept()
      ensures r == Resolve(buckets, id)
      ensures Valid() ==> forall i :: 0 <= i < |contents| && IdOf(contents[i]) == id ==> r == Some(contents[i].body)
    {
      var split := SplitId(id);
      r := None;
      if split.Some? && split.value.0 in buckets && split.value.1 in buckets[split.value.0] {
        r := Some(buckets[split.value.0][split.value.1]);
      }
      if Valid() {
        forall i | 0 <= i < |contents| && IdOf(contents[i]) == id ensures r == Some(contents[i].body) {
          SplitOfMake(contents[i].bucket, contents[i].key);
          assert contents[i] in contents;
        }
      }
    }

    method RemoveObjectLocked(bucket: string, key: string) returns (removed: bool)
      requires Kept()
      modifies this
      ensures old(Valid()) ==> Valid()
      ensures Kept() && contents == Without(old(contents), bucket, key) && buckets.Keys == old(buckets.Keys)
      ensures removed <==> (bucket, key) in Names(old(contents))
      ensures removed <==> bucket in old(buckets) && key in old(buckets)[bucket]
      ensures buckets == if removed then old(buckets)[bucket := old(buckets)[bucket] - {key}] else old(buckets)
      ensures usedBytes == old(usedBytes) - if removed then |old(buckets)[bucket][key]| else 0
    {
      hide Listed, Indexed, Holds, Distinct, Size, GoodBucket, Without, Names;
      StoredIffNamed(buckets, contents, bucket, key);
      if bucket !in buckets || key !in buckets[bucket] {
        WithoutAbsent(contents, bucket, key);
        return false;
      }
      ghost var i := OneOfName(contents, buckets, bucket, key);
      var obj := buckets[bucket][key];
      var id := MakeId(bucket, key);
      if Valid() {
        NamedIsGood(fifoOrder, contents, i);
        RemoveKeepsIndex(fifoOrder, orderIndex, nextHandle, contents, bucket, key);
      }
      DetachKeepsIndex(fifoOrder, orderIndex, nextHandle, id);
      RemoveKeepsObjects(buckets, contents, bucket, key);
      WithoutDistinct(contents, bucket, key);
      SizeWithout(contents, i);
      buckets := buckets[bucket := buckets[bucket] - {key}];
      usedBytes := usedBytes - |obj|;
      fifoOrder := Detach(fifoOrder, orderIndex, id);
      orderIndex := orderIndex - {id};
      contents := Without(contents, bucket, key);
      return true;
    }

    method DeleteObject(bucket: string, key: string) returns (removed: bool)
      requires Kept()
      modifies this
      ensures old(Valid()) ==> Valid()
      ensures Kept() && contents == Without(old(contents), bucket, key) && buckets.Keys == old(buckets.Keys)
      ensures removed <==> (bucket, key) in Names(old(contents))
    {
      removed := RemoveObjectLocked(bucket, key);
    }

    method InsertObjectLocked(bucket: string, key: string, body: bytes)
      requires Kept() && (bucket, key) !in Names(contents)
      requires maxBytes > 0 ==> usedBytes + |body| <= maxBytes
      modifies this
      ensures Kept() && contents == old(contents) + [Entry(bucket, key, body)]
      ensures old(Valid()) ==> (Valid() <==> GoodBucket(bucket))
      ensures buckets.Keys == old(buckets.Keys) + {bucket}
    {
      hide Listed, Indexed, Holds, Distinct, Size, GoodBucket;
      if bucket !in buckets {
        NewBucketKeepsObjects(buckets, contents, bucket);
        buckets := buckets[bucket := map[]];
      }
      ghost var e := Entry(bucket, key, body);
      var id := MakeId(bucket, key);
      if Listed(fifoOrder, contents) && GoodBucket(bucket) {
        InsertKeepsList(fifoOrder, orderIndex, nextHandle, contents, e);
      }
      DetachKeepsIndex(fifoOrder, orderIndex, nextHandle, id);
      PushKeepsIndex(Detach(fifoOrder, orderIndex, id), orderIndex, nextHandle, id);
      InsertKeepsObjects(buckets, contents, e);
      PushKeepsDistinct(contents, e);
      SizePush(contents, e);
      buckets := buckets[bucket := buckets[bucket][key := body]];
      usedBytes := usedBytes + |body|;
      fifoOrder := Detach(fifoOrder, orderIndex, id) + [Element(nextHandle, id)];
      orderIndex := orderIndex[id := nextHandle];
      nextHandle := nextHandle + 1;
      contents := contents + [e];
      if Listed(fifoOrder, contents) {
        NamedIsGood(fifoOrder, contents, |contents| - 1);
      }
    }

    method EvictObjectByIdLocked(id: string)
      requires Kept()
      modifies this
      ensures old(Valid()) ==> Valid()
      ensures Kept() && buckets == Evicted(old(buckets), id) && buckets.Keys == old(buckets.Keys)
      ensures usedBytes == old(usedBytes) - Freed(old(buckets), id)
      ensures contents == match SplitId(id) case Some(p) => Without(old(contents), p.0, p.1) case None => old(contents)
    {
      hide Listed, Indexed, Holds, Distinct, Size, Without, Names, Resolve, Evicted, Freed, SplitId;
      EvictedIs(buckets, id);
      var split := SplitId(id);
      if split.Some? {
        var _ := RemoveObjectLocked(split.value.0, split.value.1);
      }
    }

    /** The first loop of ensureCapacityLocked: ids from the front of the list, without the current one,
        until enough bytes are counted. */
    method ChooseVictims(currentId: string, hasCurrent: bool, needFree: int, ghost e: Entry)
      returns (enough: bool, evictIds: seq<string>)
      requires Kept() && currentId == IdOf(e) && needFree > 0
      requires hasCurrent <==> (e.bucket, e.key) in Names(contents)
      ensures var skip := if hasCurrent then Some(currentId) else None;
              && Chosen(buckets, evictIds, skip)
              && (enough <==> Evictable(fifoOrder, buckets, skip) >= needFree)
              && (enough <==> Sizes(buckets, evictIds) >= needFree)
      ensures Valid() ==>
                var others := Without(contents, e.bucket, e.key);
                && |evictIds| <= |others| && (forall j :: 0 <= j < |evictIds| ==> evictIds[j] == IdOf(others[j]))
                && (enough <==> Size(others) >= needFree)
                && (enough ==> Shortest(others, |evictIds|, needFree))
    {
      hide Indexed, Holds, Distinct, Size, Without, GoodBucket, Names, SplitId, MakeId, Resolve, Evictable, Sizes;
      var freed, i := 0, 0;
      evictIds := [];
      ghost var others := Without(contents, e.bucket, e.key);
      ghost var skip := if hasCurrent then Some(currentId) else None;
      NothingVisited(contents, e);
      NothingCounted(fifoOrder, buckets, skip);
      while i < |fifoOrder| && freed < needFree
        invariant 0 <= i <= |fifoOrder|
        invariant Valid() ==>
                    && |fifoOrder| == |contents| && |evictIds| <= |others|
                    && Without(contents[..i], e.bucket, e.key) == others[..|evictIds|]
                    && (forall j :: 0 <= j < |evictIds| ==> evictIds[j] == IdOf(others[j]))
                    && freed == Size(others[..|evictIds|])
                    && (|evictIds| > 0 ==> Size(others[..|evictIds| - 1]) < needFree)
        invariant freed == Evictable(fifoOrder[..i], buckets, skip) == Sizes(buckets, evictIds)
        invariant Chosen(buckets, evictIds, skip) && FromFirst(fifoOrder, i, evictIds)
      {
        var id := fifoOrder[i].id;
        NotYet(fifoOrder, orderIndex, nextHandle, i, evictIds);
        EvictableNext(fifoOrder, buckets, skip, i);
        if Valid() {
          VisitNext(fifoOrder, contents, i, others, |evictIds|, e);
        }
        if !(hasCurrent && id == currentId) {
          var obj := LookupObjectByIdLocked(id);
          if obj.Some? {
            SizesPush(buckets, evictIds, id);
            evictIds, freed := evictIds + [id], freed + |obj.value|;
          }
        }
        i := i + 1;
      }
      enough := freed >= needFree;
      EvictableGrows(fifoOrder, buckets, skip, i);
      assert i == |fifoOrder| ==> fifoOrder[..i] == fifoOrder;
      if Valid() {
        AllVisited(contents, i, others, |evictIds|, e);
      }
    }

    /** One round of the second loop. */
    method EvictVictim(ghost ids: seq<string>, id: string, ghost skip: Option<string>, ghost e: Entry, ghost listed: bool,
                       ghost others: seq<Entry>)
      requires Kept() && ids != [] && id == ids[0] && Chosen(buckets, ids, skip)
      requires skip == if (e.bucket, e.key) in Names(contents) then Some(IdOf(e)) else None
      requires listed ==> Valid() && others != [] && id == IdOf(others[0]) && Without(contents, e.bucket, e.key) == others
      modifies this
      ensures Kept() && buckets.Keys == old(buckets.Keys) && (forall x <- contents :: x in old(contents))
      ensures Chosen(buckets, ids[1..], skip)
      ensures usedBytes - Sizes(buckets, ids[1..]) == old(usedBytes) - Sizes(old(buckets), ids)
      ensures (e.bucket, e.key) in Names(contents) <==> (e.bucket, e.key) in Names(old(contents))
      ensures Size(contents) - Size(Without(contents, e.bucket, e.key))
           == Size(old(contents)) - Size(Without(old(contents), e.bucket, e.key))
      ensures listed ==> Valid() && Without(contents, e.bucket, e.key) == others[1..]
    {
      hide Indexed, Holds, Size, GoodBucket, MakeId, SplitId, Without, Names, Resolve, Evicted, Sizes, Freed, Distinct;
      RestChosen(buckets, ids, skip);
      ghost var was := contents;
      ResolvedOther(buckets, contents, id, e);
      if listed {
        VictimIsStored(fifoOrder, contents, others, 0, e);
        SplitOfMake(others[0].bucket, others[0].key);
        assert others[0..] == others;
      }
      SizeBesides(buckets, contents, e);
      EvictObjectByIdLocked(id);
      ghost var p := SplitId(id).value;
      WithoutCommutes(was, p.0, p.1, e.bucket, e.key);
      WithoutGone(was, p.0, p.1);
      SizeBesides(buckets, contents, e);
      EvictSparesOne(old(buckets), id, e);
    }

    /** Makes room for `e`, which may replace the object of its name: counts from the front of the list
        the objects to evict, then evicts them. */
    method EnsureCapacityLocked(currentId: string, hasCurrent: bool, currentSize: int, newSize: int, ghost e: Entry)
      returns (err: Option<Error>)
      requires Kept() && currentId == IdOf(e) && newSize == |e.body|
      requires hasCurrent <==> (e.bucket, e.key) in Names(contents)
      requires currentSize == Size(contents) - Size(Without(contents, e.bucket, e.key))
      modifies this
      ensures Kept() && buckets.Keys == old(buckets.Keys) && (forall x <- contents :: x in old(contents))
      ensures hasCurrent <==> (e.bucket, e.key) in Names(contents)
      ensures err == None ==> maxBytes <= 0 || Size(Without(contents, e.bucket, e.key)) + newSize <= maxBytes
      ensures err == None <==>
                old(Makes(usedBytes - currentSize + newSize, if hasCurrent then Some(currentId) else None))
      ensures err != None ==> contents == old(contents) && err == Some(if evictPolicy == Other then UnsupportedPolicy else CapacityExceeded)
      ensures old(Valid()) ==> Valid()
      ensures old(Usable()) ==>
                var room := Room(evictPolicy, maxBytes, Without(old(contents), e.bucket, e.key), |e.body|);
                && (err == None <==> room.Some?)
                && (room.Some? ==> Without(contents, e.bucket, e.key) == room.value)
    {
      hide Listed, Indexed, Holds, Distinct, Size, Without, Trimmed, GoodBucket, Names, SplitId, Resolve, Sizes, Evictable, Chosen, MakeId;
      if maxBytes <= 0 { return None; }
      var effectiveUsed := usedBytes;
      if hasCurrent {
        effectiveUsed := effectiveUsed - currentSize;
      } else {
        WithoutAbsent(contents, e.bucket, e.key);
      }
      ghost var others := Without(contents, e.bucket, e.key);
      var targetUsed := effectiveUsed + newSize;
      if targetUsed <= maxBytes { return None; }

      match evictPolicy
      case Reject => return Some(CapacityExceeded);
      case Other => return Some(UnsupportedPolicy);
      case FIFO =>
        var needFree := targetUsed - maxBytes;
        ghost var skip := if hasCurrent then Some(currentId) else None;
        var enough, evictIds := ChooseVictims(currentId, hasCurrent, needFree, e);
        if !enough { return Some(CapacityExceeded); }
        ghost var n := |evictIds|;
        ghost var listed := Valid();
        if listed {
          VictimsAreTrimmed(others, n, needFree, maxBytes - newSize);
        }
        assert others[0..] == others && evictIds[0..] == evictIds;
        var j := 0;
        while j < |evictIds|
          invariant 0 <= j <= n == |evictIds|
          invariant Kept() && buckets.Keys == old(buckets.Keys) && (forall x <- contents :: x in old(contents))
          invariant Chosen(buckets, evictIds[j..], skip)
          invariant usedBytes - Sizes(buckets, evictIds[j..]) == old(usedBytes) - Sizes(old(buckets), evictIds)
          invariant Size(contents) - Size(Without(contents, e.bucket, e.key)) == currentSize
          invariant listed ==> Valid() && n <= |others| && Without(contents, e.bucket, e.key) == others[j..]
          invariant listed ==> forall i :: 0 <= i < n ==> evictIds[i] == IdOf(others[i])
          invariant hasCurrent <==> (e.bucket, e.key) in Names(contents)
        {
          assert evictIds[j..][0] == evictIds[j] && evictIds[j..][1..] == evictIds[j + 1..];
          assert listed ==> others[j..][0] == others[j] && others[j..][1..] == others[j + 1..];
          EvictVictim(evictIds[j..], evictIds[j], skip, e, listed, if listed then others[j..] else []);
          j := j + 1;
        }
        NoSizes(buckets, evictIds[j..]);
        return None;
    }

    /** Room can be made: there is no limit, or what is then used fits it, or the list leads to enough
        that can go. */
    ghost predicate Makes(target: int, skip: Option<string>)
      reads this
    {
      maxBytes <= 0 || target <= maxBytes
      || (evictPolicy == FIFO && Evictable(fifoOrder, buckets, skip) >= target - maxBytes)
    }

    /** A put of any name: it fails exactly if no room can be made, and then nothing changes, except that
        the bucket now exists; otherwise the object is stored, once, within the limit, and nothing else is
        new. When the list is that of the objects, or is not looked at, it does what `Put` says to them.
        A name that ids cannot carry leaves the list another one. */
    method PutObject(bucket: string, key: string, body: bytes) returns (err: Option<Error>)
      requires Kept()
      modifies this
      ensures Kept() && buckets.Keys == old(buckets.Keys) + {bucket}
      ensures err == None <==>
                old(Makes(Size(Without(contents, bucket, key)) + |body|,
                          if (bucket, key) in Names(contents) then Some(MakeId(bucket, key)) else None))
      ensures err == None ==>
                && Entry(bucket, key, body) in contents
                && forall x <- contents :: x == Entry(bucket, key, body) || (x in old(contents) && !Is(x, bucket, key))
      ensures err != None ==> contents == old(contents) && err == Some(if evictPolicy == Other then UnsupportedPolicy else CapacityExceeded)
      ensures old(Valid()) ==> (Valid() <==> err.Some? || GoodBucket(bucket))
      ensures old(Usable()) ==>
                var r := Put(evictPolicy, maxBytes, old(contents), Entry(bucket, key, body));
                && (err == None <==> r.Some?)
                && (r.Some? ==> contents == r.value)
    {
      hide Listed, Indexed, Holds, Distinct, Size, Without, GoodBucket, Names, Room, Trimmed, Evictable, Resolve, MakeId;
      ghost var e := Entry(bucket, key, body);
      var newSize := |body|;
      var currentId := MakeId(bucket, key);
      CreateBucket(bucket);
      SameEvictable(fifoOrder, old(buckets), buckets, if (bucket, key) in Names(contents) then Some(currentId) else None);
      var oldExists := key in buckets[bucket];
      var oldSize := 0;
      if oldExists {
        oldSize := |buckets[bucket][key]|;
      }
      CurrentSize(buckets, contents, bucket, key);
      err := EnsureCapacityLocked(currentId, oldExists, oldSize, newSize, e);
      if err.Some? { return; }
      WithoutGone(contents, bucket, key);
      if oldExists {
        var _ := RemoveObjectLocked(bucket, key);
      } else {
        WithoutAbsent(contents, bucket, key);
      }
      InsertObjectLocked(bucket, key, body);
    }

    /** Deleting a bucket removes its name and exactly its objects. */
    method DeleteBucket(name: string) returns (ok: bool)
      requires Kept()
      modifies this
      ensures old(Valid()) ==> Valid()
      ensures Kept() && (ok <==> name in old(buckets)) && buckets.Keys == old(buckets.Keys) - {name}
      ensures contents == WithoutBucket(old(contents), name)
    {
      hide Listed, Indexed, Distinct, Size, Without, WithoutBucket;
      if name !in buckets {
        WithoutBucketSame(contents, name);
        return false;
      }
      var keys := buckets[name].Keys;
      while keys != {}
        invariant Kept() && (old(Valid()) ==> Valid()) && buckets.Keys == old(buckets.Keys)
        invariant WithoutBucket(contents, name) == WithoutBucket(old(contents), name)
        invariant forall e <- contents :: e.bucket == name ==> e.key in keys
        decreases |keys|
      {
        var key :| key in keys;
        WithoutBucketStep(contents, name, key);
        WithoutGone(contents, name, key);
        var _ := RemoveObjectLocked(name, key);
        keys := keys - {key};
      }
      WithoutBucketSame(contents, name);
      EmptyBucketGone(buckets, contents, name);
      buckets := buckets - {name};
      return true;
    }

    /** The names, once each; the source sorts them. */
    method ListBuckets() returns (names: seq<string>)
      ensures forall name :: name in names <==> name in buckets
      ensures forall i, j :: 0 <= i < j < |names| ==> names[i] != names[j]
    {
      names := [];
      var left := buckets.Keys;
      while left != {}
        invariant left <= buckets.Keys
        invariant forall name :: name in names <==> name in buckets.Keys - left
        invariant forall i, j :: 0 <= i < j < |names| ==> names[i] != names[j]
        decreases |left|
      {
        var name :| name in left;
        assert forall i :: 0 <= i < |names| ==> names[i] in names;
        names, left := names + [name], left - {name};
      }
    }
  }

  /** A list leads to no object whose bucket name ids cannot carry. */
  lemma {:induction false} NothingEvictable(order: seq<Element>, buckets: Buckets, es: seq<Entry>, skip: Option<string>)
    requires Holds(buckets, es) && forall e <- es :: !GoodBucket(e.bucket)
    ensures Evictable(order, buckets, skip) == 0
  {
    hide Holds, SplitId, GoodBucket;
    if order != [] {
      var id := order[|order| - 1].id;
      if SplitId(id).Some? {
        MakeOfSplit(id);
        StoredIffNamed(buckets, es, SplitId(id).value.0, SplitId(id).value.1);
      }
      NothingEvictable(order[..|order| - 1], buckets, es, skip);
    }
  }

  /** So an object of the empty bucket name stays in a fifo store for good: the next put is refused, where
      evicting it would have made room. */
  method NameThatCannotGo() returns (store: MemoryStore, first: Option<Error>, second: Option<Error>)
    ensures fresh(store) && first == None && second == Some(CapacityExceeded)
    ensures store.contents == [Entry("", "k", [0])] && store.maxBytes == 1 && store.evictPolicy == FIFO
    ensures Put(FIFO, 1, store.contents, Entry("b", "k", [0])) == Some([Entry("b", "k", [0])])
  {
    hide MemoryStore.Kept, MemoryStore.Valid, Put, Size, Without, MakeId;
    store := new MemoryStore(1, FIFO);
    store.ValidIsUsable();
    FirstOfTwo();
    first := store.PutObject("", "k", [0]);
    NoneToEvict(store);
    second := store.PutObject("b", "k", [0]);
  }

  lemma FirstOfTwo()
    ensures var x, y := Entry("", "k", [0]), Entry("b", "k", [0]);
            && Put(FIFO, 1, [], x) == Some([x]) && Put(FIFO, 1, [x], y) == Some([y])
            && Without([x], "b", "k") == [x] && Size([x]) == 1
  {
    var x, y := Entry("", "k", [0]), Entry("b", "k", [0]);
    assert Without([], "", "k") == [] && Size([]) == 0;
    assert [x][1..] == [];
    assert Size([x]) == 1 && Without([x], "b", "k") == [x];
    assert Trimmed([x], 0) == Trimmed([], 0) == [];
    assert [] + [x] == [x] && [] + [y] == [y];
  }

  lemma NoneToEvict(store: MemoryStore)
    requires store.Kept() && forall e <- store.contents :: !GoodBucket(e.bucket)
    ensures forall skip :: Evictable(store.fifoOrder, store.buckets, skip) == 0
  {
    forall skip ensures Evictable(store.fifoOrder, store.buckets, skip) == 0 {
      NothingEvictable(store.fifoOrder, store.buckets, store.contents, skip);
    }
  }

  lemma EmptyBucketGone(buckets: Buckets, es: seq<Entry>, name: string)
    requires Holds(buckets, es) && forall e <- es :: e.bucket != name
    ensures Holds(buckets - {name}, es)
  {
  }

  /** The bytes that replacing an object gives back. */
  lemma CurrentSize(buckets: Buckets, es: seq<Entry>, bucket: string, key: string)
    requires Holds(buckets, es) && Distinct(es) && bucket in buckets
    ensures key in buckets[bucket] <==> (bucket, key) in Names(es)
    ensures Size(es) - Size(Without(es, bucket, key)) == if key in buckets[bucket] then |buckets[bucket][key]| else 0
  {
    hide Size, Without;
    StoredIffNamed(buckets, es, bucket, key);
    if key in buckets[bucket] {
      var i := OneOfName(es, buckets, bucket, key);
      SizeWithout(es, i);
    } else {
      WithoutAbsent(es, bucket, key);
    }
  }

  lemma RoomFits(policy: Policy, maxBytes: int, others: seq<Entry>, size: nat)
    ensures var r := Room(policy, maxBytes, others, size);
            r.Some? && maxBytes > 0 ==> Size(r.value) + size <= maxBytes
  {
    if size <= maxBytes {
      TrimmedFits(others, maxBytes - size);
    }
  }

  /** n is the least number of objects from the front whose sizes add up to `needFree`. */
  predicate Shortest(others: seq<Entry>, n: nat, needFree: int) {
    n <= |others| && Size(others[..n]) >= needFree && (n > 0 ==> Size(others[..n - 1]) < needFree)
  }

  lemma NothingVisited(es: seq<Entry>, e: Entry)
    ensures Without(es[..0], e.bucket, e.key) == [] == Without(es, e.bucket, e.key)[..0]
    ensures Size(Without(es, e.bucket, e.key)[..0]) == 0
  {
  }

  lemma VisitOne(es: seq<Entry>, i: nat, others: seq<Entry>, n: nat, e: Entry)
    requires i < |es| && others == Without(es, e.bucket, e.key) && n <= |others|
    requires Without(es[..i], e.bucket, e.key) == others[..n]
    ensures Is(es[i], e.bucket, e.key) ==> Without(es[..i + 1], e.bucket, e.key) == others[..n]
    ensures !Is(es[i], e.bucket, e.key) ==>
              && n < |others| && others[n] == es[i] && Without(es[..i + 1], e.bucket, e.key) == others[..n + 1]
              && Size(others[..n + 1]) == Size(others[..n]) + |es[i].body|
  {
    WithoutConcat(es[..i], [es[i]], e.bucket, e.key);
    assert es[..i] + [es[i]] == es[..i + 1];
    WithoutConcat(es[..i + 1], es[i + 1..], e.bucket, e.key);
    assert es[..i + 1] + es[i + 1..] == es;
    if !Is(es[i], e.bucket, e.key) {
      var so := Without(es[..i + 1], e.bucket, e.key);
      assert so == others[..n] + [es[i]];
      assert others == so + Without(es[i + 1..], e.bucket, e.key);
      SizePush(others[..n], es[i]);
      assert others[..n + 1] == so;
    } else {
      assert others[..n] + [] == others[..n];
    }
  }

  lemma AllVisited(es: seq<Entry>, i: nat, others: seq<Entry>, n: nat, e: Entry)
    requires i <= |es| && others == Without(es, e.bucket, e.key) && n <= |others|
    requires Without(es[..i], e.bucket, e.key) == others[..n]
    ensures i == |es| ==> Size(others[..n]) == Size(others)
    ensures Size(others[..n]) <= Size(others)
  {
    SizeSplit(others, n);
    if i == |es| {
      assert es[..i] == es;
      assert others[..n] == others;
    }
  }

  lemma NothingCounted(order: seq<Element>, buckets: Buckets, skip: Option<string>)
    ensures Evictable(order[..0], buckets, skip) == 0 && Sizes(buckets, []) == 0
  {
  }

  lemma NoSizes(buckets: Buckets, ids: seq<string>)
    requires ids == []
    ensures Sizes(buckets, ids) == 0
  {
  }

  /** The ids chosen are among the first i of the list. */
  ghost predicate FromFirst(order: seq<Element>, i: nat, ids: seq<string>) {
    forall id <- ids :: exists m :: 0 <= m < i && m < |order| && order[m].id == id
  }

  lemma NotYet(order: seq<Element>, index: map<string, nat>, next: nat, i: nat, ids: seq<string>)
    requires Indexed(order, index, next) && i < |order| && FromFirst(order, i, ids)
    ensures order[i].id !in ids
    ensures FromFirst(order, i + 1, ids) && FromFirst(order, i + 1, ids + [order[i].id])
  {
    hide Indexed;
    if order[i].id in ids {
      var m :| 0 <= m < i && order[m].id == order[i].id;
      IdsOnce(order, index, next, m, i);
    }
    forall id | id in ids + [order[i].id] ensures exists m :: 0 <= m < i + 1 && m < |order| && order[m].id == id {
      if id == order[i].id {
      } else {
        assert id in ids;
      }
    }
    forall id | id in ids ensures exists m :: 0 <= m < i + 1 && m < |order| && order[m].id == id {
      assert id in ids + [order[i].id];
    }
  }

  lemma VisitNext(order: seq<Element>, es: seq<Entry>, i: nat, others: seq<Entry>, n: nat, e: Entry)
    requires Listed(order, es) && i < |es| && others == Without(es, e.bucket, e.key) && n <= |others|
    requires Without(es[..i], e.bucket, e.key) == others[..n]
    ensures order[i].id == IdOf(es[i])
    ensures Is(es[i], e.bucket, e.key) ==> Without(es[..i + 1], e.bucket, e.key) == others[..n]
    ensures !Is(es[i], e.bucket, e.key) ==>
              && n < |others| && others[n] == es[i] && Without(es[..i + 1], e.bucket, e.key) == others[..n + 1]
              && Size(others[..n + 1]) == Size(others[..n]) + |es[i].body|
    ensures Is(es[i], e.bucket, e.key) <==> (e.bucket, e.key) in Names(es) && order[i].id == IdOf(e)
  {
    hide Without, Size, Names, MakeId, GoodBucket;
    VisitOne(es, i, others, n, e);
    if (e.bucket, e.key) in Names(es) {
      CurrentIsGood(order, es, e);
      NamedIsGood(order, es, i);
      SameIdSameName(es, i, e);
    } else {
      assert es[i] in es;
      NotNamed(es, es[i], e);
    }
  }

  /** An id that may go leads to an object other than `e`'s. */
  lemma ResolvedOther(buckets: Buckets, es: seq<Entry>, id: string, e: Entry)
    requires Holds(buckets, es) && Resolve(buckets, id).Some?
    requires (e.bucket, e.key) in Names(es) ==> id != IdOf(e)
    ensures SplitId(id).Some? && SplitId(id).value != (e.bucket, e.key)
  {
    MakeOfSplit(id);
    if SplitId(id).value == (e.bucket, e.key) {
      StoredIffNamed(buckets, es, e.bucket, e.key);
    }
  }

  /** The size of the object of a name, through the maps. */
  function SizeOf(buckets: Buckets, bucket: string, key: string): nat {
    if bucket in buckets && key in buckets[bucket] then |buckets[bucket][key]| else 0
  }

  lemma SizeBesides(buckets: Buckets, es: seq<Entry>, e: Entry)
    requires Holds(buckets, es) && Distinct(es)
    ensures Size(es) - Size(Without(es, e.bucket, e.key)) == SizeOf(buckets, e.bucket, e.key)
  {
    hide Holds, Size, Without, Names;
    StoredIffNamed(buckets, es, e.bucket, e.key);
    if e.bucket in buckets {
      CurrentSize(buckets, es, e.bucket, e.key);
    } else {
      WithoutAbsent(es, e.bucket, e.key);
    }
  }

  lemma EvictSparesOne(buckets: Buckets, id: string, e: Entry)
    requires SplitId(id).Some? && SplitId(id).value != (e.bucket, e.key)
    ensures SizeOf(Evicted(buckets, id), e.bucket, e.key) == SizeOf(buckets, e.bucket, e.key)
  {
  }

  lemma {:induction false} SameEvictable(order: seq<Element>, a: Buckets, b: Buckets, skip: Option<string>)
    requires forall id :: Resolve(a, id) == Resolve(b, id)
    ensures Evictable(order, a, skip) == Evictable(order, b, skip)
  {
    hide Resolve;
    if order != [] {
      SameEvictable(order[..|order| - 1], a, b, skip);
    }
  }

  lemma CurrentIsGood(order: seq<Element>, es: seq<Entry>, e: Entry)
    requires Listed(order, es) && (e.bucket, e.key) in Names(es)
    ensures GoodBucket(e.bucket)
  {
    var x :| x in es && (x.bucket, x.key) == (e.bucket, e.key);
    var i :| 0 <= i < |es| && es[i] == x;
    assert GoodBucket(es[i].bucket);
  }

  lemma NotNamed(es: seq<Entry>, x: Entry, e: Entry)
    requires x in es && (e.bucket, e.key) !in Names(es)
    ensures !Is(x, e.bucket, e.key)
  {
  }

  lemma SameIdSameName(es: seq<Entry>, i: nat, e: Entry)
    requires i < |es| && GoodBucket(es[i].bucket) && GoodBucket(e.bucket)
    ensures IdOf(es[i]) == IdOf(e) <==> Is(es[i], e.bucket, e.key)
    ensures Is(es[i], e.bucket, e.key) ==> (e.bucket, e.key) in Names(es)
  {
    if IdOf(es[i]) == IdOf(e) {
      IdsApart(es[i].bucket, es[i].key, e.bucket, e.key);
    }
    assert es[i] in es;
  }

  lemma VictimIsStored(order: seq<Element>, es: seq<Entry>, others: seq<Entry>, j: nat, e: Entry)
    requires Listed(order, es) && Distinct(es) && j < |others| && Without(es, e.bucket, e.key) == others[j..]
    ensures GoodBucket(others[j].bucket) && !Is(others[j], e.bucket, e.key)
    ensures Without(others[j..], others[j].bucket, others[j].key) == others[j + 1..]
  {
    WithoutGone(es, e.bucket, e.key);
    assert others[j..][0] in others[j..];
    WithoutDistinct(es, e.bucket, e.key);
    HeadAbsent(others[j..]);
    WithoutAbsent(others[j..][1..], others[j].bucket, others[j].key);
    var i :| 0 <= i < |es| && es[i] == others[j];
    assert GoodBucket(es[i].bucket);
  }

  lemma NamedIsGood(order: seq<Element>, es: seq<Entry>, i: nat)
    requires Listed(order, es) && i < |es|
    ensures GoodBucket(es[i].bucket)
  {
  }

  lemma VictimsAreTrimmed(others: seq<Entry>, n: nat, needFree: int, room: int)
    requires needFree > 0 && Size(others) - needFree == room && Shortest(others, n, needFree)
    ensures room >= 0 && Trimmed(others, room) == others[n..]
  {
    SizeSplit(others, n);
    if n > 0 {
      SizeSplit(others, n - 1);
    }
    TrimmedAt(others, room, n);
  }
}
