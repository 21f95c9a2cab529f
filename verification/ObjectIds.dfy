/** Object ids of the in-memory store: bucket and key joined by a NUL, split at the first one. */
module ObjectIds {
  import opened Wire

  const NUL := '\0'

  function MakeId(bucket: string, key: string): string {
    bucket + [NUL] + key
  }

  /** strings.IndexByte: the first place of c, or -1. */
  function IndexOf(s: string, c: char): (i: int)
    ensures -1 <= i < |s|
    ensures i >= 0 ==> s[i] == c && c !in s[..i]
    ensures i < 0 ==> c !in s
  {
    if s == [] then -1
    else if s[0] == c then 0
    else var i := IndexOf(s[1..], c); if i < 0 then -1 else i + 1
  }

  function SplitId(id: string): Option<(string, string)> {
    var i := IndexOf(id, NUL);
    if i <= 0 then None else Some((id[..i], id[i + 1..]))
  }

  /** Bucket names that ids can carry. */
  predicate GoodBucket(bucket: string) {
    bucket != [] && NUL !in bucket
  }

  lemma FirstNul(bucket: string, key: string)
    requires NUL !in bucket
    ensures IndexOf(MakeId(bucket, key), NUL) == |bucket|
  {
    var id := MakeId(bucket, key);
    var i := IndexOf(id, NUL);
    assert id[|bucket|] == NUL;
    assert forall k :: 0 <= k < |bucket| ==> id[k] == bucket[k] != NUL;
    assert forall k :: 0 <= k < i ==> id[..i][k] != NUL;
    assert forall k :: 0 <= k < i ==> id[k] == id[..i][k];
  }

  /** Splitting gives back what was joined exactly for non-empty bucket names without a NUL. */
  lemma SplitOfMake(bucket: string, key: string)
    ensures SplitId(MakeId(bucket, key)) == Some((bucket, key)) <==> GoodBucket(bucket)
  {
    if NUL !in bucket {
      FirstNul(bucket, key);
      assert MakeId(bucket, key)[..|bucket|] == bucket;
      assert MakeId(bucket, key)[|bucket| + 1..] == key;
    }
  }

  /** And every id that splits is the join of its parts. */
  lemma MakeOfSplit(id: string)
    requires SplitId(id).Some?
    ensures var p := SplitId(id).value; MakeId(p.0, p.1) == id && GoodBucket(p.0)
  {
    var i := IndexOf(id, NUL);
    assert id == id[..i] + [id[i]] + id[i + 1..];
  }

  lemma IdsApart(b1: string, k1: string, b2: string, k2: string)
    requires GoodBucket(b1) && GoodBucket(b2) && MakeId(b1, k1) == MakeId(b2, k2)
    ensures b1 == b2 && k1 == k2
  {
    SplitOfMake(b1, k1);
    SplitOfMake(b2, k2);
  }

  /** Outside that condition: two objects with one id, and an object whose id names no bucket. */
  lemma IdsCollide()
    ensures MakeId("a\0b", "c") == MakeId("a", "b\0c") && SplitId(MakeId("", "k")) == None
  {
    assert MakeId("a\0b", "c") == ['a', NUL, 'b', NUL, 'c'] == MakeId("a", "b\0c");
    assert MakeId("", "k")[0] == NUL;
  }
}
