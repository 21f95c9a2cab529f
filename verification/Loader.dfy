/** The payload loader, as a client of the store: each directory replaces one bucket. */
module Loader {
  import opened Wire
  import opened ObjectIds
  import opened StoreSpec
  import opened Store
  import P = Protocol

  datatype File = File(key: string, body: bytes)

  /** A directory entry: a plain file, a directory that can be read, or one that cannot. */
  datatype DirEntry = PlainFile(name: string) | Folder(name: string, files: seq<File>) | Unreadable(name: string)

  datatype LoadError = NoError | Cancelled | ReadFailed | PutFailed(error: Error)

  datatype AddFolderResult = AddFolderResult(buckets: seq<string>, bucketsLoaded: nat, objectsLoaded: nat, bytesLoaded: nat)

  function EntryOf(bucket: string, f: File): Entry {
    Entry(bucket, f.key, f.body)
  }

  function EntriesOf(bucket: string, files: seq<File>): seq<Entry> {
    seq(|files|, i requires 0 <= i < |files| => EntryOf(bucket, files[i]))
  }

  /** The store after putting the files one by one until one is refused, and how many were put. */
  function PutFiles(policy: Policy, maxBytes: int, es: seq<Entry>, bucket: string, files: seq<File>): (r: (seq<Entry>, nat))
    ensures r.1 <= |files|
    decreases |files|
  {
    if files == [] then (es, 0)
    else match Put(policy, maxBytes, es, EntryOf(bucket, files[0]))
      case None => (es, 0)
      case Some(es') => var rest := PutFiles(policy, maxBytes, es', bucket, files[1..]); (rest.0, rest.1 + 1)
  }

  function Bytes(files: seq<File>): nat {
    if files == [] then 0 else |files[0].body| + Bytes(files[1..])
  }

  lemma {:induction false} BytesPush(files: seq<File>, i: nat)
    requires i < |files|
    ensures Bytes(files[..i + 1]) == Bytes(files[..i]) + |files[i].body|
  {
    if i == 0 {
      assert files[..1] == [files[0]];
      assert Bytes(files[..1]) == |files[0].body| + Bytes(files[..1][1..]);
    } else {
      BytesPush(files[1..], i - 1);
      assert files[..i + 1][1..] == files[1..][..i];
      assert files[..i][1..] == files[1..][..i - 1];
    }
  }

  lemma NoBytes(files: seq<File>)
    ensures Bytes(files[..0]) == 0
  {
  }

  lemma PutFilesNext(policy: Policy, maxBytes: int, es: seq<Entry>, bucket: string, files: seq<File>)
    requires files != []
    ensures var r := Put(policy, maxBytes, es, EntryOf(bucket, files[0]));
            && (r == None ==> PutFiles(policy, maxBytes, es, bucket, files) == (es, 0))
            && (r.Some? ==> var rest := PutFiles(policy, maxBytes, r.value, bucket, files[1..]);
                            PutFiles(policy, maxBytes, es, bucket, files) == (rest.0, rest.1 + 1))
  {
  }

  function Refusal(policy: Policy): Error {
    if policy == Other then UnsupportedPolicy else CapacityExceeded
  }

  /** The directory entries in turn: the store, the counts and the error at the end. */
  function AddAll(policy: Policy, maxBytes: int, es: seq<Entry>, result: AddFolderResult, entries: seq<DirEntry>, cancelAt: nat):
    (seq<Entry>, AddFolderResult, LoadError)
    decreases |entries|
  {
    if entries == [] then (es, result, NoError)
    else if cancelAt == 0 then (es, result, Cancelled)
    else
      var r := AddOne(policy, maxBytes, es, result, entries[0]);
      if r.2 != NoError then r else AddAll(policy, maxBytes, r.0, r.1, entries[1..], cancelAt - 1)
  }

  lemma PutNothing(policy: Policy, maxBytes: int, es: seq<Entry>, bucket: string, files: seq<File>)
    requires files == []
    ensures PutFiles(policy, maxBytes, es, bucket, files) == (es, 0)
  {
  }

  /** What the first entry does to the store and the counts: done with it, or stop with an error. */
  function AddOne(policy: Policy, maxBytes: int, es: seq<Entry>, result: AddFolderResult, e: DirEntry):
    (seq<Entry>, AddFolderResult, LoadError)
  {
    var bucket := P.Trim(e.name);
    if e.PlainFile? || bucket == [] then (es, result, NoError)
    else if e.Unreadable? then (es, result, ReadFailed)
    else
      var r := PutFiles(policy, maxBytes, WithoutBucket(es, bucket), bucket, e.files);
      var counted := result.(objectsLoaded := result.objectsLoaded + r.1, bytesLoaded := result.bytesLoaded + Bytes(e.files[..r.1]));
      if r.1 < |e.files| then (r.0, counted, PutFailed(Refusal(policy)))
      else (r.0, counted.(buckets := counted.buckets + [bucket], bucketsLoaded := counted.bucketsLoaded + 1), NoError)
  }

  // --------------------------------------------------------- what loading does

  /** Loading files into a store without a limit puts every one of them, in order, after the objects
      that are there, and those stay where they were. */
  lemma {:induction false} LoadReplacesBucket(policy: Policy, maxBytes: int, es: seq<Entry>, bucket: string, files: seq<File>)
    requires maxBytes <= 0 && Distinct(es + EntriesOf(bucket, files))
    ensures PutFiles(policy, maxBytes, es, bucket, files) == (es + EntriesOf(bucket, files), |files|)
    decreases |files|
  {
    var log := EntriesOf(bucket, files);
    if files == [] {
      assert es + log == es;
    } else {
      var e := EntryOf(bucket, files[0]);
      LogStep(es, bucket, files);
      FreshAmong(es, log);
      NotIn(es, e);
      WithoutAbsent(es, e.bucket, e.key);
      LoadReplacesBucket(policy, maxBytes, es + [e], bucket, files[1..]);
    }
  }

  lemma LogStep(es: seq<Entry>, bucket: string, files: seq<File>)
    requires files != []
    ensures var log := EntriesOf(bucket, files);
            && log != [] && log[0] == EntryOf(bucket, files[0]) && log[1..] == EntriesOf(bucket, files[1..])
            && es + log == (es + [log[0]]) + EntriesOf(bucket, files[1..])
  {
    assert EntriesOf(bucket, files)[1..] == EntriesOf(bucket, files[1..]);
  }

  /** In a bounded reject store loading succeeds exactly when everything fits together. */
  lemma {:induction false} LoadRejects(maxBytes: int, es: seq<Entry>, bucket: string, files: seq<File>)
    requires maxBytes > 0 && Size(es) <= maxBytes && Distinct(es + EntriesOf(bucket, files))
    ensures var r := PutFiles(Reject, maxBytes, es, bucket, files);
            && (r.1 == |files| <==> Size(es + EntriesOf(bucket, files)) <= maxBytes)
            && r.0 == es + EntriesOf(bucket, files[..r.1])
    decreases |files|
  {
    hide Size;
    var log := EntriesOf(bucket, files);
    if files == [] {
      assert es + log == es;
    } else {
      var e := EntryOf(bucket, files[0]);
      LogStep(es, bucket, files);
      FreshAmong(es, log);
      NotIn(es, e);
      WithoutAbsent(es, e.bucket, e.key);
      PutFilesNext(Reject, maxBytes, es, bucket, files);
      SizePush(es, e);
      SizeConcat(es + [e], log[1..]);
      if Size(es) + |e.body| <= maxBytes {
        LoadRejects(maxBytes, es + [e], bucket, files[1..]);
        var n := PutFiles(Reject, maxBytes, es + [e], bucket, files[1..]).1;
        LogStep(es, bucket, files[..n + 1]);
        assert files[..n + 1][1..] == files[1..][..n];
      } else {
        assert files[..0] == [] && es + EntriesOf(bucket, []) == es;
      }
    }
  }

  /** In a bounded fifo store loading succeeds exactly when each file fits alone; what is then in the
      store is the longest suffix that fits of what was there followed by the files, so a load that
      reports success may have evicted other buckets and its own first files. */
  lemma {:induction false} LoadEvicts(maxBytes: nat, es: seq<Entry>, bucket: string, files: seq<File>)
    requires maxBytes > 0 && Distinct(es + EntriesOf(bucket, files))
    requires forall f <- files :: |f.body| <= maxBytes
    ensures PutFiles(FIFO, maxBytes, Trimmed(es, maxBytes), bucket, files)
         == (Trimmed(es + EntriesOf(bucket, files), maxBytes), |files|)
    decreases |files|
  {
    hide Size, Trimmed, Without, Distinct;
    var log := EntriesOf(bucket, files);
    var held := Trimmed(es, maxBytes);
    if files == [] {
      assert es + log == es;
    } else {
      var e := EntryOf(bucket, files[0]);
      LogStep(es, bucket, files);
      FreshAmong(es, log);
      TrimmedNames(es, maxBytes);
      NotIn(held, e);
      WithoutAbsent(held, e.bucket, e.key);
      FifoPutTrims(maxBytes, es, e);
      PutFilesNext(FIFO, maxBytes, held, bucket, files);
      LoadEvicts(maxBytes, es + [e], bucket, files[1..]);
    }
  }

  lemma FifoPutTrims(maxBytes: nat, es: seq<Entry>, e: Entry)
    requires maxBytes > 0 && |e.body| <= maxBytes
    requires Without(Trimmed(es, maxBytes), e.bucket, e.key) == Trimmed(es, maxBytes)
    ensures Put(FIFO, maxBytes, Trimmed(es, maxBytes), e) == Some(Trimmed(es + [e], maxBytes))
  {
    TrimTwice(es, maxBytes, maxBytes - |e.body|);
    TrimPush(es, e, maxBytes);
  }

  lemma TooLargeStopsLoad(maxBytes: nat, es: seq<Entry>, bucket: string, files: seq<File>, i: nat)
    requires maxBytes > 0 && i < |files| && |files[i].body| > maxBytes
    ensures PutFiles(FIFO, maxBytes, es, bucket, files).1 <= i
    decreases |files|
  {
    if i > 0 {
      var r := Put(FIFO, maxBytes, es, EntryOf(bucket, files[0]));
      if r.Some? {
        TooLargeStopsLoad(maxBytes, r.value, bucket, files[1..], i - 1);
      }
    }
  }

  /** The objects of one bucket, in order. */
  function OfBucket(es: seq<Entry>, bucket: string): seq<Entry> {
    if es == [] then []
    else if es[0].bucket == bucket then [es[0]] + OfBucket(es[1..], bucket)
    else OfBucket(es[1..], bucket)
  }

  lemma {:induction false} OfBucketConcat(a: seq<Entry>, b: seq<Entry>, bucket: string)
    ensures OfBucket(a + b, bucket) == OfBucket(a, bucket) + OfBucket(b, bucket)
  {
    if a == [] {
      assert a + b == b;
    } else {
      var first := if a[0].bucket == bucket then [a[0]] else [];
      OfBucketConcat(a[1..], b, bucket);
      assert (a + b)[0] == a[0] && (a + b)[1..] == a[1..] + b;
      assert first + (OfBucket(a[1..], bucket) + OfBucket(b, bucket)) == first + OfBucket(a[1..], bucket) + OfBucket(b, bucket);
    }
  }

  lemma {:induction false} OfBucketWithout(es: seq<Entry>, gone: string, bucket: string)
    ensures OfBucket(WithoutBucket(es, gone), bucket) == if bucket == gone then [] else OfBucket(es, bucket)
  {
    if es != [] {
      OfBucketWithout(es[1..], gone, bucket);
    }
  }

  lemma {:induction false} OfBucketLog(bucket: string, files: seq<File>, other: string)
    ensures OfBucket(EntriesOf(bucket, files), other) == if other == bucket then EntriesOf(bucket, files) else []
  {
    if files != [] {
      LogStep([], bucket, files);
      OfBucketLog(bucket, files[1..], other);
    }
  }

  predicate KeysDiffer(files: seq<File>) {
    forall i, j :: 0 <= i < j < |files| ==> files[i].key != files[j].key
  }

  lemma LoadedDistinct(es: seq<Entry>, bucket: string, files: seq<File>)
    requires Distinct(es) && KeysDiffer(files)
    ensures Distinct(WithoutBucket(es, bucket) + EntriesOf(bucket, files))
  {
    WithoutBucketExact(es, bucket);
    WithoutBucketDistinct(es, bucket);
    var kept, log := WithoutBucket(es, bucket), EntriesOf(bucket, files);
    var all := kept + log;
    forall i, j | 0 <= i < j < |all| ensures !Is(all[i], all[j].bucket, all[j].key) {
      if i < |kept| <= j {
        assert kept[i] in kept;
      }
    }
  }

  lemma {:induction false} WithoutBucketDistinct(es: seq<Entry>, bucket: string)
    requires Distinct(es)
    ensures Distinct(WithoutBucket(es, bucket))
  {
    if es != [] {
      WithoutBucketDistinct(es[1..], bucket);
      WithoutBucketExact(es[1..], bucket);
    }
  }

  /** The bucket a directory entry is loaded into, if any. */
  predicate LoadsInto(e: DirEntry, bucket: string) {
    e.Folder? && bucket != [] && P.Trim(e.name) == bucket
  }

  /** What one directory does on a store without a limit. */
  lemma AddOneReplaces(policy: Policy, maxBytes: int, es: seq<Entry>, result: AddFolderResult, e: DirEntry, bucket: string)
    requires maxBytes <= 0 && Distinct(es) && !e.Unreadable? && (e.Folder? ==> KeysDiffer(e.files))
    ensures var r := AddOne(policy, maxBytes, es, result, e);
            && r.2 == NoError && Distinct(r.0)
            && OfBucket(r.0, bucket) == if LoadsInto(e, bucket) then EntriesOf(bucket, e.files) else OfBucket(es, bucket)
  {
    hide Distinct, KeysDiffer, WithoutBucket, OfBucket, Bytes, P.Trim, PutFiles;
    var b := P.Trim(e.name);
    if e.Folder? && b != [] {
      var kept, log := WithoutBucket(es, b), EntriesOf(b, e.files);
      LoadedDistinct(es, b, e.files);
      LoadReplacesBucket(policy, maxBytes, kept, b, e.files);
      OfBucketConcat(kept, log, bucket);
      OfBucketWithout(es, b, bucket);
      OfBucketLog(b, e.files, bucket);
    }
  }

  /** The last directory loaded into a bucket, if there is one. */
  function LastInto(entries: seq<DirEntry>, bucket: string): Option<DirEntry> {
    if entries == [] then None
    else match LastInto(entries[1..], bucket)
      case Some(e) => Some(e)
      case None => if LoadsInto(entries[0], bucket) then Some(entries[0]) else None
  }

  lemma {:induction false} LastIntoLoads(entries: seq<DirEntry>, bucket: string)
    ensures LastInto(entries, bucket).Some? ==>
              LastInto(entries, bucket).value in entries && LoadsInto(LastInto(entries, bucket).value, bucket)
  {
    if entries != [] {
      LastIntoLoads(entries[1..], bucket);
      assert entries == [entries[0]] + entries[1..];
    }
  }

  function Loaded(es: seq<Entry>, entries: seq<DirEntry>, bucket: string): seq<Entry> {
    match LastInto(entries, bucket)
    case Some(e) => if e.Folder? then EntriesOf(bucket, e.files) else []
    case None => OfBucket(es, bucket)
  }

  /** AddFolder on a store without a limit: each bucket holds exactly the files of the last directory
      of its name, whatever it held before, and buckets of other names are as they were. */
  lemma {:induction false} AddFolderReplaces(policy: Policy, maxBytes: int, es: seq<Entry>, result: AddFolderResult,
                                             entries: seq<DirEntry>, bucket: string)
    requires maxBytes <= 0 && Distinct(es)
    requires forall e <- entries :: !e.Unreadable? && (e.Folder? ==> KeysDiffer(e.files))
    ensures var r := AddAll(policy, maxBytes, es, result, entries, |entries|);
            r.2 == NoError && OfBucket(r.0, bucket) == Loaded(es, entries, bucket)
    decreases |entries|
  {
    hide Distinct, KeysDiffer, OfBucket, AddOne, EntriesOf, LoadsInto;
    if entries != [] {
      var r := AddOne(policy, maxBytes, es, result, entries[0]);
      AddOneReplaces(policy, maxBytes, es, result, entries[0], bucket);
      AddFolderReplaces(policy, maxBytes, r.0, r.1, entries[1..], bucket);
      LastIntoLoads(entries, bucket);
      if LoadsInto(entries[0], bucket) {
        FoldersLoad(entries[0], bucket);
      }
    }
  }

  lemma FoldersLoad(e: DirEntry, bucket: string)
    requires LoadsInto(e, bucket)
    ensures e.Folder?
  {
  }

  // ------------------------------------------------------- bounded stores

  lemma {:induction false} SizeOfFiles(bucket: string, files: seq<File>)
    ensures Size(EntriesOf(bucket, files)) == Bytes(files)
  {
    if files != [] {
      LogStep([], bucket, files);
      SizeOfFiles(bucket, files[1..]);
    }
  }

  lemma {:induction false} SizeOfBucket(es: seq<Entry>, bucket: string)
    ensures Size(OfBucket(es, bucket)) <= Size(es)
  {
    if es != [] {
      SizeOfBucket(es[1..], bucket);
    }
  }

  lemma {:induction false} OfOtherBuckets(es: seq<Entry>, bucket: string)
    requires forall e <- es :: e.bucket != bucket
    ensures OfBucket(es, bucket) == []
  {
    if es != [] {
      OfOtherBuckets(es[1..], bucket);
    }
  }

  /** A log put after objects of other buckets survives trimming whole exactly when it fits alone. */
  lemma LogSurvivesIff(maxBytes: nat, others: seq<Entry>, bucket: string, files: seq<File>)
    requires forall e <- others :: e.bucket != bucket
    ensures var log := EntriesOf(bucket, files);
            OfBucket(Trimmed(others + log, maxBytes), bucket) == log <==> Bytes(files) <= maxBytes
  {
    hide Size, Trimmed, OfBucket, EntriesOf, Bytes;
    var log := EntriesOf(bucket, files);
    var left := Trimmed(others + log, maxBytes);
    SizeOfFiles(bucket, files);
    TrimmedFits(others + log, maxBytes);
    SizeOfBucket(left, bucket);
    if Bytes(files) <= maxBytes {
      var n := TrimmedIsSuffix(others + log, maxBytes);
      assert (others + log)[|others|..] == log;
      assert n <= |others|;
      assert left == others[n..] + log;
      OfBucketConcat(others[n..], log, bucket);
      OfOtherBuckets(others[n..], bucket);
      OfBucketLog(bucket, files, bucket);
    }
  }

  lemma FittingIsUntrimmed(es: seq<Entry>, room: nat)
    ensures Trimmed(es, room) == es <==> Size(es) <= room
  {
    TrimmedFits(es, room);
  }

  lemma {:induction false} WithoutBucketSmaller(es: seq<Entry>, bucket: string)
    ensures Size(WithoutBucket(es, bucket)) <= Size(es)
  {
    if es != [] {
      WithoutBucketSmaller(es[1..], bucket);
    }
  }

  predicate EachFits(maxBytes: nat, files: seq<File>) {
    forall f <- files :: |f.body| <= maxBytes
  }

  /** One directory in a bounded fifo store: loading it reports success if and only if each of its
      files fits alone, and then its bucket holds all of them if and only if they fit together. */
  lemma FifoKeepsBucketIff(maxBytes: nat, es: seq<Entry>, result: AddFolderResult, e: DirEntry)
    requires maxBytes > 0 && Distinct(es) && Size(es) <= maxBytes
    requires e.Folder? && P.Trim(e.name) != [] && KeysDiffer(e.files)
    ensures var b, r := P.Trim(e.name), AddOne(FIFO, maxBytes, es, result, e);
            && (r.2 == NoError <==> EachFits(maxBytes, e.files))
            && (r.2 == NoError ==> r.0 == Trimmed(WithoutBucket(es, b) + EntriesOf(b, e.files), maxBytes))
            && (r.2 == NoError ==> (OfBucket(r.0, b) == EntriesOf(b, e.files) <==> Bytes(e.files) <= maxBytes))
  {
    hide Size, Trimmed, OfBucket, EntriesOf, Bytes, Distinct, KeysDiffer, WithoutBucket, PutFiles, P.Trim, EachFits;
    var b := P.Trim(e.name);
    var kept := WithoutBucket(es, b);
    if EachFits(maxBytes, e.files) {
      FilesFit(maxBytes, e.files);
      LoadedDistinct(es, b, e.files);
      WithoutBucketSmaller(es, b);
      FittingIsUntrimmed(kept, maxBytes);
      LoadEvicts(maxBytes, kept, b, e.files);
      WithoutBucketExact(es, b);
      LogSurvivesIff(maxBytes, kept, b, e.files);
    } else {
      var i := Unfit(maxBytes, e.files);
      TooLargeStopsLoad(maxBytes, kept, b, e.files, i);
    }
  }

  lemma FilesFit(maxBytes: nat, files: seq<File>)
    requires EachFits(maxBytes, files)
    ensures forall f <- files :: |f.body| <= maxBytes
  {
  }

  lemma Unfit(maxBytes: nat, files: seq<File>) returns (i: nat)
    requires !EachFits(maxBytes, files)
    ensures i < |files| && |files[i].body| > maxBytes
  {
    var f :| f in files && |f.body| > maxBytes;
    i :| 0 <= i < |files| && files[i] == f;
  }

  /** A load that reports success and has lost its first file. */
  lemma LoadLosesFile()
    ensures var e := Folder("b", [File("x", [0]), File("y", [0])]);
            var r := AddOne(FIFO, 1, [], AddFolderResult([], 0, 0, 0), e);
            && r.2 == NoError && r.1.objectsLoaded == 2
            && OfBucket(r.0, "b") == [Entry("b", "y", [0])]
  {
    var x, y := File("x", [0]), File("y", [0]);
    var ex, ey := EntryOf("b", x), EntryOf("b", y);
    assert P.Trim("b") == "b";
    LoadedDistinct([], "b", [x, y]);
    assert WithoutBucket([], "b") == [];
    LoadEvicts(1, [], "b", [x, y]);
    assert [] + EntriesOf("b", [x, y]) == [ex, ey];
    assert [ex, ey][1..] == [ey] && Size([ey]) == 1;
    assert Size([ex, ey]) == 2;
    TrimmedAt([ex, ey], 1, 1);
    assert Trimmed([], 1) == [];
  }

  /** What a run of directories puts, one after another. */
  function Puts(entries: seq<DirEntry>): seq<Entry> {
    if entries == [] then [] else PutsOf(entries[0]) + Puts(entries[1..])
  }

  function PutsOf(e: DirEntry): seq<Entry> {
    if e.Folder? && P.Trim(e.name) != [] then EntriesOf(P.Trim(e.name), e.files) else []
  }

  /** No directory loads into a bucket that holds something or that another one loads into. */
  ghost predicate NewBuckets(es: seq<Entry>, entries: seq<DirEntry>) {
    && (forall i, e :: 0 <= i < |entries| && e in es ==> !LoadsInto(entries[i], e.bucket))
    && (forall i, j, b :: 0 <= i < j < |entries| && LoadsInto(entries[i], b) ==> !LoadsInto(entries[j], b))
  }

  ghost predicate Loadable(maxBytes: nat, e: DirEntry) {
    !e.Unreadable? && (e.Folder? ==> KeysDiffer(e.files) && EachFits(maxBytes, e.files))
  }

  lemma NewBucketsStep(es: seq<Entry>, entries: seq<DirEntry>)
    requires entries != [] && NewBuckets(es, entries)
    ensures NewBuckets(es + PutsOf(entries[0]), entries[1..])
    ensures forall e <- es :: !LoadsInto(entries[0], e.bucket)
  {
    var e0 := entries[0];
    forall i, e | 0 <= i < |entries[1..]| && e in es + PutsOf(e0) ensures !LoadsInto(entries[1..][i], e.bucket) {
      assert entries[1..][i] == entries[i + 1];
      if e !in es {
        assert LoadsInto(e0, e.bucket);
      }
    }
  }

  /** What one directory puts into a new bucket, and that no bucket had to be emptied for it. */
  lemma AddOneNew(policy: Policy, maxBytes: nat, held: seq<Entry>, result: AddFolderResult, e: DirEntry)
    requires !e.Unreadable? && forall x <- held :: !LoadsInto(e, x.bucket)
    ensures var r, b := AddOne(policy, maxBytes, held, result, e), P.Trim(e.name);
            if e.Folder? && b != [] then
              var p := PutFiles(policy, maxBytes, held, b, e.files);
              PutsOf(e) == EntriesOf(b, e.files) && r.0 == p.0 && (r.2 == NoError <==> p.1 == |e.files|)
            else PutsOf(e) == [] && r.0 == held && r.2 == NoError
  {
    hide P.Trim, EntriesOf, PutFiles, Bytes;
    var b := P.Trim(e.name);
    if e.Folder? && b != [] {
      WithoutBucketSame(held, b);
    }
  }

  lemma NewPutsDistinct(es: seq<Entry>, e: DirEntry)
    requires Distinct(es) && (e.Folder? ==> KeysDiffer(e.files))
    requires forall x <- es :: !LoadsInto(e, x.bucket)
    ensures Distinct(es + PutsOf(e))
  {
    hide P.Trim, EntriesOf, Distinct, KeysDiffer;
    if e.Folder? && P.Trim(e.name) != [] {
      WithoutBucketSame(es, P.Trim(e.name));
      LoadedDistinct(es, P.Trim(e.name), e.files);
    } else {
      assert es + [] == es;
    }
  }

  /** Several directories in a bounded fifo store, each into a new bucket: the load reports success,
      and leaves the longest suffix that fits of what was there followed by everything put. */
  lemma {:induction false} AddFolderEvicts(maxBytes: nat, es: seq<Entry>, result: AddFolderResult, entries: seq<DirEntry>)
    requires maxBytes > 0 && Distinct(es) && NewBuckets(es, entries) && forall e <- entries :: Loadable(maxBytes, e)
    ensures var r := AddAll(FIFO, maxBytes, Trimmed(es, maxBytes), result, entries, |entries|);
            r.2 == NoError && r.0 == Trimmed(es + Puts(entries), maxBytes)
    decreases |entries|
  {
    hide Size, Trimmed, EntriesOf, Bytes, Distinct, KeysDiffer, PutFiles, P.Trim, EachFits, NewBuckets, LoadsInto, AddOne, PutsOf;
    if entries == [] {
      assert es + [] == es;
    } else {
      var e, held := entries[0], Trimmed(es, maxBytes);
      assert e in entries && Loadable(maxBytes, e);
      NewBucketsStep(es, entries);
      TrimmedNames(es, maxBytes);
      AddOneNew(FIFO, maxBytes, held, result, e);
      NewPutsDistinct(es, e);
      if e.Folder? && P.Trim(e.name) != [] {
        FilesFit(maxBytes, e.files);
        LoadEvicts(maxBytes, es, P.Trim(e.name), e.files);
      } else {
        assert es + [] == es;
      }
      var r := AddOne(FIFO, maxBytes, held, result, e);
      AddFolderEvicts(maxBytes, es + PutsOf(e), r.1, entries[1..]);
      assert (es + PutsOf(e)) + Puts(entries[1..]) == es + Puts(entries);
    }
  }

  /** So nothing that was there or was put is lost if and only if all of it fits together. */
  lemma AddFolderKeepsAllIff(maxBytes: nat, es: seq<Entry>, result: AddFolderResult, entries: seq<DirEntry>)
    requires maxBytes > 0 && Distinct(es) && Size(es) <= maxBytes
    requires NewBuckets(es, entries) && forall e <- entries :: Loadable(maxBytes, e)
    ensures var r := AddAll(FIFO, maxBytes, es, result, entries, |entries|);
            r.0 == es + Puts(entries) <==> Size(es) + Size(Puts(entries)) <= maxBytes
  {
    hide Size, Trimmed, Puts, AddAll, NewBuckets, Loadable;
    FittingIsUntrimmed(es, maxBytes);
    AddFolderEvicts(maxBytes, es, result, entries);
    FittingIsUntrimmed(es + Puts(entries), maxBytes);
    SizeConcat(es, Puts(entries));
  }

  lemma AddOneRejects(maxBytes: nat, es: seq<Entry>, result: AddFolderResult, e: DirEntry)
    requires maxBytes > 0 && Distinct(es) && Size(es) <= maxBytes && forall x <- es :: !LoadsInto(e, x.bucket)
    requires !e.Unreadable? && (e.Folder? ==> KeysDiffer(e.files))
    ensures var r := AddOne(Reject, maxBytes, es, result, e);
            && (r.2 == NoError <==> Size(es + PutsOf(e)) <= maxBytes)
            && (r.2 == NoError ==> r.0 == es + PutsOf(e))
    ensures Distinct(es + PutsOf(e))
  {
    hide Size, EntriesOf, Bytes, Distinct, KeysDiffer, PutFiles, P.Trim, AddOne, PutsOf;
    AddOneNew(Reject, maxBytes, es, result, e);
    NewPutsDistinct(es, e);
    if e.Folder? && P.Trim(e.name) != [] {
      LoadRejects(maxBytes, es, P.Trim(e.name), e.files);
      assert e.files[..|e.files|] == e.files;
    } else {
      assert es + [] == es;
    }
  }

  /** Several directories in a bounded reject store, each into a new bucket: the load reports success
      if and only if everything fits together, and then everything is there. */
  lemma {:induction false} AddFolderRejects(maxBytes: nat, es: seq<Entry>, result: AddFolderResult, entries: seq<DirEntry>)
    requires maxBytes > 0 && Distinct(es) && Size(es) <= maxBytes && NewBuckets(es, entries)
    requires forall e <- entries :: !e.Unreadable? && (e.Folder? ==> KeysDiffer(e.files))
    ensures var r := AddAll(Reject, maxBytes, es, result, entries, |entries|);
            && (r.2 == NoError <==> Size(es) + Size(Puts(entries)) <= maxBytes)
            && (r.2 == NoError ==> r.0 == es + Puts(entries))
    decreases |entries|
  {
    hide Size, Distinct, KeysDiffer, NewBuckets, LoadsInto, AddOne, PutsOf;
    if entries == [] {
      NoPuts();
      assert es + [] == es;
    } else {
      var e := entries[0];
      NewBucketsStep(es, entries);
      AddOneRejects(maxBytes, es, result, e);
      SizeConcat(es, PutsOf(e));
      SizeConcat(PutsOf(e), Puts(entries[1..]));
      var r := AddOne(Reject, maxBytes, es, result, e);
      if r.2 == NoError {
        AddFolderRejects(maxBytes, es + PutsOf(e), r.1, entries[1..]);
        assert (es + PutsOf(e)) + Puts(entries[1..]) == es + Puts(entries);
      }
    }
  }

  lemma NoPuts()
    ensures Size(Puts([])) == 0
  {
  }

  // ----------------------------------------------- what a load reports

  predicate Loads(e: DirEntry) {
    e.Folder? && P.Trim(e.name) != []
  }

  /** A directory with a name that cannot be read. */
  predicate Fails(e: DirEntry) {
    e.Unreadable? && P.Trim(e.name) != []
  }

  /** The trimmed names of the directories that load, in order. */
  function LoadedNames(entries: seq<DirEntry>): seq<string> {
    if entries == [] then []
    else (if Loads(entries[0]) then [P.Trim(entries[0].name)] else []) + LoadedNames(entries[1..])
  }

  /** The store after these directories have all gone in whole, if they can. */
  function StoredAll(policy: Policy, maxBytes: int, es: seq<Entry>, entries: seq<DirEntry>): Option<seq<Entry>>
    decreases |entries|
  {
    if entries == [] then Some(es)
    else if !Loads(entries[0]) then StoredAll(policy, maxBytes, es, entries[1..])
    else
      var b, files := P.Trim(entries[0].name), entries[0].files;
      var r := PutFiles(policy, maxBytes, WithoutBucket(es, b), b, files);
      if r.1 == |files| then StoredAll(policy, maxBytes, r.0, entries[1..]) else None
  }

  /** What is to be reported of directories that have gone in whole, and of `more` objects after them:
      how many objects they hold and of how many bytes, and which buckets. */
  function Report(before: AddFolderResult, entries: seq<DirEntry>, more: seq<Entry>): AddFolderResult {
    AddFolderResult(before.buckets + LoadedNames(entries), before.bucketsLoaded + |LoadedNames(entries)|,
                    before.objectsLoaded + |Puts(entries) + more|, before.bytesLoaded + Size(Puts(entries) + more))
  }

  /** Where and why a load stopped, what it has stored and what it has counted by then: `n` directory
      entries whole, and of the next directory the first `j` files. */
  predicate Stopped(policy: Policy, maxBytes: int, es: seq<Entry>, before: AddFolderResult, entries: seq<DirEntry>,
                    cancelAt: nat, r: (seq<Entry>, AddFolderResult, LoadError), n: nat, j: nat)
  {
    && n <= |entries| && n <= cancelAt
    && (forall i :: 0 <= i < n ==> !Fails(entries[i]))
    && StoredAll(policy, maxBytes, es, entries[..n]).Some?
    && var stored := StoredAll(policy, maxBytes, es, entries[..n]).value;
       match r.2
       case NoError => n == |entries| && r.0 == stored && r.1 == Report(before, entries, [])
       case Cancelled => n == cancelAt < |entries| && r.0 == stored && r.1 == Report(before, entries[..n], [])
       case ReadFailed => n < |entries| && n < cancelAt && Fails(entries[n]) && r.0 == stored && r.1 == Report(before, entries[..n], [])
       case PutFailed(e) =>
         && n < |entries| && n < cancelAt && Loads(entries[n]) && j < |entries[n].files| && e == Refusal(policy)
         && var b := P.Trim(entries[n].name);
            && PutFiles(policy, maxBytes, WithoutBucket(stored, b), b, entries[n].files) == (r.0, j)
            && r.1 == Report(before, entries[..n], EntriesOf(b, entries[n].files[..j]))
  }

  /** The first entry: passed over, loaded whole, or the end of the load. */
  lemma AddOneStops(policy: Policy, maxBytes: int, es: seq<Entry>, before: AddFolderResult, e: DirEntry) returns (j: nat)
    ensures var r := AddOne(policy, maxBytes, es, before, e);
            match r.2
            case NoError => !Fails(e) && StoredAll(policy, maxBytes, es, [e]) == Some(r.0) && r.1 == Report(before, [e], [])
            case Cancelled => false
            case ReadFailed => Fails(e) && r.0 == es && r.1 == before
            case PutFailed(x) =>
              && Loads(e) && j < |e.files| && x == Refusal(policy) && StoredAll(policy, maxBytes, es, [e]) == None
              && var b := P.Trim(e.name);
                 && PutFiles(policy, maxBytes, WithoutBucket(es, b), b, e.files) == (r.0, j)
                 && r.1 == Report(before, [], EntriesOf(b, e.files[..j]))
  {
    hide P.Trim, PutFiles, WithoutBucket, Size, Bytes, EntriesOf;
    var b := P.Trim(e.name);
    j := 0;
    OneReport(before, e);
    StoredOne(policy, maxBytes, es, e);
    if Loads(e) {
      j := PutFiles(policy, maxBytes, WithoutBucket(es, b), b, e.files).1;
      SizeOfFiles(b, e.files[..j]);
      SizeOfFiles(b, e.files);
      LogLength(b, e.files[..j]);
      LogLength(b, e.files);
      assert e.files[..|e.files|] == e.files;
      NoReport(before, EntriesOf(b, e.files[..j]));
    }
  }

  lemma StoredOne(policy: Policy, maxBytes: int, es: seq<Entry>, e: DirEntry)
    ensures StoredAll(policy, maxBytes, es, [e])
         == if !Loads(e) then Some(es)
            else var r := PutFiles(policy, maxBytes, WithoutBucket(es, P.Trim(e.name)), P.Trim(e.name), e.files);
                 if r.1 == |e.files| then Some(r.0) else None
  {
    hide PutFiles, WithoutBucket, P.Trim;
    assert [e][1..] == [];
  }

  lemma LogLength(bucket: string, files: seq<File>)
    ensures |EntriesOf(bucket, files)| == |files|
  {
  }

  lemma OneReport(before: AddFolderResult, e: DirEntry)
    ensures Report(before, [e], []) == if !Loads(e) then before else
              before.(buckets := before.buckets + [P.Trim(e.name)], bucketsLoaded := before.bucketsLoaded + 1,
                      objectsLoaded := before.objectsLoaded + |EntriesOf(P.Trim(e.name), e.files)|,
                      bytesLoaded := before.bytesLoaded + Size(EntriesOf(P.Trim(e.name), e.files)))
  {
    hide P.Trim, EntriesOf;
    assert [e][1..] == [];
    assert LoadedNames([e]) == if Loads(e) then [P.Trim(e.name)] else [];
    assert Puts([e]) + [] == PutsOf(e);
    assert before.buckets + [] == before.buckets;
  }

  lemma NoReport(before: AddFolderResult, more: seq<Entry>)
    ensures Report(before, [], more)
         == before.(objectsLoaded := before.objectsLoaded + |more|, bytesLoaded := before.bytesLoaded + Size(more))
  {
    assert [] + more == more && before.buckets + [] == before.buckets;
  }

  /** Reports of one run of directories after another add up. */
  lemma ReportsAdd(before: AddFolderResult, e: DirEntry, rest: seq<DirEntry>, more: seq<Entry>)
    ensures Report(Report(before, [e], []), rest, more) == Report(before, [e] + rest, more)
  {
    hide P.Trim, EntriesOf, Size, PutsOf, Loads;
    var all := [e] + rest;
    assert all[0] == e && all[1..] == rest && [e][1..] == [];
    assert Puts([e]) + [] == PutsOf(e);
    SizeConcat(PutsOf(e), Puts(rest) + more);
    assert Puts(all) + more == PutsOf(e) + (Puts(rest) + more);
    assert LoadedNames(all) == LoadedNames([e]) + LoadedNames(rest);
    assert (before.buckets + LoadedNames([e])) + LoadedNames(rest) == before.buckets + LoadedNames(all);
  }

  /** For all entries, all starting counts, any limit, any policy and any cancellation. */
  lemma {:induction false} LoadStops(policy: Policy, maxBytes: int, es: seq<Entry>, before: AddFolderResult,
                                     entries: seq<DirEntry>, cancelAt: nat) returns (n: nat, j: nat)
    ensures Stopped(policy, maxBytes, es, before, entries, cancelAt, AddAll(policy, maxBytes, es, before, entries, cancelAt), n, j)
    decreases |entries|
  {
    hide AddOne, PutFiles, WithoutBucket, P.Trim, Size, EntriesOf, Report, Loads, Fails;
    n, j := 0, 0;
    assert entries[..0] == [];
    NothingReported(before);
    if entries != [] && cancelAt > 0 {
      var e, rest := entries[0], entries[1..];
      assert [e] + rest == entries;
      var r := AddOne(policy, maxBytes, es, before, e);
      j := AddOneStops(policy, maxBytes, es, before, e);
      if r.2 == NoError {
        var k;
        k, j := LoadStops(policy, maxBytes, r.0, r.1, rest, cancelAt - 1);
        n := k + 1;
        StoppedLater(policy, maxBytes, es, before, e, r.0, rest, cancelAt - 1,
                     AddAll(policy, maxBytes, r.0, r.1, rest, cancelAt - 1), k, j);
      }
    }
  }

  /** One more directory before it, gone in whole. */
  lemma StoppedLater(policy: Policy, maxBytes: int, es: seq<Entry>, before: AddFolderResult, e: DirEntry, es': seq<Entry>,
                     rest: seq<DirEntry>, cancelAt: nat, r: (seq<Entry>, AddFolderResult, LoadError), k: nat, j: nat)
    requires !Fails(e) && StoredAll(policy, maxBytes, es, [e]) == Some(es')
    requires Stopped(policy, maxBytes, es', Report(before, [e], []), rest, cancelAt, r, k, j)
    ensures Stopped(policy, maxBytes, es, before, [e] + rest, cancelAt + 1, r, k + 1, j)
  {
    hide PutFiles, WithoutBucket, P.Trim, Size, EntriesOf, Report, Fails, StoredAll;
    var entries := [e] + rest;
    assert entries[..k + 1] == [e] + rest[..k];
    assert rest[..|rest|] == rest;
    assert k < |rest| ==> entries[k + 1] == rest[k];
    forall i | 0 <= i < k + 1 ensures !Fails(entries[i]) {
      assert i > 0 ==> entries[i] == rest[i - 1];
    }
    StoredFirst(policy, maxBytes, es, e, rest[..k]);
    ReportsAdd(before, e, rest[..k], []);
    ReportsAdd(before, e, rest, []);
    if r.2.PutFailed? {
      ReportsAdd(before, e, rest[..k], EntriesOf(P.Trim(rest[k].name), rest[k].files[..j]));
    }
  }

  lemma NothingReported(before: AddFolderResult)
    ensures Report(before, [], []) == before
  {
    assert before.buckets + [] == before.buckets && Puts([]) + [] == [];
  }

  lemma StoredFirst(policy: Policy, maxBytes: int, es: seq<Entry>, e: DirEntry, rest: seq<DirEntry>)
    ensures StoredAll(policy, maxBytes, es, [e] + rest)
         == match StoredAll(policy, maxBytes, es, [e])
            case Some(s) => StoredAll(policy, maxBytes, s, rest)
            case None => None
  {
    hide PutFiles, WithoutBucket, P.Trim;
    StoredOne(policy, maxBytes, es, e);
    assert ([e] + rest)[1..] == rest;
  }

  /** A load reports success if and only if it is not cancelled before the last entry, no directory is
      unreadable, and every directory goes in whole. */
  lemma {:induction false} LoadSucceedsIff(policy: Policy, maxBytes: int, es: seq<Entry>, before: AddFolderResult,
                                           entries: seq<DirEntry>, cancelAt: nat)
    ensures AddAll(policy, maxBytes, es, before, entries, cancelAt).2 == NoError
            <==> |entries| <= cancelAt && (forall e <- entries :: !Fails(e)) && StoredAll(policy, maxBytes, es, entries).Some?
    decreases |entries|
  {
    hide AddOne, PutFiles, WithoutBucket, P.Trim, Report, Loads, Fails;
    if entries != [] {
      var e, rest := entries[0], entries[1..];
      assert [e] + rest == entries;
      var r := AddOne(policy, maxBytes, es, before, e);
      var j := AddOneStops(policy, maxBytes, es, before, e);
      StoredFirst(policy, maxBytes, es, e, rest);
      if r.2 == NoError && cancelAt > 0 {
        LoadSucceedsIff(policy, maxBytes, r.0, r.1, rest, cancelAt - 1);
      }
    }
  }

  lemma {:induction false} TrimKeepsNulOut(s: string)
    requires NUL !in s
    ensures NUL !in P.Trim(s)
    decreases |s|
  {
    if s != [] {
      if P.IsSpace(s[0]) {
        TrimKeepsNulOut(s[1..]);
      } else if P.IsSpace(s[|s| - 1]) {
        TrimKeepsNulOut(s[..|s| - 1]);
      }
    }
  }

  // ---------------------------------------------------------------- the loader

  class PayloadLoader {
    const store: MemoryStore

    constructor (store: MemoryStore)
      ensures this.store == store
    {
      this.store := store;
    }

    /** The inner loop of AddFolder. */
    method PutFolderFiles(bucket: string, files: seq<File>) returns (n: nat, bytes: nat, err: Option<Error>)
      requires store.Valid() && GoodBucket(bucket)
      modifies store
      ensures store.Valid() && store.buckets.Keys <= old(store.buckets.Keys) + {bucket}
      ensures bucket in old(store.buckets) ==> store.buckets.Keys == old(store.buckets.Keys)
      ensures (store.contents, n) == PutFiles(store.evictPolicy, store.maxBytes, old(store.contents), bucket, files)
      ensures bytes == Bytes(files[..n]) && err == if n == |files| then None else Some(Refusal(store.evictPolicy))
    {
      hide Put, PutFiles, Bytes, GoodBucket, MemoryStore.Valid, MemoryStore.Kept, MemoryStore.Usable, MemoryStore.Makes;
      n, bytes, err := 0, 0, None;
      NoBytes(files);
      while n < |files|
        invariant 0 <= n <= |files| && err == None && store.Valid() && bytes == Bytes(files[..n])
        invariant store.buckets.Keys <= old(store.buckets.Keys) + {bucket}
        invariant bucket in old(store.buckets) ==> store.buckets.Keys == old(store.buckets.Keys)
        invariant var rest := PutFiles(store.evictPolicy, store.maxBytes, store.contents, bucket, files[n..]);
                  PutFiles(store.evictPolicy, store.maxBytes, old(store.contents), bucket, files) == (rest.0, rest.1 + n)
      {
        PutFilesNext(store.evictPolicy, store.maxBytes, store.contents, bucket, files[n..]);
        store.ValidIsUsable();
        err := store.PutObject(bucket, files[n].key, files[n].body);
        if err.Some? { return; }
        BytesPush(files, n);
        assert files[n..][1..] == files[n + 1..];
        n, bytes := n + 1, bytes + |files[n].body|;
      }
      PutNothing(store.evictPolicy, store.maxBytes, store.contents, bucket, files[n..]);
    }

    /** DeleteBucket, CreateBucket, then the puts. */
    method LoadBucket(bucket: string, files: seq<File>) returns (n: nat, bytes: nat, err: Option<Error>)
      requires store.Valid() && GoodBucket(bucket)
      modifies store
      ensures store.Valid() && store.buckets.Keys == old(store.buckets.Keys) + {bucket}
      ensures (store.contents, n)
           == PutFiles(store.evictPolicy, store.maxBytes, WithoutBucket(old(store.contents), bucket), bucket, files)
      ensures bytes == Bytes(files[..n]) && err == if n == |files| then None else Some(Refusal(store.evictPolicy))
    {
      hide PutFiles, Bytes, GoodBucket;
      var _ := store.DeleteBucket(bucket);
      store.CreateBucket(bucket);
      n, bytes, err := PutFolderFiles(bucket, files);
    }

    /** The body of AddFolder's loop. */
    method AddEntry(entry: DirEntry, before: AddFolderResult) returns (result: AddFolderResult, err: LoadError)
      requires store.Valid() && NUL !in entry.name
      modifies store
      ensures store.Valid() && store.buckets.Keys == old(store.buckets.Keys) + if Loads(entry) then {P.Trim(entry.name)} else {}
      ensures (store.contents, result, err) == AddOne(store.evictPolicy, store.maxBytes, old(store.contents), before, entry)
    {
      hide PutFiles, Bytes, WithoutBucket, P.Trim, MemoryStore.Valid;
      result := before;
      var bucket := P.Trim(entry.name);
      if entry.PlainFile? || bucket == [] { return result, NoError; }
      if entry.Unreadable? { return result, ReadFailed; }
      TrimKeepsNulOut(entry.name);
      var n, bytes, failed := LoadBucket(bucket, entry.files);
      result := result.(objectsLoaded := result.objectsLoaded + n, bytesLoaded := result.bytesLoaded + bytes);
      if failed.Some? { return result, PutFailed(failed.value); }
      result := result.(buckets := result.buckets + [bucket], bucketsLoaded := result.bucketsLoaded + 1);
      return result, NoError;
    }

    /** Entries in turn, until one fails or the context is cancelled (before entry `cancelAt`). */
    method AddFolder(entries: seq<DirEntry>, cancelAt: nat) returns (result: AddFolderResult, err: LoadError)
      requires store.Valid() && forall e <- entries :: NUL !in e.name
      modifies store
      ensures store.Valid() && store.buckets.Keys >= old(store.buckets.Keys) + NamesFrom(result.buckets, 0)
      ensures !err.PutFailed? ==> store.buckets.Keys == old(store.buckets.Keys) + NamesFrom(result.buckets, 0)
      ensures (store.contents, result, err)
           == AddAll(store.evictPolicy, store.maxBytes, old(store.contents), AddFolderResult([], 0, 0, 0), entries, cancelAt)
    {
      hide AddOne, MemoryStore.Valid;
      result, err := AddFolderResult([], 0, 0, 0), NoError;
      var i := 0;
      while i < |entries|
        invariant 0 <= i <= |entries| && store.Valid() && err == NoError && (i > 0 ==> i <= cancelAt)
        invariant store.buckets.Keys == old(store.buckets.Keys) + NamesFrom(result.buckets, 0)
        invariant AddAll(store.evictPolicy, store.maxBytes, old(store.contents), AddFolderResult([], 0, 0, 0), entries, cancelAt)
               == AddAll(store.evictPolicy, store.maxBytes, store.contents, result, entries[i..], cancelAt - i)
      {
        if i == cancelAt { return result, Cancelled; }
        var entry := entries[i];
        assert entries[i..][0] == entry && entries[i..][1..] == entries[i + 1..];
        AddOneNames(store.evictPolicy, store.maxBytes, store.contents, result, entry);
        result, err := AddEntry(entry, result);
        if err != NoError { return; }
        i := i + 1;
      }
    }

    /** Every bucket and every object goes. */
    method ClearAll() returns (deleted: nat)
      requires store.Valid()
      modifies store
      ensures store.Valid() && store.buckets == map[] && store.contents == [] && deleted == |old(store.buckets.Keys)|
    {
      var names := store.ListBuckets();
      deleted := 0;
      var i := 0;
      while i < |names|
        invariant 0 <= i <= |names| && deleted == i && store.Valid()
        invariant store.buckets.Keys == NamesFrom(names, i)
        invariant forall i, j :: 0 <= i < j < |names| ==> names[i] != names[j]
      {
        NamesLeft(names, i);
        var ok := store.DeleteBucket(names[i]);
        if ok {
          deleted := deleted + 1;
        }
        i := i + 1;
      }
      CountNames(names, 0);
      assert old(store.buckets.Keys) == NamesFrom(names, 0);
      NothingStored(store.buckets, store.contents);
    }
  }

  function NamesFrom(names: seq<string>, i: nat): set<string>
    requires i <= |names|
  {
    set name | name in names[i..]
  }

  /** A directory that has gone in whole adds its name to the report, and nothing else does. */
  lemma AddOneNames(policy: Policy, maxBytes: int, es: seq<Entry>, before: AddFolderResult, e: DirEntry)
    ensures var r := AddOne(policy, maxBytes, es, before, e);
            NamesFrom(r.1.buckets, 0) == NamesFrom(before.buckets, 0) + if Loads(e) && r.2 == NoError then {P.Trim(e.name)} else {}
    ensures var r := AddOne(policy, maxBytes, es, before, e); Loads(e) && r.2 != NoError <==> r.2.PutFailed?
  {
    hide PutFiles, WithoutBucket, P.Trim, Bytes;
    var r := AddOne(policy, maxBytes, es, before, e);
    assert r.1.buckets == before.buckets + if Loads(e) && r.2 == NoError then [P.Trim(e.name)] else [];
  }

  lemma NamesLeft(names: seq<string>, i: nat)
    requires i < |names| && forall i, j :: 0 <= i < j < |names| ==> names[i] != names[j]
    ensures names[i] in NamesFrom(names, i) && NamesFrom(names, i + 1) == NamesFrom(names, i) - {names[i]}
  {
    assert names[i..] == [names[i]] + names[i + 1..];
  }

  lemma {:induction false} CountNames(names: seq<string>, i: nat)
    requires i <= |names| && forall i, j :: 0 <= i < j < |names| ==> names[i] != names[j]
    ensures |NamesFrom(names, i)| == |names| - i
    decreases |names| - i
  {
    if i < |names| {
      NamesLeft(names, i);
      CountNames(names, i + 1);
      assert NamesFrom(names, i) == NamesFrom(names, i + 1) + {names[i]};
    }
  }

  lemma NothingStored(buckets: Buckets, es: seq<Entry>)
    requires Holds(buckets, es) && buckets.Keys == {}
    ensures buckets == map[] && es == []
  {
    hide Holds;
    if es != [] {
      SomeBucket(buckets, es);
    }
  }

  lemma SomeBucket(buckets: Buckets, es: seq<Entry>)
    requires Holds(buckets, es) && es != []
    ensures exists b :: b in buckets
  {
    assert es[0] in es && es[0].bucket in buckets;
  }
}
