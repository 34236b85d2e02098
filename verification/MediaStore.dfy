/**
 The bounded media cache on disk: the three passes of the directory scan, oldest-first eviction, and `Put`.

 Only files named by a valid object ID are modelled.  Any removal, size query, read or rename may fail, and the request
 may be cancelled at any test; the directory is changed by the holder of the store's lock only.
 */
module MediaStore {

  import opened Options
  import opened Numbers

  datatype DataFile = Regular(size: nat) | Special | Directory

  datatype MetaFile = Object(id: string, createdAt: int, expiresAt: Option<int>) | Unreadable | MetaDirectory

  type Sizes = map<string, nat>

  datatype Entry = Entry(id: string, createdAt: int, size: nat)

  datatype Status = Done | Cancelled | Overflow

  datatype PutResult = Stored | TooLarge | NoCapacity | Aborted

  const INT64_MAX := 0x7FFF_FFFF_FFFF_FFFF

  // ---- the arithmetic ----

  /** Three fifths of the capacity, rounded down, computed without leaving the 64-bit range. */
  function LowWatermark(maxBytes: nat): (mark: nat)
    ensures mark == 3 * maxBytes / 5 <= maxBytes
    ensures maxBytes / 5 * 3 <= maxBytes && maxBytes % 5 * 3 <= 12
  {
    maxBytes / 5 * 3 + (maxBytes % 5 * 3) / 5
  }

  /** Tests usage + addition > limit; no intermediate value leaves the 64-bit range. */
  predicate ExceedsCapacity(usage: int, addition: nat, limit: nat)
    requires limit <= INT64_MAX
    ensures ExceedsCapacity(usage, addition, limit) <==> addition > limit || usage + addition > limit
    ensures addition <= limit ==> 0 <= limit - addition <= INT64_MAX
  {
    addition > limit || usage > limit - addition
  }

  predicate Expired(expiresAt: Option<int>, now: int) {
    expiresAt.Some? && now >= expiresAt.value
  }

  // ---- bytes on disk ----

  /** The regular data files outside `skip`, with their sizes. */
  function SizesOf(data: map<string, DataFile>, skip: set<string>): Sizes {
    map id | id in data && id !in skip && data[id].Regular? :: data[id].size
  }

  ghost function Total(sizes: Sizes): nat
    decreases |sizes|
  {
    if sizes == map[] then 0 else
    var id := Any(sizes.Keys);
    Smaller(sizes, id);
    sizes[id] + Total(sizes - {id})
  }

  ghost function Any(s: set<string>): (x: string)
    requires s != {}
    ensures x in s
  {
    var x :| x in s; x
  }

  lemma Smaller(sizes: Sizes, id: string)
    requires id in sizes
    ensures |sizes - {id}| == |sizes| - 1
  {
    assert (sizes - {id}).Keys == sizes.Keys - {id};
    assert |(sizes - {id}).Keys| == |sizes.Keys| - 1;
  }

  lemma {:induction false} TotalWithout(sizes: Sizes, id: string)
    requires id in sizes
    ensures Total(sizes) == sizes[id] + Total(sizes - {id})
    decreases |sizes|
  {
    var first := Any(sizes.Keys);
    if first != id {
      Smaller(sizes, first);
      TotalWithout(sizes - {first}, id);
      Smaller(sizes, id);
      TotalWithout(sizes - {id}, first);
      assert sizes - {first} - {id} == sizes - {id} - {first};
    }
  }

  lemma TotalWith(sizes: Sizes, id: string, size: nat)
    requires id !in sizes
    ensures Total(sizes[id := size]) == Total(sizes) + size
  {
    TotalWithout(sizes[id := size], id);
    assert sizes[id := size] - {id} == sizes;
  }

  lemma RemovedFromDisk(data: map<string, DataFile>, skip: set<string>, id: string)
    ensures SizesOf(data - {id}, skip) == SizesOf(data, skip) - {id}
    ensures id in SizesOf(data, skip) ==> Total(SizesOf(data, skip)) == SizesOf(data, skip)[id] +
                                          Total(SizesOf(data - {id}, skip))
    ensures id !in SizesOf(data, skip) ==> SizesOf(data - {id}, skip) == SizesOf(data, skip)
  {
    if id in SizesOf(data, skip) {
      TotalWithout(SizesOf(data, skip), id);
    }
  }

  // ---- entries and their order ----

  predicate DistinctIds(entries: seq<Entry>) {
    forall i, j | 0 <= i < j < |entries| :: entries[i].id != entries[j].id
  }

  function Ids(entries: seq<Entry>): set<string> {
    set i | 0 <= i < |entries| :: entries[i].id
  }

  /** Each entry is a seen data file with its size. */
  predicate OnDisk(entries: seq<Entry>, sizes: Sizes) {
    forall i | 0 <= i < |entries| :: entries[i].id in sizes && sizes[entries[i].id] == entries[i].size
  }

  predicate ByAge(entries: seq<Entry>) {
    forall i, j | 0 <= i < j < |entries| :: entries[i].createdAt <= entries[j].createdAt
  }

  function InsertByAge(s: seq<Entry>, e: Entry): (r: seq<Entry>)
    ensures multiset(r) == multiset(s) + multiset{e}
  {
    if s == [] then [e]
    else if e.createdAt < s[0].createdAt then [e] + s
    else
      assert s == [s[0]] + s[1..];
      [s[0]] + InsertByAge(s[1..], e)
  }

  lemma {:induction false} InsertKeepsOrder(s: seq<Entry>, e: Entry)
    requires ByAge(s)
    ensures ByAge(InsertByAge(s, e))
  {
    if s != [] && e.createdAt >= s[0].createdAt {
      InsertKeepsOrder(s[1..], e);
      var rest := InsertByAge(s[1..], e);
      forall j | 0 <= j < |rest|
        ensures s[0].createdAt <= rest[j].createdAt
      {
        assert rest[j] in multiset(rest);
        assert rest[j] == e || rest[j] in s[1..];
      }
    }
  }

  lemma {:induction false} InsertKeepsIds(s: seq<Entry>, e: Entry)
    requires DistinctIds(s) && e.id !in Ids(s)
    ensures DistinctIds(InsertByAge(s, e)) && Ids(InsertByAge(s, e)) == Ids(s) + {e.id}
  {
    if s != [] && e.createdAt >= s[0].createdAt {
      Tail(s);
      InsertKeepsIds(s[1..], e);
      ConsDistinct(s[0], InsertByAge(s[1..], e));
    } else {
      ConsDistinct(e, s);
    }
  }

  lemma Tail(s: seq<Entry>)
    requires s != [] && DistinctIds(s)
    ensures DistinctIds(s[1..]) && Ids(s) == {s[0].id} + Ids(s[1..]) && s[0].id !in Ids(s[1..])
  {
    ConsIds(s[0], s[1..]);
    assert s == [s[0]] + s[1..];
  }

  lemma ConsDistinct(e: Entry, s: seq<Entry>)
    requires DistinctIds(s) && e.id !in Ids(s)
    ensures DistinctIds([e] + s) && Ids([e] + s) == {e.id} + Ids(s)
  {
    ConsIds(e, s);
  }

  lemma ConsIds(e: Entry, s: seq<Entry>)
    ensures Ids([e] + s) == {e.id} + Ids(s)
  {
    var all := [e] + s;
    assert all[0] == e;
    assert forall i | 0 <= i < |s| :: all[i + 1] == s[i];
  }

  lemma SnocIds(s: seq<Entry>, e: Entry)
    ensures Ids(s + [e]) == Ids(s) + {e.id}
  {
    var all := s + [e];
    assert all[|s|] == e;
    assert forall i | 0 <= i < |s| :: all[i] == s[i];
  }

  lemma SameEntriesOnDisk(entries: seq<Entry>, order: seq<Entry>, sizes: Sizes)
    requires multiset(order) == multiset(entries) && OnDisk(entries, sizes)
    ensures OnDisk(order, sizes)
  {
    forall i | 0 <= i < |order|
      ensures order[i].id in sizes && sizes[order[i].id] == order[i].size
    {
      assert order[i] in multiset(order);
      assert order[i] in entries;
    }
  }

  /** slices.SortFunc by creation time; entries of one instant come in any order. */
  method SortByAge(entries: seq<Entry>) returns (order: seq<Entry>)
    requires DistinctIds(entries)
    ensures ByAge(order) && multiset(order) == multiset(entries) && DistinctIds(order) && Ids(order) == Ids(entries)
  {
    order := [];
    var i := 0;
    while i < |entries|
      invariant 0 <= i <= |entries| && ByAge(order) && multiset(order) == multiset(entries[..i])
      invariant DistinctIds(order) && Ids(order) == Ids(entries[..i])
    {
      assert entries[..i + 1] == entries[..i] + [entries[i]];
      SnocIds(entries[..i], entries[i]);
      assert entries[i].id !in Ids(entries[..i]);
      InsertKeepsOrder(order, entries[i]);
      InsertKeepsIds(order, entries[i]);
      order := InsertByAge(order, entries[i]);
      i := i + 1;
    }
    assert entries[..i] == entries;
  }

  // ---- the store ----

  /** Files may be gone; none changed. */
  predicate Subset(after: map<string, DataFile>, before: map<string, DataFile>) {
    forall id | id in after :: id in before && after[id] == before[id]
  }

  /** Only special files outside `remaining` may be gone. */
  predicate OnlySpecialGone(before: map<string, DataFile>, after: map<string, DataFile>, remaining: set<string>) {
    && Subset(after, before)
    && (forall id | id in before && (id in remaining || !before[id].Special?) :: id in after)
  }

  /** The metadata of an object that is whole and not expired. */
  predicate Fresh(meta: map<string, MetaFile>, id: string, now: int) {
    id in meta && meta[id].Object? && meta[id].id == id && !Expired(meta[id].expiresAt, now)
  }

  /** The entries carry the creation times of the metadata. */
  predicate Dated(entries: seq<Entry>, meta: map<string, MetaFile>) {
    forall i | 0 <= i < |entries| ::
      && entries[i].id in meta && meta[entries[i].id].Object?
      && entries[i].createdAt == meta[entries[i].id].createdAt
  }

  lemma DatedMore(entries: seq<Entry>, e: Entry, meta: map<string, MetaFile>)
    requires Dated(entries, meta) && e.id in meta && meta[e.id].Object? && e.createdAt == meta[e.id].createdAt
    ensures Dated(entries + [e], meta)
  {
  }

  /** Fresh objects with data whose metadata was read, outside `remaining`, have entries. */
  predicate AllEntered(meta: map<string, MetaFile>, files: Sizes, now: int, misread: set<string>,
                       remaining: set<string>, entered: set<string>) {
    forall id | id in meta && Fresh(meta, id, now) && id in files && id !in misread && id !in remaining :: id in entered
  }

  /** A fresh object whose data was seen and whose metadata was read is entered, and its data is left as it was. */
  predicate Kept(before: map<string, DataFile>, meta: map<string, MetaFile>, now: int, unseen: set<string>,
                 misread: set<string>, entered: set<string>, after: map<string, DataFile>) {
    forall id | id in before && before[id].Regular? && Fresh(meta, id, now) && id !in unseen && id !in misread ::
      id in entered && id in after && after[id] == before[id]
  }

  /** A fresh object whose data was seen and whose metadata was read. */
  predicate Sound(before: map<string, DataFile>, meta: map<string, MetaFile>, now: int, lost: set<string>, id: string) {
    id in before && before[id].Regular? && Fresh(meta, id, now) && id !in lost
  }

  ghost predicate Spared(before: map<string, DataFile>, meta: map<string, MetaFile>, now: int, lost: set<string>,
                   after: map<string, DataFile>) {
    forall id | Sound(before, meta, now, lost, id) :: id in after && after[id] == before[id]
  }

  /** Of two such objects, the one created earlier is not kept while the other goes. */
  ghost predicate OlderGoFirst(before: map<string, DataFile>, meta: map<string, MetaFile>, now: int, lost: set<string>,
                         after: map<string, DataFile>) {
    forall gone, kept | Sound(before, meta, now, lost, gone) && Sound(before, meta, now, lost, kept) &&
                        gone !in after && kept in after ::
      meta[gone].createdAt <= meta[kept].createdAt
  }

  /** Every regular file outside `remaining` is counted. */
  predicate AllSeen(data: map<string, DataFile>, unseen: set<string>, remaining: set<string>) {
    forall id | id in data && data[id].Regular? && id !in remaining :: id !in unseen
  }

  /** What a scan returns: distinct entries, each a counted data file with its size. */
  predicate Scanned(entries: seq<Entry>, sizes: Sizes) {
    DistinctIds(entries) && OnDisk(entries, sizes)
  }

  predicate Part(left: Sizes, files: Sizes) {
    forall id | id in left :: id in files && left[id] == files[id]
  }

  /** The files with an entry, and those still to be removed, are on disk with their sizes. */
  predicate Sweeping(left: Sizes, files: Sizes, valid: set<string>, remaining: set<string>) {
    Part(left, files) && valid <= left.Keys && remaining <= left.Keys && remaining !! valid
  }

  lemma SweepStart(files: Sizes, valid: set<string>)
    requires valid <= files.Keys
    ensures Sweeping(files, files, valid, files.Keys - valid) && files.Keys == valid + (files.Keys - valid)
  {
  }

  lemma SweepEnd(entries: seq<Entry>, files: Sizes, left: Sizes)
    requires Scanned(entries, files) && Sweeping(left, files, Ids(entries), {})
    ensures Scanned(entries, left)
  {
    ScannedLess(entries, files, left);
  }

  lemma SweepStep(data: map<string, DataFile>, unseen: set<string>, files: Sizes, valid: set<string>,
                  remaining: set<string>, id: string)
    requires Sweeping(SizesOf(data, unseen), files, valid, remaining) && id in remaining
    ensures Sweeping(SizesOf(data, unseen), files, valid, remaining - {id}) &&
            Sweeping(SizesOf(data - {id}, unseen), files, valid, remaining - {id})
    ensures id in files && Total(SizesOf(data, unseen)) == files[id] + Total(SizesOf(data - {id}, unseen))
    ensures SizesOf(data, unseen).Keys == valid + remaining ==>
            SizesOf(data - {id}, unseen).Keys == valid + (remaining - {id})
  {
    RemovedFromDisk(data, unseen, id);
  }

  lemma EntriesCounted(entries: seq<Entry>, sizes: Sizes)
    requires OnDisk(entries, sizes)
    ensures Ids(entries) <= sizes.Keys
  {
  }

  lemma AllCounted(data: map<string, DataFile>, unseen: set<string>)
    requires AllSeen(data, unseen, {})
    ensures SizesOf(data, unseen) == SizesOf(data, {})
  {
  }

  lemma ScannedMore(entries: seq<Entry>, sizes: Sizes, e: Entry)
    requires Scanned(entries, sizes) && e.id in sizes && sizes[e.id] == e.size && e.id !in Ids(entries)
    ensures Scanned(entries + [e], sizes) && Ids(entries + [e]) == Ids(entries) + {e.id}
  {
    SnocIds(entries, e);
  }

  lemma ScannedLess(entries: seq<Entry>, sizes: Sizes, sizes': Sizes)
    requires Scanned(entries, sizes)
    requires forall id | id in Ids(entries) :: id in sizes' && (id in sizes ==> sizes'[id] == sizes[id])
    ensures Scanned(entries, sizes')
  {
    forall i | 0 <= i < |entries|
      ensures entries[i].id in sizes' && sizes'[entries[i].id] == entries[i].size
    {
      assert entries[i].id in Ids(entries);
    }
  }

  /** The IDs of the first i entries. */
  function FirstIds(order: seq<Entry>, i: nat): set<string>
    requires i <= |order|
  {
    if i == 0 then {} else FirstIds(order, i - 1) + {order[i - 1].id}
  }

  /** Only the data of the first `tried` entries may be gone. */
  predicate Untouched(order: seq<Entry>, tried: nat, before: map<string, DataFile>, after: map<string, DataFile>) {
    tried <= |order| && Subset(after, before) && before.Keys - FirstIds(order, tried) <= after.Keys
  }

  /** The entries from the i-th on are on disk. */
  predicate OnDiskFrom(order: seq<Entry>, i: nat, sizes: Sizes) {
    forall k | i <= k < |order| :: order[k].id in sizes && sizes[order[k].id] == order[k].size
  }

  /** After i tries, the other entries are still there. */
  predicate Evicting(order: seq<Entry>, i: nat, before: map<string, DataFile>, data: map<string, DataFile>,
                     unseen: set<string>) {
    DistinctIds(order) && Untouched(order, i, before, data) && OnDiskFrom(order, i, SizesOf(data, unseen))
  }

  /** After i successful tries, exactly their data is gone. */
  predicate TriedGone(order: seq<Entry>, i: nat, before: map<string, DataFile>, data: map<string, DataFile>,
                      unseen: set<string>) {
    i <= |order| && SizesOf(data, unseen).Keys == SizesOf(before, unseen).Keys - FirstIds(order, i)
  }

  /** After i tries: `left` never understates the bytes on disk, and is exact if no removal failed. */
  ghost predicate Evicted(order: seq<Entry>, i: nat, before: map<string, DataFile>, data: map<string, DataFile>,
                          unseen: set<string>, left: int, clean: bool) {
    && Evicting(order, i, before, data, unseen) && Total(SizesOf(data, unseen)) <= left
    && (clean ==> left == Total(SizesOf(data, unseen)) && TriedGone(order, i, before, data, unseen))
  }

  lemma EvictStart(order: seq<Entry>, data: map<string, DataFile>, unseen: set<string>)
    requires DistinctIds(order) && OnDisk(order, SizesOf(data, unseen))
    ensures Evicting(order, 0, data, data, unseen) && TriedGone(order, 0, data, data, unseen)
  {
  }

  lemma {:induction false} FirstIdsOf(order: seq<Entry>, i: nat)
    requires i <= |order|
    ensures FirstIds(order, i) == Ids(order[..i])
  {
    if i > 0 {
      FirstIdsOf(order, i - 1);
      assert order[..i] == order[..i - 1] + [order[i - 1]];
      SnocIds(order[..i - 1], order[i - 1]);
    }
  }

  lemma {:induction false} AllIds(order: seq<Entry>)
    ensures FirstIds(order, |order|) == Ids(order)
  {
    FirstIdsOf(order, |order|);
    assert order[..|order|] == order;
  }

  lemma EvictStep(order: seq<Entry>, i: nat, before: map<string, DataFile>, data: map<string, DataFile>,
                  unseen: set<string>)
    requires i < |order| && Evicting(order, i, before, data, unseen)
    ensures Total(SizesOf(data, unseen)) == order[i].size + Total(SizesOf(data - {order[i].id}, unseen))
    ensures Evicting(order, i + 1, before, data, unseen) && Evicting(order, i + 1, before, data - {order[i].id}, unseen)
    ensures TriedGone(order, i, before, data, unseen) ==> TriedGone(order, i + 1, before, data - {order[i].id}, unseen)
  {
    RemovedFromDisk(data, unseen, order[i].id);
  }

  /** An entry whose data is gone is no newer than one whose data is left. */
  predicate OldestGone(entries: seq<Entry>, after: map<string, DataFile>) {
    forall gone, kept | 0 <= gone < |entries| && 0 <= kept < |entries| &&
                        entries[gone].id !in after && entries[kept].id in after ::
      entries[gone].createdAt <= entries[kept].createdAt
  }

  lemma SparedAtScan(before: map<string, DataFile>, meta: map<string, MetaFile>, now: int, unseen: set<string>,
                     misread: set<string>, entered: set<string>, scanned: map<string, DataFile>)
    requires Kept(before, meta, now, unseen, misread, entered, scanned)
    ensures Spared(before, meta, now, unseen + misread, scanned)
    ensures OlderGoFirst(before, meta, now, unseen + misread, scanned)
  {
  }

  lemma SameIndex(entries: seq<Entry>, id: string) returns (k: nat)
    requires id in Ids(entries)
    ensures k < |entries| && entries[k].id == id
  {
    k :| k < |entries| && entries[k].id == id;
  }

  lemma OlderAfterRoom(before: map<string, DataFile>, meta: map<string, MetaFile>, now: int, unseen: set<string>,
                       misread: set<string>, entries: seq<Entry>, scanned: map<string, DataFile>,
                       after: map<string, DataFile>)
    requires Kept(before, meta, now, unseen, misread, Ids(entries), scanned)
    requires Dated(entries, meta) && OldestGone(entries, after)
    ensures OlderGoFirst(before, meta, now, unseen + misread, after)
  {
    forall gone, kept | Sound(before, meta, now, unseen + misread, gone) &&
                        Sound(before, meta, now, unseen + misread, kept) && gone !in after && kept in after
      ensures meta[gone].createdAt <= meta[kept].createdAt
    {
      var g := SameIndex(entries, gone);
      var k := SameIndex(entries, kept);
    }
  }

  lemma {:induction false} AmongFirst(order: seq<Entry>, tried: nat, k: nat)
    requires k < tried <= |order|
    ensures order[k].id in FirstIds(order, tried)
  {
    FirstIdsOf(order, tried);
    assert order[..tried][k] == order[k];
  }

  lemma OldestFirst(entries: seq<Entry>, order: seq<Entry>, tried: nat, before: map<string, DataFile>,
                    after: map<string, DataFile>, unseen: set<string>)
    requires ByAge(order) && DistinctIds(order) && multiset(order) == multiset(entries)
    requires OnDisk(entries, SizesOf(before, unseen)) && TriedGone(order, tried, before, after, unseen)
    requires Untouched(order, tried, before, after)
    ensures OldestGone(entries, after)
  {
    forall gone, kept | 0 <= gone < |entries| && 0 <= kept < |entries| &&
                        entries[gone].id !in after && entries[kept].id in after
      ensures entries[gone].createdAt <= entries[kept].createdAt
    {
      var i := At(entries, order, gone);
      var j := At(entries, order, kept);
      FirstIdsOf(order, tried);
      assert order[i].id in FirstIds(order, tried);
      assert i < tried;
      if j < tried {
        AmongFirst(order, tried, j);
      }
    }
  }

  ghost function At(entries: seq<Entry>, order: seq<Entry>, k: nat): (i: nat)
    requires k < |entries| && multiset(order) == multiset(entries)
    ensures i < |order| && order[i] == entries[k]
  {
    assert entries[k] in multiset(entries);
    assert entries[k] in order;
    var i :| 0 <= i < |order| && order[i] == entries[k];
    i
  }

  lemma {:induction false} PartTotal(left: Sizes, files: Sizes)
    requires Part(left, files)
    ensures Total(left) <= Total(files)
    decreases |left|
  {
    if left != map[] {
      var id := Any(left.Keys);
      Smaller(left, id);
      TotalWithout(files, id);
      PartTotal(left - {id}, files - {id});
    }
  }

  lemma FewerBytes(before: map<string, DataFile>, after: map<string, DataFile>, unseen: set<string>)
    requires Subset(after, before)
    ensures Total(SizesOf(after, unseen)) <= Total(SizesOf(before, unseen))
  {
    PartTotal(SizesOf(after, unseen), SizesOf(before, unseen));
  }

  lemma SkipAbsent(data: map<string, DataFile>, skip: set<string>, id: string)
    requires id !in data
    ensures SizesOf(data, skip - {id}) == SizesOf(data, skip)
  {
  }

  class FileStore {
    const maxBytes: nat
    const maxObjectBytes: nat
    var data: map<string, DataFile>
    var meta: map<string, MetaFile>
    /** History: removals, and size queries, that failed; cancellations and renames that failed. */
    ghost var failures: nat
    ghost var blind: nat
    ghost var stops: nat

    /** Reopens the directory; the capacity is the configured one. */
    constructor (maxBytes: nat, objectBytes: nat, data: map<string, DataFile>, meta: map<string, MetaFile>)
      requires 0 < maxBytes <= INT64_MAX
      ensures Valid() && this.maxBytes == maxBytes && this.data == data && this.meta == meta
    {
      this.maxBytes := maxBytes;
      this.maxObjectBytes := if maxBytes < objectBytes then maxBytes else objectBytes;
      this.data := data;
      this.meta := meta;
      failures, blind, stops := 0, 0, 0;
    }

    predicate Valid()
      reads this
    {
      maxObjectBytes <= maxBytes <= INT64_MAX
    }

    /** Bytes of the regular data files on disk, but for those whose size could not be read. */
    ghost function Bytes(unseen: set<string>): nat
      reads this
    {
      Total(SizesOf(data, unseen))
    }

    /** removePathsLocked: the data first; the metadata only once the data is gone. */
    method RemovePaths(id: string, hasMeta: bool, hasData: bool) returns (dataGone: bool, ok: bool)
      modifies this`data, this`meta, this`failures
      ensures data == if hasData && dataGone then old(data) - {id} else old(data)
      ensures !hasData ==> dataGone
      ensures ok ==> dataGone && failures == old(failures)
      ensures !ok ==> failures == old(failures) + 1
      ensures meta == old(meta) || (hasMeta && dataGone && meta == old(meta) - {id})
      ensures ok && hasMeta ==> id !in meta
    {
      dataGone := !hasData;
      if hasData {
        if * {
          failures := failures + 1;
          return false, false;
        }
        data := data - {id};
        dataGone := true;
      }
      if hasMeta {
        if * {
          failures := failures + 1;
          return dataGone, false;
        }
        meta := meta - {id};
      }
      ok := true;
    }

    /** One data file of the first pass. */
    method Inspect(id: string, ghost skip: set<string>, files: Sizes, usage: int)
      returns (files': Sizes, usage': int, ok: bool, ghost skip': set<string>)
      requires id in data && id in skip && files == SizesOf(data, skip) && usage == Total(files) <= INT64_MAX
      modifies this`data, this`failures, this`blind
      ensures blind >= old(blind) && (blind == old(blind) && ok && id in data && data[id].Regular? ==> id !in skip')
      ensures files' == SizesOf(data, skip') && usage' == Total(files') <= INT64_MAX
      ensures skip' == skip || skip' == skip - {id}
      ensures data == old(data) || (old(data)[id].Special? && data == old(data) - {id})
      ensures failures >= old(failures)
      ensures !ok ==> data == old(data) && Total(SizesOf(data, {})) > INT64_MAX
    {
      files', usage', ok, skip' := files, usage, true, skip;
      if data[id].Directory? {
        return;
      }
      if * {
        blind := blind + 1;
        return;
      }
      if data[id].Special? {
        RemovedFromDisk(data, skip, id);
        if * {
          failures := failures + 1;
        } else {
          data := data - {id};
        }
        return;
      }
      if data[id].size > 0 && usage > INT64_MAX - data[id].size {
        TotalWith(files, id, data[id].size);
        PartTotal(files[id := data[id].size], SizesOf(data, {}));
        ok := false;
        return;
      }
      TotalWith(files, id, data[id].size);
      files' := files[id := data[id].size];
      usage' := usage + data[id].size;
      skip' := skip - {id};
      assert files' == SizesOf(data, skip');
    }

    /** First pass: the sizes of the data files; what is not a regular file is removed. */
    method ScanData() returns (files: Sizes, usage: int, status: Status, ghost unseen: set<string>)
      modifies this`data, this`failures, this`blind, this`stops
      ensures files == SizesOf(data, unseen) && usage == Total(files) <= INT64_MAX && failures >= old(failures)
      ensures stops >= old(stops) && (status.Cancelled? ==> stops > old(stops))
      ensures status.Overflow? ==> Total(SizesOf(old(data), {})) > INT64_MAX
      ensures blind >= old(blind) && (blind == old(blind) && status.Done? ==> AllSeen(data, unseen, {}))
      ensures OnlySpecialGone(old(data), data, {})
    {
      var remaining := data.Keys;
      files, usage, status, unseen := map[], 0, Done, data.Keys;
      while remaining != {}
        invariant remaining <= unseen && failures >= old(failures) && blind >= old(blind) && stops == old(stops)
        invariant blind == old(blind) ==> AllSeen(data, unseen, remaining)
        invariant files == SizesOf(data, unseen) && usage == Total(files) <= INT64_MAX
        invariant remaining <= old(data).Keys && OnlySpecialGone(old(data), data, remaining)
        decreases |remaining|
      {
        if * {
          stops := stops + 1;
          status := Cancelled;
          return;
        }
        var id :| id in remaining;
        remaining := remaining - {id};
        var ok;
        files, usage, ok, unseen := Inspect(id, unseen, files, usage);
        if !ok {
          FewerBytes(old(data), data, {});
          status := Overflow;
          return;
        }
      }
    }

    /**
     One metadata file of the second pass: an entry, or the removal of an object that is broken, without data, or
     expired.
     */
    method Check(id: string, now: int, ghost unseen: set<string>, files: Sizes, usage: int)
      returns (entry: Option<Entry>, files': Sizes, usage': int, ghost wasRead: bool)
      requires id in meta && files == SizesOf(data, unseen) && usage == Total(files)
      modifies this`data, this`meta, this`failures
      ensures files' == SizesOf(data, unseen) && usage' == Total(files') && (files' == files || files' == files - {id})
      ensures failures >= old(failures) && Subset(data, old(data)) && (meta == old(meta) || meta == old(meta) - {id})
      ensures entry.Some? ==>
                && data == old(data) && meta == old(meta) && files' == files && id in files
                && meta[id].Object? && meta[id].id == id && !Expired(meta[id].expiresAt, now)
                && entry.value == Entry(id, meta[id].createdAt, files[id])
      ensures wasRead && Fresh(old(meta), id, now) && id in files ==> entry.Some?
    {
      entry, files', usage', wasRead := None, files, usage, true;
      if meta[id].MetaDirectory? {
        return;
      }
      var readable := *;
      wasRead := readable;
      if !readable || meta[id].Unreadable? || meta[id].id != id || id !in files || Expired(meta[id].expiresAt, now) {
        RemovedFromDisk(data, unseen, id);
        var dataGone, ok := RemovePaths(id, true, id in files);
        if id in files && dataGone {
          usage' := usage - files[id];
          files' := files - {id};
        }
        return;
      }
      entry := Some(Entry(id, meta[id].createdAt, files[id]));
    }

    /** Second pass, over the metadata files. */
    method ScanMetadata(now: int, ghost unseen: set<string>, files: Sizes, usage: int)
      returns (entries: seq<Entry>, files': Sizes, usage': int, status: Status, ghost misread: set<string>)
      requires files == SizesOf(data, unseen) && usage == Total(files)
      modifies this`data, this`meta, this`failures, this`stops
      ensures files' == SizesOf(data, unseen) && usage' == Total(files') && failures >= old(failures)
      ensures stops >= old(stops) && !status.Overflow? && (status.Cancelled? ==> stops > old(stops))
      ensures Scanned(entries, files') && Subset(data, old(data))
      ensures forall id | id in Ids(entries) :: Fresh(old(meta), id, now)
      ensures Dated(entries, old(meta))
      ensures status.Done? ==> AllEntered(old(meta), files, now, misread, {}, Ids(entries))
    {
      entries, files', usage', status, misread := [], files, usage, Done, {};
      var remaining := meta.Keys;
      while remaining != {}
        invariant files' == SizesOf(data, unseen) && usage' == Total(files') && failures >= old(failures)
        invariant stops == old(stops) && status.Done?
        invariant Scanned(entries, files') && Subset(data, old(data)) && Ids(entries) !! remaining &&
                  remaining <= old(meta).Keys
        invariant forall id | id in remaining :: id in meta && meta[id] == old(meta)[id]
        invariant forall id | id in Ids(entries) :: Fresh(old(meta), id, now)
        invariant Dated(entries, old(meta)) && forall id | id in remaining :: id in files ==> id in files'
        invariant AllEntered(old(meta), files, now, misread, remaining, Ids(entries))
        decreases |remaining|
      {
        if * {
          stops := stops + 1;
          status := Cancelled;
          return;
        }
        var id :| id in remaining;
        remaining := remaining - {id};
        ghost var before := files';
        var entry;
        ghost var wasRead;
        entry, files', usage', wasRead := Check(id, now, unseen, files', usage');
        if !wasRead {
          misread := misread + {id};
        }
        if entry.Some? {
          DatedMore(entries, entry.value, old(meta));
          ScannedMore(entries, files', entry.value);
          entries := entries + [entry.value];
        } else {
          ScannedLess(entries, before, files');
        }
      }
    }

    /** Third pass: data files without an entry are removed. */
    method RemoveStray(entries: seq<Entry>, files: Sizes, usage: int, ghost unseen: set<string>) returns (usage': int)
      requires files == SizesOf(data, unseen) && usage == Total(files) && Scanned(entries, files)
      modifies this`data, this`meta, this`failures
      ensures usage' == Bytes(unseen) && failures >= old(failures) && meta == old(meta) && Subset(data, old(data))
      ensures Scanned(entries, SizesOf(data, unseen))
      ensures failures == old(failures) ==> SizesOf(data, unseen).Keys == Ids(entries)
    {
      EntriesCounted(entries, files);
      usage' := Sweep(Ids(entries), files, usage, unseen);
      SweepEnd(entries, files, SizesOf(data, unseen));
    }

    method Sweep(valid: set<string>, files: Sizes, usage: int, ghost unseen: set<string>) returns (usage': int)
      requires files == SizesOf(data, unseen) && usage == Total(files) && valid <= files.Keys
      modifies this`data, this`meta, this`failures
      ensures usage' == Bytes(unseen) && failures >= old(failures) && meta == old(meta) && Subset(data, old(data))
      ensures Sweeping(SizesOf(data, unseen), files, valid, {})
      ensures failures == old(failures) ==> SizesOf(data, unseen).Keys == valid
    {
      usage' := usage;
      var remaining := files.Keys - valid;
      SweepStart(files, valid);
      while remaining != {}
        invariant usage' == Bytes(unseen) && failures >= old(failures) && meta == old(meta) && Subset(data, old(data))
        invariant Sweeping(SizesOf(data, unseen), files, valid, remaining)
        invariant failures == old(failures) ==> SizesOf(data, unseen).Keys == valid + remaining
        decreases |remaining|
      {
        var id :| id in remaining;
        SweepStep(data, unseen, files, valid, remaining, id);
        remaining := remaining - {id};
        var dataGone, ok := RemovePaths(id, false, true);
        if dataGone {
          usage' := usage' - files[id];
        }
      }
    }

    /**
     scanLocked: the returned usage is the number of bytes in the regular data files left on disk, whichever removals
     fail; if none fails, exactly the entries are left.  Every fresh object whose data was seen and whose metadata could
     be read has an entry and keeps its data.  Only a cancellation, or more bytes than an int64 holds, ends it early.
     */
    method Scan(now: int)
      returns (entries: seq<Entry>, usage: int, status: Status, ghost unseen: set<string>, ghost misread: set<string>)
      modifies this`data, this`meta, this`failures, this`blind, this`stops
      ensures usage == Bytes(unseen) && failures >= old(failures) && blind >= old(blind) && Subset(data, old(data))
      ensures stops >= old(stops) && (status.Cancelled? ==> stops > old(stops))
      ensures status.Overflow? ==> Total(SizesOf(old(data), {})) > INT64_MAX
      ensures status.Done? && blind == old(blind) ==> AllSeen(data, unseen, {})
      ensures status.Done? ==> Scanned(entries, SizesOf(data, unseen)) &&
                               (failures == old(failures) ==> SizesOf(data, unseen).Keys == Ids(entries))
      ensures status.Done? && blind == old(blind) ==> Bytes(unseen) == Bytes({})
      ensures forall id | id in Ids(entries) :: Fresh(old(meta), id, now)
      ensures Dated(entries, old(meta))
      ensures status.Done? ==> Kept(old(data), old(meta), now, unseen, misread, Ids(entries), data)
    {
      entries, misread := [], {};
      var files;
      files, usage, status, unseen := ScanData();
      if !status.Done? {
        return;
      }
      ghost var seen := files;
      entries, files, usage, status, misread := ScanMetadata(now, unseen, files, usage);
      if !status.Done? {
        entries := [];
        return;
      }
      usage := RemoveStray(entries, files, usage, unseen);
      if blind == old(blind) {
        AllCounted(data, unseen);
      }
    }

    /**
     evictLocked: tries the entries oldest first until the target is reached or the request is cancelled.  The returned
     usage never understates the bytes on disk, and states them exactly if no removal failed.
     */
    method Evict(entries: seq<Entry>, usage: int, target: nat, ghost unseen: set<string>)
      returns (left: int, cancelled: bool, ghost order: seq<Entry>, ghost tried: nat)
      requires Scanned(entries, SizesOf(data, unseen)) && usage == Bytes(unseen)
      modifies this`data, this`meta, this`failures, this`stops
      ensures failures >= old(failures) && Bytes(unseen) <= left
      ensures stops >= old(stops) && (cancelled ==> stops > old(stops))
      ensures failures == old(failures) ==> left == Bytes(unseen)
      ensures ByAge(order) && multiset(order) == multiset(entries) && tried <= |order|
      ensures Untouched(order, tried, old(data), data)
      ensures !cancelled && left > target ==> tried == |order|
      ensures tried > 0 ==> left + order[tried - 1].size > target
      ensures failures == old(failures) ==> TriedGone(order, tried, old(data), data, unseen)
      ensures Ids(order) == Ids(entries) && DistinctIds(order)
    {
      var queue := SortByAge(entries);
      order := queue;
      SameEntriesOnDisk(entries, order, SizesOf(data, unseen));
      EvictStart(queue, data, unseen);
      left, cancelled, tried := EvictInOrder(queue, usage, target, unseen);
    }

    /** The loop of evictLocked, on the sorted entries. */
    method EvictInOrder(queue: seq<Entry>, usage: int, target: nat, ghost unseen: set<string>)
      returns (left: int, cancelled: bool, ghost tried: nat)
      requires Evicted(queue, 0, data, data, unseen, usage, true)
      modifies this`data, this`meta, this`failures, this`stops
      ensures failures >= old(failures) && tried <= |queue|
      ensures stops >= old(stops) && (cancelled ==> stops > old(stops))
      ensures Evicted(queue, tried, old(data), data, unseen, left, failures == old(failures))
      ensures !cancelled && left > target ==> tried == |queue|
      ensures tried > 0 ==> left + queue[tried - 1].size > target
    {
      left, cancelled, tried := usage, false, 0;
      var i := 0;
      while i < |queue| && left > target
        invariant i == tried <= |queue| && failures >= old(failures) && stops == old(stops) && !cancelled
        invariant Evicted(queue, i, old(data), data, unseen, left, failures == old(failures))
        invariant tried > 0 ==> left + queue[tried - 1].size > target
      {
        if * {
          stops := stops + 1;
          cancelled := true;
          break;
        }
        left := EvictOne(queue, i, left, old(data), unseen, failures == old(failures));
        i := i + 1;
        tried := i;
      }
    }

    method EvictOne(queue: seq<Entry>, i: nat, usage: int, ghost before: map<string, DataFile>,
                    ghost unseen: set<string>, ghost clean: bool) returns (left: int)
      requires i < |queue| && Evicted(queue, i, before, data, unseen, usage, clean)
      modifies this`data, this`meta, this`failures
      ensures failures >= old(failures) && left >= usage - queue[i].size
      ensures Evicted(queue, i + 1, before, data, unseen, left, clean && failures == old(failures))
    {
      left := usage;
      EvictStep(queue, i, before, data, unseen);
      var dataGone, ok := RemovePaths(queue[i].id, true, true);
      if ok {
        left := left - queue[i].size;
      }
    }

    /**
     NewFileStore: a scan, and an eviction to the low watermark if the directory is over capacity.  With no cancellation
     and no failed removal, only a directory of more bytes than an int64 holds is refused.
     */
    method Reopen(now: int) returns (ok: bool, ghost unseen: set<string>)
      requires Valid()
      modifies this`data, this`meta, this`failures, this`blind, this`stops
      ensures ok ==> Bytes(unseen) <= maxBytes
      ensures failures == old(failures) && stops == old(stops) && Total(SizesOf(old(data), {})) <= INT64_MAX ==> ok
      ensures ok && blind == old(blind) ==> Bytes({}) <= maxBytes
    {
      var entries, usage, status;
      ghost var misread;
      entries, usage, status, unseen, misread := Scan(now);
      if !status.Done? {
        return false, unseen;
      }
      ghost var scanned := data;
      if usage > maxBytes {
        var cancelled;
        ghost var order, tried;
        usage, cancelled, order, tried := Evict(entries, usage, LowWatermark(maxBytes), unseen);
        FewerBytes(scanned, data, unseen);
        AllIds(order);
      }
      ok := usage <= maxBytes;
      if ok && blind == old(blind) {
        AllCounted(data, unseen);
      }
    }

    /** Eviction to make room: with no failed removal, the usage ends at or below the target; the oldest go first. */
    method MakeRoom(entries: seq<Entry>, usage: int, written: nat, ghost unseen: set<string>)
      returns (left: int, cancelled: bool)
      requires Valid() && written <= maxBytes
      requires Scanned(entries, SizesOf(data, unseen)) && usage == Bytes(unseen)
      modifies this`data, this`meta, this`failures, this`stops
      ensures failures >= old(failures) && Bytes(unseen) <= left && Subset(data, old(data))
      ensures stops >= old(stops) && (cancelled ==> stops > old(stops))
      ensures failures == old(failures) ==> OldestGone(entries, data)
      ensures failures == old(failures) && !cancelled && old(SizesOf(data, unseen)).Keys == Ids(entries) ==>
                left + written <= Max(LowWatermark(maxBytes), written)
    {
      var target := if LowWatermark(maxBytes) > written then LowWatermark(maxBytes) - written else 0;
      ghost var order, tried;
      left, cancelled, order, tried := Evict(entries, usage, target, unseen);
      AllIds(order);
      if failures == old(failures) {
        OldestFirst(entries, order, tried, old(data), data, unseen);
      }
    }

    /**
     Put, with `length` bytes offered by the source.  Whatever fails, the counted bytes end within the capacity if they
     were; a stored object leaves them within the capacity in any case, and after an eviction in which no removal failed
     at or below the greater of the low watermark and the object.  With no failure and no cancellation an object that is
     not too large is stored, whenever the bytes found fit an int64.  Objects are evicted only if there was too little
     room, and no object goes before an older one.
     */
    method Put(id: string, length: nat, createdAt: int, expiresAt: Option<int>, now: int)
      returns (r: PutResult, evicted: bool, ghost unseen: set<string>, ghost misread: set<string>)
      requires Valid() && id !in data && id !in meta
      modifies this`data, this`meta, this`failures, this`blind, this`stops
      ensures failures == old(failures) && stops == old(stops) && length <= maxObjectBytes ==>
                Total(SizesOf(old(data), {})) > INT64_MAX || r.Stored?
      ensures evicted ==> Total(SizesOf(old(data), unseen)) + length > maxBytes
      ensures r.Stored? && !evicted ==> Spared(old(data), old(meta), now, unseen + misread, data)
      ensures r.Stored? && failures == old(failures) ==>
                OlderGoFirst(old(data), old(meta), now, unseen + misread, data)
      ensures r.Stored? ==> id in data && data[id] == Regular(length) && length <= maxObjectBytes
      ensures r.Stored? ==> id in meta && meta[id] == Object(id, createdAt, expiresAt) && id !in unseen
      ensures r.Stored? ==> Bytes(unseen) <= maxBytes && (blind == old(blind) ==> Bytes({}) <= maxBytes)
      ensures r.Stored? && evicted && failures == old(failures) ==> Bytes(unseen) <= Max(LowWatermark(maxBytes), length)
      ensures Bytes(unseen) <= Max(maxBytes, Total(SizesOf(old(data), unseen)))
      ensures r.TooLarge? <==> length > maxObjectBytes
    {
      var written := length;
      r, evicted, unseen, misread := Admit(id, written, now);
      if !r.Stored? {
        return;
      }
      r := Rename(id, written, createdAt, expiresAt, unseen);
      if r.Stored? && blind == old(blind) {
        assert AllSeen(data, unseen, {});
        AllCounted(data, unseen);
      }
    }

    /** Everything up to the renames: `Stored` means that there is room. */
    method Admit(id: string, written: nat, now: int)
      returns (r: PutResult, evicted: bool, ghost unseen: set<string>, ghost misread: set<string>)
      requires Valid() && id !in data && id !in meta
      modifies this`data, this`meta, this`failures, this`blind, this`stops
      ensures failures == old(failures) && stops == old(stops) && written <= maxObjectBytes ==>
                Total(SizesOf(old(data), {})) > INT64_MAX || r.Stored?
      ensures stops >= old(stops)
      ensures evicted ==> Total(SizesOf(old(data), unseen)) + written > maxBytes
      ensures r.Stored? && !evicted ==> Spared(old(data), old(meta), now, unseen + misread, data)
      ensures r.Stored? && failures == old(failures) ==>
                OlderGoFirst(old(data), old(meta), now, unseen + misread, data)
      ensures id !in data && id !in unseen && failures >= old(failures) && blind >= old(blind)
      ensures Bytes(unseen) <= Total(SizesOf(old(data), unseen))
      ensures r.Stored? ==> written <= maxObjectBytes && Bytes(unseen) + written <= maxBytes &&
                            (blind == old(blind) ==> AllSeen(data, unseen, {}))
      ensures r.Stored? && evicted && failures == old(failures) ==>
              Bytes(unseen) + written <= Max(LowWatermark(maxBytes), written)
      ensures r.TooLarge? <==> written > maxObjectBytes
    {
      evicted, unseen, misread := false, {}, {};
      if written > maxObjectBytes {
        r := TooLarge;
        return;
      }
      var entries, usage, status;
      ghost var skipped;
      entries, usage, status, skipped, misread := Scan(now);
      unseen := skipped - {id};
      SkipAbsent(data, skipped, id);
      FewerBytes(old(data), data, unseen);
      if !status.Done? {
        r := Aborted;
        return;
      }
      ghost var scanned := data;
      assert Kept(old(data), old(meta), now, unseen, misread, Ids(entries), scanned);
      SparedAtScan(old(data), old(meta), now, unseen, misread, Ids(entries), scanned);
      if ExceedsCapacity(usage, written, maxBytes) {
        evicted := true;
        var cancelled;
        usage, cancelled := MakeRoom(entries, usage, written, unseen);
        if failures == old(failures) {
          OlderAfterRoom(old(data), old(meta), now, unseen, misread, entries, scanned, data);
        }
        FewerBytes(old(data), data, unseen);
        if ExceedsCapacity(usage, written, maxBytes) {
          r := NoCapacity;
          return;
        }
        if cancelled {
          r := Aborted;
          return;
        }
      }
      if * {
        stops := stops + 1;
        r := Aborted;
        return;
      }
      r := Stored;
    }

    /** The two renames; a data file whose metadata cannot be put in place is removed again, if possible. */
    method Rename(id: string, size: nat, createdAt: int, expiresAt: Option<int>,
                  ghost unseen: set<string>) returns (r: PutResult)
      requires id !in data && id !in unseen
      modifies this`data, this`meta, this`failures, this`stops
      ensures r.Stored? || r.Aborted?
      ensures stops >= old(stops) && (r.Aborted? ==> stops > old(stops))
      ensures r.Stored? ==> data == old(data)[id := Regular(size)] &&
                            meta == old(meta)[id := Object(id, createdAt, expiresAt)] && failures == old(failures)
      ensures r.Stored? ==> Bytes(unseen) == old(Bytes(unseen)) + size
      ensures Bytes(unseen) <= old(Bytes(unseen)) + size
      ensures r.Aborted? ==> data == old(data) || data == old(data)[id := Regular(size)]
    {
      if * {
        stops := stops + 1;
        return Aborted;
      }
      TotalWith(SizesOf(data, unseen), id, size);
      data := data[id := Regular(size)];
      assert SizesOf(data, unseen) == SizesOf(old(data), unseen)[id := size];
      if * {
        stops := stops + 1;
        if * {
          failures := failures + 1;
        } else {
          data := data - {id};
          assert data == old(data);
        }
        return Aborted;
      }
      meta := meta[id := Object(id, createdAt, expiresAt)];
      r := Stored;
    }
  }
}
