/**
 Rows and logs pointing into content-addressed blobs. A blob's hash column is modelled by the
 content it hashes, SHA-256 being taken as injective.
 */
module Blobs {
  import opened Model
  import opened FileView

  datatype ResourceRow = ResourceRow(uid: string, cells: seq<string>, blob: nat, shrunk: bool)
  datatype LogRow = LogRow(tailLines: int, bytes: nat, blob: nat, errorMsg: string)

  /** The resources, pod_logs and blobs tables, with the AUTOINCREMENT counter of the blobs. */
  datatype Heap = Heap(
    resources: map<ResKey, ResourceRow>,
    logs: map<LogKey, LogRow>,
    blobs: map<nat, Bytes>,
    lastBlob: nat)

  // ---- Invariant ----

  /** The foreign keys of rows and logs. */
  ghost predicate NoDangling(h: Heap) {
    && (forall k :: k in h.resources ==> h.resources[k].blob in h.blobs)
    && (forall k :: k in h.logs ==> h.logs[k].blob in h.blobs)
  }

  /** Ids are positive and already handed out, and no content is stored twice. */
  ghost predicate Deduplicated(h: Heap) {
    && (forall b :: b in h.blobs ==> 1 <= b <= h.lastBlob)
    && (forall a, b :: a in h.blobs && b in h.blobs && h.blobs[a] == h.blobs[b] ==> a == b)
  }

  /** The blobs some row or log points at. */
  function Uses(h: Heap): set<nat> {
    (set k | k in h.resources :: h.resources[k].blob) + (set k | k in h.logs :: h.logs[k].blob)
  }

  ghost predicate NoOrphans(h: Heap) {
    forall b :: b in h.blobs ==> b in Uses(h)
  }

  /** A stripped row has nothing left to show. */
  ghost predicate StrippedIsEmpty(h: Heap)
    requires NoDangling(h)
  {
    forall k :: k in h.resources && h.resources[k].shrunk ==> h.blobs[h.resources[k].blob] == []
  }

  ghost predicate Sound(h: Heap) {
    NoDangling(h) && Deduplicated(h) && StrippedIsEmpty(h)
  }

  // ---- The view ----

  function ViewResources(h: Heap): (v: map<ResKey, Resource>)
    requires NoDangling(h)
    ensures v.Keys == h.resources.Keys
  {
    if h.resources == map[] then map[] else
    map k | k in h.resources ::
      Resource(h.resources[k].uid, h.resources[k].cells, h.blobs[h.resources[k].blob], h.resources[k].shrunk)
  }

  function ViewLogs(h: Heap): (v: map<LogKey, LogEntry>)
    requires NoDangling(h)
    ensures v.Keys == h.logs.Keys
  {
    if h.logs == map[] then map[] else
    map k | k in h.logs ::
      LogEntry(h.logs[k].tailLines, h.logs[k].bytes, h.blobs[h.logs[k].blob], h.logs[k].errorMsg)
  }

  // ---- How many blobs there are ----

  /** Every content some row or log shows. */
  ghost function Shown(h: Heap): set<Bytes>
    requires NoDangling(h)
  {
    (set k | k in ViewResources(h) :: ViewResources(h)[k].data) + (set k | k in ViewLogs(h) :: ViewLogs(h)[k].content)
  }

  lemma {:induction false} DistinctContentsCount(ids: set<nat>, blobs: map<nat, Bytes>)
    requires ids <= blobs.Keys
    requires forall a, b :: a in blobs && b in blobs && blobs[a] == blobs[b] ==> a == b
    ensures |set b | b in ids :: blobs[b]| == |ids|
    decreases |ids|
  {
    var image := set b | b in ids :: blobs[b];
    if a :| a in ids {
      var rest := ids - {a};
      DistinctContentsCount(rest, blobs);
      assert image == (set b | b in rest :: blobs[b]) + {blobs[a]};
    } else {
      assert image == {};
      assert ids == {};
    }
  }

  lemma ImageSize(blobs: map<nat, Bytes>, used: set<Bytes>)
    requires forall a, b :: a in blobs && b in blobs && blobs[a] == blobs[b] ==> a == b
    requires forall b :: b in blobs.Keys ==> blobs[b] in used
    requires forall c :: c in used ==> exists b :: b in blobs.Keys && blobs[b] == c
    ensures |blobs| == |used|
  {
    DistinctContentsCount(blobs.Keys, blobs);
    assert used == set b | b in blobs.Keys :: blobs[b];
  }

  lemma StoredIsShown(h: Heap, b: nat)
    requires NoDangling(h) && NoOrphans(h) && b in h.blobs
    ensures h.blobs[b] in Shown(h)
  {
    assert b in Uses(h);
    if k :| k in h.resources && h.resources[k].blob == b {
      assert ViewResources(h)[k].data == h.blobs[b];
    } else {
      var k :| k in h.logs && h.logs[k].blob == b;
      assert ViewLogs(h)[k].content == h.blobs[b];
    }
  }

  lemma ShownIsStored(h: Heap, c: Bytes)
    requires NoDangling(h) && c in Shown(h)
    ensures exists b :: b in h.blobs.Keys && h.blobs[b] == c
  {
    if k :| k in h.resources && ViewResources(h)[k].data == c {
      assert h.resources[k].blob in h.blobs.Keys;
    } else {
      var k :| k in h.logs && ViewLogs(h)[k].content == c;
      assert h.logs[k].blob in h.blobs.Keys;
    }
  }

  /** One blob for each distinct content in use: nothing dangling, nothing twice, nothing unused. */
  lemma BlobsAreTheDistinctContents(h: Heap)
    requires Sound(h) && NoOrphans(h)
    ensures |h.blobs| == |Shown(h)|
  {
    forall b | b in h.blobs.Keys
      ensures h.blobs[b] in Shown(h)
    {
      StoredIsShown(h, b);
    }
    forall c | c in Shown(h)
      ensures exists b :: b in h.blobs.Keys && h.blobs[b] == c
    {
      ShownIsStored(h, c);
    }
    ImageSize(h.blobs, Shown(h));
  }

  // ---- Looking up and inserting ----

  /** h' is h with `data` stored under `id`, be it new or not. */
  ghost predicate Holds(h: Heap, h': Heap, id: nat, data: Bytes) {
    && h'.resources == h.resources && h'.logs == h.logs
    && Deduplicated(h')
    && id in h'.blobs && h'.blobs[id] == data
    && (h'.blobs == h.blobs || (id !in h.blobs && h'.blobs == h.blobs[id := data]))
  }

  /** Cached ids are right; the cache need not know every blob. */
  ghost predicate CacheOk(cache: map<Bytes, nat>, h: Heap) {
    forall c :: c in cache ==> cache[c] in h.blobs && h.blobs[cache[c]] == c
  }

  /** 0 stands for a placeholder not looked up yet. */
  ghost predicate PlaceholderOk(id: nat, h: Heap) {
    id != 0 ==> id in h.blobs && h.blobs[id] == []
  }

  /** Looks content up by its hash, inserting it under the next id when it is new. */
  method FindOrInsert(h: Heap, data: Bytes) returns (h': Heap, id: nat)
    requires Deduplicated(h)
    ensures Holds(h, h', id, data)
  {
    if exists b | b in h.blobs :: h.blobs[b] == data {
      id :| id in h.blobs && h.blobs[id] == data;
      h' := h;
    } else {
      id := h.lastBlob + 1;
      h' := h.(blobs := h.blobs[id := data], lastBlob := id);
    }
  }

  /** The writer's lookup goes through the transaction's cache first. */
  method UpsertBlob(h: Heap, data: Bytes, cache: map<Bytes, nat>) returns (h': Heap, id: nat, cache': map<Bytes, nat>)
    requires Deduplicated(h) && CacheOk(cache, h)
    ensures Holds(h, h', id, data) && CacheOk(cache', h')
  {
    if data in cache {
      return h, cache[data], cache;
    }
    h', id := FindOrInsert(h, data);
    cache' := cache[data := id];
  }

  /** The shared placeholder; it does not go through the cache. */
  method UpsertEmptyBlob(h: Heap) returns (h': Heap, id: nat)
    requires Deduplicated(h)
    ensures Holds(h, h', id, [])
  {
    h', id := FindOrInsert(h, []);
  }

  lemma HeldIsSound(h: Heap, h': Heap, id: nat, data: Bytes)
    requires Sound(h) && Holds(h, h', id, data)
    ensures Sound(h') && ViewResources(h') == ViewResources(h) && ViewLogs(h') == ViewLogs(h)
  {
    assert forall b :: b in h.blobs ==> b in h'.blobs && h'.blobs[b] == h.blobs[b];
  }

  function WithRow(h: Heap, key: ResKey, row: ResourceRow): Heap {
    h.(resources := h.resources[key := row])
  }

  function WithLog(h: Heap, key: LogKey, row: LogRow): Heap {
    h.(logs := h.logs[key := row])
  }

  lemma RowView(h: Heap, key: ResKey, row: ResourceRow)
    requires Sound(h) && row.blob in h.blobs && (row.shrunk ==> h.blobs[row.blob] == [])
    ensures Sound(WithRow(h, key, row)) && ViewLogs(WithRow(h, key, row)) == ViewLogs(h)
    ensures ViewResources(WithRow(h, key, row)) ==
            ViewResources(h)[key := Resource(row.uid, row.cells, h.blobs[row.blob], row.shrunk)]
  {
    RowKeepsSound(h, key, row);
    RowKeepsLogs(h, key, row);
  }

  lemma RowKeepsLogs(h: Heap, key: ResKey, row: ResourceRow)
    requires Sound(h) && row.blob in h.blobs && (row.shrunk ==> h.blobs[row.blob] == [])
    ensures Sound(WithRow(h, key, row)) && ViewLogs(WithRow(h, key, row)) == ViewLogs(h)
  {
    RowKeepsSound(h, key, row);
  }

  lemma RowKeepsSound(h: Heap, key: ResKey, row: ResourceRow)
    requires Sound(h) && row.blob in h.blobs && (row.shrunk ==> h.blobs[row.blob] == [])
    ensures Sound(WithRow(h, key, row))
  {
  }

  lemma LogView(h: Heap, key: LogKey, row: LogRow)
    requires Sound(h) && row.blob in h.blobs
    ensures Sound(WithLog(h, key, row)) && ViewResources(WithLog(h, key, row)) == ViewResources(h)
    ensures ViewLogs(WithLog(h, key, row)) ==
            ViewLogs(h)[key := LogEntry(row.tailLines, row.bytes, h.blobs[row.blob], row.errorMsg)]
  {
    LogKeepsSound(h, key, row);
    LogKeepsRows(h, key, row);
  }

  lemma LogKeepsRows(h: Heap, key: LogKey, row: LogRow)
    requires Sound(h) && row.blob in h.blobs
    ensures Sound(WithLog(h, key, row)) && ViewResources(WithLog(h, key, row)) == ViewResources(h)
  {
    LogKeepsSound(h, key, row);
  }

  lemma LogKeepsSound(h: Heap, key: LogKey, row: LogRow)
    requires Sound(h) && row.blob in h.blobs
    ensures Sound(WithLog(h, key, row))
  {
  }

  lemma RowUses(h: Heap, mid: Heap, key: ResKey, row: ResourceRow, data: Bytes)
    requires NoOrphans(h) && Holds(h, mid, row.blob, data) && key !in h.resources
    ensures NoOrphans(WithRow(mid, key, row))
  {
    var h' := WithRow(mid, key, row);
    forall b | b in h'.blobs
      ensures b in Uses(h')
    {
      if b == row.blob {
        assert h'.resources[key].blob == b;
      } else {
        assert b in Uses(h);
        if k :| k in h.resources && h.resources[k].blob == b {
          assert h'.resources[k].blob == b;
        }
      }
    }
  }

  lemma LogUses(h: Heap, mid: Heap, key: LogKey, row: LogRow, data: Bytes)
    requires NoOrphans(h) && Holds(h, mid, row.blob, data) && key !in h.logs
    ensures NoOrphans(WithLog(mid, key, row))
  {
    var h' := WithLog(mid, key, row);
    forall b | b in h'.blobs
      ensures b in Uses(h')
    {
      if b == row.blob {
        assert h'.logs[key].blob == b;
      } else {
        assert b in Uses(h);
        if k :| k in h.logs && h.logs[k].blob == b {
          assert h'.logs[k].blob == b;
        }
      }
    }
  }

  // ---- One insert ----

  /** The blob a row points at: its JSON, or the placeholder, looked up at most once a transaction. */
  method BlobForRow(h: Heap, r: Row, cache: map<Bytes, nat>, placeholder: nat)
    returns (h': Heap, blob: nat, cache': map<Bytes, nat>, placeholder': nat)
    requires Deduplicated(h) && CacheOk(cache, h) && PlaceholderOk(placeholder, h)
    ensures Holds(h, h', blob, ResourceOf(r).data) && CacheOk(cache', h') && PlaceholderOk(placeholder', h')
  {
    cache', placeholder' := cache, placeholder;
    if r.shrunk {
      h' := h;
      if placeholder' == 0 {
        h', placeholder' := UpsertEmptyBlob(h);
      }
      blob := placeholder';
    } else {
      h', blob, cache' := UpsertBlob(h, r.raw, cache');
    }
  }

  /** Inserts a row whose primary key is free. */
  method InsertRow(h: Heap, key: ResKey, r: Row, cache: map<Bytes, nat>, placeholder: nat)
    returns (h': Heap, cache': map<Bytes, nat>, placeholder': nat)
    requires Sound(h) && NoOrphans(h) && CacheOk(cache, h) && PlaceholderOk(placeholder, h) && key !in h.resources
    ensures Sound(h') && NoOrphans(h') && CacheOk(cache', h') && PlaceholderOk(placeholder', h')
    ensures ViewResources(h') == ViewResources(h)[key := ResourceOf(r)] && ViewLogs(h') == ViewLogs(h)
  {
    var mid, blob;
    mid, blob, cache', placeholder' := BlobForRow(h, r, cache, placeholder);
    var row := ResourceRow(r.uid, r.cells, blob, r.shrunk);
    HeldIsSound(h, mid, blob, ResourceOf(r).data);
    RowView(mid, key, row);
    RowUses(h, mid, key, row, ResourceOf(r).data);
    h' := WithRow(mid, key, row);
  }

  /** Inserts a log whose primary key is free. */
  method InsertLog(h: Heap, key: LogKey, l: PodLog, cache: map<Bytes, nat>) returns (h': Heap, cache': map<Bytes, nat>)
    requires Sound(h) && NoOrphans(h) && CacheOk(cache, h) && key !in h.logs
    ensures Sound(h') && NoOrphans(h') && CacheOk(cache', h')
    ensures ViewResources(h') == ViewResources(h) && ViewLogs(h') == ViewLogs(h)[key := LogOf(l)]
  {
    var mid, blob;
    mid, blob, cache' := UpsertBlob(h, l.content, cache);
    var row := LogRow(l.tailLines, |l.content|, blob, l.errorMsg);
    HeldIsSound(h, mid, blob, l.content);
    LogView(mid, key, row);
    LogUses(h, mid, key, row, l.content);
    h' := WithLog(mid, key, row);
  }

  // ---- Garbage collection ----

  /** Only blobs in use stay. */
  function Collected(h: Heap): Heap {
    h.(blobs := map b | b in h.blobs && b in Uses(h) :: h.blobs[b])
  }

  lemma CollectedIsSound(h: Heap)
    requires Sound(h)
    ensures Sound(Collected(h)) && NoOrphans(Collected(h))
    ensures ViewResources(Collected(h)) == ViewResources(h) && ViewLogs(Collected(h)) == ViewLogs(h)
  {
    UsesKept(h);
    KeptBlobsSuffice(h, Collected(h));
    assert Uses(Collected(h)) == Uses(h);
  }

  lemma UsesKept(h: Heap)
    requires NoDangling(h)
    ensures NoDangling(Collected(h))
  {
    forall k | k in h.resources
      ensures h.resources[k].blob in Uses(h)
    {
    }
    forall k | k in h.logs
      ensures h.logs[k].blob in Uses(h)
    {
    }
  }

  lemma KeptBlobsSuffice(h: Heap, h': Heap)
    requires Sound(h) && NoDangling(h')
    requires h'.resources == h.resources && h'.logs == h.logs && h'.lastBlob == h.lastBlob
    requires forall b :: b in h'.blobs ==> b in h.blobs && h'.blobs[b] == h.blobs[b]
    ensures Sound(h') && ViewResources(h') == ViewResources(h) && ViewLogs(h') == ViewLogs(h)
  {
  }
}
