/** Backup and restore: payloads are verified before the file that makes them count is published. */
module Backups {
  import opened Wrappers
  import opened Errors
  import opened Ordering
  import opened Schemas
  import opened Tables
  import opened Protocol

  /** One live object of a catalog snapshot. */
  datatype Entry = Entry(id: Id, token: Token, key: ObjectKey, size: nat, digest: string)

  // ---------------------------------------------------------------- what a snapshot must be

  /** Every operation is finished: blobs ready, jobs done, no unbound token, no running migration. */
  predicate Finished(t: Tables) {
    && (forall id | id in t.blobs :: t.blobs[id].state.Ready?)
    && (forall k | k in t.gc :: t.gc[k].done)
    && (forall tok | tok in t.prepared ::
          Bound(t, tok) || exists k | k in t.gc :: t.gc[k].token == Some(tok) && t.gc[k].done)
    && (forall m | m in t.migrations :: t.migrations[m].complete)
  }

  predicate OneRoot(t: Tables, root: string) {
    && (forall tok | tok in t.prepared :: t.prepared[tok].key.root == root)
    && (forall k | k in t.gc :: k.root == root)
  }

  predicate LiveQueued(t: Tables) {
    exists id | id in t.objects :: Queued(t, t.objects[id])
  }

  predicate ForeignFile(t: Tables) {
    exists id | id in t.blobs && id in t.objects && t.objects[id] in t.prepared ::
      var p := t.prepared[t.objects[id]];
      p.schemaName != t.blobs[id].schemaName || p.schemaVersion > t.blobs[id].schemaVersion
  }

  /** Every declared version is enrolled for payloads and its name for lifecycle operations. */
  predicate AllEnrolled(t: Tables) {
    forall n, d | n in t.schemas && d in t.schemas[n] :: (n, d.version) in t.payload && n in t.lifecycle
  }

  predicate MetadataGap(t: Tables) {
    exists id | id in t.blobs :: id !in t.metadata || t.metadata[id].schemaVersion != t.blobs[id].schemaVersion
  }

  predicate Unassociated(t: Tables, root: string, id: Id) {
    id !in t.objects || t.objects[id] !in t.prepared
    || t.prepared[t.objects[id]].key.root != root || !t.prepared[t.objects[id]].key.name.Object?
  }

  function EntryOf(t: Tables, root: string, id: Id): Entry
    requires !Unassociated(t, root, id)
  {
    var p := t.prepared[t.objects[id]];
    Entry(id, p.token, p.key, p.size, p.digest)
  }

  function LiveIds(t: Tables): seq<Id> {
    TextLessStrictTotal(t.blobs.Keys);
    Sorted(TextLess, t.blobs.Keys)
  }

  function DeclarationCount(t: Tables): nat {
    |set n, i | n in t.schemas && 0 <= i < |t.schemas[n]| :: (n, i)|
  }

  /** The checks of backup._entries, in the source's order. */
  function Refusal(t: Tables, root: string, max: nat): Option<Error> {
    if !Finished(t) then Some(UnfinishedWork)
    else if !OneRoot(t, root) then Some(OtherRoot)
    else if LiveQueued(t) then Some(LiveReference)
    else if ForeignFile(t) then Some(MissingAssociation)
    else if DeclarationCount(t) > max then Some(BadArgument)
    else if !AllEnrolled(t) then Some(NotEnrolled)
    else if MetadataGap(t) then Some(MissingMetadata)
    else if |t.blobs| > max then Some(BadArgument)
    else if !Associated(t, root) then Some(MissingAssociation)
    else None
  }

  predicate Associated(t: Tables, root: string) {
    forall id | id in t.blobs :: !Unassociated(t, root, id)
  }

  /** One entry per blob, in id order. */
  function Listing(t: Tables, root: string): seq<Entry>
    requires Associated(t, root)
  {
    var ids := LiveIds(t);
    LiveIdsAreBlobs(t);
    seq(|ids|, i requires 0 <= i < |ids| => EntryOf(t, root, ids[i]))
  }

  function Entries(t: Tables, root: string, max: nat): Result<seq<Entry>, Error> {
    var refusal := Refusal(t, root, max);
    if refusal.Some? then Failure(refusal.value)
    else
      assert Associated(t, root);
      Success(Listing(t, root))
  }

  lemma LiveIdsAreBlobs(t: Tables)
    ensures Elements(LiveIds(t)) == t.blobs.Keys && Increasing(TextLess, LiveIds(t))
    ensures forall i | 0 <= i < |LiveIds(t)| :: LiveIds(t)[i] in t.blobs
  {
    TextLessStrictTotal(t.blobs.Keys);
    SortedIsSorted(TextLess, t.blobs.Keys);
    forall i | 0 <= i < |LiveIds(t)| ensures LiveIds(t)[i] in t.blobs {
      assert LiveIds(t)[i] in Elements(LiveIds(t));
    }
  }

  /** Under the invariant the only integrity error left is a missing enrolment, and acceptance has an exact condition. */
  lemma SnapshotIsSound(t: Tables, root: string, max: nat)
    requires Inv(t)
    ensures !LiveQueued(t) && !ForeignFile(t) && !MetadataGap(t)
    ensures OneRoot(t, root) ==> Associated(t, root)
    ensures Entries(t, root, max).Failure? ==>
      Entries(t, root, max).error in {UnfinishedWork, OtherRoot, BadArgument, NotEnrolled}
    ensures Entries(t, root, max).Success? <==>
      Finished(t) && OneRoot(t, root) && DeclarationCount(t) <= max && AllEnrolled(t) && |t.blobs| <= max
    ensures Entries(t, root, max) == Failure(NotEnrolled) <==>
      Finished(t) && OneRoot(t, root) && DeclarationCount(t) <= max && !AllEnrolled(t)
  {
    forall id | id in t.objects ensures !Queued(t, t.objects[id]) { LiveIsNotQueued(t, id); }
    forall id | id in t.blobs
      ensures id in t.metadata && t.metadata[id].schemaVersion == t.blobs[id].schemaVersion
      ensures id in t.objects && t.objects[id] in t.prepared
      ensures t.prepared[t.objects[id]].key.name.Object?
      ensures t.prepared[t.objects[id]].schemaName == t.blobs[id].schemaName
      ensures t.prepared[t.objects[id]].schemaVersion <= t.blobs[id].schemaVersion
    {
      assert BlobOk(t, id) && FileOk(t, t.objects[id]);
    }
  }

  /** Work that a later call must still finish: a publication, a cleanup, a prepared token, a migration. */
  ghost predicate Outstanding(t: Tables) {
    || (exists id | id in t.blobs :: t.blobs[id].state == Publishing)
    || (exists k | k in t.gc :: !t.gc[k].done)
    || (exists tok | tok in t.prepared ::
          (forall id | id in t.objects :: t.objects[id] != tok)
          && (forall k | k in t.gc :: t.gc[k].token == Some(tok) ==> !t.gc[k].done))
    || (exists m | m in t.migrations :: !t.migrations[m].complete)
  }

  ghost predicate Elsewhere(t: Tables, root: string) {
    || (exists tok | tok in t.prepared :: t.prepared[tok].key.root != root)
    || (exists k | k in t.gc :: k.root != root)
  }

  ghost predicate Unenrolled(t: Tables) {
    || (exists n, v: nat | n in t.schemas && 1 <= v <= |t.schemas[n]| :: (n, v) !in t.payload)
    || (exists n | n in t.schemas :: n !in t.lifecycle)
  }

  /** Under the invariant, what a snapshot is refused for, in the order of the checks; and nothing else is. */
  lemma EntriesAnswer(t: Tables, root: string, max: nat)
    requires Inv(t)
    ensures var r := Entries(t, root, max);
      if Outstanding(t) then r == Failure(UnfinishedWork)
      else if Elsewhere(t, root) then r == Failure(OtherRoot)
      else if |set n, i | n in t.schemas && 0 <= i < |t.schemas[n]| :: (n, i)| > max then r == Failure(BadArgument)
      else if Unenrolled(t) then r == Failure(NotEnrolled)
      else if |t.blobs| > max then r == Failure(BadArgument)
      else r.Success?
  {
    SnapshotIsSound(t, root, max);
    OutstandingMeans(t);
    ElsewhereMeans(t, root);
    UnenrolledMeans(t);
  }

  lemma OutstandingMeans(t: Tables)
    requires BlobsOk(t)
    ensures Outstanding(t) <==> !Finished(t)
  {
    forall id | id in t.blobs ensures t.blobs[id].state == Ready || t.blobs[id].state == Publishing { assert BlobOk(t, id); }
  }

  lemma ElsewhereMeans(t: Tables, root: string)
    ensures Elsewhere(t, root) <==> !OneRoot(t, root)
  {
  }

  lemma UnenrolledMeans(t: Tables)
    requires SchemasOk(t)
    ensures Unenrolled(t) <==> !AllEnrolled(t)
  {
    if AllEnrolled(t) {
      forall n, v: nat | n in t.schemas && 1 <= v <= |t.schemas[n]| ensures (n, v) in t.payload && n in t.lifecycle {
        assert SchemaOk(t, n);
        assert t.schemas[n][v - 1] in t.schemas[n];
      }
      forall n | n in t.schemas ensures n in t.lifecycle {
        assert SchemaOk(t, n);
        assert t.schemas[n][0] in t.schemas[n];
      }
    }
    if !Unenrolled(t) {
      forall n, d | n in t.schemas && d in t.schemas[n] ensures (n, d.version) in t.payload && n in t.lifecycle {
        assert SchemaOk(t, n);
        var i :| 0 <= i < |t.schemas[n]| && t.schemas[n][i] == d;
        assert (n, d.version) in t.payload;
      }
    }
  }

  /** Whether a store holds an entry's object with its recorded size and digest. */
  predicate Verified(objects: map<ObjectKey, Bytes>, hash: Digest, e: Entry) {
    e.key in objects && |objects[e.key]| == e.size && hash(objects[e.key]) == e.digest
  }

  predicate AllVerified(objects: map<ObjectKey, Bytes>, hash: Digest, entries: seq<Entry>) {
    forall i | 0 <= i < |entries| :: Verified(objects, hash, entries[i])
  }

  predicate KeysDistinct(entries: seq<Entry>) {
    forall i, j | 0 <= i < j < |entries| :: entries[i].key != entries[j].key
  }

  lemma EntriesShape(t: Tables, root: string, max: nat)
    requires Entries(t, root, max).Success?
    ensures Associated(t, root) && Entries(t, root, max).value == Listing(t, root)
    ensures |Listing(t, root)| == |LiveIds(t)|
    ensures forall i | 0 <= i < |LiveIds(t)| ::
      LiveIds(t)[i] in t.blobs && Listing(t, root)[i] == EntryOf(t, root, LiveIds(t)[i])
  {
    LiveIdsAreBlobs(t);
  }

  lemma EntryIsIntact(w: World, hash: Digest, root: string, id: Id)
    requires Safe(w, hash) && id in w.tables.blobs && !Unassociated(w.tables, root, id)
    ensures Verified(w.store, hash, EntryOf(w.tables, root, id))
    ensures EntryOf(w.tables, root, id).token == w.tables.objects[id]
  {
    LiveIsNotQueued(w.tables, id);
    JournaledBytes(w, hash, w.tables.objects[id]);
    assert FileOk(w.tables, w.tables.objects[id]);
  }

  lemma KeysDiffer(t: Tables, root: string, i: Id, j: Id)
    requires Inv(t) && i in t.blobs && j in t.blobs && !Unassociated(t, root, i) && !Unassociated(t, root, j)
    requires TextLess(i, j)
    ensures EntryOf(t, root, i).key != EntryOf(t, root, j).key
  {
    TextLessIrreflexive(i);
    assert !SameToken(t, i, j) && !SameKey(t, t.objects[i], t.objects[j]);
  }

  /** In every reachable world the snapshot's entries are intact in the live store, under distinct keys. */
  lemma EntriesAreIntact(w: World, hash: Digest, root: string, max: nat)
    requires Safe(w, hash) && Entries(w.tables, root, max).Success?
    ensures AllVerified(w.store, hash, Entries(w.tables, root, max).value)
    ensures KeysDistinct(Entries(w.tables, root, max).value)
    ensures forall e | e in Entries(w.tables, root, max).value ::
      e.key in w.store && |w.store[e.key]| == e.size && hash(w.store[e.key]) == e.digest
  {
    var t, entries, ids := w.tables, Entries(w.tables, root, max).value, LiveIds(w.tables);
    LiveIdsAreBlobs(t);
    EntriesShape(t, root, max);
    forall i | 0 <= i < |entries| ensures Verified(w.store, hash, entries[i]) {
      EntryIsIntact(w, hash, root, ids[i]);
    }
    forall i, j | 0 <= i < j < |entries| ensures entries[i].key != entries[j].key {
      assert TextLess(ids[i], ids[j]);
      KeysDiffer(t, root, ids[i], ids[j]);
    }
  }

  /** Every blob has exactly one entry, in id order, and it names the blob's own object. */
  lemma EntriesAreBlobs(t: Tables, root: string, max: nat, id: Id)
    requires Entries(t, root, max).Success?
    ensures var entries := Entries(t, root, max).value;
      id in t.blobs <==> exists i | 0 <= i < |entries| :: entries[i].id == id
    ensures var entries := Entries(t, root, max).value;
      forall i, j | 0 <= i < j < |entries| :: TextLess(entries[i].id, entries[j].id) && entries[i].id != entries[j].id
    ensures forall e | e in Entries(t, root, max).value ::
      && e.id in t.objects && t.objects[e.id] in t.prepared
      && var p := t.prepared[t.objects[e.id]];
      e.token == p.token && e.key == p.key && e.size == p.size && e.digest == p.digest && p.key.root == root
  {
    var entries, ids := Entries(t, root, max).value, LiveIds(t);
    LiveIdsAreBlobs(t);
    EntriesShape(t, root, max);
    assert id in t.blobs <==> id in Elements(ids);
    forall i | 0 <= i < |ids| ensures entries[i].id == ids[i] {}
    forall i, j | 0 <= i < j < |entries| ensures TextLess(entries[i].id, entries[j].id) && entries[i].id != entries[j].id {
      assert TextLess(ids[i], ids[j]);
      TextLessIrreflexive(ids[i]);
    }
  }

  // ---------------------------------------------------------------- the destination

  /** How one change to a destination goes. */
  datatype Device =
    | Works
    | Stops(left: Option<Bytes>)   // the process ends here, leaving nothing or these bytes
    | Corrupts(other: Bytes)       // reports success but stored other bytes

  /** A fresh destination directory: its object root and its plain files. */
  class Disk {
    var made: bool
    var objects: map<ObjectKey, Bytes>
    var files: map<string, Bytes>
    var calls: nat
    const script: nat -> Device

    constructor (script: nat -> Device)
      ensures !made && objects == map[] && files == map[] && this.script == script
    {
      made, objects, files, calls := false, map[], map[], 0;
      this.script := script;
    }

    ghost predicate Reliable() {
      forall n :: script(n).Works?
    }

    method MakeDirectory() returns (ok: bool)
      modifies this`made, this`calls
      ensures ok ==> !old(made) && made
      ensures Reliable() ==> ok == !old(made)
    {
      var device := script(calls);
      calls := calls + 1;
      ok := !made && !device.Stops?;
      made := made || device.Works? || device.Corrupts? || device.left.Some?;
    }

    /** Create-only upload of one object. */
    method Upload(key: ObjectKey, bytes: Bytes) returns (ok: bool)
      modifies this`objects, this`calls
      ensures forall k | k in old(objects) :: k in objects && objects[k] == old(objects)[k]
      ensures Reliable() && key !in old(objects) ==> ok && objects == old(objects)[key := bytes]
    {
      var device := script(calls);
      calls := calls + 1;
      if key in objects {
        return false;
      }
      ok := !device.Stops?;
      match device {
        case Works => objects := objects[key := bytes];
        case Corrupts(other) => objects := objects[key := other];
        case Stops(left) => if left.Some? { objects := objects[key := left.value]; }
      }
    }

    /** Create-only file; a stop may leave it incomplete. */
    method Write(name: string, bytes: Bytes) returns (ok: bool)
      modifies this`files, this`calls
      ensures files.Keys <= old(files).Keys + {name}
      ensures forall f | f in old(files) :: f in files && files[f] == old(files)[f]
      ensures ok ==> name in files && name !in old(files)
      ensures Reliable() && name !in old(files) ==> ok && files == old(files)[name := bytes]
    {
      var device := script(calls);
      calls := calls + 1;
      if name in files {
        return false;
      }
      ok := !device.Stops?;
      match device {
        case Works => files := files[name := bytes];
        case Corrupts(other) => files := files[name := other];
        case Stops(left) => if left.Some? { files := files[name := left.value]; }
      }
    }

    /** Atomic create-only hard link. */
    method Link(from: string, to: string) returns (ok: bool)
      requires from in files
      modifies this`files, this`calls
      ensures files == old(files) || (to !in old(files) && files == old(files)[to := old(files)[from]])
      ensures ok ==> to !in old(files) && to in files
      ensures Reliable() && to !in old(files) ==> ok && files == old(files)[to := old(files)[from]]
    {
      var device := script(calls);
      calls := calls + 1;
      ok := to !in files && !device.Stops?;
      if to !in files && (!device.Stops? || device.left.Some?) { files := files[to := files[from]]; }
    }
  }

  /** A working device, and an intact source with one object per entry. */
  ghost predicate Copyable(source: map<ObjectKey, Bytes>, target: Disk, hash: Digest, entries: seq<Entry>) {
    target.Reliable() && AllVerified(source, hash, entries) && KeysDistinct(entries)
  }

  /** The copies hold the same bytes. */
  predicate SamePayloads(source: map<ObjectKey, Bytes>, copy: map<ObjectKey, Bytes>, entries: seq<Entry>) {
    forall e | e in entries :: e.key in source && e.key in copy && copy[e.key] == source[e.key]
  }

  /** _copy_payloads: upload, then read back and verify, each entry; it succeeds only when all are verified. */
  method CopyPayloads(source: map<ObjectKey, Bytes>, target: Disk, hash: Digest, entries: seq<Entry>) returns (ok: bool)
    modifies target`objects, target`calls
    ensures ok ==> AllVerified(target.objects, hash, entries)
    ensures ok ==> forall e | e in entries ::
      e.key in target.objects && |target.objects[e.key]| == e.size && hash(target.objects[e.key]) == e.digest
    ensures ok ==> forall e | e in entries ::
      e.key in source && |source[e.key]| == e.size && hash(source[e.key]) == e.digest
    ensures Copyable(source, target, hash, entries) && old(target.objects) == map[] ==>
      ok && SamePayloads(source, target.objects, entries)
  {
    for i := 0 to |entries|
      invariant AllVerified(target.objects, hash, entries[..i]) && AllVerified(source, hash, entries[..i])
      invariant Copyable(source, target, hash, entries) && old(target.objects) == map[] ==>
        && (forall k | k in target.objects :: exists j | 0 <= j < i :: entries[j].key == k)
        && (forall j | 0 <= j < i ::
              entries[j].key in target.objects && target.objects[entries[j].key] == source[entries[j].key])
    {
      var e := entries[i];
      var bytes := Materialize(source, hash, e.key, e.size, e.digest);
      if bytes.Failure? {
        assert !Verified(source, hash, e);
        return false;
      }
      ok := target.Upload(e.key, bytes.value);
      if !ok {
        return;
      }
      if Materialize(target.objects, hash, e.key, e.size, e.digest).Failure? {
        return false;
      }
      assert entries[..i + 1] == entries[..i] + [e];
    }
    assert entries[..|entries|] == entries;
    ok := true;
  }

  datatype Descriptor = Descriptor(size: nat, digest: string)

  function Describe(hash: Digest, bytes: Bytes): Descriptor {
    Descriptor(|bytes|, hash(bytes))
  }

  datatype Manifest = Manifest(root: string, catalog: Descriptor, entries: seq<Entry>)

  /** A finished backup directory; the catalog file reads as one set of tables. */
  datatype Backup = Backup(manifest: Option<Manifest>, catalog: Bytes, objects: map<ObjectKey, Bytes>)

  /** The entries of a snapshot, with their payloads copied and verified. */
  method CopyLive(w: World, root: string, hash: Digest, max: nat, target: Disk) returns (r: Result<seq<Entry>, Error>)
    modifies target`objects, target`calls
    ensures r.Success? ==> Entries(w.tables, root, max) == r && AllVerified(target.objects, hash, r.value)
    ensures r.Failure? && Entries(w.tables, root, max).Failure? ==> r == Entries(w.tables, root, max)
    ensures Safe(w, hash) && target.Reliable() && old(target.objects) == map[] ==>
      (r.Success? <==> Entries(w.tables, root, max).Success?)
    ensures Safe(w, hash) && target.Reliable() && old(target.objects) == map[] && r.Success? ==>
      SamePayloads(w.store, target.objects, r.value)
  {
    r := Entries(w.tables, root, max);
    if r.Failure? {
      return;
    }
    if Safe(w, hash) { EntriesAreIntact(w, hash, root, max); }
    var ok := CopyPayloads(w.store, target, hash, r.value);
    if !ok {
      return Failure(CorruptObject);
    }
  }

  /** backup: the manifest is written last. */
  method BackUp(
    w: World, root: string, hash: Digest, max: nat, encode: Tables -> Bytes, encodeManifest: Manifest -> Bytes, target: Disk)
    returns (r: Result<Manifest, Error>)
    requires !target.made ==> target.files == map[] && target.objects == map[]
    modifies target
    ensures "manifest.json" in target.files && "manifest.json" !in old(target.files) ==>
      && Entries(w.tables, root, max).Success?
      && (forall e | e in Entries(w.tables, root, max).value ::
        e.key in target.objects && |target.objects[e.key]| == e.size && hash(target.objects[e.key]) == e.digest)
    ensures r.Success? ==> Entries(w.tables, root, max) == Success(r.value.entries)
    ensures Safe(w, hash) && target.Reliable() && !old(target.made) ==>
      (r.Success? <==> Entries(w.tables, root, max).Success?)
    ensures Safe(w, hash) && target.Reliable() && !old(target.made) && r.Success? ==>
      && AllVerified(target.objects, hash, r.value.entries) && SamePayloads(w.store, target.objects, r.value.entries)
      && r.value.catalog == Descriptor(|encode(w.tables)|, hash(encode(w.tables))) && r.value.root == root
      && "catalog.sqlite" in target.files && target.files["catalog.sqlite"] == encode(w.tables)
  {
    var ok := target.MakeDirectory();
    if !ok {
      return Failure(StorageFailure);
    }
    ok := target.Write("catalog.sqlite", encode(w.tables));
    if !ok {
      return Failure(StorageFailure);
    }
    var entries := CopyLive(w, root, hash, max, target);
    if entries.Failure? {
      return Failure(entries.error);
    }
    var manifest := Manifest(root, Describe(hash, target.files["catalog.sqlite"]), entries.value);
    ok := target.Write("manifest.json", encodeManifest(manifest));
    if !ok {
      return Failure(StorageFailure);
    }
    return Success(manifest);
  }

  /** A manifest that describes this catalog file, and whose objects are the catalog's own. */
  predicate Consistent(b: Backup, hash: Digest, max: nat, decode: Bytes -> Option<Tables>) {
    && b.manifest.Some? && Describe(hash, b.catalog) == b.manifest.value.catalog
    && decode(b.catalog).Some?
    && Entries(decode(b.catalog).value, b.manifest.value.root, max) == Success(b.manifest.value.entries)
  }

  predicate Published(target: Disk)
    reads target
  {
    "catalog.sqlite" in target.files
  }

  /** Payloads first, then the catalog under a temporary name, verified, then its atomic publication. */
  method Publish(
    source: map<ObjectKey, Bytes>, entries: seq<Entry>, catalog: Bytes, descriptor: Descriptor, hash: Digest, target: Disk)
    returns (ok: bool)
    requires !target.made ==> target.files == map[] && target.objects == map[]
    modifies target
    ensures Published(target) && !old(Published(target)) ==>
      && Describe(hash, target.files["catalog.sqlite"]) == descriptor && AllVerified(target.objects, hash, entries)
      && (forall e | e in entries ::
        e.key in target.objects && |target.objects[e.key]| == e.size && hash(target.objects[e.key]) == e.digest)
    ensures ok ==> Published(target) && !old(Published(target))
    ensures target.Reliable() && !old(target.made) && Describe(hash, catalog) == descriptor ==>
      AllVerified(source, hash, entries) && KeysDistinct(entries) ==>
        ok && target.files["catalog.sqlite"] == catalog && SamePayloads(source, target.objects, entries)
  {
    ok := target.MakeDirectory();
    if !ok {
      return;
    }
    ok := CopyPayloads(source, target, hash, entries);
    if !ok {
      return;
    }
    ok := target.Write("catalog.partial", catalog);
    if !ok {
      return;
    }
    if Describe(hash, target.files["catalog.partial"]) != descriptor {
      return false;
    }
    ok := target.Link("catalog.partial", "catalog.sqlite");
  }

  /**
   * _restore_backup. Wherever the process stops, a published catalog is the backed-up one and all its payloads are
   * verified in the destination; and an intact backup restores on a device that works.
   */
  method Restore(b: Backup, hash: Digest, max: nat, decode: Bytes -> Option<Tables>, target: Disk) returns (ok: bool)
    requires !target.made ==> target.files == map[] && target.objects == map[]
    modifies target
    ensures Published(target) && !old(Published(target)) ==>
      && b.manifest.Some? && decode(b.catalog).Some?
      && var m := b.manifest.value; var file := target.files["catalog.sqlite"];
      && m.catalog == Descriptor(|b.catalog|, hash(b.catalog)) == Descriptor(|file|, hash(file))
      && Entries(decode(b.catalog).value, m.root, max) == Success(m.entries)
      && (forall e | e in m.entries ::
        e.key in target.objects && |target.objects[e.key]| == e.size && hash(target.objects[e.key]) == e.digest)
    ensures ok ==> Published(target) && !old(Published(target))
    ensures target.Reliable() && !old(target.made) && Consistent(b, hash, max, decode) ==>
      AllVerified(b.objects, hash, b.manifest.value.entries) && KeysDistinct(b.manifest.value.entries) ==>
        && ok && target.files["catalog.sqlite"] == b.catalog
        && SamePayloads(b.objects, target.objects, b.manifest.value.entries)
  {
    if !Consistent(b, hash, max, decode) {
      return false;
    }
    var manifest := b.manifest.value;
    ok := Publish(b.objects, manifest.entries, b.catalog, manifest.catalog, hash, target);
  }

  /** The backup at hand is restored to a working device. */
  method RestoreCopy(b: Backup, ghost t: Tables, hash: Digest, max: nat, decode: Bytes -> Option<Tables>, target: Disk)
    returns (ok: bool)
    requires !target.made && target.files == map[] && target.objects == map[] && b.manifest.Some?
    modifies target
    ensures (
        && target.Reliable() && decode(b.catalog) == Some(t)
        && b.manifest.value.catalog == Descriptor(|b.catalog|, hash(b.catalog))
        && Entries(t, b.manifest.value.root, max) == Success(b.manifest.value.entries)
        && AllVerified(b.objects, hash, b.manifest.value.entries) && KeysDistinct(b.manifest.value.entries)) ==>
        && ok && Published(target) && target.files["catalog.sqlite"] == b.catalog
        && AllVerified(target.objects, hash, b.manifest.value.entries)
        && SamePayloads(b.objects, target.objects, b.manifest.value.entries)
  {
    ok := Restore(b, hash, max, decode, target);
  }

  /** A finished and enrolled reachable world, devices that work, and a catalog file that reads back as it was written. */
  ghost predicate Recoverable(
    w: World, root: string, hash: Digest, max: nat, encode: Tables -> Bytes, decode: Bytes -> Option<Tables>,
    first: Disk, second: Disk)
  {
    && Safe(w, hash) && Finished(w.tables) && OneRoot(w.tables, root) && AllEnrolled(w.tables)
    && DeclarationCount(w.tables) <= max && |w.tables.blobs| <= max
    && first.Reliable() && second.Reliable() && decode(encode(w.tables)) == Some(w.tables)
  }

  /** From any such world, backing up and restoring reproduces the catalog and every live payload. */
  method BackUpAndRestore(
    w: World, root: string, hash: Digest, max: nat, encode: Tables -> Bytes, decode: Bytes -> Option<Tables>,
    encodeManifest: Manifest -> Bytes, first: Disk, second: Disk)
    returns (ok: bool)
    requires first != second && !first.made && !second.made
    requires first.files == map[] && first.objects == map[] && second.files == map[] && second.objects == map[]
    modifies first, second
    ensures Recoverable(w, root, hash, max, encode, decode, first, second) ==>
      && ok && Published(second) && decode(second.files["catalog.sqlite"]) == Some(w.tables)
      && Entries(w.tables, root, max).Success?
      && (forall e | e in Entries(w.tables, root, max).value ::
        && e.key in second.objects && |second.objects[e.key]| == e.size && hash(second.objects[e.key]) == e.digest
        && e.key in w.store && second.objects[e.key] == w.store[e.key])
  {
    if Recoverable(w, root, hash, max, encode, decode, first, second) { SnapshotIsSound(w.tables, root, max); }
    var manifest := BackUp(w, root, hash, max, encode, encodeManifest, first);
    if manifest.Failure? || "catalog.sqlite" !in first.files {
      return false;
    }
    if Recoverable(w, root, hash, max, encode, decode, first, second) { EntriesAreIntact(w, hash, root, max); }
    ok := RestoreCopy(
      Backup(Some(manifest.value), first.files["catalog.sqlite"], first.objects), w.tables, hash, max, decode, second);
  }
}
