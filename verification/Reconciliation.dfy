/** reconcile: how it classifies the journal, the queue and the inventory, and what it finds in any reachable world. */
module Reconciliation {
  import opened Wrappers
  import opened Errors
  import opened Ordering
  import opened Schemas
  import opened Tables
  import opened Lifecycle
  import opened Protocol
  import opened Exclusion

  // ---------------------------------------------------------------- classification

  /** Where a journal row is reported. */
  datatype RowKind = WaitsForCleanup | CleanedUp | IsReady | IsPublishing | IsPrepared | Unexpected

  predicate InState(t: Tables, tok: Token, state: State) {
    exists id | id in t.objects && id in t.blobs :: t.objects[id] == tok && t.blobs[id].state == state
  }

  function KindOf(t: Tables, tok: Token): RowKind
    requires tok in t.prepared
  {
    var key := t.prepared[tok].key;
    if key in t.gc then if t.gc[key].done then CleanedUp else WaitsForCleanup
    else if InState(t, tok, Ready) then IsReady
    else if InState(t, tok, Publishing) then IsPublishing
    else if InState(t, tok, PendingDelete) then Unexpected
    else IsPrepared
  }

  predicate Reported(kind: RowKind) {
    kind.IsReady? || kind.IsPublishing? || kind.IsPrepared?
  }

  datatype Health = Intact | Missing | Corrupt

  /** The size is always compared; the bytes only when verifying. */
  function HealthOf(store: map<ObjectKey, Bytes>, hash: Digest, verify: bool, p: PreparedFile): Health {
    if p.key !in store then Missing
    else if |store[p.key]| != p.size || (verify && hash(store[p.key]) != p.digest) then Corrupt
    else Intact
  }

  /** Where an inventory key is reported. */
  datatype Place = Accounted | Reappeared | Reserved | Orphaned | Staged | Unrecognized

  const RESERVED := {"meldstore-storage.json", "meldstore-access.sqlite", "meldstore-access.sqlite-journal"}

  function PlaceOf(t: Tables, root: string, n: Name): Place {
    var key := ObjectKey(root, n);
    if KeyJournaled(t, key) || key in t.gc then
      if key in t.gc && t.gc[key].done then Reappeared else Accounted
    else match n
      case Object(_) => Orphaned
      case Staging(_) => Staged
      case Other(path) => if path in RESERVED then Reserved else Unrecognized
  }

  /** A queued key without a journal row is reported from the queue. */
  predicate PendingAlone(t: Tables, root: string, n: Name) {
    var key := ObjectKey(root, n);
    key in t.gc && !t.gc[key].done && !KeyJournaled(t, key)
  }

  datatype Report = Report(
    ready: seq<Token>, publishing: seq<Token>, prepared: seq<Token>, pending: seq<Name>,
    missing: seq<Name>, corrupt: seq<Name>, orphans: seq<Name>, staging: seq<Name>, unrecognized: seq<Name>,
    unreadable: seq<Id>, unexpected: seq<Token>, reappeared: seq<Name>)  // the three together are catalog_errors

  function OfKind(t: Tables, rows: seq<Token>, kind: RowKind): seq<Token>
    requires forall tok | tok in rows :: tok in t.prepared
  {
    if rows == [] then []
    else
      var last := rows[|rows| - 1];
      OfKind(t, rows[..|rows| - 1], kind) + if KindOf(t, last) == kind then [last] else []
  }

  function NamesOfKind(t: Tables, rows: seq<Token>, kind: RowKind): seq<Name>
    requires forall tok | tok in rows :: tok in t.prepared
  {
    if rows == [] then []
    else
      var last := rows[|rows| - 1];
      NamesOfKind(t, rows[..|rows| - 1], kind) + if KindOf(t, last) == kind then [t.prepared[last].key.name] else []
  }

  function OfHealth(
    t: Tables, store: map<ObjectKey, Bytes>, hash: Digest, verify: bool, rows: seq<Token>, health: Health): seq<Name>
    requires forall tok | tok in rows :: tok in t.prepared
  {
    if rows == [] then []
    else
      var p := t.prepared[rows[|rows| - 1]];
      OfHealth(t, store, hash, verify, rows[..|rows| - 1], health)
      + if Reported(KindOf(t, rows[|rows| - 1])) && HealthOf(store, hash, verify, p) == health then [p.key.name] else []
  }

  function PendingOf(t: Tables, root: string, queue: seq<Name>): seq<Name> {
    if queue == [] then []
    else
      var last := queue[|queue| - 1];
      PendingOf(t, root, queue[..|queue| - 1]) + if PendingAlone(t, root, last) then [last] else []
  }

  function Placed(t: Tables, root: string, inventory: seq<Name>, place: Place): seq<Name> {
    if inventory == [] then []
    else
      var last := inventory[|inventory| - 1];
      Placed(t, root, inventory[..|inventory| - 1], place) + if PlaceOf(t, root, last) == place then [last] else []
  }

  function Unreadable(t: Tables, blobs: seq<Id>): seq<Id> {
    if blobs == [] then []
    else
      var last := blobs[|blobs| - 1];
      Unreadable(t, blobs[..|blobs| - 1]) + if RecordOf(t, last, false).Failure? then [last] else []
  }

  // ---------------------------------------------------------------- the loops

  /** What SQLite and the store return, each in an order of their own. */
  ghost predicate Lists(
    t: Tables, store: map<ObjectKey, Bytes>, root: string,
    rows: seq<Token>, queue: seq<Name>, blobs: seq<Id>, inventory: seq<Name>)
  {
    && Distinct(rows) && Distinct(queue) && Distinct(blobs) && Distinct(inventory)
    && (forall tok :: tok in rows <==> tok in t.prepared && t.prepared[tok].key.root == root)
    && (forall n :: n in queue <==> ObjectKey(root, n) in t.gc)
    && (forall id :: id in blobs <==> id in t.blobs)
    && (forall n :: n in inventory <==> ObjectKey(root, n) in store)
  }

  /** The lists a journal row adds to, by its kind. */
  method ClassifyRows(t: Tables, rows: seq<Token>)
    returns (ready: seq<Token>, publishing: seq<Token>, prepared: seq<Token>, unexpected: seq<Token>, pending: seq<Name>)
    requires forall tok | tok in rows :: tok in t.prepared
    ensures ready == OfKind(t, rows, IsReady) && publishing == OfKind(t, rows, IsPublishing)
    ensures prepared == OfKind(t, rows, IsPrepared) && unexpected == OfKind(t, rows, Unexpected)
    ensures pending == NamesOfKind(t, rows, WaitsForCleanup)
  {
    ready, publishing, prepared, unexpected, pending := [], [], [], [], [];
    for i := 0 to |rows|
      invariant forall tok | tok in rows[..i] :: tok in t.prepared
      invariant ready == OfKind(t, rows[..i], IsReady) && publishing == OfKind(t, rows[..i], IsPublishing)
      invariant prepared == OfKind(t, rows[..i], IsPrepared) && unexpected == OfKind(t, rows[..i], Unexpected)
      invariant pending == NamesOfKind(t, rows[..i], WaitsForCleanup)
    {
      assert rows[i] in rows;
      assert rows[..i + 1][..i] == rows[..i];
      match KindOf(t, rows[i]) {
        case WaitsForCleanup => pending := pending + [t.prepared[rows[i]].key.name];
        case CleanedUp =>
        case Unexpected => unexpected := unexpected + [rows[i]];
        case IsReady => ready := ready + [rows[i]];
        case IsPublishing => publishing := publishing + [rows[i]];
        case IsPrepared => prepared := prepared + [rows[i]];
      }
    }
    assert rows[..|rows|] == rows;
  }

  /** The objects of rows not queued for cleanup. */
  method InspectRows(t: Tables, store: map<ObjectKey, Bytes>, hash: Digest, verify: bool, rows: seq<Token>)
    returns (missing: seq<Name>, corrupt: seq<Name>)
    requires forall tok | tok in rows :: tok in t.prepared
    ensures missing == OfHealth(t, store, hash, verify, rows, Missing)
    ensures corrupt == OfHealth(t, store, hash, verify, rows, Corrupt)
  {
    missing, corrupt := [], [];
    for i := 0 to |rows|
      invariant forall tok | tok in rows[..i] :: tok in t.prepared
      invariant missing == OfHealth(t, store, hash, verify, rows[..i], Missing)
      invariant corrupt == OfHealth(t, store, hash, verify, rows[..i], Corrupt)
    {
      assert rows[i] in rows;
      assert rows[..i + 1][..i] == rows[..i];
      var p := t.prepared[rows[i]];
      if Reported(KindOf(t, rows[i])) {
        if p.key !in store {
          missing := missing + [p.key.name];
        } else if |store[p.key]| != p.size {
          corrupt := corrupt + [p.key.name];
        } else if verify && Materialize(store, hash, p.key, p.size, p.digest).Failure? {
          corrupt := corrupt + [p.key.name];
        }
      }
    }
    assert rows[..|rows|] == rows;
  }

  method CheckInventory(t: Tables, root: string, inventory: seq<Name>)
    returns (orphans: seq<Name>, staging: seq<Name>, unrecognized: seq<Name>, reappeared: seq<Name>)
    ensures orphans == Placed(t, root, inventory, Orphaned) && staging == Placed(t, root, inventory, Staged)
    ensures unrecognized == Placed(t, root, inventory, Unrecognized) && reappeared == Placed(t, root, inventory, Reappeared)
  {
    orphans, staging, unrecognized, reappeared := [], [], [], [];
    for i := 0 to |inventory|
      invariant orphans == Placed(t, root, inventory[..i], Orphaned) && staging == Placed(t, root, inventory[..i], Staged)
      invariant unrecognized == Placed(t, root, inventory[..i], Unrecognized)
      invariant reappeared == Placed(t, root, inventory[..i], Reappeared)
    {
      assert inventory[..i + 1][..i] == inventory[..i];
      var key := ObjectKey(root, inventory[i]);
      if KeyJournaled(t, key) || key in t.gc {
        if key in t.gc && t.gc[key].done { reappeared := reappeared + [inventory[i]]; }
      } else {
        match inventory[i] {
          case Object(_) => orphans := orphans + [inventory[i]];
          case Staging(_) => staging := staging + [inventory[i]];
          case Other(path) =>
            if path !in RESERVED { unrecognized := unrecognized + [inventory[i]]; }
        }
      }
    }
    assert inventory[..|inventory|] == inventory;
  }

  method CheckQueue(t: Tables, root: string, queue: seq<Name>) returns (pending: seq<Name>)
    requires forall n | n in queue :: ObjectKey(root, n) in t.gc
    ensures pending == PendingOf(t, root, queue)
  {
    pending := [];
    for i := 0 to |queue|
      invariant pending == PendingOf(t, root, queue[..i])
    {
      assert queue[..i + 1][..i] == queue[..i];
      var key := ObjectKey(root, queue[i]);
      if !KeyJournaled(t, key) && !t.gc[key].done { pending := pending + [queue[i]]; }
    }
    assert queue[..|queue|] == queue;
  }

  method CheckBlobs(t: Tables, blobs: seq<Id>) returns (failed: seq<Id>)
    ensures failed == Unreadable(t, blobs)
  {
    failed := [];
    for i := 0 to |blobs|
      invariant failed == Unreadable(t, blobs[..i])
    {
      assert blobs[..i + 1][..i] == blobs[..i];
      if RecordOf(t, blobs[i], false).Failure? { failed := failed + [blobs[i]]; }
    }
    assert blobs[..|blobs|] == blobs;
  }

  /** The whole report, list by list. */
  ghost predicate IsReport(
    t: Tables, store: map<ObjectKey, Bytes>, root: string, hash: Digest, verify: bool,
    rows: seq<Token>, queue: seq<Name>, blobs: seq<Id>, inventory: seq<Name>, r: Report)
    requires forall tok | tok in rows :: tok in t.prepared
  {
    r == Report(
      OfKind(t, rows, IsReady), OfKind(t, rows, IsPublishing), OfKind(t, rows, IsPrepared),
      NamesOfKind(t, rows, WaitsForCleanup) + PendingOf(t, root, queue),
      OfHealth(t, store, hash, verify, rows, Missing), OfHealth(t, store, hash, verify, rows, Corrupt),
      Placed(t, root, inventory, Orphaned), Placed(t, root, inventory, Staged), Placed(t, root, inventory, Unrecognized),
      Unreadable(t, blobs), OfKind(t, rows, Unexpected), Placed(t, root, inventory, Reappeared))
  }

  method Reconcile(
    t: Tables, store: map<ObjectKey, Bytes>, root: string, hash: Digest, verify: bool, max: int,
    rows: seq<Token>, queue: seq<Name>, blobs: seq<Id>, inventory: seq<Name>)
    returns (r: Result<Report, Error>)
    requires Lists(t, store, root, rows, queue, blobs, inventory)
    ensures r.Success? <==>
      1 <= max <= 1000000 && |rows| <= max && |queue| <= max && |blobs| <= max && |inventory| <= max
    ensures r.Success? ==> IsReport(t, store, root, hash, verify, rows, queue, blobs, inventory, r.value)
  {
    if !(1 <= max <= 1000000) || |rows| > max || |queue| > max || |blobs| > max || |inventory| > max {
      return Failure(BadArgument);
    }
    var unreadable := CheckBlobs(t, blobs);
    var ready, publishing, prepared, unexpected, journaled := ClassifyRows(t, rows);
    var missing, corrupt := InspectRows(t, store, hash, verify, rows);
    var queued := CheckQueue(t, root, queue);
    var orphans, staging, unrecognized, reappeared := CheckInventory(t, root, inventory);
    return Success(Report(
      ready, publishing, prepared, journaled + queued, missing, corrupt, orphans, staging, unrecognized,
      unreadable, unexpected, reappeared));
  }

  // ---------------------------------------------------------------- what each list holds

  lemma {:induction false} OfKindHolds(t: Tables, rows: seq<Token>, kind: RowKind)
    requires forall tok | tok in rows :: tok in t.prepared
    ensures forall tok :: tok in OfKind(t, rows, kind) <==> tok in rows && KindOf(t, tok) == kind
    ensures Distinct(rows) ==> Distinct(OfKind(t, rows, kind))
  {
    if rows != [] {
      var init, last := rows[..|rows| - 1], rows[|rows| - 1];
      assert rows == init + [last];
      assert forall tok | tok in init :: tok in rows;
      OfKindHolds(t, init, kind);
    }
  }

  lemma {:induction false} NamesOfKindHolds(t: Tables, rows: seq<Token>, kind: RowKind)
    requires forall tok | tok in rows :: tok in t.prepared
    ensures forall n ::
      n in NamesOfKind(t, rows, kind) <==> exists tok | tok in rows :: KindOf(t, tok) == kind && t.prepared[tok].key.name == n
  {
    if rows != [] {
      var init, last := rows[..|rows| - 1], rows[|rows| - 1];
      assert rows == init + [last];
      assert forall tok | tok in init :: tok in rows;
      NamesOfKindHolds(t, init, kind);
    }
  }

  lemma {:induction false} PlacedHolds(t: Tables, root: string, inventory: seq<Name>, place: Place)
    ensures forall n :: n in Placed(t, root, inventory, place) <==> n in inventory && PlaceOf(t, root, n) == place
    ensures Distinct(inventory) ==> Distinct(Placed(t, root, inventory, place))
  {
    if inventory != [] {
      var init, last := inventory[..|inventory| - 1], inventory[|inventory| - 1];
      assert inventory == init + [last];
      PlacedHolds(t, root, init, place);
    }
  }

  lemma {:induction false} PendingOfHolds(t: Tables, root: string, queue: seq<Name>)
    ensures forall n :: n in PendingOf(t, root, queue) <==> n in queue && PendingAlone(t, root, n)
    ensures Distinct(queue) ==> Distinct(PendingOf(t, root, queue))
  {
    if queue != [] {
      var init, last := queue[..|queue| - 1], queue[|queue| - 1];
      assert queue == init + [last];
      PendingOfHolds(t, root, init);
    }
  }

  lemma {:induction false} OfHealthEmpty(
    t: Tables, store: map<ObjectKey, Bytes>, hash: Digest, verify: bool, rows: seq<Token>, health: Health)
    requires forall tok | tok in rows :: tok in t.prepared
    requires forall tok | tok in rows && Reported(KindOf(t, tok)) :: HealthOf(store, hash, verify, t.prepared[tok]) != health
    ensures OfHealth(t, store, hash, verify, rows, health) == []
  {
    if rows != [] {
      var init, last := rows[..|rows| - 1], rows[|rows| - 1];
      assert last in rows;
      assert forall tok | tok in init :: tok in rows;
      OfHealthEmpty(t, store, hash, verify, init, health);
    }
  }

  lemma {:induction false} UnreadableEmpty(t: Tables, blobs: seq<Id>)
    requires forall id | id in blobs :: RecordOf(t, id, false).Success?
    ensures Unreadable(t, blobs) == []
  {
    if blobs != [] {
      var init, last := blobs[..|blobs| - 1], blobs[|blobs| - 1];
      assert last in blobs;
      assert forall id | id in init :: id in blobs;
      UnreadableEmpty(t, init);
    }
  }

  // ---------------------------------------------------------------- reachable worlds

  lemma RowIsHealthy(w: World, hash: Digest, verify: bool, tok: Token)
    requires Safe(w, hash) && tok in w.tables.prepared
    ensures KindOf(w.tables, tok) != Unexpected
    ensures Reported(KindOf(w.tables, tok)) ==> HealthOf(w.store, hash, verify, w.tables.prepared[tok]) == Intact
  {
    var t := w.tables;
    forall id | id in t.objects && id in t.blobs ensures !t.blobs[id].state.PendingDelete? { assert BlobOk(t, id); }
    if t.prepared[tok].key !in t.gc { JournaledBytes(w, hash, tok); }
  }

  /** In every reachable world nothing is missing or corrupt and there is no catalog error. */
  lemma NothingWrong(
    w: World, hash: Digest, root: string, verify: bool,
    rows: seq<Token>, queue: seq<Name>, blobs: seq<Id>, inventory: seq<Name>, r: Report)
    requires Safe(w, hash) && Clean(w, w.tables) && Lists(w.tables, w.store, root, rows, queue, blobs, inventory)
    requires IsReport(w.tables, w.store, root, hash, verify, rows, queue, blobs, inventory, r)
    ensures r.missing == [] && r.corrupt == [] && r.unreadable == [] && r.unexpected == [] && r.reappeared == []
  {
    forall tok | tok in rows
      ensures KindOf(w.tables, tok) != Unexpected
      ensures Reported(KindOf(w.tables, tok)) ==> HealthOf(w.store, hash, verify, w.tables.prepared[tok]) == Intact
    {
      RowIsHealthy(w, hash, verify, tok);
    }
    OfHealthEmpty(w.tables, w.store, hash, verify, rows, Missing);
    OfHealthEmpty(w.tables, w.store, hash, verify, rows, Corrupt);
    OfKindEmpty(w.tables, rows, Unexpected);
    BlobsAreReadable(w, hash, blobs);
    NothingReappears(w, root, inventory);
  }

  lemma BlobsAreReadable(w: World, hash: Digest, blobs: seq<Id>)
    requires Safe(w, hash) && forall id | id in blobs :: id in w.tables.blobs
    ensures Unreadable(w.tables, blobs) == []
  {
    forall id | id in blobs ensures RecordOf(w.tables, id, false).Success? { RecordSucceeds(w.tables, id); }
    UnreadableEmpty(w.tables, blobs);
  }

  lemma NothingReappears(w: World, root: string, inventory: seq<Name>)
    requires Clean(w, w.tables) && forall n | n in inventory :: ObjectKey(root, n) in w.store
    ensures Placed(w.tables, root, inventory, Reappeared) == []
  {
    forall n | n in inventory ensures PlaceOf(w.tables, root, n) != Reappeared {
      assert ObjectKey(root, n) in w.tables.gc ==> DoneGone(w, w.tables, ObjectKey(root, n));
    }
    PlacedEmpty(w.tables, root, inventory, Reappeared);
  }

  lemma {:induction false} OfKindEmpty(t: Tables, rows: seq<Token>, kind: RowKind)
    requires forall tok | tok in rows :: tok in t.prepared && KindOf(t, tok) != kind
    ensures OfKind(t, rows, kind) == []
  {
    if rows != [] {
      var init, last := rows[..|rows| - 1], rows[|rows| - 1];
      assert last in rows;
      assert forall tok | tok in init :: tok in rows;
      OfKindEmpty(t, init, kind);
    }
  }

  lemma {:induction false} PlacedEmpty(t: Tables, root: string, inventory: seq<Name>, place: Place)
    requires forall n | n in inventory :: PlaceOf(t, root, n) != place
    ensures Placed(t, root, inventory, place) == []
  {
    if inventory != [] {
      var init, last := inventory[..|inventory| - 1], inventory[|inventory| - 1];
      assert last in inventory;
      assert forall n | n in init :: n in inventory;
      PlacedEmpty(t, root, init, place);
    }
  }

  /** A key reported with a journal row that is not queued. */
  predicate ReportedLive(t: Tables, r: Report, n: Name) {
    exists tok | tok in r.ready + r.publishing + r.prepared :: tok in t.prepared && t.prepared[tok].key.name == n
  }

  function Count(b: bool): nat { if b then 1 else 0 }

  /** How many parts of the report, the reserved files included, account for a key. */
  function Mentions(t: Tables, r: Report, n: Name): nat {
    Count(ReportedLive(t, r, n)) + Count(n in r.pending) + Count(n in r.orphans) + Count(n in r.staging)
    + Count(n in r.unrecognized) + Count(n.Other? && n.path in RESERVED)
  }

  lemma ReportedRows(t: Tables, rows: seq<Token>)
    requires Inv(t) && forall tok | tok in rows :: tok in t.prepared
    ensures forall tok ::
      tok in OfKind(t, rows, IsReady) + OfKind(t, rows, IsPublishing) + OfKind(t, rows, IsPrepared)
      <==> tok in rows && t.prepared[tok].key !in t.gc
  {
    OfKindHolds(t, rows, IsReady);
    OfKindHolds(t, rows, IsPublishing);
    OfKindHolds(t, rows, IsPrepared);
    forall id | id in t.objects && id in t.blobs ensures !t.blobs[id].state.PendingDelete? { assert BlobOk(t, id); }
  }

  lemma LiveIsReported(
    t: Tables, store: map<ObjectKey, Bytes>, hash: Digest, root: string, verify: bool,
    rows: seq<Token>, queue: seq<Name>, blobs: seq<Id>, inventory: seq<Name>, r: Report, n: Name)
    requires Inv(t) && Lists(t, store, root, rows, queue, blobs, inventory)
    requires IsReport(t, store, root, hash, verify, rows, queue, blobs, inventory, r)
    ensures ReportedLive(t, r, n) <==> KeyJournaled(t, ObjectKey(root, n)) && ObjectKey(root, n) !in t.gc
  {
    ReportedRows(t, rows);
    LiveListed(t, root, rows, r, n);
  }

  lemma LiveListed(t: Tables, root: string, rows: seq<Token>, r: Report, n: Name)
    requires forall tok :: tok in rows <==> tok in t.prepared && t.prepared[tok].key.root == root
    requires forall tok ::
      tok in r.ready + r.publishing + r.prepared <==> tok in rows && t.prepared[tok].key !in t.gc
    ensures ReportedLive(t, r, n) <==> KeyJournaled(t, ObjectKey(root, n)) && ObjectKey(root, n) !in t.gc
  {
    var key := ObjectKey(root, n);
    if KeyJournaled(t, key) && key !in t.gc {
      var tok :| tok in t.prepared && t.prepared[tok].key == key;
      assert tok in r.ready + r.publishing + r.prepared;
    }
  }

  lemma PendingIsReported(
    t: Tables, store: map<ObjectKey, Bytes>, hash: Digest, root: string, verify: bool,
    rows: seq<Token>, queue: seq<Name>, blobs: seq<Id>, inventory: seq<Name>, r: Report, n: Name)
    requires Lists(t, store, root, rows, queue, blobs, inventory)
    requires IsReport(t, store, root, hash, verify, rows, queue, blobs, inventory, r)
    ensures n in r.pending <==> ObjectKey(root, n) in t.gc && !t.gc[ObjectKey(root, n)].done
  {
    NamesOfKindHolds(t, rows, WaitsForCleanup);
    PendingOfHolds(t, root, queue);
    var key := ObjectKey(root, n);
    if key in t.gc && !t.gc[key].done && KeyJournaled(t, key) {
      var tok :| tok in t.prepared && t.prepared[tok].key == key;
      assert tok in rows && KindOf(t, tok) == WaitsForCleanup;
    }
  }

  /** Every inventory key is accounted for exactly once; orphans are the object keys neither journaled nor queued. */
  lemma AccountedOnce(
    w: World, hash: Digest, root: string, verify: bool,
    rows: seq<Token>, queue: seq<Name>, blobs: seq<Id>, inventory: seq<Name>, r: Report, n: Name)
    requires Safe(w, hash) && Clean(w, w.tables) && Lists(w.tables, w.store, root, rows, queue, blobs, inventory)
    requires IsReport(w.tables, w.store, root, hash, verify, rows, queue, blobs, inventory, r)
    requires n in inventory
    ensures Mentions(w.tables, r, n) == 1
    ensures n in r.orphans <==>
      n.Object? && !KeyJournaled(w.tables, ObjectKey(root, n)) && ObjectKey(root, n) !in w.tables.gc
    ensures Distinct(r.orphans) && Distinct(r.staging) && Distinct(r.unrecognized)
  {
    LiveIsReported(w.tables, w.store, hash, root, verify, rows, queue, blobs, inventory, r, n);
    PendingIsReported(w.tables, w.store, hash, root, verify, rows, queue, blobs, inventory, r, n);
    PlacedHolds(w.tables, root, inventory, Orphaned);
    PlacedHolds(w.tables, root, inventory, Staged);
    PlacedHolds(w.tables, root, inventory, Unrecognized);
    var key := ObjectKey(root, n);
    assert key in w.tables.gc ==> DoneGone(w, w.tables, key) && JobOk(w.tables, key);
    forall tok | tok in w.tables.prepared ensures w.tables.prepared[tok].key.name.Object? { assert FileOk(w.tables, tok); }
  }

  /** Whatever selection of the reported orphans and stages is passed on, queue_orphans accepts it. */
  lemma OrphansAreAccepted(t: Tables, root: string, inventory: seq<Name>, names: seq<Name>)
    requires 1 <= |names| <= 1000 && Distinct(names)
    requires forall n | n in names :: n in Placed(t, root, inventory, Orphaned) || n in Placed(t, root, inventory, Staged)
    ensures QueueOrphans(t, root, names).Success?
  {
    PlacedHolds(t, root, inventory, Orphaned);
    PlacedHolds(t, root, inventory, Staged);
  }

  // ---------------------------------------------------------------- what the report says, list by list

  lemma {:induction false} OfHealthHolds(
    t: Tables, store: map<ObjectKey, Bytes>, hash: Digest, verify: bool, rows: seq<Token>, health: Health, n: Name)
    requires forall tok | tok in rows :: tok in t.prepared
    ensures n in OfHealth(t, store, hash, verify, rows, health) <==>
      exists tok | tok in rows && Reported(KindOf(t, tok)) ::
        HealthOf(store, hash, verify, t.prepared[tok]) == health && t.prepared[tok].key.name == n
  {
    if rows != [] {
      var init, last := rows[..|rows| - 1], rows[|rows| - 1];
      assert rows == init + [last];
      assert forall tok | tok in init :: tok in rows;
      OfHealthHolds(t, store, hash, verify, init, health, n);
    }
  }

  lemma {:induction false} UnreadableHolds(t: Tables, blobs: seq<Id>, id: Id)
    ensures id in Unreadable(t, blobs) <==> id in blobs && RecordOf(t, id, false).Failure?
  {
    if blobs != [] {
      assert blobs == blobs[..|blobs| - 1] + [blobs[|blobs| - 1]];
      UnreadableHolds(t, blobs[..|blobs| - 1], id);
    }
  }

  /** A journaled object of the root that is not queued and is bound to nothing, or to a blob that is publishing or ready. */
  ghost predicate Owed(t: Tables, root: string, tok: Token) {
    && tok in t.prepared && t.prepared[tok].key.root == root && t.prepared[tok].key !in t.gc
    && ((exists id | id in t.objects && id in t.blobs :: t.objects[id] == tok && t.blobs[id].state != PendingDelete)
        || (forall id | id in t.objects && id in t.blobs :: t.objects[id] != tok))
  }

  lemma OwedIsReported(t: Tables, root: string, rows: seq<Token>, tok: Token)
    requires forall k :: k in rows <==> k in t.prepared && t.prepared[k].key.root == root
    ensures Owed(t, root, tok) <==> tok in rows && tok in t.prepared && Reported(KindOf(t, tok))
  {
  }

  /**
   * In any catalog and any store, damaged or not: an object is missing exactly when a journal row that should have it finds
   * none, and corrupt exactly when it has another size, or, with verify, another digest.
   */
  lemma DamageIsReported(
    t: Tables, store: map<ObjectKey, Bytes>, root: string, hash: Digest, verify: bool,
    rows: seq<Token>, queue: seq<Name>, blobs: seq<Id>, inventory: seq<Name>, r: Report, n: Name)
    requires Lists(t, store, root, rows, queue, blobs, inventory)
    requires IsReport(t, store, root, hash, verify, rows, queue, blobs, inventory, r)
    ensures n in r.missing <==> ObjectKey(root, n) !in store && exists tok | Owed(t, root, tok) :: t.prepared[tok].key.name == n
    ensures n in r.corrupt <==>
      && ObjectKey(root, n) in store
      && exists tok | Owed(t, root, tok) ::
           && t.prepared[tok].key.name == n
           && var p, bytes := t.prepared[tok], store[ObjectKey(root, n)];
           |bytes| != p.size || (verify && hash(bytes) != p.digest)
    ensures forall id :: id in r.unreadable <==> id in t.blobs && RecordOf(t, id, false).Failure?
  {
    OfHealthHolds(t, store, hash, verify, rows, Missing, n);
    OfHealthHolds(t, store, hash, verify, rows, Corrupt, n);
    forall tok ensures Owed(t, root, tok) <==> tok in rows && tok in t.prepared && Reported(KindOf(t, tok)) {
      OwedIsReported(t, root, rows, tok);
    }
    forall tok | Owed(t, root, tok) && t.prepared[tok].key.name == n
      ensures t.prepared[tok].key == ObjectKey(root, n)
    {
    }
    forall id ensures id in r.unreadable <==> id in t.blobs && RecordOf(t, id, false).Failure? {
      UnreadableHolds(t, blobs, id);
    }
  }

  /** Journal rows are listed by what they are bound to, and queued or finished keys by their jobs. */
  lemma RowsAreListed(
    t: Tables, store: map<ObjectKey, Bytes>, root: string, hash: Digest, verify: bool,
    rows: seq<Token>, queue: seq<Name>, blobs: seq<Id>, inventory: seq<Name>, r: Report, tok: Token)
    requires forall i, j | SameToken(t, i, j) :: i == j
    requires Lists(t, store, root, rows, queue, blobs, inventory)
    requires IsReport(t, store, root, hash, verify, rows, queue, blobs, inventory, r)
    ensures var listed := tok in t.prepared && t.prepared[tok].key.root == root && t.prepared[tok].key !in t.gc;
      && (tok in r.ready <==> listed && exists id | id in t.objects && id in t.blobs :: t.objects[id] == tok && t.blobs[id].state == Ready)
      && (tok in r.publishing <==>
            listed && exists id | id in t.objects && id in t.blobs :: t.objects[id] == tok && t.blobs[id].state == Publishing)
      && (tok in r.unexpected <==>
            listed && exists id | id in t.objects && id in t.blobs :: t.objects[id] == tok && t.blobs[id].state == PendingDelete)
      && (tok in r.prepared <==> listed && forall id | id in t.objects && id in t.blobs :: t.objects[id] != tok)
  {
    OfKindHolds(t, rows, IsReady);
    OfKindHolds(t, rows, IsPublishing);
    OfKindHolds(t, rows, Unexpected);
    OfKindHolds(t, rows, IsPrepared);
    forall i, j | i in t.objects && j in t.objects && t.objects[i] == tok && t.objects[j] == tok ensures i == j {
      assert SameToken(t, i, j);
    }
  }

  /** Inventory keys are listed by their names when the catalog does not know them, and as reappeared when their job is done. */
  lemma KeysAreListed(
    t: Tables, store: map<ObjectKey, Bytes>, root: string, hash: Digest, verify: bool,
    rows: seq<Token>, queue: seq<Name>, blobs: seq<Id>, inventory: seq<Name>, r: Report, n: Name)
    requires Lists(t, store, root, rows, queue, blobs, inventory)
    requires IsReport(t, store, root, hash, verify, rows, queue, blobs, inventory, r)
    ensures var key := ObjectKey(root, n);
      var unknown := key in store && key !in t.gc && forall tok | tok in t.prepared :: t.prepared[tok].key != key;
      && (n in r.orphans <==> unknown && n.Object?)
      && (n in r.staging <==> unknown && n.Staging?)
      && (n in r.unrecognized <==>
            && unknown && n.Other? && n.path != "meldstore-storage.json"
            && n.path != "meldstore-access.sqlite" && n.path != "meldstore-access.sqlite-journal")
      && (n in r.reappeared <==> key in store && key in t.gc && t.gc[key].done)
      && (n in r.pending <==> key in t.gc && !t.gc[key].done)
  {
    PlacedHolds(t, root, inventory, Orphaned);
    PlacedHolds(t, root, inventory, Staged);
    PlacedHolds(t, root, inventory, Unrecognized);
    PlacedHolds(t, root, inventory, Reappeared);
    PendingIsReported(t, store, hash, root, verify, rows, queue, blobs, inventory, r, n);
  }
}
