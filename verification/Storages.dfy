/** Local storage in place: streamed hashing and reading, and uploads as steps of the protocol. */
module Storages {
  import opened Wrappers
  import opened Errors
  import opened Tables
  import opened Protocol

  function Joined(chunks: seq<Bytes>): Bytes {
    if chunks == [] then [] else Joined(chunks[..|chunks| - 1]) + chunks[|chunks| - 1]
  }

  /** hash_file: the size and the digest of a file read chunk by chunk; fed is what the digest has consumed. */
  method HashFile(chunks: seq<Bytes>, hash: Digest) returns (size: nat, digest: string)
    ensures size == |Joined(chunks)| && digest == hash(Joined(chunks))
  {
    var fed: Bytes := [];
    size := 0;
    for i := 0 to |chunks|
      invariant fed == Joined(chunks[..i]) && size == |fed|
    {
      assert chunks[..i + 1][..i] == chunks[..i];
      fed, size := fed + chunks[i], size + |chunks[i]|;
    }
    assert chunks[..|chunks|] == chunks;
    digest := hash(fed);
  }

  lemma {:induction false} JoinedGrows(chunks: seq<Bytes>, i: nat)
    requires i <= |chunks|
    ensures |Joined(chunks[..i])| <= |Joined(chunks)|
  {
    if i < |chunks| {
      assert chunks[..|chunks| - 1][..i] == chunks[..i];
      JoinedGrows(chunks[..|chunks| - 1], i);
    } else {
      assert chunks[..i] == chunks;
    }
  }

  /** The download loop of materialize: it yields exactly the streamed bytes, and only when their size and digest are right. */
  method Receive(reported: nat, chunks: seq<Bytes>, hash: Digest, size: nat, digest: string) returns (r: Result<Bytes, Error>)
    ensures r.Success? <==> reported == size && |Joined(chunks)| == size && hash(Joined(chunks)) == digest
    ensures r.Success? ==> r.value == Joined(chunks)
    ensures r.Failure? ==> r.error == CorruptObject
  {
    if reported != size {
      return Failure(CorruptObject);
    }
    var target: Bytes := [];
    for i := 0 to |chunks|
      invariant target == Joined(chunks[..i]) && |target| <= size
    {
      assert chunks[..i + 1][..i] == chunks[..i];
      if |target| + |chunks[i]| > size {
        JoinedGrows(chunks, i + 1);
        return Failure(CorruptObject);
      }
      target := target + chunks[i];
    }
    assert chunks[..|chunks|] == chunks;
    if |target| != size || hash(target) != digest {
      return Failure(CorruptObject);
    }
    return Success(target);
  }

  /** materialize of one object, whose stored bytes arrive in some chunks. */
  method MaterializeObject(
    store: map<ObjectKey, Bytes>, hash: Digest, key: ObjectKey, size: nat, digest: string, chunks: seq<Bytes>)
    returns (r: Result<Bytes, Error>)
    requires key in store ==> Joined(chunks) == store[key]
    ensures r == Materialize(store, hash, key, size, digest)
    ensures r.Success? <==> key in store && |store[key]| == size && hash(store[key]) == digest
    ensures r.Success? ==> r.value == store[key]
    ensures r.Failure? ==> r.error == CorruptObject
  {
    if key !in store {
      return Failure(CorruptObject);
    }
    r := Receive(|store[key]|, chunks, hash, size, digest);
  }

  /** How one storage call goes: it may end in an error, having stored nothing or something. */
  datatype Call = Works | Stops(left: Option<Bytes>)

  class LocalStorage {
    var objects: map<ObjectKey, Bytes>
    var calls: nat
    const script: nat -> Call

    constructor (objects: map<ObjectKey, Bytes>, script: nat -> Call)
      ensures this.objects == objects && this.script == script
    {
      this.objects, calls := objects, 0;
      this.script := script;
    }

    /** Streaming put of a private stage; an error may leave a torn one. */
    method Put(stage: ObjectKey, bytes: Bytes) returns (ok: bool, left: Option<Bytes>)
      modifies this
      ensures calls == old(calls) + 1
      ensures objects == if left.Some? then old(objects)[stage := left.value] else old(objects)
      ensures ok <==> script(old(calls)).Works?
      ensures ok ==> left == Some(bytes)
    {
      var call := script(calls);
      calls := calls + 1;
      ok := call.Works?;
      left := if ok then Some(bytes) else call.left;
      if left.Some? { objects := objects[stage := left.value]; }
    }

    /** Rename without overwriting; an error may hide that it happened. */
    method Rename(stage: ObjectKey, key: ObjectKey) returns (ok: bool, took: bool)
      modifies this
      ensures calls == old(calls) + 1
      ensures took ==> stage in old(objects) && key !in old(objects)
      ensures ok <==> script(old(calls)).Works? && stage in old(objects) && key !in old(objects)
      ensures objects == if took then (old(objects) - {stage})[key := old(objects)[stage]] else old(objects)
      ensures ok ==> took
    {
      var call := script(calls);
      calls := calls + 1;
      took := stage in objects && key !in objects && (call.Works? || call.left.Some?);
      ok := took && call.Works?;
      if took { objects := (objects - {stage})[key := objects[stage]]; }
    }

    /**
     * upload: stage, then promote. However it ends it is one or two steps of the protocol for this upload, it never
     * replaces an existing object, and its success leaves the whole payload under the key.
     */
    method Upload(key: ObjectKey, stage: ObjectKey, bytes: Bytes, ghost w: World, ghost hash: Digest)
      returns (ok: bool, ghost steps: seq<Step>)
      requires w.store == objects && key in w.uploads && key != stage
      requires w.uploads[key] == Protocol.Upload(stage, bytes, false, false, true)
      modifies this
      ensures Run(w, hash, steps).store == objects && Run(w, hash, steps).tables == w.tables
      ensures key in Run(w, hash, steps).uploads && Run(w, hash, steps).uploads[key].uploaded == ok
      ensures key in old(objects) ==> !ok && key in objects && objects[key] == old(objects)[key]
      ensures ok ==> key in objects && objects[key] == bytes
      // It succeeds exactly when both calls do and the key is new, and touches nothing but the key and the stage.
      ensures ok <==> script(old(calls)).Works? && script(old(calls) + 1).Works? && key !in old(objects)
      ensures forall k | k != key && k != stage :: k in objects <==> k in old(objects)
      ensures forall k | k != key && k != stage && k in objects :: objects[k] == old(objects)[k]
    {
      var left;
      ok, left := Put(stage, bytes);
      ghost var put := PutStage(key, left, ok);
      steps := [put];
      ghost var v := Next(w, hash, put);
      assert steps[1..] == [];
      if !ok {
        return;
      }
      var took;
      ok, took := Rename(stage, key);
      ghost var promote := Promote(key, took, false, ok);
      steps := [put, promote];
      assert steps[1..] == [promote] && [promote][1..] == [];
      assert Run(v, hash, [promote]) == Next(v, hash, promote);
    }

    // -------------------------------------------------------------- what S3Storage does instead

    /** Create-only put of an empty object; an error may hide that it happened. */
    method CreateEmpty(key: ObjectKey) returns (ok: bool, took: bool)
      modifies this
      ensures calls == old(calls) + 1
      ensures took ==> key !in old(objects)
      ensures objects == if took then old(objects)[key := []] else old(objects)
      ensures ok <==> script(old(calls)).Works? && key !in old(objects)
      ensures ok ==> took
    {
      var call := script(calls);
      calls := calls + 1;
      took := key !in objects && (call.Works? || call.left.Some?);
      ok := took && call.Works?;
      if took { objects := objects[key := []]; }
    }

    /** Copy without overwriting; an error may hide that it happened. */
    method Copy(stage: ObjectKey, key: ObjectKey) returns (ok: bool, took: bool)
      modifies this
      ensures calls == old(calls) + 1
      ensures took ==> stage in old(objects) && key !in old(objects)
      ensures objects == if took then old(objects)[key := old(objects)[stage]] else old(objects)
      ensures ok <==> script(old(calls)).Works? && stage in old(objects) && key !in old(objects)
      ensures ok ==> took
    {
      var call := script(calls);
      calls := calls + 1;
      took := stage in objects && key !in objects && (call.Works? || call.left.Some?);
      ok := took && call.Works?;
      if took { objects := objects[key := objects[stage]]; }
    }

    method Delete(stage: ObjectKey) returns (ok: bool, gone: bool)
      modifies this
      ensures calls == old(calls) + 1
      ensures objects == if gone then old(objects) - {stage} else old(objects)
      ensures ok <==> script(old(calls)).Works?
      ensures ok ==> gone
    {
      var call := script(calls);
      calls := calls + 1;
      ok := call.Works?;
      gone := ok || call.left.Some?;
      if gone { objects := objects - {stage}; }
    }

    /** A payload that is not empty: stage it, copy it to its key, and delete the stage. */
    method StageAndCopy(key: ObjectKey, stage: ObjectKey, bytes: Bytes, ghost w: World, ghost hash: Digest)
      returns (ok: bool, ghost steps: seq<Step>)
      requires w.store == objects && key in w.uploads && key != stage
      requires w.uploads[key] == Protocol.Upload(stage, bytes, false, false, true)
      modifies this
      ensures Run(w, hash, steps).store == objects && Run(w, hash, steps).tables == w.tables
      ensures key in Run(w, hash, steps).uploads && Run(w, hash, steps).uploads[key].uploaded == ok
      ensures key in old(objects) ==> !ok && key in objects && objects[key] == old(objects)[key]
      ensures ok ==> key in objects && objects[key] == bytes
      ensures ok <==>
        && key !in old(objects) && script(old(calls)).Works? && script(old(calls) + 1).Works? && script(old(calls) + 2).Works?
      ensures forall k | k != key && k != stage :: k in objects <==> k in old(objects)
      ensures forall k | k != key && k != stage && k in objects :: objects[k] == old(objects)[k]
    {
      var left;
      ok, left := Put(stage, bytes);
      ghost var put := PutStage(key, left, ok);
      steps := [put];
      ghost var v := Next(w, hash, put);
      assert steps[1..] == [];
      if !ok {
        return;
      }
      var took;
      ok, took := Copy(stage, key);
      var gone := false;
      if ok { ok, gone := Delete(stage); }
      ghost var promote := Promote(key, took, !gone, ok);
      steps := [put, promote];
      assert steps[1..] == [promote] && [promote][1..] == [];
      assert Run(v, hash, [promote]) == Next(v, hash, promote);
    }

    /**
     * S3Storage.upload: an empty payload is created at once; any other is staged, copied and its stage deleted. However it
     * ends it is one or two steps of the protocol for this upload, and it never replaces an existing object.
     */
    method UploadToS3(key: ObjectKey, stage: ObjectKey, bytes: Bytes, ghost w: World, ghost hash: Digest)
      returns (ok: bool, ghost steps: seq<Step>)
      requires w.store == objects && key in w.uploads && key != stage
      requires w.uploads[key] == Protocol.Upload(stage, bytes, false, false, true)
      modifies this
      ensures Run(w, hash, steps).store == objects && Run(w, hash, steps).tables == w.tables
      ensures key in Run(w, hash, steps).uploads && Run(w, hash, steps).uploads[key].uploaded == ok
      ensures key in old(objects) ==> !ok && key in objects && objects[key] == old(objects)[key]
      ensures ok ==> key in objects && objects[key] == bytes
      ensures ok <==>
        && key !in old(objects) && script(old(calls)).Works?
        && (bytes == [] || (script(old(calls) + 1).Works? && script(old(calls) + 2).Works?))
      ensures forall k | k != key && k != stage :: k in objects <==> k in old(objects)
      ensures forall k | k != key && k != stage && k in objects :: objects[k] == old(objects)[k]
    {
      var took;
      if bytes == [] {
        ok, took := CreateEmpty(key);
        steps := [PutEmpty(key, took, ok)];
        assert steps[1..] == [];
        return;
      }
      ok, steps := StageAndCopy(key, stage, bytes, w, hash);
    }
  }
}
