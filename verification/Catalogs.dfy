/** The transaction and quarantine machine of one catalog over an unreliable connection. */
module Catalogs {
  import opened Wrappers
  import opened Connections

  /** A Transaction object; it may be kept after its block and offered again. */
  class Handle {
    const owner: nat
    var failed: bool
    var live: bool

    constructor (owner: nat)
      ensures this.owner == owner && !failed && live
    {
      this.owner := owner;
      failed, live := false, true;
    }
  }

  /** Another resource the catalog owns; close records that closing was attempted. */
  class Lease {
    var attempted: bool
    const closes: bool

    method Close() returns (ok: bool)
      modifies this
      ensures attempted && ok == closes
    {
      attempted := true;
      ok := closes;
    }
  }

  datatype Which = Own | Kept(handle: Handle)

  /** What a caller does inside a transaction block. */
  datatype Act<!Db> =
    | Sql(target: Which, accepted: bool, statement: Statement<Db>)           // accepted by the statement and binding checks
    | Operation(target: Which, statements: seq<Statement<Db>>, raises: bool) // a library call given the transaction
    | Nested(boolean: bool)                                                  // transaction(write=...) once more
    | Lookup(valid: bool)                                                    // stat, migration_status, deletion_status of an id
    | Storage                                                                // any call that requires an idle catalog
    | CloseCatalog
    | Detached(raises: bool)                                                 // a library call that ends before it reaches the catalog
    | Application(raises: bool)

  /** One action, and whether the caller catches what it raises. */
  datatype Step<!Db> = Step(act: Act<Db>, caught: bool)

  datatype Phase = AtBegin | AtCommit | AtRollback | AtCleanup

  datatype Known = Unknown | Committed | RolledBack

  datatype Outcome = Outcome(phase: Phase, known: Known)

  /** Normal return, an error that is not a TransactionOutcomeError, or one that is. */
  datatype End = Returned | Raised | Uncertain(outcome: Outcome)

  /**
   * Whether an action reaches the checks of the catalog with this id. A non-boolean flag, an invalid identifier, a
   * declaration or cursor, and the statement of another catalog do not.
   */
  predicate Consults<Db>(act: Act<Db>, id: nat) {
    match act
    case Sql(Kept(handle), _, _) => handle.owner == id
    case Nested(boolean) => boolean
    case Lookup(valid) => valid
    case Detached(_) => false
    case Application(_) => false
    case _ => true
  }

  /** Actions that raise inside any transaction, whatever the database answers. */
  predicate AlwaysRaises<Db>(act: Act<Db>) {
    match act
    case Nested(_) => true
    case Lookup(_) => true
    case Storage => true
    case CloseCatalog => true
    case Detached(raises) => raises
    case Application(raises) => raises
    case _ => false
  }

  predicate Truthful<Db>(body: seq<Step<Db>>, log: seq<bool>)
    requires |log| <= |body|
  {
    forall i | 0 <= i < |log| && AlwaysRaises(body[i].act) :: log[i]
  }

  function AllOf<Db>(db: Db, statements: seq<Statement<Db>>): Option<Db> {
    if |statements| == 0 then Some(db)
    else
      var before := AllOf(db, statements[..|statements| - 1]);
      if before.None? then None else statements[|statements| - 1](before.value)
  }

  /** What one action that does not doom the transaction does to the database. */
  function Effect<Db>(db: Db, act: Act<Db>): Option<Db> {
    match act
    case Sql(Own, _, s) => s(db)
    case Operation(Own, statements, _) => AllOf(db, statements)
    case _ => Some(db)
  }

  function After<Db>(db: Db, body: seq<Step<Db>>): Option<Db> {
    if |body| == 0 then Some(db)
    else
      var before := After(db, body[..|body| - 1]);
      if before.None? then None else Effect(before.value, body[|body| - 1].act)
  }

  /** Whether the database takes the statements one after the other. */
  predicate AcceptedAll<Db(==)>(statements: seq<Statement<Db>>, db: Db, readOnly: bool) {
    |statements| == 0 ||
    (AcceptedAll(statements[..|statements| - 1], db, readOnly)
     && var before := AllOf(db, statements[..|statements| - 1]);
     before.Some? && Accepted(statements[|statements| - 1], before.value, readOnly))
  }

  lemma {:induction false} AcceptedPrefix<Db>(statements: seq<Statement<Db>>, i: nat, db: Db, readOnly: bool)
    requires i <= |statements| && AcceptedAll(statements, db, readOnly)
    ensures AcceptedAll(statements[..i], db, readOnly)
    decreases |statements|
  {
    if i < |statements| {
      assert statements[..|statements| - 1][..i] == statements[..i];
      AcceptedPrefix(statements[..|statements| - 1], i, db, readOnly);
    } else {
      assert statements[..i] == statements;
    }
  }

  /** Whether an action succeeds in the open, undoomed transaction of a working connection. */
  predicate Succeeds<Db(==)>(act: Act<Db>, id: nat, db: Db, readOnly: bool) {
    match act
    case Sql(Own, accepted, s) => accepted && Accepted(s, db, readOnly)
    case Sql(Kept(handle), accepted, _) => handle.owner != id && accepted
    case Operation(Own, statements, raises) => !raises && AcceptedAll(statements, db, readOnly)
    case Detached(raises) => !raises
    case Application(raises) => !raises
    case _ => false
  }

  /** Every action of a block succeeds, or fails before it reaches the catalog and is caught. */
  predicate Clean<Db(==)>(body: seq<Step<Db>>, id: nat, db: Db, readOnly: bool) {
    |body| == 0 ||
    (Clean(body[..|body| - 1], id, db, readOnly)
     && var before, step := After(db, body[..|body| - 1]), body[|body| - 1];
     && before.Some?
     && (Succeeds(step.act, id, before.value, readOnly) || (!Consults(step.act, id) && step.caught)))
  }

  lemma {:induction false} CleanPrefix<Db>(body: seq<Step<Db>>, i: nat, id: nat, db: Db, readOnly: bool)
    requires i <= |body| && Clean(body, id, db, readOnly)
    ensures Clean(body[..i], id, db, readOnly)
    decreases |body|
  {
    if i < |body| {
      assert body[..|body| - 1][..i] == body[..i];
      CleanPrefix(body[..|body| - 1], i, id, db, readOnly);
    } else {
      assert body[..i] == body;
    }
  }

  /** Some action raised after it had reached the catalog. */
  predicate Doomed<Db>(body: seq<Step<Db>>, log: seq<bool>, id: nat)
    requires |log| <= |body|
  {
    exists i | 0 <= i < |log| :: log[i] && Consults(body[i].act, id)
  }

  /** The block ran to its end: what it raised was caught, and none of that dooms it. */
  predicate Completes<Db>(body: seq<Step<Db>>, log: seq<bool>, id: nat) {
    |log| == |body| && !Doomed(body, log, id) && forall i | 0 <= i < |log| && log[i] :: body[i].caught
  }

  /** The block ended with an error that was not caught. */
  predicate Aborts<Db>(body: seq<Step<Db>>, log: seq<bool>) {
    0 < |log| <= |body| && log[|log| - 1] && !body[|log| - 1].caught
  }

  /**
   * Whether an outcome error reports what went wrong: COMMIT or ROLLBACK raised, and nobody knows with what result; or the
   * transaction of a read ended as it should and only restoring query_only failed; or the start failed and so did the recovery.
   */
  predicate Reported(outcome: Outcome, write: bool, completed: bool, last: Verb) {
    match outcome.phase
    case AtBegin => outcome.known == Unknown && (last == RollingBack || last == Reading || last == Setting)
    case AtCommit => completed && outcome.known == Unknown && last == Committing
    case AtRollback => !completed && outcome.known == Unknown && last == RollingBack
    case AtCleanup =>
      !write && outcome.known == (if completed then Committed else RolledBack) && (last == Reading || last == Setting)
  }

  class Catalog<Db(==)> {
    const connection: Connection<Db>
    const id: nat
    const leases: seq<Lease>
    var active: Handle?
    var broken: bool
    var closed: bool
    var outcome: Option<Outcome>
    var readers: nat

    constructor (connection: Connection<Db>, id: nat, leases: seq<Lease>)
      ensures this.connection == connection && this.leases == leases
      ensures active == null && !broken && !closed && outcome == None && readers == 0
    {
      this.connection, this.id, this.leases := connection, id, leases;
      active, broken, closed, outcome, readers := null, false, false, None, 0;
    }

    predicate Usable()
      reads this
    {
      !closed && !broken
    }

    /** Between transactions: a usable catalog has no transaction open on its connection. */
    ghost predicate Idle()
      reads this, connection
    {
      active == null && (Usable() ==> connection.open == None) && (broken <==> outcome.Some?)
    }

    ghost function ActiveHandle(): set<Handle>
      reads this
    {
      if active == null then {} else {active}
    }

    method Quarantine(o: Outcome) returns (end: End)
      modifies this`broken, this`outcome
      ensures broken && outcome == Some(o) && end == Uncertain(o)
    {
      broken, outcome := true, Some(o);
      end := Uncertain(o);
    }

    method FailActive()
      modifies ActiveHandle()`failed
      ensures active != null ==> active.failed && active.live == old(active.live)
    {
      if active != null { active.failed := true; }
    }

    /** A handle passes only if it is this catalog's open, unfailed transaction; any other dooms the open one. */
    method RequireTransaction(tx: Handle) returns (ok: bool)
      modifies ActiveHandle()`failed
      ensures ok <==> Usable() && tx.owner == id && tx == active && old(tx.live) && !old(tx.failed)
      ensures active != null ==> active.live == old(active.live)
      ensures active != null ==> active.failed == (old(active.failed) || (!ok && Usable()))
    {
      if !Usable() {
        return false;
      }
      ok := tx.owner == id && tx.live && active == tx && !tx.failed;
      if !ok { FailActive(); }
    }

    method RequireIdle() returns (ok: bool)
      modifies ActiveHandle()`failed
      ensures ok <==> Usable() && active == null
      ensures active != null ==> active.live == old(active.live) && active.failed == (old(active.failed) || Usable())
    {
      if !Usable() {
        return false;
      }
      FailActive();
      ok := active == null;
    }

    method SetAndVerify(enabled: bool) returns (ok: bool)
      modifies connection`calls, connection`last, connection`queryOnly
      ensures connection.last == Some(Reading) || connection.last == Some(Setting)
      ensures ok ==> connection.queryOnly == enabled
      ensures connection.Reliable() ==> ok
      ensures connection.queryOnly == old(connection.queryOnly) || connection.queryOnly == enabled
    {
      ok := connection.SetQueryOnly(enabled);
      if ok {
        var now := connection.ReadQueryOnly();
        ok := now == Some(enabled);
      }
    }

    /** The start of a transaction, or the recovery from a failed one. */
    method Start(write: bool) returns (end: End, previous: bool)
      requires Usable() && connection.open == None
      modifies this`broken, this`outcome, connection`calls, connection`last, connection`queryOnly, connection`open
      ensures end.Returned? ==>
        && connection.open == Some(connection.durable) && broken == old(broken) && outcome == old(outcome)
        && connection.queryOnly == (old(connection.queryOnly) || !write)
        && (!write ==> previous == old(connection.queryOnly))
      ensures end.Raised? ==>
        && connection.open == None && connection.queryOnly == old(connection.queryOnly)
        && broken == old(broken) && outcome == old(outcome)
      ensures connection.Reliable() ==> end.Returned?
      ensures end.Uncertain? ==> end.outcome == Outcome(AtBegin, Unknown) && broken && outcome == Some(end.outcome)
      ensures end.Uncertain? ==> connection.last.Some? && Reported(end.outcome, write, true, connection.last.value)
    {
      var saved: Option<bool> := None;
      var ok := true;
      if !write {
        saved := connection.ReadQueryOnly();
        ok := saved.Some?;
        if ok { ok := SetAndVerify(true); }
      }
      if ok { ok := connection.Begin(); }
      previous := saved.Some? && saved.value;
      if ok {
        end := Returned;
        return;
      }
      var recovered := true;
      if connection.open.Some? { recovered := connection.Rollback(); }
      if recovered && saved.Some? { recovered := SetAndVerify(saved.value); }
      if !recovered {
        end := Quarantine(Outcome(AtBegin, Unknown));
      } else {
        end := Raised;
      }
    }

    /** Transaction.sql on the open transaction: any failure dooms it. */
    method Statement(tx: Handle, accepted: bool, s: Statement<Db>) returns (ok: bool)
      requires Usable() && active == tx && tx.owner == id && tx.live
      requires !tx.failed ==> connection.open.Some?
      modifies tx`failed, connection`calls, connection`last, connection`open, connection`durable
      ensures connection.durable == old(connection.durable)
      ensures ok ==> !tx.failed && !old(tx.failed) && accepted
      ensures ok ==> connection.open.Some? && s(old(connection.open).value) == connection.open
      ensures ok && connection.queryOnly ==> connection.open == old(connection.open)
      ensures !ok ==> tx.failed
      ensures connection.Reliable() && old(connection.open).Some? ==> connection.open.Some?
      ensures connection.Reliable() && !old(tx.failed) ==>
        (ok <==> accepted && Accepted(s, old(connection.open).value, connection.queryOnly))
    {
      ok := RequireTransaction(tx);
      if ok {
        ok := accepted;
        if ok { ok := connection.Execute(s); }
        if !ok { tx.failed := true; }
      }
    }

    /** A library call inside its operation() block. */
    method Library(tx: Handle, statements: seq<Statement<Db>>, raises: bool) returns (ok: bool)
      requires Usable() && active == tx && tx.owner == id && tx.live
      requires !tx.failed ==> connection.open.Some?
      modifies tx`failed, connection`calls, connection`last, connection`open, connection`durable
      ensures connection.durable == old(connection.durable)
      ensures ok ==> !tx.failed && !old(tx.failed) && connection.open.Some?
      ensures ok ==> AllOf(old(connection.open).value, statements) == connection.open
      ensures ok && connection.queryOnly ==> connection.open == old(connection.open)
      ensures !ok ==> tx.failed
      ensures connection.Reliable() && old(connection.open).Some? ==> connection.open.Some?
      ensures connection.Reliable() && !old(tx.failed) ==>
        (ok <==> !raises && AcceptedAll(statements, old(connection.open).value, connection.queryOnly))
    {
      ok := RequireTransaction(tx);
      if !ok {
        return;
      }
      for i := 0 to |statements|
        invariant !tx.failed && connection.open.Some? && connection.durable == old(connection.durable)
        invariant AllOf(old(connection.open).value, statements[..i]) == connection.open
        invariant connection.Reliable() ==> AcceptedAll(statements[..i], old(connection.open).value, connection.queryOnly)
        invariant connection.queryOnly ==> connection.open == old(connection.open)
      {
        ok := Statement(tx, true, statements[i]);
        assert statements[..i + 1][..i] == statements[..i];
        if !ok {
          if connection.Reliable() && AcceptedAll(statements, old(connection.open).value, connection.queryOnly) {
            AcceptedPrefix(statements, i + 1, old(connection.open).value, connection.queryOnly);
          }
          return;
        }
      }
      assert statements[..|statements|] == statements;
      if raises {
        tx.failed := true;
        ok := false;
      }
    }

    /** One action inside the block of the open transaction. */
    method Perform(tx: Handle, act: Act<Db>) returns (ok: bool)
      requires (act.Sql? || act.Operation?) && act.target.Kept? ==> act.target.handle != tx
      requires Usable() && active == tx && tx.owner == id && tx.live
      requires !tx.failed ==> connection.open.Some?
      modifies tx`failed, connection`calls, connection`last, connection`open, connection`durable
      ensures connection.durable == old(connection.durable)
      ensures old(tx.failed) ==> tx.failed
      // An action dooms the transaction exactly when it raises after it has reached the catalog.
      ensures !old(tx.failed) ==> (tx.failed <==> !ok && Consults(act, id))
      ensures AlwaysRaises(act) ==> !ok
      ensures connection.Reliable() && old(connection.open).Some? ==> connection.open.Some?
      ensures !tx.failed ==>
        && old(connection.open).Some? && connection.open.Some?
        && Effect(old(connection.open).value, act) == connection.open
        && (connection.queryOnly ==> connection.open == old(connection.open))
      ensures connection.Reliable() && !old(tx.failed) ==>
        (ok <==> Succeeds(act, id, old(connection.open).value, connection.queryOnly))
    {
      match act {
        case Sql(Own, accepted, s) =>
          ok := Statement(tx, accepted, s);
        case Sql(Kept(handle), accepted, s) =>
          if handle.owner == id {
            ok := RequireTransaction(handle);
          } else {
            ok := accepted;  // another catalog's statement, and that catalog's answer
          }
        case Operation(Own, statements, raises) =>
          ok := Library(tx, statements, raises);
        case Operation(Kept(handle), statements, raises) =>
          ok := RequireTransaction(handle);
        case Nested(boolean) =>
          ok := false;
          if boolean { FailActive(); }
        case Lookup(valid) =>
          ok := false;
          if valid { FailActive(); }
        case Storage =>
          ok := RequireIdle();
        case Detached(raises) =>
          ok := !raises;
        case CloseCatalog =>
          ok := false;
          FailActive();
        case Application(raises) =>
          ok := !raises;
      }
    }

    /** The actions of a block, until one raises and is not caught. */
    method Block(tx: Handle, body: seq<Step<Db>>) returns (raised: bool, log: seq<bool>)
      requires Usable() && active == tx && tx.owner == id && tx.live && !tx.failed
      requires connection.open == Some(connection.durable)
      requires forall i | 0 <= i < |body| && (body[i].act.Sql? || body[i].act.Operation?) && body[i].act.target.Kept? ::
        body[i].act.target.handle != tx
      modifies tx`failed, connection`calls, connection`last, connection`open, connection`durable
      ensures connection.durable == old(connection.durable) && |log| <= |body|
      ensures !raised ==> |log| == |body|
      ensures Doomed(body, log, id) <==> tx.failed
      ensures !raised <==> |log| == |body| && forall i | 0 <= i < |log| && log[i] :: body[i].caught
      ensures Truthful(body, log) && (|log| == |body| || Aborts(body, log))
      ensures connection.Reliable() ==> connection.open.Some?
      ensures connection.Reliable() ==>
        (!raised && !tx.failed <==> Clean(body, id, connection.durable, connection.queryOnly))
      ensures !raised && !tx.failed ==>
        && connection.open.Some? && After(connection.durable, body) == connection.open
        && (connection.queryOnly ==> connection.open == Some(connection.durable))
    {
      raised, log := false, [];
      for i := 0 to |body|
        invariant !raised && |log| == i && connection.durable == old(connection.durable)
        invariant Doomed(body, log, id) <==> tx.failed
        invariant Truthful(body, log) && forall k | 0 <= k < i && log[k] :: body[k].caught
        invariant connection.Reliable() ==> connection.open.Some?
        invariant connection.Reliable() ==>
          (!tx.failed <==> Clean(body[..i], id, connection.durable, connection.queryOnly))
        invariant !tx.failed ==>
          && connection.open.Some? && After(connection.durable, body[..i]) == connection.open
          && (connection.queryOnly ==> connection.open == Some(connection.durable))
      {
        ghost var before := log;
        var ok := Perform(tx, body[i].act);
        log := log + [!ok];
        assert forall k | 0 <= k < |before| :: log[k] == before[k];
        assert log[i] == !ok;
        assert Doomed(body, log, id) <==> Doomed(body, before, id) || (!ok && Consults(body[i].act, id));
        assert body[..i + 1][..i] == body[..i];
        if !ok && !body[i].caught {
          raised := true;
          if connection.Reliable() && Clean(body, id, connection.durable, connection.queryOnly) {
            CleanPrefix(body, i + 1, id, connection.durable, connection.queryOnly);
          }
          return;
        }
      }
      assert body[..|body|] == body;
    }

    /** Catalog.transaction around a block. */
    method Transact(write: bool, body: seq<Step<Db>>) returns (end: End, log: seq<bool>)
      requires Idle()
      modifies this, connection
      ensures Idle() && closed == old(closed) && readers == old(readers)
      // A normal return is a durable commit of the whole block.
      ensures end.Returned? ==>
        && After(old(connection.durable), body) == Some(connection.durable)
        && connection.queryOnly == old(connection.queryOnly) && !broken
      // An ordinary error leaves everything as it was, and the catalog as usable as it was.
      ensures end.Raised? ==>
        && connection.durable == old(connection.durable) && connection.open == old(connection.open)
        && connection.queryOnly == old(connection.queryOnly) && broken == old(broken) && outcome == old(outcome)
      // An outcome error quarantines, and what it reports is true; at worst all or nothing of the block is durable.
      ensures end.Uncertain? ==>
        && broken && outcome == Some(end.outcome)
        && (end.outcome.known.Committed? ==> After(old(connection.durable), body) == Some(connection.durable))
        && (end.outcome.known.RolledBack? ==> connection.durable == old(connection.durable))
        && (connection.durable == old(connection.durable)
            || After(old(connection.durable), body) == Some(connection.durable))
      ensures !write ==> connection.durable == old(connection.durable)
      // A doomed transaction cannot commit, whatever the caller caught.
      ensures |log| <= |body| && Truthful(body, log) && (Doomed(body, log, id) ==> !end.Returned? && connection.durable == old(connection.durable))
      // On a reliable connection it commits exactly when the block completes undoomed.
      ensures connection.Reliable() && old(Usable()) ==> 
        && !end.Uncertain? && (end.Returned? <==> Completes(body, log, id)) && (|log| == |body| || Aborts(body, log))
        && (end.Returned? <==> Clean(body, id, old(connection.durable), old(connection.queryOnly) || !write))
      // What an outcome error says of the phase and the result is what happened.
      ensures end.Returned? ==> Completes(body, log, id)
      ensures end.Uncertain? ==> connection.last.Some? && Reported(end.outcome, write, Completes(body, log, id), connection.last.value)
      ensures end.Uncertain? && end.outcome.phase.AtBegin? ==> log == [] && connection.durable == old(connection.durable)
      // A closed or quarantined catalog never reaches its connection.
      ensures !old(Usable()) ==> end.Raised? && log == [] && connection.calls == old(connection.calls)
    {
      log := [];
      if !Usable() {
        end := Raised;
        return;
      }
      var previous: bool;
      end, previous := Start(write);
      if !end.Returned? {
        return;
      }
      var tx := new Handle(id);
      active := tx;
      var raised;
      raised, log := Block(tx, body);
      var failed := raised || tx.failed;
      end := Finish(write, previous, failed);
      tx.live := false;
      active := null;
    }

    /** Commit or roll back, then restore the connection. */
    method Finish(write: bool, previous: bool, failed: bool) returns (end: End)
      requires Usable() && outcome == None
      requires !failed ==> connection.open.Some?
      modifies this`broken, this`outcome, connection`calls, connection`last, connection`open, connection`durable, connection`queryOnly
      ensures connection.Reliable() && old(connection.open).Some? ==> end == if failed then Raised else Returned
      ensures connection.durable == old(connection.durable)
        || (!failed && old(connection.open) == Some(connection.durable))
      ensures end.Returned? ==>
        && !failed && old(connection.open) == Some(connection.durable)
      ensures end.Raised? ==> failed && connection.durable == old(connection.durable)
      ensures end.Returned? || end.Raised? ==>
        && connection.open == None && !broken && outcome == None
        && connection.queryOnly == (if write then old(connection.queryOnly) else previous)
      ensures end.Uncertain? ==>
        && broken && outcome == Some(end.outcome)
        && (end.outcome.known.Committed? ==> !failed && old(connection.open) == Some(connection.durable))
        && (end.outcome.known.RolledBack? ==> failed && connection.durable == old(connection.durable))
      ensures end.Uncertain? ==>
        !end.outcome.phase.AtBegin? && connection.last.Some? && Reported(end.outcome, write, !failed, connection.last.value)
    {
      if failed {
        var ok := connection.Rollback();
        if !ok {
          end := Quarantine(Outcome(AtRollback, Unknown));
          return;
        }
      } else {
        var ok := connection.Commit();
        if !ok {
          end := Quarantine(Outcome(AtCommit, Unknown));
          return;
        }
      }
      if !write {
        var restored := SetAndVerify(previous);
        if !restored {
          end := Quarantine(Outcome(AtCleanup, if failed then RolledBack else Committed));
          return;
        }
      }
      end := if failed then Raised else Returned;
    }

    /** Every resource is given its close, whichever of them raise; the catalog is closed in any case. */
    method Close() returns (ok: bool)
      modifies this`closed, ActiveHandle()`failed, connection`calls, connection`last, connection`open, connection`closed, leases
      ensures old(closed) || active != null || readers > 0 ==>
        !ok && closed == old(closed) && connection.calls == old(connection.calls)
        && (active != null && !closed ==> active.failed)
      ensures !old(closed) && active == null && readers == 0 ==>
        && closed && connection.closed && connection.open == None
        && forall l | l in leases :: l.attempted
      ensures ok <==>
        && !old(closed) && active == null && readers == 0 && connection.script(old(connection.calls)).Fine?
        && forall l | l in leases :: l.closes
    {
      if closed {
        return false;
      }
      if active != null || readers > 0 {
        FailActive();
        return false;
      }
      ok := connection.Close();
      for i := 0 to |leases|
        invariant forall k | 0 <= k < i :: leases[k].attempted
        invariant ok <==> connection.script(old(connection.calls)).Fine? && forall k | 0 <= k < i :: leases[k].closes
        invariant closed == old(closed) && connection.closed && connection.open == None
      {
        var done := leases[i].Close();
        ok := ok && done;
      }
      closed := true;
    }
  }

  /** Nothing in a block reaches the catalog, and everything it raises is caught. */
  predicate Unnoticed<Db>(body: seq<Step<Db>>, id: nat) {
    forall i | 0 <= i < |body| :: !Consults(body[i].act, id) && body[i].caught
  }

  /** Failing library calls that never reach the catalog do not stop a transaction from committing, however many are caught. */
  method UnnoticedFailuresCommit<Db(==)>(catalog: Catalog<Db>, body: seq<Step<Db>>) returns (end: End)
    requires catalog.Idle() && catalog.Usable() && catalog.connection.Reliable() && Unnoticed(body, catalog.id)
    modifies catalog, catalog.connection
    ensures end == Returned
  {
    var log;
    end, log := catalog.Transact(true, body);
  }

  /** stat("") inside a transaction raises for its identifier before it asks for a transaction of its own. */
  method CaughtBadLookupCommits<Db(==)>(catalog: Catalog<Db>) returns (end: End, log: seq<bool>)
    requires catalog.Idle() && catalog.Usable() && catalog.connection.Reliable()
    modifies catalog, catalog.connection
    ensures end == Returned && log == [true]
  {
    var body: seq<Step<Db>> := [Step(Lookup(false), true)];
    end, log := catalog.Transact(true, body);
  }

  /** transaction(write=...) with a flag that is not a boolean raises before the open transaction is looked at. */
  method CaughtBadNestingCommits<Db(==)>(catalog: Catalog<Db>) returns (end: End, log: seq<bool>)
    requires catalog.Idle() && catalog.Usable() && catalog.connection.Reliable()
    modifies catalog, catalog.connection
    ensures end == Returned && log == [true]
  {
    var body: seq<Step<Db>> := [Step(Nested(false), true)];
    end, log := catalog.Transact(true, body);
  }

  /** The same lookup with a valid identifier begins a nested transaction, and dooms the open one. */
  method CaughtLookupCannotCommit<Db(==)>(catalog: Catalog<Db>) returns (end: End, log: seq<bool>)
    requires catalog.Idle() && catalog.Usable() && catalog.connection.Reliable()
    modifies catalog, catalog.connection
    ensures end == Raised && log == [true] && catalog.connection.durable == old(catalog.connection.durable)
  {
    var body: seq<Step<Db>> := [Step(Lookup(true), true)];
    end, log := catalog.Transact(true, body);
  }
}
