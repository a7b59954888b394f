/** One SQLite connection whose every call may raise, with or without having taken effect. */
module Connections {
  import opened Wrappers

  datatype Fault =
    | Fine
    | Fails          // raises, no effect
    | FailsAfter     // takes effect, then raises
    | FailsAborting  // raises, and SQLite has rolled the transaction back
    | Ignored        // a PRAGMA that silently does nothing

  /** A statement's effect on the database; None when the database refuses it. */
  type Statement<!Db> = Db -> Option<Db>

  /** Whether the database takes a statement: a read-only connection takes only those that change nothing. */
  predicate Accepted<Db(==)>(s: Statement<Db>, db: Db, readOnly: bool) {
    s(db).Some? && (readOnly ==> s(db) == Some(db))
  }

  /** The driver's calls. */
  datatype Verb = Reading | Setting | Beginning | Executing | Committing | RollingBack | Closing

  class Connection<Db(==)> {
    ghost var last: Option<Verb>   // the call made last
    var durable: Db
    var open: Option<Db>    // the transaction's own view, while one is open
    var queryOnly: bool
    var calls: nat
    var closed: bool
    const script: nat -> Fault

    constructor (db: Db, script: nat -> Fault)
      ensures durable == db && open == None && !queryOnly && calls == 0 && !closed
    {
      durable, open, queryOnly, calls, closed := db, None, false, 0, false;
      last := None;
      this.script := script;
    }

    /** No call fails. */
    ghost predicate Reliable() {
      forall n :: script(n).Fine?
    }

    method ReadQueryOnly() returns (r: Option<bool>)
      modifies this`calls, this`last
      ensures calls == old(calls) + 1 && last == Some(Reading)
      ensures Reliable() ==> r.Some?
      ensures r.Some? ==> r.value == queryOnly
    {
      calls, last := calls + 1, Some(Reading);
      r := if script(calls - 1).Fine? then Some(queryOnly) else None;
    }

    method SetQueryOnly(enabled: bool) returns (ok: bool)
      modifies this`calls, this`last, this`queryOnly
      ensures calls == old(calls) + 1 && last == Some(Setting)
      ensures queryOnly == old(queryOnly) || queryOnly == enabled
      ensures Reliable() ==> ok && queryOnly == enabled
    {
      var fault := script(calls);
      calls, last := calls + 1, Some(Setting);
      if fault.Fine? || fault.FailsAfter? { queryOnly := enabled; }
      ok := fault.Fine? || fault.Ignored?;
    }

    method Begin() returns (ok: bool)
      modifies this`calls, this`last, this`open
      ensures calls == old(calls) + 1 && last == Some(Beginning)
      ensures ok ==> old(open) == None && open == Some(durable)
      ensures Reliable() && old(open) == None ==> ok
      ensures !ok ==> open == old(open) || (old(open) == None && open == Some(durable))
    {
      var fault := script(calls);
      calls, last := calls + 1, Some(Beginning);
      ok := fault.Fine? && open.None?;
      if open.None? && (fault.Fine? || fault.FailsAfter?) { open := Some(durable); }
    }

    /** Outside a transaction the connection is in autocommit mode, so a statement is durable at once. */
    method Execute(s: Statement<Db>) returns (ok: bool)
      modifies this`calls, this`last, this`open, this`durable
      ensures calls == old(calls) + 1 && last == Some(Executing)
      ensures old(open).Some? ==>
        && durable == old(durable) && (Reliable() ==> open.Some?)
        && (ok ==> open.Some? && s(old(open).value) == open && (queryOnly ==> open == old(open)))
        && (Reliable() ==> (ok <==> Accepted(s, old(open).value, queryOnly)))
    {
      var fault := script(calls);
      calls, last := calls + 1, Some(Executing);
      var before := if open.Some? then open.value else durable;
      var after := s(before);
      var allowed := after.Some? && (queryOnly ==> after.value == before);
      if fault.FailsAborting? {
        open := None;
      } else if allowed && !fault.Fails? {
        if open.Some? { open := after; } else { durable := after.value; }
      }
      ok := allowed && (fault.Fine? || fault.Ignored?);
    }

    method Commit() returns (ok: bool)
      modifies this`calls, this`last, this`open, this`durable
      ensures calls == old(calls) + 1 && last == Some(Committing)
      ensures ok ==> old(open) == Some(durable) && open == None
      ensures Reliable() && old(open).Some? ==> ok
      ensures durable == old(durable) || old(open) == Some(durable)
    {
      var fault := script(calls);
      calls, last := calls + 1, Some(Committing);
      ok := fault.Fine? && open.Some?;
      if open.Some? {
        if fault.Fine? || fault.FailsAfter? {
          durable, open := open.value, None;
        } else if fault.FailsAborting? {
          open := None;
        }
      }
    }

    method Rollback() returns (ok: bool)
      modifies this`calls, this`last, this`open
      ensures calls == old(calls) + 1 && last == Some(RollingBack)
      ensures ok ==> old(open).Some? && open == None
      ensures Reliable() && old(open).Some? ==> ok
    {
      var fault := script(calls);
      calls, last := calls + 1, Some(RollingBack);
      ok := fault.Fine? && open.Some?;
      if fault.Fine? || fault.FailsAfter? || fault.FailsAborting? { open := None; }
    }

    method Close() returns (ok: bool)
      modifies this`calls, this`last, this`open, this`closed
      ensures closed && open == None && calls == old(calls) + 1 && last == Some(Closing)
      ensures ok <==> script(old(calls)).Fine?
    {
      ok := script(calls).Fine?;
      calls, last := calls + 1, Some(Closing);
      closed, open := true, None;
    }
  }
}
