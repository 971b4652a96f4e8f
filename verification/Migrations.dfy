/** The versioned migrator. A database is the migrations that were applied to it, in order,
    and the version it carries; every outside step may fail. */
module Migrations {
  import opened Wrappers

  type Migration = string  // the SQL of one file

  datatype MigrateError = ReadVersion | Glob | ReadFile(ordinal: nat) | Apply(ordinal: nat)

  datatype TxStep = Begin | Execute | SetVersion | Commit

  /** What goes wrong during one call: reading the version, listing, reading the file of an
      ordinal, or a step of its transaction. */
  datatype Failures = Failures(version: bool, glob: bool, file: nat -> bool, tx: nat -> Option<TxStep>)
  {
    predicate At(ordinal: nat) { file(ordinal) || tx(ordinal).Some? }
  }

  class Database {
    var applied: seq<Migration>
    var userVersion: nat

    constructor ()
      ensures State() == EMPTY
    {
      applied, userVersion := [], 0;
    }

    ghost function State(): Db
      reads this
    {
      Db(applied, userVersion)
    }

    /** One migration and its version in one transaction: both take effect, or neither. */
    method ApplyMigration(stmt: Migration, ordinal: nat, fails: Option<TxStep>) returns (ok: bool)
      modifies this
      ensures ok <==> fails.None?
      ensures State() == if ok then Db(old(applied) + [stmt], ordinal) else old(State())
    {
      assert fails.Some? ==>
        fails.value.Begin? || fails.value.Execute? || fails.value.SetVersion? || fails.value.Commit?;
      if fails == Some(Begin) { return false; }
      var savedApplied, savedVersion := applied, userVersion;
      applied := applied + [stmt];
      if fails == Some(Execute) {
        applied, userVersion := savedApplied, savedVersion;  // rollback
        return false;
      }
      userVersion := ordinal;
      if fails == Some(SetVersion) || fails == Some(Commit) {
        applied, userVersion := savedApplied, savedVersion;
        return false;
      }
      return true;
    }

    /** Applies, in order, every file of the sorted listing whose ordinal is above the version. */
    method Migrate(files: seq<Migration>, fails: Failures) returns (e: Option<MigrateError>)
      modifies this
      ensures Migrates(old(State()), files, fails, e, State())
    {
      if fails.version { return Some(ReadVersion); }
      var version := userVersion;
      if fails.glob { return Some(Glob); }
      for i := 0 to |files|
        invariant userVersion == if i <= version then version else i
        invariant applied == old(applied) + (if i <= version then [] else files[version..i])
        invariant forall o :: version < o <= userVersion ==> !fails.At(o)
      {
        var ordinal := i + 1;
        if ordinal <= version { continue; }
        assert files[version..i + 1] == files[version..i] + [files[i]];
        if fails.file(ordinal) { return Some(ReadFile(ordinal)); }
        var ok := ApplyMigration(files[i], ordinal, fails.tx(ordinal));
        if !ok { return Some(Apply(ordinal)); }
      }
      return None;
    }
  }

  datatype Db = Db(applied: seq<Migration>, version: nat)

  const EMPTY := Db([], 0)

  /** What one call does: it advances the version through the remaining files up to the first
      one that fails, applying exactly those, and says which one that was. */
  ghost predicate Migrates(before: Db, files: seq<Migration>, fails: Failures, e: Option<MigrateError>, after: Db) {
    if fails.version || fails.glob then
      after == before && e == Some(if fails.version then ReadVersion else Glob)
    else if |files| <= before.version then
      after == before && e.None?
    else
      && before.version <= after.version <= |files|
      && after.applied == before.applied + files[before.version..after.version]
      && (forall o :: before.version < o <= after.version ==> !fails.At(o))
      && (if after.version == |files| then e.None?
          else
            var o := after.version + 1;
            fails.At(o) && e == Some(if fails.file(o) then ReadFile(o) else Apply(o)))
  }

  /** The schema is what the first `version` files make of an empty database, each once. */
  predicate InStep(db: Db, files: seq<Migration>) {
    db.version <= |files| && db.applied == files[..db.version]
  }

  /** A call: the listing it saw, what went wrong, and what it reported. */
  datatype Call = Call(files: seq<Migration>, fails: Failures, e: Option<MigrateError>)

  /** A history of calls. Files are only ever added at the end of the sort order. */
  ghost predicate IsHistory(dbs: seq<Db>, calls: seq<Call>) {
    && |dbs| == |calls| + 1
    && dbs[0] == EMPTY
    && (forall i :: 0 <= i < |calls| ==> Migrates(dbs[i], calls[i].files, calls[i].fails, calls[i].e, dbs[i + 1]))
    && (forall i, j :: 0 <= i < j < |calls| ==> calls[i].files <= calls[j].files)
  }

  /** However often and wherever calls failed, the database is in step with the latest listing;
      after a success it has all of it, and calling again changes nothing. */
  lemma {:induction false} EveryHistoryStaysInStep(dbs: seq<Db>, calls: seq<Call>)
    requires IsHistory(dbs, calls) && calls != []
    ensures var db, last := dbs[|calls|], calls[|calls| - 1];
      && InStep(db, last.files)
      && (last.e.None? ==> db.applied == last.files)
      && (last.e.None? ==> forall fails, e, next :: Migrates(db, last.files, fails, e, next) ==> next == db)
  {
    hide Migrates;
    var n := |calls|;
    var last := calls[n - 1];
    var before, after := dbs[n - 1], dbs[n];
    assert Migrates(before, last.files, last.fails, last.e, dbs[n - 1 + 1]);
    if n == 1 {
      assert InStep(before, last.files);
    } else {
      var earlier := calls[..n - 1];
      assert earlier[n - 2] == calls[n - 2];
      EveryHistoryStaysInStep(dbs[..n], earlier);
      assert calls[n - 2].files <= last.files;
      assert last.files[..before.version] == calls[n - 2].files[..before.version];
    }
    OneCallStaysInStep(before, last.files, last.fails, last.e, after);
  }

  lemma OneCallStaysInStep(before: Db, files: seq<Migration>, fails: Failures, e: Option<MigrateError>, after: Db)
    requires InStep(before, files) && Migrates(before, files, fails, e, after)
    ensures InStep(after, files)
    ensures e.None? ==> after.applied == files
    ensures e.None? ==> forall fails, e, next :: Migrates(after, files, fails, e, next) ==> next == after
  {
    if before.version < |files| {
      assert files[..after.version] == files[..before.version] + files[before.version..after.version];
    }
    assert files[..|files|] == files;
  }

  /** The order of additions matters, and only that: a call leaves the database in step with the
      listing it saw exactly when the files applied before are still the first ones. */
  lemma InStepExactlyWhenAddedAtEnd(before: Db, earlier: seq<Migration>, files: seq<Migration>,
                                    fails: Failures, e: Option<MigrateError>, after: Db)
    requires InStep(before, earlier) && Migrates(before, files, fails, e, after)
    ensures InStep(after, files) <==> before.version <= |files| && files[..before.version] == earlier[..before.version]
  {
    var v := before.version;
    if v > |files| { return; }
    assert after.applied[..v] == before.applied;
    assert files[..after.version][..v] == files[..v];
    if files[..v] == earlier[..v] {
      OneCallStaysInStep(before, files, fails, e, after);
    }
  }

  /** A file sorted in before one that was applied is never applied; the other is, again. */
  lemma FileSortedInIsNeverApplied(first: Migration, second: Migration, fails: Failures,
                                   e: Option<MigrateError>, after: Db)
    requires first != second
    requires !fails.version && !fails.glob && !fails.At(2)
    requires Migrates(Db([second], 1), [first, second], fails, e, after)
    ensures e.None? && after == Db([second, second], 2) && !InStep(after, [first, second])
  {
    var files := [first, second];
    assert files[1..2] == [second] && files[..2] == files;
  }
}
