/** The schema migration runner (pkg/database/migrations.go). The database
    is a class holding the rows of `schema_migrations` and the schema
    statements committed so far, in order; which statements fail is an oracle
    fixed when the database is made. A transaction that fails at any step
    changes nothing. The SQL text of each step is abstracted to the step. */
module Migrations {
  import opened Wrappers
  import opened Text

  /** A migration, known by its version; its Up and Down scripts are the
      statements `UpSql(version)` and `DownSql(version)`. */
  datatype Migration = Migration(version: string)

  /** The migrations, in the order they are applied. */
  const MigrationList: seq<Migration> := [
    Migration("001_create_users_table"),
    Migration("002_create_properties_table"),
    Migration("003_create_rooms_table"),
    Migration("004_create_tasks_table"),
    Migration("005_create_maintenance_records_table"),
    Migration("006_create_notifications_table"),
    Migration("007_create_notification_settings_table"),
    Migration("008_create_refresh_tokens_table"),
    Migration("009_create_files_table"),
    Migration("010_create_migrations_table")]

  /** The number a version starts with: the value of its first three
      characters read as decimal digits. */
  function VersionNumber(version: string): int {
    if |version| >= 3 then
      100 * (version[0] as int - '0' as int) + 10 * (version[1] as int - '0' as int)
        + (version[2] as int - '0' as int)
    else -1
  }

  /** Migration `i` (from 0) is numbered `i + 1`: the list runs from 001 to
      010 in order, so no version appears twice. */
  lemma MigrationsNumberedInOrder()
    ensures forall i :: 0 <= i < |MigrationList| ==> VersionNumber(MigrationList[i].version) == i + 1
    ensures forall i, j :: 0 <= i < j < |MigrationList| ==> MigrationList[i].version != MigrationList[j].version
  {
    forall i | 0 <= i < |MigrationList|
      ensures VersionNumber(MigrationList[i].version) == i + 1
    {
      if i < 3 { NumberedFirst(i); } else if i < 7 { NumberedMiddle(i); } else { NumberedLast(i); }
    }
  }

  lemma NumberedFirst(i: nat)
    requires i < 3
    ensures VersionNumber(MigrationList[i].version) == i + 1
  {
  }

  lemma NumberedMiddle(i: nat)
    requires 3 <= i < 7
    ensures VersionNumber(MigrationList[i].version) == i + 1
  {
  }

  lemma NumberedLast(i: nat)
    requires 7 <= i < |MigrationList|
    ensures VersionNumber(MigrationList[i].version) == i + 1
  {
  }

  datatype Statement =
    | CreateMigrationsTable
    | SelectVersions
    | BeginTx
    | UpSql(version: string)
    | DownSql(version: string)
    | InsertVersion(version: string)
    | DeleteVersion(version: string)
    | CommitUp(version: string)
    | CommitDown(version: string)

  /** The rows of `schema_migrations`, in insertion order, and the schema
      statements committed so far. */
  datatype DbState = DbState(versions: seq<string>, schema: seq<Statement>)

  // applyMigration

  /** The step at which `applyMigration` fails, if any. Recording a version
      that is already a row violates the table's primary key. */
  function ApplyFailure(failing: set<Statement>, versions: seq<string>, version: string): (r: Option<Statement>)
    ensures r.None? ==> version !in versions
  {
    if BeginTx in failing then Some(BeginTx)
    else if UpSql(version) in failing then Some(UpSql(version))
    else if InsertVersion(version) in failing || version in versions then Some(InsertVersion(version))
    else if CommitUp(version) in failing then Some(CommitUp(version))
    else None
  }

  /** The committed effect of applying `version`. */
  function Applied(st: DbState, version: string): DbState {
    DbState(st.versions + [version], st.schema + [UpSql(version)])
  }

  // RunMigrations

  datatype RunError = CreateTableFailed | ReadAppliedFailed | ApplyFailed(version: string, at: Statement)

  datatype RunResult = RunResult(state: DbState, error: Option<RunError>)

  /** The loop of `RunMigrations` from migration `i` on, with `applied` the
      versions read before the loop. */
  function RunFrom(failing: set<Statement>, applied: set<string>, st: DbState, i: nat): RunResult
    requires i <= |MigrationList|
    decreases |MigrationList| - i
  {
    if i == |MigrationList| then RunResult(st, None)
    else
      var v := MigrationList[i].version;
      if v in applied then RunFrom(failing, applied, st, i + 1)
      else match ApplyFailure(failing, st.versions, v)
        case Some(s) => RunResult(st, Some(ApplyFailed(v, s)))
        case None => RunFrom(failing, applied, Applied(st, v), i + 1)
  }

  function Rows(versions: seq<string>): set<string> {
    set v | v in versions
  }

  /** `RunMigrations`. */
  function Run(failing: set<Statement>, st: DbState): RunResult {
    if CreateMigrationsTable in failing then RunResult(st, Some(CreateTableFailed))
    else if SelectVersions in failing then RunResult(st, Some(ReadAppliedFailed))
    else RunFrom(failing, Rows(st.versions), st, 0)
  }

  /** The versions of migrations `i` to `k - 1` not in `applied`, in list order. */
  function Pending(applied: set<string>, i: nat, k: nat): seq<string>
    requires i <= k <= |MigrationList|
    decreases k - i
  {
    if i == k then []
    else (if MigrationList[i].version in applied then [] else [MigrationList[i].version]) + Pending(applied, i + 1, k)
  }

  function Ups(versions: seq<string>): (r: seq<Statement>)
    ensures |r| == |versions|
    ensures forall i :: 0 <= i < |versions| ==> r[i] == UpSql(versions[i])
  {
    if versions == [] then [] else [UpSql(versions[0])] + Ups(versions[1..])
  }

  lemma {:induction false} PendingAppend(applied: set<string>, i: nat, k: nat)
    requires i <= k < |MigrationList|
    ensures Pending(applied, i, k + 1) ==
      Pending(applied, i, k) + (if MigrationList[k].version in applied then [] else [MigrationList[k].version])
    decreases k - i
  {
    if i < k {
      PendingAppend(applied, i + 1, k);
    }
  }

  lemma {:induction false} UpsAppend(a: seq<string>, b: seq<string>)
    ensures Ups(a + b) == Ups(a) + Ups(b)
  {
    if a != [] {
      assert (a + b)[1..] == a[1..] + b;
      UpsAppend(a[1..], b);
    } else {
      assert a + b == b;
    }
  }

  /** The index of the migration at which the run from `i` stops: the first
      one not in `applied` whose application fails, or the list's length. */
  function StopAt(failing: set<Statement>, applied: set<string>, st: DbState, i: nat): (stop: nat)
    requires i <= |MigrationList|
    ensures i <= stop <= |MigrationList|
    decreases |MigrationList| - i
  {
    if i == |MigrationList| then i
    else
      var v := MigrationList[i].version;
      if v in applied then StopAt(failing, applied, st, i + 1)
      else if ApplyFailure(failing, st.versions, v).Some? then i
      else StopAt(failing, applied, Applied(st, v), i + 1)
  }

  /** The run from migration `i` skips the applied versions and applies the
      others in list order up to where it stops: it adds exactly the pending
      versions before that point, one Up script each, in order. */
  lemma {:induction false} RunFromState(failing: set<Statement>, applied: set<string>, st: DbState, i: nat)
    requires i <= |MigrationList|
    ensures var p := Pending(applied, i, StopAt(failing, applied, st, i));
      RunFrom(failing, applied, st, i).state == DbState(st.versions + p, st.schema + Ups(p))
    decreases |MigrationList| - i
  {
    var stop := StopAt(failing, applied, st, i);
    if i == |MigrationList| || (MigrationList[i].version !in applied && ApplyFailure(failing, st.versions, MigrationList[i].version).Some?) {
      assert Pending(applied, i, stop) == [];
      assert st.versions + [] == st.versions && st.schema + [] == st.schema;
    } else if MigrationList[i].version in applied {
      RunFromState(failing, applied, st, i + 1);
      assert Pending(applied, i, stop) == Pending(applied, i + 1, stop);
    } else {
      var v := MigrationList[i].version;
      RunFromState(failing, applied, Applied(st, v), i + 1);
      AppliedThenPending(st, v, Pending(applied, i + 1, stop));
    }
  }

  /** Applying `v` and then the versions `rest` adds `[v] + rest`. */
  lemma AppliedThenPending(st: DbState, v: string, rest: seq<string>)
    ensures var next := Applied(st, v);
      DbState(next.versions + rest, next.schema + Ups(rest)) ==
      DbState(st.versions + ([v] + rest), st.schema + Ups([v] + rest))
  {
    assert st.versions + [v] + rest == st.versions + ([v] + rest);
    UpsAppend([v], rest);
    assert Ups([v]) == [UpSql(v)];
    assert st.schema + [UpSql(v)] + Ups(rest) == st.schema + ([UpSql(v)] + Ups(rest));
  }

  /** The run reports an error exactly when it stops before the end of the
      list, and the error names the migration it stopped at, one not in
      `applied` whose application fails on the state reached. */
  lemma {:induction false} RunFromError(failing: set<Statement>, applied: set<string>, st: DbState, i: nat)
    requires i <= |MigrationList|
    ensures var r := RunFrom(failing, applied, st, i);
      var stop := StopAt(failing, applied, st, i);
      (r.error.None? <==> stop == |MigrationList|) &&
      (r.error.Some? ==>
        MigrationList[stop].version !in applied &&
        ApplyFailure(failing, r.state.versions, MigrationList[stop].version).Some? &&
        r.error == Some(ApplyFailed(MigrationList[stop].version,
                                    ApplyFailure(failing, r.state.versions, MigrationList[stop].version).value)))
    decreases |MigrationList| - i
  {
    if i < |MigrationList| {
      var v := MigrationList[i].version;
      if v in applied {
        RunFromError(failing, applied, st, i + 1);
      } else if ApplyFailure(failing, st.versions, v).None? {
        RunFromError(failing, applied, Applied(st, v), i + 1);
      }
    }
  }

  /** Every version that `Pending` lists is a migration's version not in
      `applied`, from the given range. */
  lemma {:induction false} PendingMembers(applied: set<string>, i: nat, k: nat, v: string)
    requires i <= k <= |MigrationList|
    ensures v in Pending(applied, i, k) <==>
      v !in applied && exists j :: i <= j < k && MigrationList[j].version == v
    decreases k - i
  {
    if i < k {
      PendingMembers(applied, i + 1, k, v);
      if MigrationList[i].version == v && v !in applied {
        assert v in Pending(applied, i, k);
      }
    }
  }

  /** A run that succeeds leaves every migration recorded. */
  lemma RunSucceedsAppliesAll(failing: set<Statement>, st: DbState)
    requires Run(failing, st).error.None?
    ensures forall j :: 0 <= j < |MigrationList| ==> MigrationList[j].version in Run(failing, st).state.versions
  {
    var stop := StopAt(failing, Rows(st.versions), st, 0);
    RunFromState(failing, Rows(st.versions), st, 0);
    RunFromError(failing, Rows(st.versions), st, 0);
    forall j | 0 <= j < |MigrationList|
      ensures MigrationList[j].version in Run(failing, st).state.versions
    {
      var v := MigrationList[j].version;
      PendingMembers(Rows(st.versions), 0, stop, v);
      if v !in Rows(st.versions) {
        assert v in Pending(Rows(st.versions), 0, stop);
      }
    }
  }

  /** A run that fails at a migration applies nothing from that migration on:
      every version then recorded was recorded before or belongs to an earlier
      migration. */
  lemma RunStopsAtFirstFailure(failing: set<Statement>, st: DbState, k: int)
    requires 0 <= k < |MigrationList|
    requires Run(failing, st).error.Some? && Run(failing, st).error.value.ApplyFailed?
    requires Run(failing, st).error.value.version == MigrationList[k].version
    ensures forall j :: k <= j < |MigrationList| && MigrationList[j].version !in st.versions ==>
      MigrationList[j].version !in Run(failing, st).state.versions
  {
    var applied := Rows(st.versions);
    var stop := StopAt(failing, applied, st, 0);
    RunFromState(failing, applied, st, 0);
    RunFromError(failing, applied, st, 0);
    if stop != k {
      VersionsDistinct(stop, k);
      assert false;
    }
    forall j | k <= j < |MigrationList| && MigrationList[j].version !in st.versions
      ensures MigrationList[j].version !in Run(failing, st).state.versions
    {
      var v := MigrationList[j].version;
      PendingMembers(applied, 0, stop, v);
      if v in Pending(applied, 0, stop) {
        var earlier :| 0 <= earlier < stop && MigrationList[earlier].version == v;
        VersionsDistinct(earlier, j);
        assert false;
      }
    }
  }

  /** Two different migrations have different versions. */
  lemma VersionsDistinct(i: nat, j: nat)
    requires i < |MigrationList| && j < |MigrationList| && i != j
    ensures MigrationList[i].version != MigrationList[j].version
  {
    MigrationsNumberedInOrder();
  }

  // RollbackMigration

  predicate Known(version: string) {
    exists i :: 0 <= i < |MigrationList| && MigrationList[i].version == version
  }

  datatype RollbackError = NotFound(version: string) | RollbackFailed(at: Statement)

  /** `DELETE ... WHERE version = $1`: every row with that version goes. */
  function RemoveAll(versions: seq<string>, version: string): (r: seq<string>)
    ensures Rows(r) == Rows(versions) - {version}
    ensures |r| <= |versions|
  {
    if versions == [] then []
    else
      var rest := RemoveAll(versions[1..], version);
      assert versions == [versions[0]] + versions[1..];
      assert Rows(versions) == {versions[0]} + Rows(versions[1..]);
      if versions[0] == version then rest
      else
        assert Rows([versions[0]] + rest) == {versions[0]} + Rows(rest);
        [versions[0]] + rest
  }

  /** The down statement of the last migration drops `schema_migrations`
      itself, so the `DELETE` that follows it in the same transaction finds no
      table and fails. */
  predicate DropsTrackingTable(version: string) {
    version == "010_create_migrations_table"
  }

  /** The result of `RollbackMigration`. */
  function Rollback(failing: set<Statement>, st: DbState, version: string): (r: (DbState, Option<RollbackError>))
    ensures r.1.Some? ==> r.0 == st
    ensures r.1 == Some(NotFound(version)) <==> !Known(version)
    ensures r.1.None? ==> Rows(r.0.versions) == Rows(st.versions) - {version}
  {
    if !Known(version) then (st, Some(NotFound(version)))
    else if BeginTx in failing then (st, Some(RollbackFailed(BeginTx)))
    else if DownSql(version) in failing then (st, Some(RollbackFailed(DownSql(version))))
    else if DeleteVersion(version) in failing || DropsTrackingTable(version) then
      (st, Some(RollbackFailed(DeleteVersion(version))))
    else if CommitDown(version) in failing then (st, Some(RollbackFailed(CommitDown(version))))
    else (DbState(RemoveAll(st.versions, version), st.schema + [DownSql(version)]), None)
  }

  /** Rolling back the migration that creates the tracking table never
      succeeds: whatever else fails or not, it stops at the `DELETE` (or
      earlier) and the transaction leaves the database as it was. */
  lemma TrackingTableRollbackFails(failing: set<Statement>, st: DbState)
    ensures Rollback(failing, st, "010_create_migrations_table").1.Some?
    ensures Rollback(failing, st, "010_create_migrations_table").0 == st
  {
  }

  /** Rolling back a migration just applied restores the recorded set. */
  lemma ApplyThenRollback(failing: set<Statement>, st: DbState, version: string)
    requires ApplyFailure(failing, st.versions, version).None?
    requires Rollback(failing, Applied(st, version), version).1.None?
    ensures Rows(Rollback(failing, Applied(st, version), version).0.versions) == Rows(st.versions)
  {
    assert Rows(st.versions + [version]) == Rows(st.versions) + {version};
  }

  class Database {
    var versions: seq<string>
    var schema: seq<Statement>
    /** The statements that fail. */
    const failing: set<Statement>

    constructor (versions: seq<string>, schema: seq<Statement>, failing: set<Statement>)
      ensures this.versions == versions && this.schema == schema && this.failing == failing
    {
      this.versions := versions;
      this.schema := schema;
      this.failing := failing;
    }

    function State(): DbState
      reads this
    {
      DbState(versions, schema)
    }

    /** `createMigrationsTable`: succeeds iff its statement does not fail. */
    method CreateTable() returns (ok: bool)
      ensures ok <==> CreateMigrationsTable !in failing
    {
      ok := CreateMigrationsTable !in failing;
    }

    /** `getAppliedMigrations`: one map entry per row. */
    method GetAppliedMigrations() returns (r: Result<map<string, bool>, Statement>)
      ensures SelectVersions in failing ==> r == Err(SelectVersions)
      ensures SelectVersions !in failing ==>
        r.Ok? && r.value.Keys == Rows(versions) && forall v :: v in r.value ==> r.value[v]
    {
      if SelectVersions in failing {
        return Err(SelectVersions);
      }
      var applied: map<string, bool> := map[];
      var i := 0;
      while i < |versions|
        invariant 0 <= i <= |versions|
        invariant applied.Keys == Rows(versions[..i])
        invariant forall v :: v in applied ==> applied[v]
      {
        assert Rows(versions[..i + 1]) == Rows(versions[..i]) + {versions[i]} by {
          assert versions[..i + 1] == versions[..i] + [versions[i]];
        }
        applied := applied[versions[i] := true];
        i := i + 1;
      }
      assert versions[..i] == versions;
      return Ok(applied);
    }

    /** `applyMigration`: one transaction running the Up script and
        recording the version; the version is recorded exactly when both
        steps succeed and the commit does. */
    method ApplyMigration(m: Migration) returns (err: Option<Statement>)
      modifies this
      ensures err == ApplyFailure(failing, old(versions), m.version)
      ensures State() == if err.None? then Applied(old(State()), m.version) else old(State())
    {
      if BeginTx in failing {
        return Some(BeginTx);
      }
      if UpSql(m.version) in failing {
        return Some(UpSql(m.version));
      }
      if InsertVersion(m.version) in failing || m.version in versions {
        return Some(InsertVersion(m.version));
      }
      if CommitUp(m.version) in failing {
        return Some(CommitUp(m.version));
      }
      versions := versions + [m.version];
      schema := schema + [UpSql(m.version)];
      return None;
    }

    /** `RunMigrations`: the loop over the list with `continue` for applied
        versions and an early return on the first failure. */
    method RunMigrations() returns (err: Option<RunError>)
      modifies this
      ensures RunResult(State(), err) == Run(failing, old(State()))
    {
      var ok := CreateTable();
      if !ok {
        return Some(CreateTableFailed);
      }
      var got := GetAppliedMigrations();
      if got.Err? {
        return Some(ReadAppliedFailed);
      }
      var applied := got.value;
      ghost var rows := Rows(versions);
      var i := 0;
      while i < |MigrationList|
        invariant 0 <= i <= |MigrationList|
        invariant RunFrom(failing, rows, State(), i) == Run(failing, old(State()))
      {
        var m := MigrationList[i];
        if m.version in applied {
          i := i + 1;
          continue;
        }
        var e := ApplyMigration(m);
        if e.Some? {
          return Some(ApplyFailed(m.version, e.value));
        }
        i := i + 1;
      }
      return None;
    }

    /** `RollbackMigration`: a linear search with `break` for the migration,
        then one transaction running its Down script and deleting its row. */
    method RollbackMigration(version: string) returns (err: Option<RollbackError>)
      modifies this
      ensures (State(), err) == Rollback(failing, old(State()), version)
    {
      var target: Option<Migration> := None;
      var i := 0;
      while i < |MigrationList|
        invariant 0 <= i <= |MigrationList|
        invariant target.None? ==> forall j :: 0 <= j < i ==> MigrationList[j].version != version
        invariant target.Some? ==> target.value.version == version
      {
        if MigrationList[i].version == version {
          target := Some(MigrationList[i]);
          break;
        }
        i := i + 1;
      }
      if target.None? {
        return Some(NotFound(version));
      }
      if BeginTx in failing {
        return Some(RollbackFailed(BeginTx));
      }
      if DownSql(target.value.version) in failing {
        return Some(RollbackFailed(DownSql(version)));
      }
      if DeleteVersion(version) in failing || DropsTrackingTable(version) {
        return Some(RollbackFailed(DeleteVersion(version)));
      }
      if CommitDown(version) in failing {
        return Some(RollbackFailed(CommitDown(version)));
      }
      versions := RemoveAll(versions, version);
      schema := schema + [DownSql(version)];
      return None;
    }
  }
}
