/** The database migration runner (server/runMigrations.js): every `.sql`
    file of the migrations directory, in sorted order, is run once. Its
    `;`-separated statements are executed in order and the file is recorded
    in the `migrations` table only after all of them succeeded; the first
    failing statement stops the run.

    The directory listing, the file contents and whether a statement fails
    are parameters; the `migrations` table is the runner's `executed`
    field, and `log` lists the migration statements sent to the database
    (the bookkeeping `SELECT` and `INSERT` are not logged). */
module Migrations {
  import opened TextUtil

  // ---------------------------------------------------------------------
  // Sorting file names
  // ---------------------------------------------------------------------

  /** Lexicographic order on characters, the order `sort()` uses. */
  predicate LessEq(a: string, b: string)
  {
    a == [] || (b != [] && (a[0] < b[0] || (a[0] == b[0] && LessEq(a[1..], b[1..]))))
  }

  lemma {:induction false} LessEqTotal(a: string, b: string)
    ensures LessEq(a, b) || LessEq(b, a)
  {
    if a != [] && b != [] && a[0] == b[0] {
      LessEqTotal(a[1..], b[1..]);
    }
  }

  predicate Sorted(s: seq<string>)
  {
    forall i :: 0 < i < |s| ==> LessEq(s[i - 1], s[i])
  }

  /** `x` inserted into a sorted list. */
  function Insert(x: string, s: seq<string>): (r: seq<string>)
    requires Sorted(s)
    ensures Sorted(r) && multiset(r) == multiset(s) + multiset{x}
    ensures r[0] == x || (s != [] && r[0] == s[0])
  {
    if s == [] then [x]
    else if LessEq(x, s[0]) then [x] + s
    else
      LessEqTotal(x, s[0]);
      var rest := Insert(x, s[1..]);
      assert s == [s[0]] + s[1..];
      assert LessEq(s[0], rest[0]);
      ConsSorted(s[0], rest);
      [s[0]] + rest
  }

  /** A sorted list stays sorted under a head no greater than its first name. */
  lemma ConsSorted(h: string, t: seq<string>)
    requires Sorted(t) && (t != [] ==> LessEq(h, t[0]))
    ensures Sorted([h] + t)
  {
    var r := [h] + t;
    assert forall i :: 1 <= i < |r| ==> r[i] == t[i - 1];
  }

  /** `sort()` of a list of names: sorted, and a permutation of the input. */
  function SortNames(s: seq<string>): (r: seq<string>)
    ensures Sorted(r) && multiset(r) == multiset(s)
  {
    if s == [] then []
    else
      assert s == [s[0]] + s[1..];
      Insert(s[0], SortNames(s[1..]))
  }

  /** The `.sql` names of a listing, in listing order. */
  function SqlNames(listing: seq<string>): (r: seq<string>)
    ensures forall x :: x in r <==> x in listing && EndsWith(x, ".sql")
  {
    if listing == [] then []
    else
      var rest := SqlNames(listing[1..]);
      assert forall x :: x in listing <==> x == listing[0] || x in listing[1..];
      if EndsWith(listing[0], ".sql") then [listing[0]] + rest else rest
  }

  /** The files the runner considers: the `.sql` names, sorted. */
  function SqlFiles(listing: seq<string>): (r: seq<string>)
    ensures Sorted(r)
    ensures forall x :: x in r <==> x in listing && EndsWith(x, ".sql")
  {
    var r := SortNames(SqlNames(listing));
    assert forall x :: x in r <==> x in multiset(r);
    r
  }

  // ---------------------------------------------------------------------
  // Running
  // ---------------------------------------------------------------------

  /** A file's statements: its `;`-separated pieces, blank ones dropped. */
  function Statements(sql: string): (r: seq<string>)
    ensures forall i :: 0 <= i < |r| ==> !IsBlank(r[i]) && ';' !in r[i]
  {
    DropBlankKeeps(Split(sql, ';'));
    DropBlank(Split(sql, ';'))
  }

  /** The statements are the non-blank pieces in their order, each as
      often as it occurs. */
  lemma StatementsPieces(sql: string)
    ensures IsSubsequence(Statements(sql), Split(sql, ';'))
    ensures forall x :: multiset(Statements(sql))[x] == if IsBlank(x) then 0 else multiset(Split(sql, ';'))[x]
  {
    DropBlankKeeps(Split(sql, ';'));
  }

  /** The `migrations` table and the statements sent so far. */
  datatype DbState = DbState(executed: seq<string>, log: seq<string>)

  /** The index of the first failing element, or the length when none
      fails. */
  function FirstFailure<T>(stmts: seq<T>, fails: T -> bool): (k: nat)
    ensures k <= |stmts|
    ensures forall j :: 0 <= j < k ==> !fails(stmts[j])
    ensures k < |stmts| ==> fails(stmts[k])
  {
    if stmts == [] || fails(stmts[0]) then 0
    else
      var k := FirstFailure(stmts[1..], fails);
      assert forall j :: 1 <= j <= k ==> stmts[j] == stmts[1..][j - 1];
      1 + k
  }

  /** Sends the statements in order up to and including the first failing
      one; answers whether all succeeded. */
  function RunStatements(st: DbState, stmts: seq<string>, fails: string -> bool): (r: (DbState, bool))
    ensures r.0.executed == st.executed
    ensures r.1 <==> forall j :: 0 <= j < |stmts| ==> !fails(stmts[j])
    ensures r.1 ==> r.0.log == st.log + stmts
    ensures !r.1 ==> var k := FirstFailure(stmts, fails);
                     k < |stmts| && fails(stmts[k]) && r.0.log == st.log + stmts[..k + 1]
  {
    var k := FirstFailure(stmts, fails);
    if k == |stmts| then (st.(log := st.log + stmts), true)
    else (st.(log := st.log + stmts[..k + 1]), false)
  }

  /** The loop over the sorted files: recorded files are skipped, the
      others run and are recorded on success; the first failure stops the
      loop and names the file. */
  function RunFiles(st: DbState, files: seq<string>, contents: string -> string, fails: string -> bool)
    : (r: (DbState, Option<string>))
    ensures st.executed <= r.0.executed
    ensures forall k :: |st.executed| <= k < |r.0.executed| ==> r.0.executed[k] in files
    ensures r.1.None? ==> forall f :: f in files ==> f in r.0.executed
    ensures r.1.Some? ==> r.1.value in files && r.1.value !in r.0.executed
    decreases |files|
  {
    if files == [] then (st, None)
    else
      assert forall x :: x in files[1..] ==> x in files;
      if files[0] in st.executed then RunFiles(st, files[1..], contents, fails)
      else
        var (after, ok) := RunStatements(st, Statements(contents(files[0])), fails);
        if !ok then (after, Some(files[0]))
        else
          var recorded := after.(executed := after.executed + [files[0]]);
          var r := RunFiles(recorded, files[1..], contents, fails);
          assert r.0.executed[|st.executed|] == files[0];
          r
  }

  /** The files a run executes, in order, when none fails: the listed
      files not yet recorded, each once. */
  function Pending(executed: seq<string>, files: seq<string>): (p: seq<string>)
    ensures IsSubsequence(p, files)
    ensures forall i :: 0 <= i < |p| ==> p[i] !in executed
    ensures forall i, j :: 0 <= i < j < |p| ==> p[i] != p[j]
    ensures forall f :: f in files && f !in executed ==> f in p
    decreases |files|
  {
    if files == [] then []
    else if files[0] in executed then Pending(executed, files[1..])
    else
      var rest := Pending(executed + [files[0]], files[1..]);
      assert forall f :: f in files ==> f == files[0] || f in files[1..];
      [files[0]] + rest
  }

  /** The statements of a file that a run sends: all of them, or those up
      to and including the first failing one. */
  function Sent(file: string, contents: string -> string, fails: string -> bool): seq<string>
  {
    var stmts := Statements(contents(file));
    var k := FirstFailure(stmts, fails);
    if k < |stmts| then stmts[..k + 1] else stmts
  }

  predicate FileFails(file: string, contents: string -> string, fails: string -> bool)
  {
    FirstFailure(Statements(contents(file)), fails) < |Statements(contents(file))|
  }

  /** The statements of the files, file after file. */
  function StatementsOf(files: seq<string>, contents: string -> string): seq<string>
  {
    if files == [] then [] else Statements(contents(files[0])) + StatementsOf(files[1..], contents)
  }

  /** The index, among the pending files, of the first one with a failing
      statement, or their number when none has one. */
  function FirstFailingFile(p: seq<string>, contents: string -> string, fails: string -> bool): (m: nat)
    ensures m <= |p|
    ensures forall i :: 0 <= i < m ==> !FileFails(p[i], contents, fails)
    ensures m < |p| ==> FileFails(p[m], contents, fails)
  {
    FirstFailure(p, f => FileFails(f, contents, fails))
  }

  /** A file's statements as the inner loop runs them: the sent ones are
      logged and the outcome is whether the file has no failing one. */
  lemma RunStatementsSent(st: DbState, f: string, contents: string -> string, fails: string -> bool)
    ensures RunStatements(st, Statements(contents(f)), fails)
            == (st.(log := st.log + Sent(f, contents, fails)), !FileFails(f, contents, fails))
  {
  }

  /** One step of the loop over the files, at a file not yet recorded:
      a failing file stops it after its sent statements, any other is
      recorded after all of them. */
  lemma RunFilesStep(st: DbState, files: seq<string>, contents: string -> string, fails: string -> bool)
    requires files != [] && files[0] !in st.executed
    ensures var f := files[0];
            RunFiles(st, files, contents, fails)
            == if FileFails(f, contents, fails) then (st.(log := st.log + Sent(f, contents, fails)), Some(f))
               else RunFiles(DbState(st.executed + [f], st.log + Statements(contents(f))), files[1..], contents, fails)
  {
    RunStatementsSent(st, files[0], contents, fails);
  }

  /** The state and result of running the pending files `p` in order:
      each runs in turn; the first failing one stops the run. */
  function RunPending(st: DbState, p: seq<string>, contents: string -> string, fails: string -> bool)
    : (DbState, Option<string>)
    decreases |p|
  {
    if p == [] then (st, None)
    else if FileFails(p[0], contents, fails) then (st.(log := st.log + Sent(p[0], contents, fails)), Some(p[0]))
    else RunPending(DbState(st.executed + [p[0]], st.log + Statements(contents(p[0]))), p[1..], contents, fails)
  }

  /** The loop over the files runs exactly the pending files, in order. */
  lemma {:induction false} RunFilesPending(st: DbState, files: seq<string>, contents: string -> string,
                                           fails: string -> bool)
    ensures RunFiles(st, files, contents, fails) == RunPending(st, Pending(st.executed, files), contents, fails)
    decreases |files|
  {
    if files != [] && files[0] !in st.executed {
      var f := files[0];
      var rest := Pending(st.executed + [f], files[1..]);
      assert Pending(st.executed, files) == [f] + rest;
      assert ([f] + rest)[1..] == rest;
      RunFilesStep(st, files, contents, fails);
      RunFilesPending(DbState(st.executed + [f], st.log + Statements(contents(f))), files[1..], contents, fails);
    } else if files != [] {
      RunFilesPending(st, files[1..], contents, fails);
    }
  }

  /** The files recorded are the pending ones before the first failing one. */
  lemma {:induction false} RunPendingRecords(st: DbState, p: seq<string>, contents: string -> string,
                                             fails: string -> bool)
    ensures RunPending(st, p, contents, fails).0.executed == st.executed + p[..FirstFailingFile(p, contents, fails)]
    decreases |p|
  {
    if p != [] {
      FirstFailingFileHead(p, contents, fails);
      if !FileFails(p[0], contents, fails) {
        var m' := FirstFailingFile(p[1..], contents, fails);
        RunPendingRecords(DbState(st.executed + [p[0]], st.log + Statements(contents(p[0]))), p[1..], contents, fails);
        assert p[..1 + m'] == [p[0]] + p[1..][..m'];
      }
    }
  }

  /** The run names the first failing pending file, if any. */
  lemma {:induction false} RunPendingNames(st: DbState, p: seq<string>, contents: string -> string,
                                           fails: string -> bool)
    ensures var m := FirstFailingFile(p, contents, fails);
            RunPending(st, p, contents, fails).1 == if m < |p| then Some(p[m]) else None
    decreases |p|
  {
    if p != [] {
      FirstFailingFileHead(p, contents, fails);
      if !FileFails(p[0], contents, fails) {
        RunPendingNames(DbState(st.executed + [p[0]], st.log + Statements(contents(p[0]))), p[1..], contents, fails);
      }
    }
  }

  /** The statements sent are those of the files run completely, then the
      sent ones of the failing file. */
  lemma {:induction false} RunPendingLogs(st: DbState, p: seq<string>, contents: string -> string,
                                          fails: string -> bool)
    ensures var m := FirstFailingFile(p, contents, fails);
            RunPending(st, p, contents, fails).0.log
            == st.log + StatementsOf(p[..m], contents) + (if m < |p| then Sent(p[m], contents, fails) else [])
    decreases |p|
  {
    if p != [] {
      FirstFailingFileHead(p, contents, fails);
      if !FileFails(p[0], contents, fails) {
        var rest := p[1..];
        var m' := FirstFailingFile(rest, contents, fails);
        var stmts := Statements(contents(p[0]));
        var tail := if m' < |rest| then Sent(rest[m'], contents, fails) else [];
        RunPendingLogs(DbState(st.executed + [p[0]], st.log + stmts), rest, contents, fails);
        StatementsOfPrefix(p, 1 + m', contents);
        Regrouped(st.log, stmts, StatementsOf(rest[..m'], contents), tail);
      }
    }
  }

  /** The first failing file of a non-empty list, in terms of its tail. */
  lemma FirstFailingFileHead(p: seq<string>, contents: string -> string, fails: string -> bool)
    requires p != []
    ensures FirstFailingFile(p, contents, fails)
            == if FileFails(p[0], contents, fails) then 0 else 1 + FirstFailingFile(p[1..], contents, fails)
  {
  }

  lemma StatementsOfPrefix(p: seq<string>, n: nat, contents: string -> string)
    requires 0 < n <= |p|
    ensures StatementsOf(p[..n], contents) == Statements(contents(p[0])) + StatementsOf(p[1..][..n - 1], contents)
  {
    assert p[..n][1..] == p[1..][..n - 1];
  }

  lemma Regrouped<T>(a: seq<T>, b: seq<T>, c: seq<T>, d: seq<T>)
    ensures (a + b) + c + d == a + (b + c) + d
  {
  }

  /** What the loop over the files does, file by file: the pending files
      before the first failing one run completely and are recorded in
      order; the failing one sends its statements up to the failure, is
      not recorded and is named; nothing after it runs. */
  lemma RunFilesOrder(st: DbState, files: seq<string>, contents: string -> string, fails: string -> bool)
    ensures var p := Pending(st.executed, files);
            var m := FirstFailingFile(p, contents, fails);
            var r := RunFiles(st, files, contents, fails);
            r.0.executed == st.executed + p[..m]
            && r.0.log == st.log + StatementsOf(p[..m], contents) + (if m < |p| then Sent(p[m], contents, fails) else [])
            && r.1 == (if m < |p| then Some(p[m]) else None)
  {
    var p := Pending(st.executed, files);
    RunFilesPending(st, files, contents, fails);
    RunPendingRecords(st, p, contents, fails);
    RunPendingNames(st, p, contents, fails);
    RunPendingLogs(st, p, contents, fails);
  }

  datatype RunResult = NoDirectory | NoFiles | Completed | Failed(file: string)

  /** `runMigrations(db)` */
  function RunMigrationsSpec(st: DbState, dirExists: bool, listing: seq<string>,
                             contents: string -> string, fails: string -> bool): (r: (DbState, RunResult))
    ensures !dirExists ==> r == (st, NoDirectory)
    ensures dirExists && SqlFiles(listing) == [] ==> r == (st, NoFiles)
    ensures r.1 == Completed ==> forall f :: f in listing && EndsWith(f, ".sql") ==> f in r.0.executed
    ensures r.1.Failed? ==> r.1.file in listing && r.1.file !in r.0.executed
    ensures st.executed <= r.0.executed
  {
    if !dirExists then (st, NoDirectory)
    else
      var files := SqlFiles(listing);
      if files == [] then (st, NoFiles)
      else
        var (after, failed) := RunFiles(st, files, contents, fails);
        (after, if failed.None? then Completed else Failed(failed.value))
  }

  /** A run over an existing directory with `.sql` files, in terms of the
      pending files taken in sorted order. */
  lemma RunMigrationsOrder(st: DbState, listing: seq<string>, contents: string -> string, fails: string -> bool)
    requires SqlFiles(listing) != []
    ensures var p := Pending(st.executed, SqlFiles(listing));
            var m := FirstFailingFile(p, contents, fails);
            var r := RunMigrationsSpec(st, true, listing, contents, fails);
            r.0.executed == st.executed + p[..m]
            && r.0.log == st.log + StatementsOf(p[..m], contents) + (if m < |p| then Sent(p[m], contents, fails) else [])
            && r.1 == (if m < |p| then Failed(p[m]) else Completed)
  {
    RunFilesOrder(st, SqlFiles(listing), contents, fails);
  }

  /** With every file already recorded nothing runs. */
  lemma {:induction false} AllRecordedIdle(st: DbState, files: seq<string>, contents: string -> string,
                                           fails: string -> bool)
    requires forall f :: f in files ==> f in st.executed
    ensures RunFiles(st, files, contents, fails) == (st, None)
    decreases |files|
  {
    if files != [] {
      AllRecordedIdle(st, files[1..], contents, fails);
    }
  }

  /** A second run after a completed one executes nothing and records
      nothing. */
  lemma SecondRunIdle(st: DbState, listing: seq<string>, contents: string -> string, fails: string -> bool)
    requires RunMigrationsSpec(st, true, listing, contents, fails).1 == Completed
    ensures var after := RunMigrationsSpec(st, true, listing, contents, fails).0;
            RunMigrationsSpec(after, true, listing, contents, fails) == (after, Completed)
  {
    var after := RunMigrationsSpec(st, true, listing, contents, fails).0;
    AllRecordedIdle(after, SqlFiles(listing), contents, fails);
  }

  /** A file whose statements all succeed is recorded after they ran; one
      with a failing statement is not recorded and ends the run. */
  lemma {:induction false} SingleFile(st: DbState, file: string, contents: string -> string, fails: string -> bool)
    requires file !in st.executed
    ensures var stmts := Statements(contents(file));
            var (after, failed) := RunFiles(st, [file], contents, fails);
            ((forall j :: 0 <= j < |stmts| ==> !fails(stmts[j]))
               ==> failed.None? && after == DbState(st.executed + [file], st.log + stmts))
            && ((exists j :: 0 <= j < |stmts| && fails(stmts[j]))
               ==> failed == Some(file) && after.executed == st.executed)
  {
    var stmts := Statements(contents(file));
    var (mid, ok) := RunStatements(st, stmts, fails);
    if ok {
      assert [file][1..] == [];
    }
  }

  /** The runner, over the migrations table and the statement log. */
  class MigrationRunner {
    var executed: seq<string>
    var log: seq<string>

    function State(): DbState
      reads this
    {
      DbState(executed, log)
    }

    constructor (recorded: seq<string>)
      ensures State() == DbState(recorded, [])
    {
      executed := recorded;
      log := [];
    }

    /** One file's `try` block: its statements are sent in order until one
        fails; answers whether all succeeded. The file is not recorded here. */
    method RunFile(statements: seq<string>, fails: string -> bool) returns (ok: bool)
      requires forall i :: 0 <= i < |statements| ==> !IsBlank(statements[i])
      modifies this
      ensures (State(), ok) == RunStatements(old(State()), statements, fails)
    {
      var j := 0;
      while j < |statements|
        invariant 0 <= j <= |statements|
        invariant executed == old(executed)
        invariant log == old(log) + statements[..j]
        invariant forall i :: 0 <= i < j ==> !fails(statements[i])
      {
        var statement := statements[j];
        if !IsBlank(statement) {
          log := log + [statement];
          if fails(statement) {
            assert statements[..j + 1] == statements[..j] + [statement];
            assert FirstFailure(statements, fails) == j;
            assert log == old(log) + statements[..j + 1];
            assert !RunStatements(old(State()), statements, fails).1;
            return false;
          }
        }
        assert statements[..j + 1] == statements[..j] + [statement];
        j := j + 1;
      }
      assert statements[..j] == statements;
      ok := true;
    }

    method RunMigrations(dirExists: bool, listing: seq<string>, contents: string -> string, fails: string -> bool)
      returns (result: RunResult)
      modifies this
      ensures (State(), result) == RunMigrationsSpec(old(State()), dirExists, listing, contents, fails)
    {
      if !dirExists {
        return NoDirectory;
      }
      var files := SqlFiles(listing);
      if |files| == 0 {
        return NoFiles;
      }
      ghost var goal := RunFiles(State(), files, contents, fails);
      var i := 0;
      while i < |files|
        invariant 0 <= i <= |files|
        invariant RunFiles(State(), files[i..], contents, fails) == goal
      {
        var file := files[i];
        assert files[i..][0] == file && files[i..][1..] == files[i + 1..];
        if file in executed {
          i := i + 1;
          continue;
        }
        var ok := RunFile(Statements(contents(file)), fails);
        if !ok {
          return Failed(file);
        }
        executed := executed + [file];
        i := i + 1;
      }
      result := Completed;
    }
  }
}
