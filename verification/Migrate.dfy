/** The ledger-driven migration runner. Applying a file is a function of the schema that may fail; a run may also
    be stopped by an error or a crash at any file, before or after that file's transaction has committed. */
module Migrations {
  import opened Common

  // ---------------------------------------------------------------- the sorted directory listing

  /** Array.prototype.sort on strings: by characters, a proper prefix first. */
  predicate Before(a: string, b: string) {
    if |b| == 0 then false
    else if |a| == 0 then true
    else a[0] < b[0] || (a[0] == b[0] && Before(a[1..], b[1..]))
  }

  predicate IsSql(name: string) {
    |name| >= 4 && name[|name| - 4..] == ".sql"
  }

  /** a and b first differ at k, where a has the smaller character. */
  predicate SmallerAt(a: string, b: string, k: nat) {
    k < |a| && k < |b| && a[..k] == b[..k] && a[k] < b[k]
  }

  /** a is a proper prefix of b, or has the smaller character where the two first differ. */
  ghost predicate Smaller(a: string, b: string) {
    a < b || exists k: nat :: SmallerAt(a, b, k)
  }

  lemma {:induction false} BeforeIsSmaller(a: string, b: string)
    ensures Before(a, b) <==> Smaller(a, b)
  {
    if |a| > 0 && |b| > 0 {
      BeforeIsSmaller(a[1..], b[1..]);
      if a[0] == b[0] {
        SmallerTails(a, b);
      } else if a[0] < b[0] {
        assert SmallerAt(a, b, 0);
      } else {
        forall k: nat ensures !SmallerAt(a, b, k) {
          if 0 < k < |a| && k < |b| {
            assert a[..k][0] == a[0] && b[..k][0] == b[0];
          }
        }
      }
    }
  }

  lemma SmallerTails(a: string, b: string)
    requires |a| > 0 && |b| > 0 && a[0] == b[0]
    ensures Smaller(a, b) <==> Smaller(a[1..], b[1..])
  {
    assert a == [a[0]] + a[1..] && b == [b[0]] + b[1..];
    forall k: nat ensures SmallerAt(a, b, k + 1) <==> SmallerAt(a[1..], b[1..], k) {
      LaterCharacter(a, b, k);
    }
    if k: nat :| SmallerAt(a, b, k) {
      LaterCharacter(a, b, k - 1);
      assert SmallerAt(a[1..], b[1..], k - 1);
    } else {
      PrefixTails(a, b);
    }
  }

  lemma PrefixTails(a: string, b: string)
    requires |a| > 0 && |b| > 0 && a[0] == b[0]
    ensures a < b <==> a[1..] < b[1..]
  {
    assert a == [a[0]] + a[1..] && b == [b[0]] + b[1..];
    if a[1..] < b[1..] {
      assert a[1..] == b[1..][..|a| - 1];
      assert a == b[..|a|];
    }
    if a < b {
      assert b[1..][..|a| - 1] == b[..|a|][1..];
    }
  }

  lemma LaterCharacter(a: string, b: string, k: nat)
    requires |a| > 0 && |b| > 0 && a[0] == b[0]
    ensures SmallerAt(a, b, k + 1) <==> SmallerAt(a[1..], b[1..], k)
  {
    if k + 1 < |a| && k + 1 < |b| {
      assert a[..k + 1] == [a[0]] + a[1..][..k] && b[..k + 1] == [b[0]] + b[1..][..k];
      assert a[1..][..k] == a[..k + 1][1..] && b[1..][..k] == b[..k + 1][1..];
    }
  }

  lemma SqlFiles(stem: string, name: string)
    ensures IsSql(stem + ".sql")
    ensures IsSql(name) ==> name == name[..|name| - 4] + ".sql"
  {
  }

  predicate Ascending(files: seq<string>) {
    forall i, k :: 0 <= i < k < |files| ==> Before(files[i], files[k])
  }

  /** What readdirSync, filter and sort make of a directory. */
  ghost predicate Listing(files: seq<string>, dir: set<string>) {
    Ascending(files) && forall name :: name in files <==> name in dir && IsSql(name)
  }

  lemma {:induction false} BeforeIsStrict(a: string, b: string)
    ensures !(Before(a, b) && Before(b, a)) && (a == b ==> !Before(a, b))
    ensures a == b || Before(a, b) || Before(b, a)
  {
    if |a| > 0 && |b| > 0 {
      BeforeIsStrict(a[1..], b[1..]);
      if a[0] == b[0] && a[1..] == b[1..] {
        assert a == [a[0]] + a[1..] && b == [b[0]] + b[1..];
      }
    }
  }

  /** Every new migration sorts after every old one. */
  ghost predicate NewFilesLast(dir: set<string>, dir': set<string>) {
    && dir <= dir'
    && forall old_, new_ :: old_ in dir && IsSql(old_) && new_ in dir' - dir && IsSql(new_) ==> Before(old_, new_)
  }

  /** Then the old listing is a prefix of the new one. */
  lemma {:induction false} ListingGrows(files: seq<string>, dir: set<string>, files': seq<string>, dir': set<string>)
    requires Listing(files, dir) && Listing(files', dir') && NewFilesLast(dir, dir')
    ensures files <= files'
  {
    AgreeUpTo(files, dir, files', dir', |files|);
    assert files == files[..|files|];
  }

  lemma {:induction false} AgreeUpTo(
      files: seq<string>, dir: set<string>, files': seq<string>, dir': set<string>, n: nat)
    requires Listing(files, dir) && Listing(files', dir') && NewFilesLast(dir, dir') && n <= |files|
    ensures n <= |files'| && files'[..n] == files[..n]
  {
    if n > 0 {
      AgreeUpTo(files, dir, files', dir', n - 1);
      NextAgrees(files, dir, files', dir', n - 1);
      assert files'[..n] == files'[..n - 1] + [files'[n - 1]];
      assert files[..n] == files[..n - 1] + [files[n - 1]];
    }
  }

  lemma NextAgrees(files: seq<string>, dir: set<string>, files': seq<string>, dir': set<string>, n: nat)
    requires Listing(files, dir) && Listing(files', dir') && NewFilesLast(dir, dir')
    requires n < |files| && n <= |files'| && files'[..n] == files[..n]
    ensures n < |files'| && files'[n] == files[n]
  {
    assert files[n] in files';
    var k :| 0 <= k < |files'| && files'[k] == files[n];
    ListedLater(files, files', n, k);
    NothingBefore(files, dir, files', dir', n);
  }

  lemma ListedLater(files: seq<string>, files': seq<string>, n: nat, k: nat)
    requires Ascending(files) && n < |files| && n <= |files'| && files'[..n] == files[..n]
    requires k < |files'| && files'[k] == files[n]
    ensures k >= n
  {
    if k < n {
      assert files[k] == files'[..n][k];
      BeforeIsStrict(files[k], files[n]);
      assert false;
    }
  }

  /** The next file of the new listing is not before the next one of the old: an old one would have been next
      there too, and a new one sorts last. */
  lemma NothingBefore(files: seq<string>, dir: set<string>, files': seq<string>, dir': set<string>, n: nat)
    requires Listing(files, dir) && Listing(files', dir') && NewFilesLast(dir, dir')
    requires n < |files| && n < |files'| && files'[..n] == files[..n]
    ensures !Before(files'[n], files[n])
  {
    var first, name := files'[n], files[n];
    BeforeIsStrict(first, name);
    assert first in files' && name in files;
    if first in dir {
      assert first in files;
      var i :| 0 <= i < |files| && files[i] == first;
      NotListedBefore(files, n, first, files');
      assert i >= n;
    }
  }

  /** An element of an ascending listing does not occur among the elements before it. */
  lemma NotListedBefore(files: seq<string>, n: nat, first: string, files': seq<string>)
    requires Ascending(files') && n < |files'| && n <= |files| && files'[..n] == files[..n] && first == files'[n]
    ensures forall i :: 0 <= i < n ==> files[i] != first
  {
    forall i | 0 <= i < n ensures files[i] != first {
      assert files[i] == files'[..n][i];
      BeforeIsStrict(files'[i], files'[n]);
    }
  }

  // ---------------------------------------------------------------- one run

  /** `applied` lists, in order, every application that was committed. */
  datatype Db<S> = Db(ledger: set<string>, schema: S, applied: seq<string>)

  /** Where a run is cut short: at the n-th pending file, before its commit or just after it. */
  datatype Stop = Never | BeforeCommit(n: nat) | AfterCommit(n: nat)

  function Sooner(stop: Stop): Stop {
    match stop
    case Never => Never
    case BeforeCommit(n) => if n == 0 then stop else BeforeCommit(n - 1)
    case AfterCommit(n) => if n == 0 then stop else AfterCommit(n - 1)
  }

  /** The run is not cut short at any of n files. */
  predicate StopsAfter(stop: Stop, n: nat) {
    stop.Never? || stop.n >= n
  }

  type Script<!S> = (string, S) -> Option<S>

  function Unapplied(files: seq<string>, ledger: set<string>): seq<string> {
    if |files| == 0 then []
    else (if files[0] in ledger then [] else [files[0]]) + Unapplied(files[1..], ledger)
  }

  /** The file's statements and its ledger row, in one transaction. */
  function Applied<S>(db: Db<S>, file: string, schema: S): Db<S> {
    Db(db.ledger + {file}, schema, db.applied + [file])
  }

  function RunPending<S>(db: Db<S>, pending: seq<string>, script: Script<S>, stop: Stop): Db<S>
    decreases |pending|
  {
    if |pending| == 0 || stop == BeforeCommit(0) then db
    else
      match script(pending[0], db.schema)
      case None => db
      case Some(schema) =>
        var db' := Applied(db, pending[0], schema);
        if stop == AfterCommit(0) then db' else RunPending(db', pending[1..], script, Sooner(stop))
  }

  /** The run gets through all pending files. */
  predicate Finishes<S>(db: Db<S>, pending: seq<string>, script: Script<S>, stop: Stop)
    decreases |pending|
  {
    |pending| == 0 ||
    (&& stop != BeforeCommit(0) && stop != AfterCommit(0)
     && var result := script(pending[0], db.schema);
        result.Some? && Finishes(Applied(db, pending[0], result.value), pending[1..], script, Sooner(stop)))
  }

  function RunOnce<S>(db: Db<S>, files: seq<string>, script: Script<S>, stop: Stop): Db<S> {
    RunPending(db, Unapplied(files, db.ledger), script, stop)
  }

  /** The database as the runner changes it. */
  class Database<S(!new)> {
    var ledger: set<string>
    var schema: S
    ghost var applied: seq<string>

    ghost function Contents(): Db<S>
      reads this
    {
      Db(ledger, schema, applied)
    }

    constructor (schema: S)
      ensures Contents() == Db({}, schema, [])
    {
      ledger, this.schema, applied := {}, schema, [];
    }

    method FindPending(filenames: seq<string>) returns (pending: seq<string>)
      ensures pending == Unapplied(filenames, ledger)
      ensures forall name :: name in filenames ==> name in ledger || name in pending
    {
      var alreadyApplied := ledger;
      pending := [];
      for i := 0 to |filenames|
        invariant pending + Unapplied(filenames[i..], alreadyApplied) == Unapplied(filenames, alreadyApplied)
        invariant forall k :: 0 <= k < i ==> filenames[k] in alreadyApplied || filenames[k] in pending
      {
        assert filenames[i..][1..] == filenames[i + 1..];
        if filenames[i] !in alreadyApplied {
          pending := pending + [filenames[i]];
        }
      }
      assert filenames[|filenames|..] == [] && pending + [] == pending;
    }

    /** One file in its transaction: its statements and its ledger row commit together or not at all. */
    method ApplyFile(file: string, script: Script<S>) returns (ok: bool)
      modifies this
      ensures ok == script(file, old(schema)).Some?
      ensures Contents()
        == if ok then Applied(old(Contents()), file, script(file, old(schema)).value) else old(Contents())
    {
      var ledgerBefore, schemaBefore := ledger, schema;        // BEGIN
      ledger := ledger + {file};
      var result := script(file, schema);
      if result.None? {
        ledger, schema := ledgerBefore, schemaBefore;          // ROLLBACK
        return false;
      }
      schema := result.value;
      applied := applied + [file];                             // COMMIT
      ok := true;
    }

    /** One migrate run; answers whether it reported success. */
    method Migrate(filenames: seq<string>, script: Script<S>, stop: Stop) returns (ok: bool)
      modifies this
      ensures Contents() == RunOnce(old(Contents()), filenames, script, stop)
      ensures ok ==> forall name :: name in filenames ==> name in ledger
      // success is reported exactly if no pending file fails and the run is not stopped at one of them
      ensures ok <==> var pending := Unapplied(filenames, old(ledger));
        Fold(old(schema), pending, script).Some? && StopsAfter(stop, |pending|)
      ensures Distinct(filenames) && stop == Never && (forall name :: name in filenames ==> name in ledger) ==> ok
    {
      var pending := FindPending(filenames);
      ghost var before := Contents();
      FinishesExactly(before, pending, script, stop);
      CompleteMeansFinished(before, filenames, script);
      var left := stop;
      assert pending[0..] == pending;
      for i := 0 to |pending|
        invariant RunPending(Contents(), pending[i..], script, left) == RunPending(before, pending, script, stop)
        invariant Finishes(Contents(), pending[i..], script, left) <==> Finishes(before, pending, script, stop)
        invariant before.ledger <= ledger && forall k :: 0 <= k < i ==> pending[k] in ledger
      {
        assert pending[i..][0] == pending[i] && pending[i..][1..] == pending[i + 1..];
        if left == BeforeCommit(0) {
          return false;
        }
        var applied := ApplyFile(pending[i], script);
        if !applied || left == AfterCommit(0) {
          return false;
        }
        left := Sooner(left);
      }
      assert pending[|pending|..] == [];
      ok := true;
    }
  }

  /** A run gets through exactly if no file fails on the schema that the files before it make, and it is not stopped at
      one of them. */
  lemma {:induction false} FinishesExactly<S(!new)>(db: Db<S>, pending: seq<string>, script: Script<S>, stop: Stop)
    ensures Finishes(db, pending, script, stop)
      <==> Fold(db.schema, pending, script).Some? && StopsAfter(stop, |pending|)
    decreases |pending|
  {
    if |pending| > 0 {
      FoldFirst(db.schema, pending, script);
      var result := script(pending[0], db.schema);
      if result.Some? {
        FinishesExactly(Applied(db, pending[0], result.value), pending[1..], script, Sooner(stop));
      }
    }
  }

  lemma {:induction false} FoldFirst<S(!new)>(start: S, files: seq<string>, script: Script<S>)
    requires |files| > 0
    ensures Fold(start, files, script) == match script(files[0], start)
      case None => None
      case Some(schema) => Fold(schema, files[1..], script)
    decreases |files|
  {
    var front := files[..|files| - 1];
    if |files| == 1 {
      assert front == [] && files[1..] == [];
    } else {
      FoldFirst(start, front, script);
      assert front[1..] == files[1..][..|files| - 2];
    }
  }

  /** A run that is not stopped and leaves every listed file in the ledger has got through. */
  lemma CompleteMeansFinished<S(!new)>(db: Db<S>, files: seq<string>, script: Script<S>)
    ensures Distinct(files) && (forall name :: name in files ==> name in RunOnce(db, files, script, Never).ledger) ==>
      Finishes(db, Unapplied(files, db.ledger), script, Never)
  {
    if Distinct(files) && forall name :: name in files ==> name in RunOnce(db, files, script, Never).ledger {
      UnappliedNames(files, db.ledger);
      AllAppliedFinishes(db, Unapplied(files, db.ledger), script);
    }
  }

  lemma {:induction false} AllAppliedFinishes<S(!new)>(db: Db<S>, pending: seq<string>, script: Script<S>)
    requires Distinct(pending) && forall i :: 0 <= i < |pending| ==> pending[i] !in db.ledger
    requires forall i :: 0 <= i < |pending| ==> pending[i] in RunPending(db, pending, script, Never).ledger
    ensures Finishes(db, pending, script, Never)
    decreases |pending|
  {
    if |pending| > 0 {
      var result := script(pending[0], db.schema);
      if result.Some? {
        StillPending(db.ledger, pending);
        AllAppliedFinishes(Applied(db, pending[0], result.value), pending[1..], script);
      }
    }
  }

  // ---------------------------------------------------------------- every sequence of runs

  /** The schema after the files one by one, when none of them fails. */
  function Fold<S>(schema: S, files: seq<string>, script: Script<S>): Option<S> {
    if |files| == 0 then Some(schema)
    else
      match Fold(schema, files[..|files| - 1], script)
      case None => None
      case Some(before) => script(files[|files| - 1], before)
  }

  /** The ledger names exactly the applications, each made once, and the schema is what they fold to. */
  ghost predicate Recorded<S(!new)>(db: Db<S>, start: S, script: Script<S>) {
    && (forall name :: name in db.ledger <==> name in db.applied)
    && Distinct(db.applied)
    && Fold(start, db.applied, script) == Some(db.schema)
  }

  lemma AppliedRecorded<S(!new)>(db: Db<S>, start: S, script: Script<S>, file: string, schema: S)
    requires Recorded(db, start, script) && file !in db.ledger && script(file, db.schema) == Some(schema)
    ensures Recorded(Applied(db, file, schema), start, script)
  {
    assert (db.applied + [file])[..|db.applied|] == db.applied;
  }

  lemma StillPending(ledger: set<string>, pending: seq<string>)
    requires |pending| > 0 && Distinct(pending) && forall i :: 0 <= i < |pending| ==> pending[i] !in ledger
    ensures Distinct(pending[1..])
    ensures forall i :: 0 <= i < |pending[1..]| ==> pending[1..][i] !in ledger + {pending[0]}
  {
  }

  lemma FirstAndRest(applied: seq<string>, pending: seq<string>, m: nat)
    requires m < |pending|
    ensures (applied + [pending[0]]) + pending[1..][..m] == applied + pending[..m + 1]
  {
  }

  /** A run commits some first part of its pending files, all of them if it is neither stopped nor fails. */
  lemma {:induction false} PendingPrefix<S(!new)>(
      db: Db<S>, pending: seq<string>, script: Script<S>, stop: Stop, start: S)
    returns (n: nat)
    requires Recorded(db, start, script) && Distinct(pending)
    requires forall i :: 0 <= i < |pending| ==> pending[i] !in db.ledger
    ensures var db' := RunPending(db, pending, script, stop);
      n <= |pending| && Recorded(db', start, script) && db'.applied == db.applied + pending[..n]
    decreases |pending|
  {
    if |pending| == 0 || stop == BeforeCommit(0) || script(pending[0], db.schema).None? {
      n := 0;
    } else {
      var schema := script(pending[0], db.schema).value;
      var db' := Applied(db, pending[0], schema);
      AppliedRecorded(db, start, script, pending[0], schema);
      if stop == AfterCommit(0) {
        n := 1;
      } else {
        StillPending(db.ledger, pending);
        var m := PendingPrefix(db', pending[1..], script, Sooner(stop), start);
        n := m + 1;
        FirstAndRest(db.applied, pending, m);
      }
    }
  }

  lemma {:induction false} UnappliedNames(files: seq<string>, ledger: set<string>)
    ensures forall name :: name in Unapplied(files, ledger) <==> name in files && name !in ledger
    ensures Distinct(files) ==> Distinct(Unapplied(files, ledger))
  {
    if |files| > 0 {
      UnappliedNames(files[1..], ledger);
      assert files == [files[0]] + files[1..];
      if Distinct(files) {
        assert files[0] !in files[1..];
      }
    }
  }

  /** One run of the command: the directory's listing at that time, and where the run is cut short. */
  datatype Run = Run(files: seq<string>, stop: Stop)

  function RunAll<S>(db: Db<S>, runs: seq<Run>, script: Script<S>): Db<S> {
    if |runs| == 0 then db
    else RunOnce(RunAll(db, runs[..|runs| - 1], script), runs[|runs| - 1].files, script, runs[|runs| - 1].stop)
  }

  /** Whatever the listings and interruptions, no file is ever applied twice, and the ledger tells exactly
      which applications the schema is made of. */
  lemma {:induction false} AppliedAtMostOnce<S(!new)>(start: S, runs: seq<Run>, script: Script<S>)
    requires forall i :: 0 <= i < |runs| ==> Distinct(runs[i].files)
    ensures Recorded(RunAll(Db({}, start, []), runs, script), start, script)
  {
    if |runs| > 0 {
      var last := runs[|runs| - 1];
      AppliedAtMostOnce(start, runs[..|runs| - 1], script);
      var db := RunAll(Db({}, start, []), runs[..|runs| - 1], script);
      UnappliedNames(last.files, db.ledger);
      var n := PendingPrefix(db, Unapplied(last.files, db.ledger), script, last.stop, start);
    }
  }

  /** Each listing extends the one before it. */
  predicate Growing(runs: seq<Run>) {
    forall i :: 0 <= i < |runs| ==> Distinct(runs[i].files) && (i > 0 ==> runs[i - 1].files <= runs[i].files)
  }

  lemma {:induction false} UnappliedSuffix(files: seq<string>, ledger: set<string>, n: nat)
    requires Distinct(files) && n <= |files|
    requires forall i :: 0 <= i < |files| ==> (files[i] in ledger <==> i < n)
    ensures Unapplied(files, ledger) == files[n..]
  {
    if |files| > 0 {
      UnappliedSuffix(files[1..], ledger, if n == 0 then 0 else n - 1);
    }
  }

  /** With new files always sorting last, the applications are in every state a prefix of the latest listing. */
  lemma {:induction false} LedgerIsPrefix<S(!new)>(start: S, runs: seq<Run>, script: Script<S>)
    requires Growing(runs) && |runs| > 0
    ensures var db := RunAll(Db({}, start, []), runs, script);
      && db.applied <= runs[|runs| - 1].files
      && (forall name :: name in db.ledger <==> name in db.applied)
      && Fold(start, db.applied, script) == Some(db.schema)
  {
    AppliedAtMostOnce(start, runs, script);
    var earlier := runs[..|runs| - 1];
    var last := runs[|runs| - 1];
    AppliedAtMostOnce(start, earlier, script);
    var db := RunAll(Db({}, start, []), earlier, script);
    if |earlier| > 0 {
      LedgerIsPrefix(start, earlier, script);
      assert runs[|runs| - 2].files <= last.files;
    }
    PrefixGrows(db, last.files, script, last.stop, start);
  }

  lemma {:induction false} AscendingDistinct(files: seq<string>)
    requires Ascending(files)
    ensures Distinct(files)
  {
    forall i, k | 0 <= i < k < |files| ensures files[i] != files[k] {
      BeforeIsStrict(files[i], files[k]);
    }
  }

  /** `dirs[i]` is the migrations directory when run i lists it; what was added since the run before sorts last. */
  ghost predicate Deployed(runs: seq<Run>, dirs: seq<set<string>>) {
    && |dirs| == |runs|
    && (forall i :: 0 <= i < |runs| ==> Listing(runs[i].files, dirs[i]))
    && (forall i :: 0 < i < |runs| ==> NewFilesLast(dirs[i - 1], dirs[i]))
  }

  lemma DeployedRunsGrow(runs: seq<Run>, dirs: seq<set<string>>)
    requires Deployed(runs, dirs)
    ensures Growing(runs)
  {
    forall i | 0 <= i < |runs| ensures Distinct(runs[i].files) && (i > 0 ==> runs[i - 1].files <= runs[i].files) {
      AscendingDistinct(runs[i].files);
      if i > 0 {
        ListingGrows(runs[i - 1].files, dirs[i - 1], runs[i].files, dirs[i]);
      }
    }
  }

  /** The whole way from directories to the database: if each deployment only adds files that sort last, then after
      any runs, stopped anywhere, the applications are a first part of the present directory's sorted listing, the
      schema is their fold, and once all are applied the database is that of one clean run. */
  lemma DeploymentsCompose<S(!new)>(start: S, runs: seq<Run>, dirs: seq<set<string>>, script: Script<S>)
    requires Deployed(runs, dirs) && |runs| > 0
    ensures var db := RunAll(Db({}, start, []), runs, script);
      var files := runs[|runs| - 1].files;
      && db.applied <= files
      && (forall name :: name in db.ledger <==> name in db.applied)
      && Fold(start, db.applied, script) == Some(db.schema)
      && ((forall name :: name in dirs[|runs| - 1] && IsSql(name) ==> name in db.ledger) ==>
           db == RunOnce(Db({}, start, []), files, script, Never))
  {
    DeployedRunsGrow(runs, dirs);
    LedgerIsPrefix(start, runs, script);
    var db := RunAll(Db({}, start, []), runs, script);
    assert Listing(runs[|runs| - 1].files, dirs[|runs| - 1]);
    if forall name :: name in dirs[|runs| - 1] && IsSql(name) ==> name in db.ledger {
      InterruptedRunsCompose(start, runs, script);
    }
  }

  lemma PrefixGrows<S(!new)>(db: Db<S>, files: seq<string>, script: Script<S>, stop: Stop, start: S)
    requires Recorded(db, start, script) && db.applied <= files && Distinct(files)
    ensures db.applied <= RunOnce(db, files, script, stop).applied <= files
  {
    PrefixLedger(db, files);
    UnappliedSuffix(files, db.ledger, |db.applied|);
    var n := PendingPrefix(db, files[|db.applied|..], script, stop, start);
    LongerPrefix(db.applied, files, n);
  }

  lemma LongerPrefix(p: seq<string>, files: seq<string>, n: nat)
    requires p <= files && n <= |files| - |p|
    ensures p <= p + files[|p|..][..n] <= files
  {
  }

  lemma PrefixLedger<S>(db: Db<S>, files: seq<string>)
    requires db.applied <= files && Distinct(files) && forall name :: name in db.ledger <==> name in db.applied
    ensures forall i :: 0 <= i < |files| ==> (files[i] in db.ledger <==> i < |db.applied|)
  {
    forall i | 0 <= i < |files| ensures files[i] in db.ledger <==> i < |db.applied| {
      if i < |db.applied| {
        assert db.applied[i] == files[i];
      }
    }
  }

  lemma NextIsNew(p: seq<string>, files: seq<string>)
    requires p < files && Distinct(files)
    ensures files[|p|] in files && files[|p|] !in p
  {
    forall i | 0 <= i < |p| ensures p[i] != files[|p|] {
      assert p[i] == files[i];
    }
  }

  lemma AllInPrefix(p: seq<string>, files: seq<string>)
    requires p <= files && Distinct(files) && forall name :: name in files ==> name in p
    ensures p == files
  {
    if |p| < |files| {
      NextIsNew(p, files);
      assert false;
    }
  }

  lemma CleanRunOnce<S(!new)>(start: S, files: seq<string>, script: Script<S>)
    requires Distinct(files) && Fold(start, files, script).Some?
    ensures var clean := RunOnce(Db({}, start, []), files, script, Never);
      clean.applied == files && Recorded(clean, start, script)
  {
    UnappliedSuffix(files, {}, 0);
    assert files[0..] == files && files[..0] == [];
    CleanRun(Db({}, start, []), files, script, 0, start);
    var n := PendingPrefix(Db({}, start, []), files, script, Never, start);
  }

  lemma SameRecord<S(!new)>(db: Db<S>, db': Db<S>, start: S, script: Script<S>)
    requires Recorded(db, start, script) && Recorded(db', start, script) && db.applied == db'.applied
    ensures db == db'
  {
    assert db.ledger == db'.ledger;
  }

  /** Interrupted runs compose: once a run has applied every file, ledger, schema and order are those of one
      clean run over an empty database. */
  lemma InterruptedRunsCompose<S(!new)>(start: S, runs: seq<Run>, script: Script<S>)
    requires Growing(runs) && |runs| > 0
    requires forall name :: name in runs[|runs| - 1].files ==> name in RunAll(Db({}, start, []), runs, script).ledger
    ensures RunAll(Db({}, start, []), runs, script) == RunOnce(Db({}, start, []), runs[|runs| - 1].files, script, Never)
  {
    var files := runs[|runs| - 1].files;
    var db := RunAll(Db({}, start, []), runs, script);
    LedgerIsPrefix(start, runs, script);
    AppliedAtMostOnce(start, runs, script);
    AllInPrefix(db.applied, files);
    CleanRunOnce(start, files, script);
    SameRecord(db, RunOnce(Db({}, start, []), files, script, Never), start, script);
  }

  /** An uninterrupted run over files that fold to a schema applies them all. */
  lemma {:induction false} CleanRun<S(!new)>(db: Db<S>, files: seq<string>, script: Script<S>, n: nat, start: S)
    requires n <= |files| && Fold(start, files, script).Some?
    requires Fold(start, files[..n], script) == Some(db.schema) && db.applied == files[..n]
    ensures RunPending(db, files[n..], script, Never).applied == files
    decreases |files| - n
  {
    if n < |files| {
      FoldPrefix(start, files, script, n + 1);
      assert files[..n + 1][..n] == files[..n];
      var schema := script(files[n], db.schema).value;
      assert files[n..][1..] == files[n + 1..];
      CleanRun(Applied(db, files[n], schema), files, script, n + 1, start);
    } else {
      assert files[..n] == files && files[n..] == [];
    }
  }

  lemma {:induction false} FoldPrefix<S(!new)>(start: S, files: seq<string>, script: Script<S>, n: nat)
    requires n <= |files| && Fold(start, files, script).Some?
    ensures Fold(start, files[..n], script).Some?
    decreases |files|
  {
    if n < |files| {
      var front := files[..|files| - 1];
      FoldPrefix(start, front, script, n);
      assert front[..n] == files[..n];
    } else {
      assert files[..n] == files;
    }
  }

  lemma SecondRun<S(!new)>(db: Db<S>, files: seq<string>, files': seq<string>, script: Script<S>, start: S)
    requires Distinct(files') && Recorded(db, start, script) && db.applied == files
    requires forall name :: name in files' ==> name in RunOnce(db, files', script, Never).ledger
    ensures files <= RunOnce(db, files', script, Never).applied
    ensures files <= files' ==> RunOnce(db, files', script, Never).applied == files'
  {
    UnappliedNames(files', db.ledger);
    var n := PendingPrefix(db, Unapplied(files', db.ledger), script, Never, start);
    if files <= files' {
      PrefixGrows(db, files', script, Never, start);
      AllInPrefix(RunOnce(db, files', script, Never).applied, files');
    }
  }

  /** Two complete runs leave the order of one clean run exactly if the second listing extends the first. */
  lemma OrderKeptExactlyWhenLast<S(!new)>(start: S, files: seq<string>, files': seq<string>, script: Script<S>)
    requires Distinct(files) && Distinct(files')
    requires RunOnce(Db({}, start, []), files, script, Never).applied == files
    requires var db := RunOnce(Db({}, start, []), files, script, Never);
      forall name :: name in files' ==> name in RunOnce(db, files', script, Never).ledger
    ensures var db := RunOnce(Db({}, start, []), files, script, Never);
      RunOnce(db, files', script, Never).applied == files' <==> files <= files'
  {
    var db0 := Db({}, start, []);
    UnappliedNames(files, {});
    var n := PendingPrefix(db0, Unapplied(files, {}), script, Never, start);
    SecondRun(RunOnce(db0, files, script, Never), files, files', script, start);
  }
}
