/**
  The migration runner: an adopt path for databases migrated by other means, and one transaction
  per journal entry. Statements are arbitrary deterministic functions of the schema. A crash loses
  the open transaction and nothing else; the next run starts over.
 */
module Migrate {
  import opened Prelude

  type Schema = map<string, string>

  datatype ExecResult = Ok(schema: Schema) | DuplicateObject | OtherError

  datatype Migration = Migration(hash: string, stmts: seq<Schema -> ExecResult>)

  datatype Database = Database(tracked: set<string>, schema: Schema)

  /** Nothing tracked, yet the users table is there. */
  predicate AdoptFires(db: Database)
  {
    db.tracked == {} && "users" in db.schema
  }

  /** The first `k` statements of a migration, inside its transaction. */
  function ExecFirst(m: Migration, k: nat, schema: Schema): ExecResult
    requires k <= |m.stmts|
  {
    if k == 0 then Ok(schema) else
      var r := ExecFirst(m, k - 1, schema);
      if r.Ok? then m.stmts[k - 1](r.schema) else r
  }

  function Track(db: Database, hash: string): Database { db.(tracked := db.tracked + {hash}) }

  /** One entry, start to finish; `None` is the hard failure. */
  function Entry(db: Database, m: Migration): Option<Database>
  {
    if m.hash in db.tracked then Some(db)
    else match ExecFirst(m, |m.stmts|, db.schema)
         case Ok(schema) => Some(Database(db.tracked + {m.hash}, schema))
         case DuplicateObject => Some(Track(db, m.hash))
         case OtherError => None
  }

  /** The first `j` entries, uninterrupted. */
  function Entries(journal: seq<Migration>, j: nat, db: Database): Option<Database>
    requires j <= |journal|
  {
    if j == 0 then Some(db) else
      match Entries(journal, j - 1, db)
      case None => None
      case Some(d) => Entry(d, journal[j - 1])
  }

  /** Marking the first `j` entries applied; a repeated hash violates the unique column. */
  function Adopted(journal: seq<Migration>, j: nat, db: Database): Option<Database>
    requires j <= |journal|
  {
    if j == 0 then Some(db) else
      match Adopted(journal, j - 1, db)
      case None => None
      case Some(d) => if journal[j - 1].hash in d.tracked then None else Some(Track(d, journal[j - 1].hash))
  }

  function Uninterrupted(journal: seq<Migration>, db: Database): Option<Database>
  {
    if AdoptFires(db) then Adopted(journal, |journal|, db) else Entries(journal, |journal|, db)
  }

  /** A failed run leaves what the entries before the first failing one committed. */
  ghost predicate StopsAt(journal: seq<Migration>, db0: Database, db: Database)
  {
    exists j :: 0 <= j < |journal| &&
      if AdoptFires(db0) then Adopted(journal, j, db0) == Some(db) && Adopted(journal, j + 1, db0).None?
      else Entries(journal, j, db0) == Some(db) && Entries(journal, j + 1, db0).None?
  }

  // ---- The runner as the loops it is ----

  class MigrationRunner {
    var db: Database

    constructor (db: Database)
      ensures this.db == db
    {
      this.db := db;
    }

    method ApplyEntry(m: Migration) returns (ok: bool)
      modifies this
      ensures ok <==> Entry(old(db), m).Some?
      ensures db == if ok then Entry(old(db), m).value else old(db)
    {
      if m.hash in db.tracked {
        return true;
      }
      var work := db.schema;
      for k := 0 to |m.stmts|
        invariant ExecFirst(m, k, db.schema) == Ok(work)
        invariant db == old(db)
      {
        var r := m.stmts[k](work);
        assert ExecFirst(m, k + 1, db.schema) == r;
        if !r.Ok? {
          ErrorPersists(m, k + 1, |m.stmts|, db.schema);
          if r.DuplicateObject? {
            db := Track(db, m.hash);
            return true;
          }
          return false;
        }
        work := r.schema;
      }
      db := Database(db.tracked + {m.hash}, work);
      return true;
    }

    method MigrateAll(journal: seq<Migration>) returns (ok: bool)
      modifies this
      ensures ok <==> Uninterrupted(journal, old(db)).Some?
      ensures ok ==> db == Uninterrupted(journal, old(db)).value
      ensures !ok ==> StopsAt(journal, old(db), db)
    {
      if AdoptFires(db) {
        for j := 0 to |journal|
          invariant Adopted(journal, j, old(db)) == Some(db)
        {
          if journal[j].hash in db.tracked {
            AdoptFailurePersists(journal, j + 1, |journal|, old(db));
            return false;
          }
          db := Track(db, journal[j].hash);
        }
        return true;
      }
      for j := 0 to |journal|
        invariant Entries(journal, j, old(db)) == Some(db)
      {
        var done := ApplyEntry(journal[j]);
        if !done {
          FailurePersists(journal, j + 1, |journal|, old(db));
          return false;
        }
      }
      return true;
    }
  }

  lemma {:induction false} ErrorPersists(m: Migration, k: nat, n: nat, schema: Schema)
    requires k <= n <= |m.stmts| && !ExecFirst(m, k, schema).Ok?
    ensures ExecFirst(m, n, schema) == ExecFirst(m, k, schema)
  {
    if k < n {
      ErrorPersists(m, k, n - 1, schema);
    }
  }

  lemma {:induction false} FailurePersists(journal: seq<Migration>, j: nat, n: nat, db: Database)
    requires j <= n <= |journal| && Entries(journal, j, db).None?
    ensures Entries(journal, n, db).None?
  {
    if j < n {
      FailurePersists(journal, j, n - 1, db);
    }
  }

  lemma {:induction false} AdoptFailurePersists(journal: seq<Migration>, j: nat, n: nat, db: Database)
    requires j <= n <= |journal| && Adopted(journal, j, db).None?
    ensures Adopted(journal, n, db).None?
  {
    if j < n {
      AdoptFailurePersists(journal, j, n - 1, db);
    }
  }

  // ---- Small steps, so that a crash can fall anywhere ----

  datatype Phase =
    | Starting
    | AtEntry(i: nat)
    | InTransaction(i: nat, k: nat, work: Schema)
    | Reconciling(i: nat)
    | Adopting(i: nat)
    | Finished
    | Aborted

  datatype Machine = Machine(db: Database, phase: Phase)

  function Step(journal: seq<Migration>, m: Machine): Machine
  {
    match m.phase
    case Starting => m.(phase := if AdoptFires(m.db) then Adopting(0) else AtEntry(0))
    case AtEntry(i) =>
      if i >= |journal| then m.(phase := Finished)
      else if journal[i].hash in m.db.tracked then m.(phase := AtEntry(i + 1))
      else m.(phase := InTransaction(i, 0, m.db.schema))
    case InTransaction(i, k, work) =>
      if i >= |journal| then m
      else if k < |journal[i].stmts| then
        match journal[i].stmts[k](work)
        case Ok(w) => m.(phase := InTransaction(i, k + 1, w))
        case DuplicateObject => m.(phase := Reconciling(i))
        case OtherError => m.(phase := Aborted)
      else Machine(Database(m.db.tracked + {journal[i].hash}, work), AtEntry(i + 1))
    case Reconciling(i) =>
      if i >= |journal| then m else Machine(Track(m.db, journal[i].hash), AtEntry(i + 1))
    case Adopting(i) =>
      if i >= |journal| then m.(phase := Finished)
      else if journal[i].hash in m.db.tracked then m.(phase := Aborted)
      else Machine(Track(m.db, journal[i].hash), Adopting(i + 1))
    case Finished => m
    case Aborted => m
  }

  datatype Event = Go | Restart   // Restart: crash, failed exit, or simply the next deployment

  function Run(journal: seq<Migration>, m: Machine, evs: seq<Event>): Machine
    decreases |evs|
  {
    if evs == [] then m
    else Run(journal, if evs[0].Go? then Step(journal, m) else m.(phase := Starting), evs[1..])
  }

  // ---- Left alone, the small steps are the runner ----

  function Steps(journal: seq<Migration>, m: Machine, n: nat): Machine
    decreases n
  {
    if n == 0 then m else Steps(journal, Step(journal, m), n - 1)
  }

  lemma {:induction false} StepsConcat(journal: seq<Migration>, m: Machine, a: nat, b: nat)
    ensures Steps(journal, m, a + b) == Steps(journal, Steps(journal, m, a), b)
    decreases a
  {
    if a > 0 {
      StepsConcat(journal, Step(journal, m), a - 1, b);
    }
  }

  lemma {:induction false} StepsAreRun(journal: seq<Migration>, m: Machine, n: nat)
    ensures Run(journal, m, seq(n, _ => Go)) == Steps(journal, m, n)
    decreases n
  {
    if n > 0 {
      var evs := seq(n, _ => Go);
      assert evs[1..] == seq(n - 1, _ => Go);
      StepsAreRun(journal, Step(journal, m), n - 1);
    }
  }

  /** Where one entry ends. */
  function AfterEntry(journal: seq<Migration>, i: nat, db: Database): Machine
    requires i < |journal|
  {
    match Entry(db, journal[i])
    case Some(d) => Machine(d, AtEntry(i + 1))
    case None => Machine(db, Aborted)
  }

  lemma {:induction false} StatementsRun(journal: seq<Migration>, i: nat, db: Database, k: nat, work: Schema)
    returns (n: nat)
    requires i < |journal| && journal[i].hash !in db.tracked && k <= |journal[i].stmts|
    requires ExecFirst(journal[i], k, db.schema) == Ok(work)
    ensures Steps(journal, Machine(db, InTransaction(i, k, work)), n) == AfterEntry(journal, i, db)
    decreases |journal[i].stmts| - k
  {
    var m := Machine(db, InTransaction(i, k, work));
    if k == |journal[i].stmts| {
      n := 1;
      assert Steps(journal, Step(journal, m), 0) == Step(journal, m);
    } else {
      var r := journal[i].stmts[k](work);
      assert ExecFirst(journal[i], k + 1, db.schema) == r;
      if r.Ok? {
        var rest := StatementsRun(journal, i, db, k + 1, r.schema);
        n := rest + 1;
      } else {
        ErrorPersists(journal[i], k + 1, |journal[i].stmts|, db.schema);
        n := if r.DuplicateObject? then 2 else 1;
        TwoSteps(journal, m);
      }
    }
  }

  lemma TwoSteps(journal: seq<Migration>, m: Machine)
    ensures Steps(journal, m, 1) == Step(journal, m)
    ensures Steps(journal, m, 2) == Step(journal, Step(journal, m))
  {
    assert Steps(journal, Step(journal, m), 1) == Steps(journal, Step(journal, Step(journal, m)), 0);
  }

  lemma EntryRuns(journal: seq<Migration>, i: nat, db: Database) returns (n: nat)
    requires i < |journal|
    ensures Steps(journal, Machine(db, AtEntry(i)), n) == AfterEntry(journal, i, db)
  {
    if journal[i].hash in db.tracked {
      n := 1;
      TwoSteps(journal, Machine(db, AtEntry(i)));
    } else {
      var rest := StatementsRun(journal, i, db, 0, db.schema);
      n := rest + 1;
    }
  }

  /** What the machine comes to: the uninterrupted run's database, or that of the entries before the failing one. */
  ghost predicate ComesTo(journal: seq<Migration>, db0: Database, m: Machine)
  {
    if Uninterrupted(journal, db0).Some? then m == Machine(Uninterrupted(journal, db0).value, Finished)
    else m.phase == Aborted && StopsAt(journal, db0, m.db)
  }

  lemma {:induction false} EntriesRun(journal: seq<Migration>, db0: Database, i: nat, db: Database) returns (n: nat)
    requires !AdoptFires(db0) && i <= |journal| && Entries(journal, i, db0) == Some(db)
    ensures ComesTo(journal, db0, Steps(journal, Machine(db, AtEntry(i)), n))
    decreases |journal| - i
  {
    if i == |journal| {
      n := 1;
      TwoSteps(journal, Machine(db, AtEntry(i)));
    } else {
      var first := EntryRuns(journal, i, db);
      if Entry(db, journal[i]).Some? {
        assert Entries(journal, i + 1, db0) == Entry(db, journal[i]);
        var rest := EntriesRun(journal, db0, i + 1, Entry(db, journal[i]).value);
        n := first + rest;
        StepsConcat(journal, Machine(db, AtEntry(i)), first, rest);
      } else {
        n := first;
        assert Entries(journal, i + 1, db0).None?;
        FailurePersists(journal, i + 1, |journal|, db0);
      }
    }
  }

  lemma {:induction false} AdoptionRuns(journal: seq<Migration>, db0: Database, i: nat, db: Database) returns (n: nat)
    requires AdoptFires(db0) && i <= |journal| && Adopted(journal, i, db0) == Some(db)
    ensures ComesTo(journal, db0, Steps(journal, Machine(db, Adopting(i)), n))
    decreases |journal| - i
  {
    TwoSteps(journal, Machine(db, Adopting(i)));
    if i == |journal| {
      n := 1;
    } else if journal[i].hash in db.tracked {
      n := 1;
      assert Adopted(journal, i + 1, db0).None?;
      AdoptFailurePersists(journal, i + 1, |journal|, db0);
    } else {
      var next := Track(db, journal[i].hash);
      assert Adopted(journal, i + 1, db0) == Some(next);
      var rest := AdoptionRuns(journal, db0, i + 1, next);
      n := rest + 1;
    }
  }

  /** Left alone, the machine ends, and as the runner does: finished, or aborted at the first failing entry. */
  lemma UndisturbedRunEnds(journal: seq<Migration>, db0: Database) returns (n: nat)
    ensures ComesTo(journal, db0, Run(journal, Machine(db0, Starting), seq(n, _ => Go)))
  {
    var rest;
    if AdoptFires(db0) {
      rest := AdoptionRuns(journal, db0, 0, db0);
    } else {
      rest := EntriesRun(journal, db0, 0, db0);
    }
    n := rest + 1;
    StepsAreRun(journal, Machine(db0, Starting), n);
  }

  // ---- Crash-restart equivalence ----

  /** The committed database is the uninterrupted run's after `j` entries, and the phase fits. */
  ghost predicate OnCourse(journal: seq<Migration>, db0: Database, m: Machine, j: nat)
  {
    && j <= |journal| && Entries(journal, j, db0) == Some(m.db)
    && match m.phase
       case Starting => true
       case AtEntry(i) => i <= j
       case InTransaction(i, k, work) =>
         && i == j < |journal| && journal[i].hash !in m.db.tracked && k <= |journal[i].stmts|
         && ExecFirst(journal[i], k, m.db.schema) == Ok(work)
       case Reconciling(i) =>
         && i == j < |journal| && journal[i].hash !in m.db.tracked
         && ExecFirst(journal[i], |journal[i].stmts|, m.db.schema) == DuplicateObject
       case Adopting(_) => false
       case Finished => j == |journal|
       case Aborted => true
  }

  lemma {:induction false} PassedEntriesAreTracked(journal: seq<Migration>, j: nat, db0: Database, i: nat)
    requires i < j <= |journal| && Entries(journal, j, db0).Some?
    ensures journal[i].hash in Entries(journal, j, db0).value.tracked
  {
    if i < j - 1 {
      PassedEntriesAreTracked(journal, j - 1, db0, i);
    }
  }

  /** As long as nothing is tracked nothing has changed, so the adopt path cannot come to fire. */
  lemma AdoptStaysOff(journal: seq<Migration>, j: nat, db0: Database)
    requires j <= |journal| && !AdoptFires(db0) && Entries(journal, j, db0).Some?
    ensures !AdoptFires(Entries(journal, j, db0).value)
    ensures Entries(journal, j, db0).value.tracked == {} ==> Entries(journal, j, db0).value == db0
  {
  }

  lemma StepStaysOnCourse(journal: seq<Migration>, db0: Database, m: Machine, j: nat) returns (j': nat)
    requires !AdoptFires(db0) && OnCourse(journal, db0, m, j)
    ensures OnCourse(journal, db0, Step(journal, m), j')
  {
    AdoptStaysOff(journal, j, db0);
    j' := j;
    match m.phase {
      case AtEntry(i) =>
        if i < j {
          PassedEntriesAreTracked(journal, j, db0, i);
        } else if i < |journal| && journal[i].hash in m.db.tracked {
          j' := j + 1;
        }
      case InTransaction(i, k, work) =>
        if k < |journal[i].stmts| {
          assert ExecFirst(journal[i], k + 1, m.db.schema) == journal[i].stmts[k](work);
          if journal[i].stmts[k](work).DuplicateObject? {
            ErrorPersists(journal[i], k + 1, |journal[i].stmts|, m.db.schema);
          }
        } else {
          j' := j + 1;
        }
      case Reconciling(i) => j' := j + 1;
      case _ =>
    }
  }

  lemma {:induction false} RunStaysOnCourse(journal: seq<Migration>, db0: Database, m: Machine, j: nat, evs: seq<Event>)
    returns (j': nat)
    requires !AdoptFires(db0) && OnCourse(journal, db0, m, j)
    ensures OnCourse(journal, db0, Run(journal, m, evs), j')
    decreases |evs|
  {
    if evs == [] {
      j' := j;
    } else if evs[0].Go? {
      var n := StepStaysOnCourse(journal, db0, m, j);
      j' := RunStaysOnCourse(journal, db0, Step(journal, m), n, evs[1..]);
    } else {
      j' := RunStaysOnCourse(journal, db0, m.(phase := Starting), j, evs[1..]);
    }
  }

  /**
    Crash-restart equivalence: unless nothing is tracked and there is a users table at first, every placement
    of crashes leads, at the first run that finishes and at every later one, to the database of one
    uninterrupted run, and the adopt path never fires along the way.
   */
  lemma CrashesDoNotMatter(journal: seq<Migration>, db0: Database, evs: seq<Event>)
    requires db0.tracked != {} || "users" !in db0.schema
    ensures var m := Run(journal, Machine(db0, Starting), evs);
            && !m.phase.Adopting?
            && (m.phase.Finished? ==> Uninterrupted(journal, db0) == Some(m.db))
  {
    var j := RunStaysOnCourse(journal, db0, Machine(db0, Starting), 0, evs);
  }

  lemma {:induction false} RunConcat(journal: seq<Migration>, m: Machine, a: seq<Event>, b: seq<Event>)
    ensures Run(journal, m, a + b) == Run(journal, Run(journal, m, a), b)
    decreases |a|
  {
    if a == [] {
      assert a + b == b;
    } else {
      assert (a + b)[1..] == a[1..] + b;
      RunConcat(journal, if a[0].Go? then Step(journal, m) else m.(phase := Starting), a[1..], b);
    }
  }

  lemma {:induction false} TrackedEntriesPass(journal: seq<Migration>, j: nat, k: nat, db0: Database, db: Database)
    requires j <= k <= |journal| && Entries(journal, j, db0) == Some(db)
    requires forall i :: j <= i < k ==> journal[i].hash in db.tracked
    ensures Entries(journal, k, db0) == Some(db)
  {
    if j < k {
      TrackedEntriesPass(journal, j, k - 1, db0, db);
    }
  }

  /** A run over what earlier runs committed fails only where the uninterrupted one fails. */
  lemma ResumedRunFails(journal: seq<Migration>, db0: Database, mid: Database, end: Database, j: nat)
    requires !AdoptFires(mid) && j <= |journal| && Entries(journal, j, db0) == Some(end) && StopsAt(journal, mid, end)
    ensures Entries(journal, |journal|, db0).None?
  {
    var k :| 0 <= k < |journal| && Entries(journal, k, mid) == Some(end) && Entries(journal, k + 1, mid).None?;
    assert Entry(end, journal[k]).None?;
    if k < j {
      PassedEntriesAreTracked(journal, j, db0, k);
    }
    forall i | 0 <= i < k ensures journal[i].hash in end.tracked {
      PassedEntriesAreTracked(journal, k, mid, i);
    }
    TrackedEntriesPass(journal, j, k, db0, end);
    assert Entries(journal, k + 1, db0).None?;
    FailurePersists(journal, k + 1, |journal|, db0);
  }

  /**
    Crashes only delay: if the uninterrupted run succeeds, then after any run with any crashes the next
    start that is left alone finishes with that same database.
   */
  lemma CrashesOnlyDelay(journal: seq<Migration>, db0: Database, evs: seq<Event>) returns (n: nat)
    requires (db0.tracked != {} || "users" !in db0.schema) && Uninterrupted(journal, db0).Some?
    ensures Run(journal, Machine(db0, Starting), evs + ([Restart] + seq(n, _ => Go))) ==
            Machine(Uninterrupted(journal, db0).value, Finished)
  {
    hide Step;
    var m := Run(journal, Machine(db0, Starting), evs);
    var j := RunStaysOnCourse(journal, db0, Machine(db0, Starting), 0, evs);
    AdoptStaysOff(journal, j, db0);
    n := UndisturbedRunEnds(journal, m.db);
    var last := [Restart] + seq(n, _ => Go);
    assert last[1..] == seq(n, _ => Go);
    RunConcat(journal, Machine(db0, Starting), evs, last);
    var end := Run(journal, Machine(m.db, Starting), seq(n, _ => Go));
    CrashesDoNotMatter(journal, db0, evs + last);
    if end.phase == Aborted {
      var k := RunStaysOnCourse(journal, db0, Machine(db0, Starting), 0, evs + last);
      ResumedRunFails(journal, db0, m.db, end.db, k);
    }
  }

  // ---- One more run changes nothing ----

  ghost predicate Settled(journal: seq<Migration>, m: Machine)
  {
    && !AdoptFires(m.db) && !m.phase.Adopting? && !m.phase.InTransaction? && !m.phase.Reconciling?
    && forall i :: 0 <= i < |journal| ==> journal[i].hash in m.db.tracked
  }

  lemma {:induction false} SettledStays(journal: seq<Migration>, m: Machine, evs: seq<Event>)
    requires Settled(journal, m)
    ensures Run(journal, m, evs).db == m.db && Settled(journal, Run(journal, m, evs))
    decreases |evs|
  {
    if evs != [] {
      SettledStays(journal, if evs[0].Go? then Step(journal, m) else m.(phase := Starting), evs[1..]);
    }
  }

  lemma RerunChangesNothing(journal: seq<Migration>, db0: Database, evs: seq<Event>, more: seq<Event>)
    requires !AdoptFires(db0) && Run(journal, Machine(db0, Starting), evs).phase.Finished?
    ensures var m := Run(journal, Machine(db0, Starting), evs); Run(journal, m, more).db == m.db
  {
    var m := Run(journal, Machine(db0, Starting), evs);
    var j := RunStaysOnCourse(journal, db0, Machine(db0, Starting), 0, evs);
    AdoptStaysOff(journal, j, db0);
    forall i | 0 <= i < |journal| ensures journal[i].hash in m.db.tracked {
      PassedEntriesAreTracked(journal, j, db0, i);
    }
    SettledStays(journal, m, more);
  }

  // ---- The condition is exact ----

  lemma RunUnfolds(journal: seq<Migration>, m: Machine, evs: seq<Event>)
    requires evs != []
    ensures Run(journal, m, evs) ==
        Run(journal, if evs[0].Go? then Step(journal, m) else m.(phase := Starting), evs[1..])
  {
  }

  /**
    Whenever the adopt path does fire, it is not crash-safe: for some journal, one crash between two
    of its inserts makes the next run execute a migration's SQL on the adopted schema.
   */
  lemma AdoptPathIsNotCrashSafe(db0: Database) returns (journal: seq<Migration>, evs: seq<Event>)
    requires db0.tracked == {} && "users" in db0.schema
    ensures var m := Run(journal, Machine(db0, Starting), evs);
            && m.phase.Finished? && m.db.schema != db0.schema
            && Uninterrupted(journal, db0).Some? && Uninterrupted(journal, db0).value.schema == db0.schema
  {
    var wipe: Schema -> ExecResult := s => Ok(map[]);
    var first, second := Migration("a", []), Migration("b", [wipe]);
    journal := [first, second];
    var g := Go;
    evs := [g, g, Restart, g, g, g, g, g, g];
    var m0 := Machine(db0, Starting);
    var adopted := Database({"a"}, db0.schema);
    var m2 := Machine(adopted, Adopting(1));
    assert Step(journal, Step(journal, m0)) == m2;
    var m4 := Machine(adopted, AtEntry(0));
    assert Step(journal, m2.(phase := Starting)) == m4;
    assert Step(journal, m4) == Machine(adopted, AtEntry(1));
    assert Step(journal, Machine(adopted, AtEntry(1))) == Machine(adopted, InTransaction(1, 0, db0.schema));
    assert Step(journal, Machine(adopted, InTransaction(1, 0, db0.schema))) ==
        Machine(adopted, InTransaction(1, 1, map[]));
    var wiped := Database({"a"} + {"b"}, map[]);
    assert Step(journal, Machine(adopted, InTransaction(1, 1, map[]))) == Machine(wiped, AtEntry(2));
    assert Step(journal, Machine(wiped, AtEntry(2))) == Machine(wiped, Finished);
    Nine(journal, m0, evs);
    assert Adopted(journal, 0, db0) == Some(db0) && Adopted(journal, 1, db0) == Some(adopted);
  }

  /** Unfolds a run of nine events. */
  lemma Nine(journal: seq<Migration>, m: Machine, evs: seq<Event>)
    requires evs == [Go, Go, Restart, Go, Go, Go, Go, Go, Go]
    ensures Run(journal, m, evs) ==
            var a := Step(journal, Step(journal, m)).(phase := Starting);
            var b := Step(journal, Step(journal, Step(journal, a)));
            Step(journal, Step(journal, Step(journal, b)))
  {
    var a := Step(journal, Step(journal, m)).(phase := Starting);
    var b := Step(journal, Step(journal, Step(journal, a)));
    RunUnfolds(journal, m, evs);
    RunUnfolds(journal, Step(journal, m), evs[1..]);
    RunUnfolds(journal, Step(journal, Step(journal, m)), evs[2..]);
    Three(journal, a, evs[3..]);
    Three(journal, b, evs[6..]);
    assert evs[6..][3..] == [];
  }

  lemma Three(journal: seq<Migration>, m: Machine, evs: seq<Event>)
    requires |evs| >= 3 && evs[0].Go? && evs[1].Go? && evs[2].Go?
    ensures Run(journal, m, evs) == Run(journal, Step(journal, Step(journal, Step(journal, m))), evs[3..])
  {
    RunUnfolds(journal, m, evs);
    RunUnfolds(journal, Step(journal, m), evs[1..]);
    RunUnfolds(journal, Step(journal, Step(journal, m)), evs[2..]);
  }
}
