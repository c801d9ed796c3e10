/**
 * A keeper's pass over its database, with a crash or an error allowed at every
 * action.
 *
 * The keeper keeps a small record on disk: which database its data directory
 * belongs to, the generation it has finished, and whether an initialization is
 * under way.  `budget` is the number of actions that will still complete; the
 * action after that stops the pass half-way.  Proving a property for every
 * budget proves it for a stop at every point.
 */
module Keepers {
  import opened Cluster
  import opened Options

  datatype LocalState = LocalState(uid: string, generation: nat, initializing: bool)

  const NO_STATE := LocalState(NO_UID, NO_GENERATION, false)

  /** The data directory: empty, half-written, or a finished initialization for some database. */
  datatype DataDir = Empty | Partial | Complete(owner: string)

  /** What the pass works from: a database of the document, at some generation. */
  datatype Assignment = Assignment(uid: string, generation: nat, spec: DbSpec)

  datatype PassResult = Stopped | Finished

  /** One pass to come: its assignment, how far it gets, and how a resync and a reload would go. */
  datatype Tick = Tick(db: Assignment, budget: nat, tryRewind: bool, rewound: bool, aligned: bool, reloads: bool)

  /** No pass takes more actions than this. */
  const PASS_ACTIONS: nat := 12

  /** An operation that takes at most `cost` actions succeeds when so many are left, and leaves the others. */
  predicate Lasts(before: nat, cost: nat, ok: bool, after: nat) { before >= cost ==> ok && after >= before - cost }

  /** The recorded generation is one that a pass has finished. */
  ghost predicate Backed(record: LocalState, finished: set<Assignment>) {
    record.generation > NO_GENERATION ==> exists a :: a in finished && a.uid == record.uid && a.generation == record.generation
  }

  class PostgresKeeper {
    var disk: LocalState        // the record file
    var data: DataDir
    var primary: bool           // the instance is out of recovery
    var mem: LocalState         // the record in memory
    var budget: nat
    var loaded: Option<Assignment>   // the assignment whose parameters were last loaded
    ghost var adopted: bool     // the current UID was assigned by initialization from existing data
    ghost var finished: set<Assignment>   // the assignments some pass has finished

    /**
     * A record file that says it is not initializing is true to its word: unless
     * the data was adopted as it was, the data directory is a finished
     * initialization for the recorded UID.  A generation is recorded only then,
     * and only when a pass has finished for it.
     */
    ghost predicate Truthful()
      reads this
    {
      && (disk.uid != NO_UID && !disk.initializing && !adopted ==> data == Complete(disk.uid))
      && (disk.generation > NO_GENERATION ==> disk.uid != NO_UID && !disk.initializing)
      && Backed(disk, finished)
    }

    ghost predicate Valid()
      reads this
    {
      mem == disk && Truthful()
    }

    constructor ()
      ensures Valid() && disk == NO_STATE && finished == {}
    {
      disk, mem, data, primary, budget, loaded, adopted, finished := NO_STATE, NO_STATE, Empty, false, 0, None, false, {};
    }

    /** After a crash the process starts again from the record file. */
    method Restart(budget: nat)
      requires Truthful()
      modifies this`mem, this`budget
      ensures Valid() && this.budget == budget
    {
      mem := disk;
      this.budget := budget;
    }

    /** Whether the next action completes. */
    method Completes() returns (ok: bool)
      modifies this`budget
      ensures ok <==> old(budget) > 0
      ensures budget == if ok then old(budget) - 1 else 0
    {
      ok := budget > 0;
      if ok {
        budget := budget - 1;
      }
    }

    /** The record file is replaced atomically, and only then the record in memory. */
    method SaveDbLocalState(next: LocalState) returns (ok: bool)
      modifies this`disk, this`mem, this`budget
      ensures ok ==> disk == mem == next
      ensures !ok ==> disk == old(disk) && mem == old(mem)
      ensures Lasts(old(budget), 1, ok, budget)
    {
      ok := Completes();
      if ok {
        disk := next;
        mem := next;
      }
    }

    /** Stopped half-way, the removal leaves part of the directory. */
    method RemoveAll() returns (ok: bool)
      modifies this`data, this`primary, this`budget
      ensures data == if ok then Empty else Partial
      ensures Lasts(old(budget), 1, ok, budget)
    {
      data := Partial;
      ok := Completes();
      if ok {
        data := Empty;
        primary := false;
      }
    }

    /** initdb with its roles, or a restore with its recovery. */
    method Populate(uid: string, asPrimary: bool) returns (ok: bool)
      modifies this`data, this`primary, this`budget
      ensures data == if ok then Complete(uid) else Partial
      ensures ok ==> primary == asPrimary
      ensures Lasts(old(budget), 1, ok, budget)
    {
      data := Partial;
      ok := Completes();
      if ok {
        data := Complete(uid);
        primary := asPrimary;
      }
    }

    /** pg_basebackup over an emptied directory. */
    method BaseBackup(uid: string) returns (ok: bool)
      modifies this`data, this`primary, this`budget
      ensures data == if ok then Complete(uid) else Partial
      ensures ok ==> !primary
      ensures Lasts(old(budget), 2, ok, budget)
    {
      ok := RemoveAll();
      if !ok {
        return;
      }
      ok := Populate(uid, false);
    }

    /** A rewound directory counts only when the instance came up on the right branch; otherwise a base backup replaces it. */
    method Resync(uid: string, tryRewind: bool, rewound: bool, aligned: bool) returns (ok: bool)
      modifies this`data, this`primary, this`budget
      ensures ok ==> data == Complete(uid) && !primary
      ensures Lasts(old(budget), 4, ok, budget)
    {
      if tryRewind && rewound {
        data := Partial;
        ok := Completes();
        if !ok {
          return;
        }
        primary := false;
        ok := Completes();
        if !ok {
          return;
        }
        if aligned {
          data := Complete(uid);
          return;
        }
      }
      ok := BaseBackup(uid);
    }

    /** Data left by an initialization that did not finish is removed, and the record reset. */
    method CleanUp() returns (ok: bool)
      requires Valid() && mem.initializing
      modifies this`disk, this`mem, this`data, this`primary, this`budget, this`adopted
      ensures Valid()
      ensures ok ==> disk == NO_STATE && data == Empty
      ensures !ok ==> disk == old(disk)
      ensures Lasts(old(budget), 2, ok, budget)
    {
      ok := RemoveAll();
      if !ok {
        return;
      }
      adopted := false;
      ok := SaveDbLocalState(NO_STATE);
    }

    /** Takes over the assigned database: the record says so before the directory is touched. */
    method Initialize(db: Assignment, tryRewind: bool, rewound: bool, aligned: bool) returns (ok: bool)
      requires Valid() && !mem.initializing && mem.uid != db.uid && db.uid != NO_UID
      modifies this`disk, this`mem, this`data, this`primary, this`budget, this`adopted
      ensures Valid()
      ensures disk == old(disk) || (disk.uid == db.uid && disk.generation == NO_GENERATION)
      ensures ok ==> disk.uid == db.uid && (db.spec.initMode != InitExisting ==> disk.initializing && data == Complete(db.uid) && !adopted)
      ensures ok && db.spec.initMode == InitExisting ==> adopted && !disk.initializing
      ensures db.spec.initMode == InitNone ==> !ok
      ensures db.spec.initMode != InitNone ==> Lasts(old(budget), 5, ok, budget)
      ensures ok && db.spec.initMode == InitExisting ==> data == old(data) && primary == old(primary)
      ensures ok && db.spec.initMode != InitExisting ==> primary == (db.spec.initMode != InitResync && db.spec.role == Master)
    {
      if db.spec.initMode == InitNone {
        return false;
      }
      if db.spec.initMode == InitExisting {
        ok := SaveDbLocalState(LocalState(db.uid, NO_GENERATION, false));
        if ok {
          adopted := true;
          ok := Completes();
        }
        return;
      }
      var next := LocalState(db.uid, NO_GENERATION, true);
      ok := SaveDbLocalState(next);
      if !ok {
        return;
      }
      adopted := false;
      if db.spec.initMode == InitResync {
        ok := Resync(db.uid, tryRewind, rewound, aligned);
      } else {
        ok := RemoveAll();
        if !ok {
          return;
        }
        ok := Populate(db.uid, db.spec.role == Master);
        if ok && db.spec.includeConfig {
          ok := SaveDbLocalState(next);
        }
      }
    }

    /** There is an instance, and it is not a primary that should be a standby. */
    predicate Playable(db: Assignment)
      reads this`data, this`primary
    {
      data != Empty && (db.spec.role == Standby ==> !primary)
    }

    /**
     * The assignment can be carried out from here: if a database has to be set up
     * first, the spec says how; data taken over as it is, or already there, must
     * be playable.
     */
    predicate Attainable(db: Assignment)
      reads this
    {
      if mem.initializing || mem.uid != db.uid then
        && db.spec.initMode != InitNone
        && (db.spec.initMode == InitExisting ==> !mem.initializing && Playable(db))
      else Playable(db)
    }

    /** Starts the instance and brings it to the wanted role; a primary is never turned into a standby. */
    method ApplyRole(db: Assignment) returns (ok: bool)
      modifies this`primary, this`budget
      ensures ok ==> primary == (db.spec.role == Master) && data != Empty
      ensures primary == old(primary) || (db.spec.role == Master && primary)
      ensures Playable(db) ==> Lasts(old(budget), 2, ok, budget)
      ensures ok ==> old(Playable(db))
    {
      if data == Empty {
        return false;
      }
      ok := Completes();
      if !ok {
        return;
      }
      match db.spec.role
      case Master =>
        if !primary {
          ok := Completes();
          if !ok {
            return;
          }
          primary := true;
        }
      case Standby =>
        ok := !primary;
    }

    /** Hands the parameters to PostgreSQL.  A reload that fails is only logged; nothing but a crash stops the pass here. */
    method Reload(db: Assignment, reloads: bool) returns (ok: bool)
      modifies this`loaded, this`budget
      ensures loaded == if ok && reloads then Some(db) else old(loaded)
      ensures Lasts(old(budget), 1, ok, budget)
    {
      ok := Completes();
      if ok && reloads {
        loaded := Some(db);
      }
    }

    /**
     * One pass.  It finishes only if every action but the reload did, and only
     * then is the generation of the assignment recorded; wherever it stops
     * before, the record holds the old generation or none.  A finished pass whose
     * reload failed leaves the parameters as they were.  With nothing to stop it,
     * a pass finishes exactly when its assignment is attainable; a standby that is
     * to be master has then been promoted.
     */
    method Pass(db: Assignment, tryRewind: bool, rewound: bool, aligned: bool, reloads: bool) returns (r: PassResult)
      requires Valid() && db.uid != NO_UID
      modifies this
      ensures Valid()
      ensures r == Finished ==> disk == LocalState(db.uid, db.generation, false) && primary == (db.spec.role == Master)
      ensures r == Finished ==> loaded == if reloads then Some(db) else old(loaded)
      ensures r == Finished && !adopted ==> data == Complete(db.uid)
      ensures r == Stopped ==> disk.generation == NO_GENERATION || disk == old(disk)
      ensures finished == old(finished) + if r == Finished then {db} else {}
      ensures r == Finished ==> old(Attainable(db))
      ensures old(Attainable(db)) && old(budget) >= PASS_ACTIONS ==> r == Finished
    {
      if mem.initializing {
        var ok := CleanUp();
        if !ok {
          return Stopped;
        }
      }
      if mem.uid != db.uid {
        var ok := Initialize(db, tryRewind, rewound, aligned);
        if !ok {
          return Stopped;
        }
      }
      var ok := ApplyRole(db);
      if !ok {
        return Stopped;
      }
      ok := Completes();                                   // replication slots, in-sync standbys, pg_hba
      if !ok {
        return Stopped;
      }
      ok := Reload(db, reloads);
      if !ok {
        return Stopped;
      }
      ok := SaveDbLocalState(mem.(generation := db.generation, initializing := false));
      if !ok {
        return Stopped;
      }
      finished := finished + {db};
      return Finished;
    }

    /**
     * Any number of passes for any assignments, each cut short anywhere, with a
     * restart of the process after each: the record stays true to its word, and a
     * recorded generation means that one of the passes finished for it.
     */
    method Run(ticks: seq<Tick>)
      requires Valid() && forall i :: 0 <= i < |ticks| ==> ticks[i].db.uid != NO_UID
      modifies this
      ensures Valid()
      ensures old(finished) <= finished <= old(finished) + set t | t in ticks :: t.db
      ensures disk.generation > NO_GENERATION && old(finished) == {} ==>
                exists t :: t in ticks && t.db.uid == disk.uid && t.db.generation == disk.generation
    {
      for i := 0 to |ticks|
        invariant Valid()
        invariant old(finished) <= finished <= old(finished) + set t | t in ticks :: t.db
      {
        Restart(ticks[i].budget);
        var r := Pass(ticks[i].db, ticks[i].tryRewind, ticks[i].rewound, ticks[i].aligned, ticks[i].reloads);
        assert ticks[i] in ticks;
      }
    }
  }
}
