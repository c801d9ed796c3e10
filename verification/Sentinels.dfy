/**
 * The sentinel's reconciliation pass, in the order the code runs it.
 *
 * Module-level methods rewrite a copy of the document stage by stage; the class
 * holds what a sentinel remembers between passes.  Each method is proved
 * against its stage in `Reconcile`.
 */
module Sentinels {
  import opened Cluster
  import opened Notes
  import opened Options
  import opened Readings
  import opened Reconcile
  import opened Selection
  import Fencing
  import Health
  import Invariant
  import Leadership
  import Runs
  import Slots
  import Strings
  import SyncStandbys
  import Tenures
  import Wal

  datatype Result<T> = Ok(value: T) | Err

  method FindDb(cd: ClusterData, keeper: string) returns (db: Option<Db>)
    ensures db.Some? ==> db.value in cd.dbs.Values && db.value.spec.keeper == keeper
    ensures db.None? <==> !Assigned(cd, keeper)
  {
    var todo := cd.dbs.Keys;
    while todo != {}
      invariant todo <= cd.dbs.Keys
      invariant forall d :: d in cd.dbs && d !in todo ==> cd.dbs[d].spec.keeper != keeper
    {
      var d :| d in todo;
      if cd.dbs[d].spec.keeper == keeper {
        return Some(cd.dbs[d]);
      }
      todo := todo - {d};
    }
    return None;
  }

  method RemoveDeadKeepers(cd: ClusterData, now: int) returns (keepers: map<string, Keeper>)
    ensures keepers == LiveKeepers(cd, now)
  {
    var toRemove: set<string> := {};
    var todo := cd.keepers.Keys;
    while todo != {}
      invariant todo <= cd.keepers.Keys
      invariant toRemove <= cd.keepers.Keys
      invariant forall k :: k in cd.keepers && k !in todo ==> (k in toRemove <==> k !in LiveKeepers(cd, now))
      invariant toRemove !! todo
    {
      var k :| k in todo;
      todo := todo - {k};
      var db := FindDb(cd, k);
      if db.None? && now > cd.keepers[k].lastHealthy + cd.spec.deadKeeperRemoval {
        toRemove := toRemove + {k};
      }
    }
    keepers := cd.keepers - toRemove;
  }

  // ----------------------------------------------------------- keep: clean-up

  method DbCanSync(cd: ClusterData, env: Env, d: string) returns (r: Result<bool>)
    requires cd.Consistent() && d in cd.dbs
    ensures (r == Ok(false)) <==> CannotSync(cd, env, d)
  {
    var db := cd.dbs[d];
    if cd.master !in cd.dbs {
      return Ok(true);
    }
    var m := cd.dbs[cd.master];
    if m.status.olderWal == "" || d == m.uid || TypeOf(db) != ReplicaLine || db.generation == INITIAL_GENERATION
       || !db.status.healthy || db.status.xlog == m.status.xlog || d !in env.stalled {
      return Ok(true);
    }
    var available := Wal.IsRequiredWalAvailable(db.status.xlog, m.status.olderWal, WAL_SEGMENT_SIZE);
    match available
    case BadWalFileName => return Err;
    case Ok(yes) => return Ok(yes);
  }

  method RemoveOldMasters(cd: ClusterData) returns (next: ClusterData)
    ensures next == cd.(dbs := map d | d in cd.dbs && (d == cd.master || TypeOf(cd.dbs[d]) != PrimaryLine) :: cd.dbs[d])
  {
    var toRemove: set<string> := {};
    var todo := cd.dbs.Keys;
    while todo != {}
      invariant todo <= cd.dbs.Keys
      invariant forall d :: d in toRemove <==> d in cd.dbs && d !in todo && d != cd.master && TypeOf(cd.dbs[d]) == PrimaryLine
    {
      var d :| d in todo;
      todo := todo - {d};
      if d != cd.master && TypeOf(cd.dbs[d]) == PrimaryLine {
        toRemove := toRemove + {d};
      }
    }
    next := cd.(dbs := cd.dbs - toRemove);
  }

  method RemoveInvalid(cd: ClusterData) returns (next: ClusterData)
    ensures next == cd.(dbs := map d | d in cd.dbs && (d == cd.master || ValidityOf(cd, cd.dbs[d]) != Invalid) :: cd.dbs[d])
  {
    var toRemove: set<string> := {};
    var todo := cd.dbs.Keys;
    while todo != {}
      invariant todo <= cd.dbs.Keys
      invariant forall d :: d in toRemove <==> d in cd.dbs && d !in todo && d != cd.master && ValidityOf(cd, cd.dbs[d]) == Invalid
    {
      var d :| d in todo;
      todo := todo - {d};
      if d != cd.master && ValidityOf(cd, cd.dbs[d]) == Invalid {
        toRemove := toRemove + {d};
      }
    }
    next := cd.(dbs := cd.dbs - toRemove);
  }

  method RemoveUnsyncable(before: ClusterData, cd: ClusterData, env: Env) returns (next: ClusterData)
    requires before.Consistent() && cd.dbs.Keys <= before.dbs.Keys
    ensures next == cd.(dbs := map d | d in cd.dbs && !CannotSync(before, env, d) :: cd.dbs[d])
  {
    var toRemove: set<string> := {};
    var todo := cd.dbs.Keys;
    while todo != {}
      invariant todo <= cd.dbs.Keys
      invariant forall d :: d in toRemove <==> d in cd.dbs && d !in todo && CannotSync(before, env, d)
    {
      var d :| d in todo;
      todo := todo - {d};
      var canSync := DbCanSync(before, env, d);
      if canSync == Ok(false) {
        toRemove := toRemove + {d};
      }
    }
    next := cd.(dbs := cd.dbs - toRemove);
  }

  lemma SameValidity(cd: ClusterData, next: ClusterData)
    requires next.master == cd.master && cd.master in cd.dbs && cd.master in next.dbs
    requires next.dbs.Keys <= cd.dbs.Keys && forall d :: d in next.dbs ==> next.dbs[d] == cd.dbs[d]
    ensures forall d :: d in next.dbs ==> ValidityOf(next, next.dbs[d]) == ValidityOf(cd, cd.dbs[d])
  {
  }

  method Clean(before: ClusterData, cd: ClusterData, env: Env) returns (next: ClusterData)
    requires before.Consistent() && cd.Consistent() && cd.dbs.Keys <= before.dbs.Keys && cd.master in cd.dbs
    ensures next == Cleaned(before, cd, env)
  {
    var primaries := RemoveOldMasters(cd);
    var valid := RemoveInvalid(primaries);
    SameValidity(cd, primaries);
    next := RemoveUnsyncable(before, valid, env);
    forall d
      ensures d in next.dbs <==> d in Cleaned(before, cd, env).dbs
    {
    }
    assert next.dbs == Cleaned(before, cd, env).dbs;
  }

  // ------------------------------------------------------ keep: sync standbys

  method SynchronousStandbys(cd: ClusterData, env: Env, m0: Db, good: set<string>)
    returns (m: Db, ghost inp: SyncStandbys.Inputs, ghost rec: SyncStandbys.SyncRecord)
    requires cd.Consistent() && cd.master in cd.dbs && cd.spec.Valid()
    requires good == ByStatus(cd, env, ReplicaLine, Good)
    ensures cd.spec.SyncRepl() ==> SyncInputs(cd, env, m0, good, inp)
    ensures SyncUpdated(cd, inp, rec, m)
  {
    m := cd.dbs[cd.master];
    if cd.spec.SyncRepl() {
      var best := FindBestStandbys(cd, env, m0);
      var uids := UidsOf(cd, env, m0, best);
      var barred := set d | d in cd.dbs && cd.keepers[cd.dbs[d].spec.keeper].canBeSync == Some(false);
      var inputs := SyncStandbys.Inputs(cd.dbs.Keys, good, uids, barred, cd.spec.minSync, cd.spec.maxSync);
      assert forall i :: 0 <= i < |uids| ==> uids[i] in BestStandbys(cd, env, m0);
      var record, waits := SyncStandbys.Reconcile(SyncRecordOf(m), m.status.reportedSync, inputs);
      inp, rec := inputs, record;
      m := WithSync(m, record, m.spec.syncRepl || !waits);
    } else {
      m := WithSync(m, SyncStandbys.SyncRecord({}, {}, {}), false);
      inp := SyncStandbys.Inputs({}, {}, [], {}, 0, 0);
      rec := SyncStandbys.SyncRecord({}, {}, {});
    }
  }

  /** The databases are in the order of their WAL positions. */
  ghost predicate Ascending(cd: ClusterData, uids: seq<string>) {
    forall i, j :: 0 <= i < j < |uids| && uids[i] in cd.dbs && uids[j] in cd.dbs ==> cd.dbs[uids[i]].status.xlog <= cd.dbs[uids[j]].status.xlog
  }

  method UidsOf(cd: ClusterData, env: Env, m0: Db, best: seq<Db>) returns (uids: seq<string>)
    requires cd.Consistent()
    requires Enumerates(cd, best, BestStandbys(cd, env, m0))
    requires forall i, j :: 0 <= i < j < |best| ==> best[i].status.xlog <= best[j].status.xlog
    ensures forall x :: x in uids <==> x in BestStandbys(cd, env, m0)
    ensures Ascending(cd, uids)
  {
    uids := [];
    for i := 0 to |best|
      invariant |uids| == i
      invariant forall k :: 0 <= k < i ==> uids[k] == best[k].uid
    {
      uids := uids + [best[i].uid];
    }
    UidsList(cd, env, m0, best, uids);
  }

  lemma UidsList(cd: ClusterData, env: Env, m0: Db, best: seq<Db>, uids: seq<string>)
    requires cd.Consistent() && Enumerates(cd, best, BestStandbys(cd, env, m0))
    requires forall i, j :: 0 <= i < j < |best| ==> best[i].status.xlog <= best[j].status.xlog
    requires |uids| == |best| && forall k :: 0 <= k < |best| ==> uids[k] == best[k].uid
    ensures forall x :: x in uids <==> x in BestStandbys(cd, env, m0)
    ensures Ascending(cd, uids)
  {
    EnumeratedAre(cd, best, BestStandbys(cd, env, m0));
    forall k | 0 <= k < |uids|
      ensures uids[k] in BestStandbys(cd, env, m0) && cd.dbs[uids[k]] == best[k]
    {
      assert best[k] in best;
    }
    forall x | x in BestStandbys(cd, env, m0)
      ensures x in uids
    {
      assert cd.dbs[x] in best;
      var k :| 0 <= k < |best| && best[k] == cd.dbs[x];
      assert uids[k] == x;
    }
  }

  /** Rewrites every entry, one at a time and in any order. */
  method ForEach<T>(m: map<string, T>, f: T -> T) returns (r: map<string, T>)
    ensures r == map k | k in m :: f(m[k])
  {
    r := m;
    var todo := m.Keys;
    while todo != {}
      invariant todo <= m.Keys
      invariant r.Keys == m.Keys
      invariant forall k :: k in m ==> r[k] == if k in todo then m[k] else f(m[k])
    {
      var k :| k in todo;
      todo := todo - {k};
      r := r[k := f(r[k])];
    }
  }

  // ------------------------------------------------ keep: number of standbys

  method Trim(cd: ClusterData, good: set<string>) returns (dbs: map<string, Db>)
    requires cd.master in cd.dbs && good <= cd.dbs.Keys
    requires |good| >= cd.spec.maxStandbysPerSender
    ensures Trimmed(cd, good, dbs)
  {
    var required := cd.dbs[cd.master].spec.syncStandbys;
    var failing := RemovableStandbys(cd, good, required);
    var excess := ExcessStandbys(good, required, |good| - cd.spec.maxStandbysPerSender);
    dbs := cd.dbs - (failing + excess);
    TrimmedBy(cd, good, failing, excess, dbs);
  }

  lemma TrimmedBy(cd: ClusterData, good: set<string>, failing: set<string>, excess: set<string>, dbs: map<string, Db>)
    requires cd.master in cd.dbs && dbs == cd.dbs - (failing + excess)
    requires var required := cd.dbs[cd.master].spec.syncStandbys;
             && failing == (set d | d in cd.dbs && TypeOf(cd.dbs[d]) == ReplicaLine && d !in required && d !in good)
             && excess <= good - required
             && |excess| == SyncStandbys.Min(|good| - cd.spec.maxStandbysPerSender, |good - required|)
    ensures Trimmed(cd, good, dbs)
  {
    assert dbs == map d | d in cd.dbs && d !in failing && d !in excess :: cd.dbs[d];
    assert TrimmedOf(cd, good, excess, dbs);
  }

  method RemovableStandbys(cd: ClusterData, good: set<string>, required: set<string>) returns (toRemove: set<string>)
    ensures toRemove == set d | d in cd.dbs && TypeOf(cd.dbs[d]) == ReplicaLine && d !in required && d !in good
  {
    toRemove := {};
    var todo := cd.dbs.Keys;
    while todo != {}
      invariant todo <= cd.dbs.Keys
      invariant forall d :: d in toRemove <==> d in cd.dbs && d !in todo && TypeOf(cd.dbs[d]) == ReplicaLine && d !in required && d !in good
    {
      var d :| d in todo;
      todo := todo - {d};
      if TypeOf(cd.dbs[d]) == ReplicaLine && d !in required && d !in good {
        toRemove := toRemove + {d};
      }
    }
  }

  method ExcessStandbys(good: set<string>, required: set<string>, nr: nat) returns (excess: set<string>)
    ensures excess <= good - required
    ensures |excess| == SyncStandbys.Min(nr, |good - required|)
  {
    excess := {};
    ghost var spare := good - required;
    var todo := good;
    var i := 0;
    while todo != {} && i < nr
      invariant todo <= good
      invariant i == |excess| && i <= nr
      invariant forall d :: d in excess <==> d in spare && d !in todo
    {
      var d :| d in todo;
      todo := todo - {d};
      if d !in required {
        excess := excess + {d};
        i := i + 1;
      }
    }
    SyncStandbys.FallBackSize(excess, spare, todo, nr);
  }

  method FreeKeepers(cd: ClusterData) returns (free: seq<string>)
    ensures Distinct(free)
    ensures forall k :: k in free <==> Free(cd, k)
  {
    free := [];
    var todo := cd.keepers.Keys;
    while todo != {}
      invariant todo <= cd.keepers.Keys
      invariant Distinct(free)
      invariant forall k :: k in free <==> Free(cd, k) && k !in todo
    {
      var k :| k in todo;
      if cd.keepers[k].healthy {
        var db := FindDb(cd, k);
        if db.None? {
          free := free + [k];
        }
      }
      todo := todo - {k};
    }
  }

  lemma {:induction false} DistinctWithin(s: seq<string>, all: set<string>)
    requires Distinct(s) && forall x :: x in s ==> x in all
    ensures |s| <= |all|
  {
    if s != [] {
      var rest := s[..|s| - 1];
      assert forall x :: x in rest ==> x in all - {s[|s| - 1]};
      DistinctWithin(rest, all - {s[|s| - 1]});
    }
  }

  method Extend(cd: ClusterData, uids: seq<string>, missing: int) returns (dbs: map<string, Db>)
    requires Distinct(uids) && |cd.keepers| <= |uids|
    ensures Extended(cd, uids, missing, dbs)
  {
    var free := FreeKeepers(cd);
    DistinctWithin(free, cd.keepers.Keys);
    dbs := cd.dbs;
    var i := 0;
    while i < missing && i < |free|
      invariant 0 <= i <= |free|
      invariant i > 0 ==> i <= missing
      invariant dbs == cd.dbs + NewStandbys(uids, free[..i], cd.master)
    {
      var db := NewStandby(uids[i], free[i], cd.master);
      assert free[..i + 1][..i] == free[..i];
      dbs := dbs[db.uid := db];
      i := i + 1;
    }
    FirstFree(cd, free, i, missing);
    assert |free[..i]| <= |uids|;
  }

  lemma FirstFree(cd: ClusterData, free: seq<string>, i: nat, missing: int)
    requires Distinct(free) && (forall k :: k in free <==> Free(cd, k)) && i <= |free|
    requires i < missing ==> i == |free|
    ensures Distinct(free[..i])
    ensures forall k :: k in free[..i] ==> Free(cd, k)
    ensures i < missing ==> forall k :: Free(cd, k) ==> k in free[..i]
  {
  }

  // ---------------------------------------------------------- keep: all of it

  lemma CleanedIsConsistent(before: ClusterData, cd: ClusterData, env: Env)
    requires cd.Consistent() && cd.master == before.master && cd.master in cd.dbs
    requires before.Consistent() && cd.master in before.dbs
    ensures Cleaned(before, cd, env).Consistent() && cd.master in Cleaned(before, cd, env).dbs
  {
  }

  method PrepareStandbys(before: ClusterData, cd: ClusterData, env: Env) returns (ready: ClusterData, good: set<string>, converging: set<string>)
    requires before.Consistent() && cd.Consistent()
    requires cd.master == before.master && cd.master in before.dbs && cd.master in cd.dbs && cd.dbs.Keys <= before.dbs.Keys
    ensures Prepared(before, cd, env, good, converging, ready)
    ensures ready.Consistent() && cd.master in ready.dbs
    ensures good == ByStatus(ready, env, ReplicaLine, Good)
  {
    var clean := Clean(before, cd, env);
    CleanedIsConsistent(before, cd, env);
    var failed;
    good, failed, converging := ValidDbsByStatus(clean, env, ReplicaLine);
    var dbs := ForEach(clean.dbs, (db: Db) => if db.uid in good then db.(spec := db.spec.(initMode := InitNone)) else db);
    ready := clean.(dbs := dbs);
    assert dbs == WithInitDone(clean, good).dbs;
    Invariant.InitDoneKeepsGood(clean, env);
  }

  method Resize(cd: ClusterData, good: set<string>, converging: set<string>, uids: seq<string>) returns (dbs: map<string, Db>)
    requires cd.master in cd.dbs && good <= cd.dbs.Keys && Distinct(uids) && |cd.keepers| <= |uids|
    ensures Resized(cd, good, converging, uids, dbs)
  {
    if |good| >= cd.spec.maxStandbysPerSender {
      dbs := Trim(cd, good);
    } else {
      dbs := Extend(cd, uids, cd.spec.maxStandbysPerSender - |good| - |converging|);
    }
  }

  method ReconfigureStandbys(cd: ClusterData) returns (next: ClusterData)
    ensures next == Reconfigured(cd)
  {
    var master := cd.master;
    var dbs := ForEach(cd.dbs, (db: Db) => if TypeOf(db) == ReplicaLine then db.(spec := ReplicaSpec(db.spec, master)) else db);
    next := cd.(dbs := dbs);
  }

  lemma MasterStays(cd: ClusterData, good: set<string>, converging: set<string>, uids: seq<string>, dbs: map<string, Db>)
    requires cd.master in cd.dbs && Distinct(uids) && cd.master !in good && TypeOf(cd.dbs[cd.master]) == PrimaryLine
    requires Resized(cd, good, converging, uids, dbs)
    ensures cd.master in dbs
  {
  }

  method Maintain(before: ClusterData, cd: ClusterData, env: Env, uids: seq<string>) returns (next: ClusterData, ghost c: Choices)
    requires before.Consistent() && cd.Consistent() && cd.spec.Valid()
    requires cd.master == before.master && cd.master in before.dbs && cd.master in cd.dbs && cd.dbs.Keys <= before.dbs.Keys
    requires TypeOf(cd.dbs[cd.master]) == PrimaryLine
    requires Distinct(uids) && |cd.keepers| <= |uids|
    ensures Maintained(before, cd, env, uids, c, next) && c.maintained == next
    ensures cd.master in next.dbs
    ensures c.why == Keep && c.wanted == cd.master && c.request == cd.manualSwitch
  {
    var ready, good, converging := PrepareStandbys(before, cd, env);
    var m, inp, rec := SynchronousStandbys(ready, env, before.dbs[cd.master], good);
    var synced := ready.(dbs := ready.dbs[cd.master := m]);
    var resized := Resize(synced, good, converging, uids);
    next := ReconfigureStandbys(synced.(dbs := resized));
    c := Choices(Keep, cd.master, cd.manualSwitch, good, converging, ready, inp, rec, m, resized, next);
    MasterStays(synced, good, converging, uids, resized);
  }

  method OpenFence(f: Fence, master: string, proxies: map<string, nat>) returns (next: Fence)
    ensures next == Fencing.NextFence(f, master, proxies)
  {
    if f.master == NO_UID {
      var unconverged: set<string> := {};
      var todo := proxies.Keys;
      while todo != {}
        invariant todo <= proxies.Keys
        invariant forall p :: p in unconverged <==> p in proxies && p !in todo && proxies[p] != f.generation
      {
        var p :| p in todo;
        todo := todo - {p};
        if proxies[p] != f.generation {
          unconverged := unconverged + {p};
        }
      }
      assert unconverged == {} <==> forall p :: p in proxies ==> proxies[p] == f.generation;
      next := if unconverged == {} then Fence(master, f.enabled, f.generation + 1) else f;
    } else {
      next := if f.enabled != proxies.Keys then f.(enabled := proxies.Keys, generation := f.generation + 1) else f;
    }
  }

  method UpdateFollowers(cd: ClusterData, self: string, wanted: string) returns (next: ClusterData)
    requires self in cd.dbs
    ensures next == WithFollowers(cd, self, wanted)
  {
    var followers: set<string> := {};
    var todo := cd.dbs.Keys;
    while todo != {}
      invariant todo <= cd.dbs.Keys
      invariant forall d :: d in followers <==> d in FollowersOf(cd, self, wanted) && d !in todo
    {
      var d :| d in todo;
      todo := todo - {d};
      if d != self && cd.dbs[d].spec.follow == Internal(wanted) {
        followers := followers + {d};
      }
    }
    assert followers == FollowersOf(cd, self, wanted);
    var m := cd.dbs[self];
    next := cd.(dbs := cd.dbs[self := m.(spec := m.spec.(followers := followers))]);
  }

  method KeepMaster(before: ClusterData, cd: ClusterData, env: Env, proxies: map<string, nat>, uids: seq<string>)
    returns (next: ClusterData, ghost c: Choices)
    requires before.Consistent() && cd.Consistent() && cd.spec.Valid()
    requires cd.master == before.master && cd.master in before.dbs && cd.master in cd.dbs && cd.dbs.Keys <= before.dbs.Keys
    requires TypeOf(cd.dbs[cd.master]) == PrimaryLine
    requires Distinct(uids) && |cd.keepers| <= |uids|
    ensures KeepsMaster(before, cd, env, proxies, uids, c, next)
    ensures c.why == Keep && c.wanted == cd.master && c.request == cd.manualSwitch
  {
    var fence := OpenFence(cd.fence, cd.master, proxies);
    var open := WithMasterRole(cd.(fence := fence));
    var m := open.dbs[cd.master];
    if m.status.healthy && m.status.generation == m.generation {
      var kept;
      kept, c := Maintain(before, open, env, uids);
      next := UpdateFollowers(kept, cd.master, cd.master);
    } else {
      next := UpdateFollowers(open, cd.master, cd.master);
      c := Choices(Keep, cd.master, cd.manualSwitch, {}, {}, cd, SyncStandbys.Inputs({}, {}, [], {}, 0, 0),
                   SyncStandbys.SyncRecord({}, {}, {}), m, map[], cd);
    }
  }

  method HandOver(standbys: set<string>, prior: string, elected: string) returns (r: set<string>)
    requires prior != elected
    ensures r == SyncStandbys.HandedOver(standbys, prior, elected)
  {
    r := {};
    var todo := standbys;
    while todo != {}
      invariant todo <= standbys
      invariant forall d :: d in r <==> (d in standbys - todo && d != elected) || (d == prior && elected in standbys - todo)
    {
      var d :| d in todo;
      todo := todo - {d};
      r := r + {if d != elected then d else prior};
    }
  }

  method Elect(cd: ClusterData, wanted: string) returns (next: ClusterData)
    requires cd.Consistent() && cd.master in cd.dbs && wanted in cd.dbs && wanted != cd.master
    ensures next == WithFollowers(AfterElection(cd, wanted), cd.master, wanted)
  {
    var prior, elected := cd.dbs[cd.master], cd.dbs[wanted];
    prior := prior.(spec := prior.spec.(followers := {}));
    var spec := elected.spec.(role := MasterRole(cd), follow := MasterFollow(cd));
    if cd.spec.SyncRepl() {
      var standbys := HandOver(prior.spec.syncStandbys, prior.uid, elected.uid);
      spec := spec.(syncRepl := true, syncStandbys := standbys,
                    external := if standbys == {} && cd.spec.minSync > 0 then {SyncStandbys.FAKE_STANDBY} else {});
    } else {
      spec := spec.(syncRepl := false, syncStandbys := {}, external := {});
    }
    elected := elected.(spec := spec);
    var fence := if cd.fence.master != NO_UID then Fence(NO_UID, cd.fence.enabled, cd.fence.generation + 1) else cd.fence;
    next := cd.(master := wanted, dbs := cd.dbs[cd.master := prior][wanted := elected], fence := fence);
    next := UpdateFollowers(next, cd.master, wanted);
  }

  method SetDbSpecFromClusterSpec(cd: ClusterData) returns (next: ClusterData)
    ensures next == WithSettings(cd)
  {
    var value := cd.spec.settings;
    var dbs := ForEach(cd.dbs, (db: Db) =>
      db.(spec := db.spec.(settings := if TypeOf(db) == PrimaryLine then PrimarySettings(value) else ReplicaSettings(value))));
    next := cd.(dbs := dbs);
    assert next.dbs == WithSettings(cd).dbs;
  }

  method TrackOrphanSlots(before: ClusterData, cd: ClusterData, now: int) returns (next: ClusterData)
    ensures next == WithOrphans(before, cd, now)
  {
    next := cd;
    if cd.master in cd.dbs {
      var m := cd.dbs[cd.master];
      var orphans: map<string, int> := map[];
      if cd.spec.slotTtl > 0 {
        orphans := Slots.ComputeOrphanMemberSlots(FollowersBefore(before, cd.master), m.spec.followers, m.status.orphans,
                                                  before.master != NO_UID && before.master != cd.master, now);
      }
      next := cd.(dbs := cd.dbs[cd.master := m.(status := m.status.(orphans := orphans))]);
    }
  }

  method BumpGenerations(before: ClusterData, cd: ClusterData) returns (next: ClusterData)
    requires forall d :: d in cd.dbs ==> cd.dbs[d].uid == d
    ensures next == WithGenerations(before, cd)
  {
    var dbs := ForEach(cd.dbs, (db: Db) =>
      if db.uid in before.dbs && db.spec != before.dbs[db.uid].spec then db.(generation := db.generation + 1) else db);
    assert dbs == WithGenerations(before, cd).dbs;
    next := cd.(dbs := dbs);
  }

  method Finish(before: ClusterData, cd: ClusterData, now: int) returns (next: ClusterData)
    requires forall d :: d in cd.dbs ==> cd.dbs[d].uid == d
    ensures next == Finished(before, cd, now)
  {
    next := SetDbSpecFromClusterSpec(cd);
    next := TrackOrphanSlots(before, next, now);
    next := BumpGenerations(before, next);
  }

  // ------------------------------------------------------------- keeper status

  method KeepFresh(infos: map<string, Health.KeeperInfo>, sightings: map<string, Health.Sighting>, sleep: int, now: int)
    returns (current: map<string, Health.KeeperInfo>, next: map<string, Health.Sighting>)
    ensures current == Health.FreshInfos(infos, sightings, sleep, now)
    ensures next == Health.NextSightings(infos, sightings, now)
  {
    current, next := infos, sightings;
    var todo := infos.Keys;
    while todo != {}
      invariant todo <= infos.Keys
      invariant forall k :: k in current <==> k in infos && (k in todo || Health.IsFresh(infos[k], k, sightings, sleep, now))
      invariant forall k :: k in current ==> current[k] == infos[k]
      invariant forall k :: k in next <==> k in sightings || (k in infos && k !in todo)
      invariant forall k :: k in next ==> next[k] == if k in todo || k !in infos then sightings[k] else Health.NextSightings(infos, sightings, now)[k]
    {
      var k :| k in todo;
      todo := todo - {k};
      if k in sightings && sightings[k].infoUid == infos[k].infoUid {
        if !sightings[k].seen || now - sightings[k].timer > sleep {
          current := current - {k};
        }
      } else {
        next := next[k := Health.Sighting(infos[k].infoUid, true, now)];
      }
    }
  }

  method AddKeepers(keepers: map<string, Keeper>, current: map<string, Health.KeeperInfo>, now: int) returns (r: map<string, Keeper>)
    ensures r == Health.WithNewKeepers(keepers, current, now)
  {
    r := keepers;
    var todo := current.Keys;
    while todo != {}
      invariant todo <= current.Keys
      invariant forall k :: k in r <==> k in keepers || (k in current && k !in todo)
      invariant forall k :: k in r ==> r[k] == if k in keepers then keepers[k] else Health.NewKeeper(k, current[k], now)
    {
      var k :| k in todo;
      todo := todo - {k};
      if k !in keepers {
        r := r[k := Health.NewKeeper(k, current[k], now)];
      }
    }
  }

  /** Sets or clears the error timer of each of `uids`. */
  method UpdateTimers(timers: map<string, int>, uids: set<string>, failing: set<string>, now: int) returns (r: map<string, int>)
    requires failing <= uids
    ensures r == Health.NextTimers(timers, uids, failing, now)
  {
    r := timers;
    var todo := uids;
    while todo != {}
      invariant todo <= uids
      invariant forall u :: u in r <==> if u in uids && u !in todo then u in failing else u in timers
      invariant forall u :: u in r ==> r[u] == if u in timers then timers[u] else now
    {
      var u :| u in todo;
      todo := todo - {u};
      if u in failing {
        if u !in r {
          r := r[u := now];
        }
      } else {
        r := r - {u};
      }
    }
  }

  method WithHealth(keepers: map<string, Keeper>, current: map<string, Health.KeeperInfo>, timers: map<string, int>, forced: set<string>, interval: int, now: int)
    returns (r: map<string, Keeper>)
    requires forall k :: k in keepers ==> keepers[k].uid == k
    ensures r.Keys == keepers.Keys
    ensures forall k :: k in r ==> r[k] == Health.KeeperAfter(keepers[k], current, r[k].healthy, now)
    ensures Health.Judged(r, timers, forced, interval, now)
  {
    r := ForEach(keepers, (k: Keeper) =>
      Health.KeeperAfter(k, current, Health.Trusted(timers, k.uid, interval, now) && k.uid !in forced, now));
  }

  /** Counts the checks at which a reported WAL position has not moved, and notes the time when it has. */
  method TrackProgress(cd: ClusterData, current: map<string, Health.KeeperInfo>, counters: map<string, nat>, times: map<string, int>, now: int)
    returns (nextCounters: map<string, nat>, nextTimes: map<string, int>)
    ensures Progressed(cd, current, now, counters, times, nextCounters, nextTimes)
  {
    nextCounters, nextTimes := counters, times;
    var todo := cd.dbs.Keys;
    while todo != {}
      invariant todo <= cd.dbs.Keys
      invariant forall d :: Count(nextCounters, d) ==
                  if d in todo then Count(counters, d)
                  else if Stuck(cd, current, d, false) then Count(counters, d) + 1 else if Stuck(cd, current, d, true) then 0 else Count(counters, d)
      invariant forall d :: d !in todo && Stuck(cd, current, d, true) ==> d in nextTimes && nextTimes[d] == now
      invariant forall d :: d in todo || !Stuck(cd, current, d, true) ==> (d in nextTimes <==> d in times) && (d in times ==> nextTimes[d] == times[d])
    {
      var d :| d in todo;
      todo := todo - {d};
      var report := Health.ReportOn(cd.dbs[d], current);
      if report.Some? {
        if cd.dbs[d].status.xlog == report.value.xlog {
          nextCounters := nextCounters[d := Count(nextCounters, d) + 1];
        } else {
          nextCounters := nextCounters - {d};
          nextTimes := nextTimes[d := now];
        }
      }
    }
  }

  /** On the first check reports are only noted, as not seen changing yet. */
  method FirstSightings(infos: map<string, Health.KeeperInfo>, sightings: map<string, Health.Sighting>) returns (next: map<string, Health.Sighting>)
    ensures next == sightings + Health.Unseen(infos)
  {
    next := sightings;
    var todo := infos.Keys;
    while todo != {}
      invariant todo <= infos.Keys
      invariant next.Keys == sightings.Keys + (infos.Keys - todo)
      invariant forall k :: k in next ==> next[k] == if k in infos && k !in todo then Health.Unseen(infos)[k] else sightings[k]
    {
      var k :| k in todo;
      todo := todo - {k};
      next := next[k := Health.Sighting(infos[k].infoUid, false, 0)];
    }
  }

  /** The status of `d` follows its report, and its health the timers of both the database and its keeper. */
  ghost predicate DbJudged(cd: ClusterData, current: map<string, Health.KeeperInfo>, errors: map<string, int>, now: int, next: ClusterData, d: string)
    requires d in cd.dbs
  {
    && d in next.dbs && cd.dbs[d].spec.keeper in next.keepers
    && next.dbs[d] == cd.dbs[d].(status :=
         Health.StatusAfter(cd.dbs[d], current,
                            Health.Trusted(errors, d, cd.spec.failInterval, now) && next.keepers[cd.dbs[d].spec.keeper].healthy))
  }

  /** Judging the databases by their reports is merging the reports. */
  lemma JudgedIsMerged(cd: ClusterData, current: map<string, Health.KeeperInfo>, errors: map<string, int>, now: int, next: ClusterData)
    requires cd.Consistent() && next == cd.(keepers := next.keepers, dbs := next.dbs)
    requires cd.keepers.Keys <= next.keepers.Keys <= cd.keepers.Keys + current.Keys && forall k :: k in next.keepers ==> next.keepers[k].uid == k
    requires next.dbs.Keys == cd.dbs.Keys
    requires forall d :: d in cd.dbs ==>
               next.dbs[d] == cd.dbs[d].(status :=
                 Health.StatusAfter(cd.dbs[d], current,
                                    Health.Trusted(errors, d, cd.spec.failInterval, now) && next.keepers[cd.dbs[d].spec.keeper].healthy))
    ensures Health.Merged(cd, current, next)
    ensures forall d :: d in cd.dbs ==> DbJudged(cd, current, errors, now, next, d)
  {
  }

  /** The document as the first check of a tenure takes it: no standby counts as reported in sync. */
  method Silenced(cd: ClusterData) returns (next: ClusterData)
    requires cd.Consistent()
    ensures Health.Merged(cd, map[], next) && next.keepers == cd.keepers
    ensures forall d :: d in cd.dbs ==> next.dbs[d].status == cd.dbs[d].status.(reportedSync := {})
  {
    var silent := ForEach(cd.dbs, (db: Db) => db.(status := db.status.(reportedSync := {})));
    next := cd.(dbs := silent);
  }

  /** What a pass needs: a sound document, and enough unused UIDs for the databases it may create. */
  ghost predicate Passable(cd: ClusterData, uids: seq<string>) {
    Inv(cd) && Invariant.Fresh(cd, uids) && 1 <= |uids| && |cd.keepers| <= |uids|
  }

  class Sentinel {
    var backoff: map<string, int>                    // failed master -> when its succession was first put off
    var increasingAt: map<string, int>               // when a database's WAL position last moved
    var notIncreasing: map<string, nat>              // checks since it last moved
    var convergence: map<string, ConvergenceInfo>
    var healthySince: map<string, int>
    var lastAutoFailback: Option<int>
    var forceFailed: set<string>                     // keepers an operator declared failed
    var keeperErrors: map<string, int>               // since when a keeper has been silent
    var dbErrors: map<string, int>                   // since when a database has been failing
    var sightings: map<string, Health.Sighting>

    function GetEnv(now: int): Env
      reads this`convergence, this`notIncreasing
    {
      Env(now, map d | d in convergence :: convergence[d].timer,
          set d | d in notIncreasing && notIncreasing[d] > STALL_CHECKS)
    }

    ghost function Errors(): Tenures.Errors
      reads this`keeperErrors, this`dbErrors
    {
      Tenures.Errors(keeperErrors, dbErrors)
    }

    ghost function Jotted(): Note
      reads this`convergence, this`notIncreasing, this`increasingAt, this`healthySince
    {
      Note(convergence, notIncreasing, increasingAt, healthySince)
    }

    predicate Advancing(d: string, window: int, now: int)
      reads this`increasingAt, this`notIncreasing
    {
      && d in increasingAt
      && !(d in notIncreasing && notIncreasing[d] > STALL_CHECKS)
      && now - increasingAt[d] < window
    }

    method ShouldDelayLeaderRace(failed: string, candidates: seq<Db>, window: int, now: int) returns (delay: bool)
      modifies this`backoff
      ensures Leadership.RaceResult(delay, backoff)
           == Leadership.RaceStep(old(backoff), failed, exists db :: db in candidates && Advancing(db.uid, window, now), window, now)
    {
      if failed == "" {
        return false;
      }
      if window <= 0 || |candidates| == 0 {
        backoff := backoff - {failed};
        return false;
      }
      for i := 0 to |candidates|
        invariant backoff == old(backoff)
        invariant forall j :: 0 <= j < i ==> !Advancing(candidates[j].uid, window, now)
      {
        if Advancing(candidates[i].uid, window, now) {
          assert candidates[i] in candidates;
          if failed !in backoff {
            backoff := backoff[failed := now];
            return true;
          }
          if now - backoff[failed] < window {
            return true;
          }
          backoff := backoff - {failed};
          return false;
        }
      }
      backoff := backoff - {failed};
      return false;
    }

    lemma AdvancingCandidate(cd: ClusterData, env: Env, m: Db, candidates: seq<Db>, window: int, now: int)
      requires cd.Consistent() && IsCandidateList(cd, env, m, candidates)
      requires exists db :: db in candidates && Advancing(db.uid, window, now)
      ensures exists d :: d in Candidates(cd, env, m) && Advancing(d, window, now)
    {
      EnumeratedAre(cd, candidates, Candidates(cd, env, m));
      var db :| db in candidates && Advancing(db.uid, window, now);
      assert db.uid in Candidates(cd, env, m);
    }

    /** The failover target, if there is one and its election is not put off. */
    method ChooseBestNewMaster(cd: ClusterData, m: Db, now: int) returns (best: Option<Db>, clear: bool, ghost delayed: bool)
      requires cd.Consistent()
      modifies this`backoff
      ensures best.Some? ==> FailoverTarget(cd, GetEnv(now), m, best.value)
      ensures best.None? && !delayed ==> forall d :: d in Candidates(cd, GetEnv(now), m) ==> SyncElection(cd, m) && d !in Electable(m)
      ensures best.Some? ==> clear
      ensures delayed ==> best.None? && !clear && m.spec.keeper !in forceFailed
      ensures delayed ==> exists d :: d in Candidates(cd, GetEnv(now), m) && Advancing(d, cd.spec.failInterval, now)
      ensures delayed ==>
                && backoff == old(backoff)[m.uid := Tenures.DeferredSince(old(backoff), m.uid, now)]
                && now - backoff[m.uid] < cd.spec.failInterval
    {
      var candidates := FindBestNewMasters(cd, GetEnv(now), m);
      delayed := false;
      if |candidates| == 0 {
        FirstAllowed(cd, GetEnv(now), m, candidates, 0);
        return None, true, false;
      }
      if m.spec.keeper !in forceFailed {
        var delay := ShouldDelayLeaderRace(m.uid, candidates, cd.spec.failInterval, now);
        if delay {
          AdvancingCandidate(cd, GetEnv(now), m, candidates, cd.spec.failInterval, now);
          return None, false, true;
        }
      }
      best := FirstAllowedCandidate(cd, GetEnv(now), m, candidates);
      clear := best.Some?;
    }

    /** The keeper has been healthy for long enough, and so has passed since the last time the cluster failed back. */
    predicate MayFailBack(spec: ClusterSpec, keeper: string, now: int)
      reads this`healthySince, this`lastAutoFailback
    {
      && (spec.autoFailbackMinUptime > 0 ==> keeper in healthySince && now - healthySince[keeper] >= spec.autoFailbackMinUptime)
      && (spec.autoFailbackCooldown > 0 && lastAutoFailback.Some? ==> now - lastAutoFailback.value >= spec.autoFailbackCooldown)
    }

    /** The first candidate of the highest priority, exactly when that is higher than the master's and failing back to it is allowed now. */
    method ChooseAutoFailbackTarget(cd: ClusterData, m: Db, now: int) returns (target: Option<Db>)
      requires cd.Consistent()
      ensures target.Some? ==> IsFailbackTarget(cd, GetEnv(now), m, target.value)
      ensures target.Some? ==> cd.spec.unsafeAutoFailback && MayFailBack(cd.spec, target.value.spec.keeper, now)
      ensures target.Some? && cd.spec.autoFailbackCooldown > 0 && lastAutoFailback.Some?
              ==> now - lastAutoFailback.value >= cd.spec.autoFailbackCooldown
      ensures target.Some? && cd.spec.autoFailbackMinUptime > 0
              ==> target.value.spec.keeper in healthySince && now - healthySince[target.value.spec.keeper] >= cd.spec.autoFailbackMinUptime
      ensures cd.spec.unsafeAutoFailback ==>
                forall db :: IsFailbackTarget(cd, GetEnv(now), m, db) && MayFailBack(cd.spec, db.spec.keeper, now) ==> target == Some(db)
    {
      if !cd.spec.unsafeAutoFailback {
        return None;
      }
      var candidates := FindBestNewMasters(cd, GetEnv(now), m);
      target := HighestPriority(cd, GetEnv(now), m, candidates);
      if target.None? {
        return None;
      }
      forall db | IsFailbackTarget(cd, GetEnv(now), m, db)
        ensures db == target.value
      {
        OneFailbackTarget(cd, GetEnv(now), m, db, target.value);
      }
      var keeper := target.value.spec.keeper;
      if keeper !in cd.keepers || !cd.keepers[keeper].healthy {
        return None;
      }
      if cd.spec.autoFailbackMinUptime > 0 {
        if keeper !in healthySince || now - healthySince[keeper] < cd.spec.autoFailbackMinUptime {
          return None;
        }
      }
      if cd.spec.autoFailbackCooldown > 0 && lastAutoFailback.Some? && now - lastAutoFailback.value < cd.spec.autoFailbackCooldown {
        return None;
      }
    }

    /** Which database should be master, and why.  `delayed` says that an election was put off. */
    method Decide(cd: ClusterData, now: int) returns (why: Decision, wanted: string, request: Option<string>, ghost delayed: bool)
      requires cd.Consistent() && cd.Exclusive() && cd.master in cd.dbs && TypeOf(cd.dbs[cd.master]) == PrimaryLine
      modifies this`backoff, this`lastAutoFailback
      ensures unchanged(`keeperErrors, `dbErrors, `sightings, `convergence, `notIncreasing, `increasingAt, `healthySince)
      ensures Decided(cd, GetEnv(now), why, wanted, request)
      ensures lastAutoFailback == if why == AutoFailback then Some(now) else old(lastAutoFailback)
      ensures why == AutoFailback ==> wanted in cd.dbs && old(MayFailBack(cd.spec, cd.dbs[wanted].spec.keeper, now))
      ensures why == AutoFailback && cd.spec.autoFailbackCooldown > 0 && old(lastAutoFailback).Some?
              ==> now - old(lastAutoFailback).value >= cd.spec.autoFailbackCooldown
      ensures why == Keep && request == cd.manualSwitch && MasterOk(cd, GetEnv(now), cd.dbs[cd.master]) && cd.spec.unsafeAutoFailback ==>
                forall db :: IsFailbackTarget(cd, GetEnv(now), cd.dbs[cd.master], db) ==> !old(MayFailBack(cd.spec, db.spec.keeper, now))
      ensures why == Keep && request == cd.manualSwitch && !delayed && !MasterOk(cd, GetEnv(now), cd.dbs[cd.master])
              ==> forall d :: d in Candidates(cd, GetEnv(now), cd.dbs[cd.master])
                    ==> SyncElection(cd, cd.dbs[cd.master]) && d !in Electable(cd.dbs[cd.master])
      ensures wanted != cd.master ==> cd.master !in backoff
      ensures delayed ==>
                && cd.dbs[cd.master].spec.keeper !in forceFailed
                && exists d :: d in Candidates(cd, GetEnv(now), cd.dbs[cd.master]) && Advancing(d, cd.spec.failInterval, now)
      ensures delayed ==>
                && why == Keep
                && backoff == old(backoff)[cd.master := Tenures.DeferredSince(old(backoff), cd.master, now)]
                && now - backoff[cd.master] < cd.spec.failInterval
    {
      var m := cd.dbs[cd.master];
      assert cd.master !in Candidates(cd, GetEnv(now), m);
      wanted, request, delayed := cd.master, cd.manualSwitch, false;
      var applied;
      applied, wanted := ApplyManualSwitch(cd, GetEnv(now));
      if applied {
        backoff := backoff - {cd.master};
        request := None;
        why := if wanted == cd.master then Keep else ManualSwitch;
        return;
      }
      why := Keep;
      if !MasterOk(cd, GetEnv(now), m) {
        var best, clear;
        best, clear, delayed := ChooseBestNewMaster(cd, m, now);
        if clear {
          backoff := backoff - {cd.master};
        }
        if best.Some? {
          why, wanted := Failover, best.value.uid;
        }
      } else {
        backoff := backoff - {cd.master};
        var target := ChooseAutoFailbackTarget(cd, m, now);
        if target.Some? {
          why, wanted := AutoFailback, target.value.uid;
          lastAutoFailback := Some(now);
        }
      }
    }

    method TrackHealthy(known: map<string, Keeper>, keepers: map<string, Keeper>, now: int)
      modifies this`healthySince
      ensures HealthTracked(known, keepers, now, old(healthySince), healthySince)
    {
      var todo := keepers.Keys;
      while todo != {}
        invariant todo <= keepers.Keys
        invariant forall k :: k in keepers && k !in todo ==>
                    if keepers[k].healthy then
                      && k in healthySince
                      && healthySince[k] == (if WasHealthy(known, k) && k in old(healthySince) then old(healthySince)[k] else now)
                    else k !in healthySince
        invariant forall k :: k in todo || k !in keepers ==>
                    (k in healthySince <==> k in old(healthySince)) && (k in healthySince ==> healthySince[k] == old(healthySince)[k])
      {
        var k :| k in todo;
        todo := todo - {k};
        if keepers[k].healthy {
          if !WasHealthy(known, k) {
            healthySince := healthySince[k := now];
          } else if k !in healthySince {
            healthySince := healthySince[k := now];
          }
        } else {
          healthySince := healthySince - {k};
        }
      }
    }

    /**
     * Merges the keepers' reports into the document.  `forced` are the keepers an
     * operator declared failed.  On the first check of a tenure nothing is
     * believed yet.
     */
    method UpdateKeepersStatus(cd: ClusterData, infos: map<string, Health.KeeperInfo>, forced: set<string>, sleep: int, now: int, firstRun: bool)
      returns (next: ClusterData, seen: map<string, Health.Sighting>)
      requires cd.Consistent()
      modifies this`keeperErrors, this`dbErrors, this`notIncreasing, this`increasingAt, this`healthySince, this`forceFailed
      ensures unchanged(`convergence, `backoff, `sightings)
      ensures Health.Merged(cd, Believed(infos, sightings, sleep, now, firstRun), next)
      ensures seen == Noted(infos, sightings, now, firstRun)
      ensures firstRun ==>
                && next.keepers == cd.keepers
                && (forall d :: d in cd.dbs ==> next.dbs[d].status == cd.dbs[d].status.(reportedSync := {}))
                && keeperErrors == old(keeperErrors) && dbErrors == old(dbErrors)
                && notIncreasing == old(notIncreasing) && increasingAt == old(increasingAt) && healthySince == old(healthySince)
      ensures !firstRun ==>
                var current := Health.FreshInfos(infos, sightings, sleep, now);
                && Health.KeepersAfter(cd.keepers, current, now, next.keepers)
                && dbErrors == Health.NextTimers(old(dbErrors), cd.dbs.Keys, Health.FailingDbs(cd, current), now)
                && forceFailed == (set k | k in next.keepers && k in forced)
                && HealthTracked(cd.keepers, next.keepers, now, old(healthySince), healthySince)
                && Progressed(cd, current, now, old(notIncreasing), old(increasingAt), notIncreasing, increasingAt)
      ensures !firstRun ==>
                var current := Health.FreshInfos(infos, sightings, sleep, now);
                && keeperErrors == Health.NextTimers(old(keeperErrors), next.keepers.Keys, next.keepers.Keys - current.Keys, now)
                && Health.Judged(next.keepers, keeperErrors, forced, cd.spec.failInterval, now)
                && (forall d :: d in cd.dbs ==> DbJudged(cd, current, dbErrors, now, next, d))
    {
      if firstRun {
        seen := FirstSightings(infos, sightings);
        next := Silenced(cd);
        return;
      }
      var current;
      current, seen := KeepFresh(infos, sightings, sleep, now);
      next := MergeCurrent(cd, current, forced, now);
    }

    /** Merges the reports just believed. */
    method MergeCurrent(cd: ClusterData, current: map<string, Health.KeeperInfo>, forced: set<string>, now: int) returns (next: ClusterData)
      requires cd.Consistent()
      modifies this`keeperErrors, this`dbErrors, this`notIncreasing, this`increasingAt, this`healthySince, this`forceFailed
      ensures Health.Merged(cd, current, next)
      ensures Health.KeepersAfter(cd.keepers, current, now, next.keepers)
      ensures keeperErrors == Health.NextTimers(old(keeperErrors), next.keepers.Keys, next.keepers.Keys - current.Keys, now)
      ensures Health.Judged(next.keepers, keeperErrors, forced, cd.spec.failInterval, now)
      ensures dbErrors == Health.NextTimers(old(dbErrors), cd.dbs.Keys, Health.FailingDbs(cd, current), now)
      ensures forall d :: d in cd.dbs ==> DbJudged(cd, current, dbErrors, now, next, d)
      ensures forceFailed == set k | k in next.keepers && k in forced
      ensures HealthTracked(cd.keepers, next.keepers, now, old(healthySince), healthySince)
      ensures Progressed(cd, current, now, old(notIncreasing), old(increasingAt), notIncreasing, increasingAt)
    {
      var keepers := JudgeKeepers(cd, current, forced, now);
      TrackHealthy(cd.keepers, keepers, now);
      forceFailed := set k | k in keepers && k in forced;
      var dbs := JudgeDbs(cd, current, keepers, now);
      next := cd.(keepers := keepers, dbs := dbs);
      JudgedIsMerged(cd, current, dbErrors, now, next);
    }

    /** New keepers appear, and each keeper's health is decided. */
    method JudgeKeepers(cd: ClusterData, current: map<string, Health.KeeperInfo>, forced: set<string>, now: int) returns (keepers: map<string, Keeper>)
      requires cd.Consistent()
      modifies this`keeperErrors
      ensures cd.keepers.Keys <= keepers.Keys <= cd.keepers.Keys + current.Keys && forall k :: k in keepers ==> keepers[k].uid == k
      ensures keeperErrors == Health.NextTimers(old(keeperErrors), keepers.Keys, keepers.Keys - current.Keys, now)
      ensures Health.KeepersAfter(cd.keepers, current, now, keepers)
      ensures Health.Judged(keepers, keeperErrors, forced, cd.spec.failInterval, now)
    {
      var all := AddKeepers(cd.keepers, current, now);
      assert forall k :: k in all ==> all[k].uid == k;
      var uids := all.Keys;
      keeperErrors := UpdateTimers(keeperErrors, uids, uids - current.Keys, now);
      keepers := WithHealth(all, current, keeperErrors, forced, cd.spec.failInterval, now);
      assert keepers.Keys == uids;
    }

    /** Each database's report is merged, and its health decided. */
    method JudgeDbs(cd: ClusterData, current: map<string, Health.KeeperInfo>, keepers: map<string, Keeper>, now: int) returns (dbs: map<string, Db>)
      requires cd.Consistent() && cd.keepers.Keys <= keepers.Keys
      modifies this`dbErrors, this`notIncreasing, this`increasingAt
      ensures dbErrors == Health.NextTimers(old(dbErrors), cd.dbs.Keys, Health.FailingDbs(cd, current), now)
      ensures Progressed(cd, current, now, old(notIncreasing), old(increasingAt), notIncreasing, increasingAt)
      ensures dbs.Keys == cd.dbs.Keys
      ensures forall d :: d in cd.dbs ==>
                dbs[d] == cd.dbs[d].(status :=
                  Health.StatusAfter(cd.dbs[d], current,
                                     Health.Trusted(dbErrors, d, cd.spec.failInterval, now) && keepers[cd.dbs[d].spec.keeper].healthy))
    {
      notIncreasing, increasingAt := TrackProgress(cd, current, notIncreasing, increasingAt, now);
      var failing := Health.FailingDbs(cd, current);
      dbErrors := UpdateTimers(dbErrors, cd.dbs.Keys, failing, now);
      var failures, interval := dbErrors, cd.spec.failInterval;
      dbs := ForEach(cd.dbs, (db: Db) =>
        db.(status := Health.StatusAfter(db, current,
                        Health.Trusted(failures, db.uid, interval, now) && db.spec.keeper in keepers && keepers[db.spec.keeper].healthy)));
    }

    /** One reconciliation pass over the document. */
    method UpdateCluster(cd: ClusterData, proxies: map<string, nat>, uids: seq<string>, now: int) returns (r: Result<ClusterData>)
      requires Passable(cd, uids)
      modifies this`backoff, this`lastAutoFailback
      ensures unchanged(`keeperErrors, `dbErrors, `sightings, `convergence, `notIncreasing, `increasingAt, `healthySince)
      ensures r.Ok? ==> Step(cd, GetEnv(now), proxies, uids, r.value)
      ensures r.Ok? ==> Tenures.Succeeds(cd, GetEnv(now), old(backoff), backoff, r.value) && Tenures.Forgets(cd, backoff, r.value)
      ensures r.Err? ==> cd.phase == Initializing && cd.master == NO_UID
      ensures r.Err? ==> cd.keepers == map[] || (cd.spec.initMode == InitExisting && cd.spec.existingKeeper !in cd.keepers)
    {
      if cd.phase == Initializing {
        var mid := Initialize(cd, GetEnv(now), uids[0]);
        match mid
        case Err => return Err;
        case Ok(next) =>
          var done := Finish(cd, next, now);
          assert uids[0] in uids && InitStep(cd, GetEnv(now), uids[0], next);
          return Ok(done);
      }
      if cd.pause.Active(now) {
        return Ok(cd);
      }
      var next, c := NormalPass(cd, proxies, uids, now);
      WantedIsMaster(cd, GetEnv(now), proxies, uids, c, next);
      Invariant.NormalIsSound(cd, GetEnv(now), proxies, uids, c, next);
      var done := Finish(cd, next, now);
      return Ok(done);
    }

    /** Starts a convergence timer for every database that has a new generation to reach. */
    method UpdateDbConvergenceInfos(cd: ClusterData, now: int)
      modifies this`convergence
      ensures Renewed(cd, now, old(convergence), convergence)
    {
      var todo := cd.dbs.Keys;
      while todo != {}
        invariant todo <= cd.dbs.Keys
        invariant forall d :: d in cd.dbs && d !in todo ==>
                    if cd.dbs[d].status.generation == cd.dbs[d].generation then d !in convergence
                    else
                      && d in convergence
                      && convergence[d] == if d in old(convergence) && old(convergence)[d].generation == cd.dbs[d].generation
                                           then old(convergence)[d] else ConvergenceInfo(cd.dbs[d].generation, now)
        invariant forall d :: d !in cd.dbs || d in todo ==>
                    (d in convergence <==> d in old(convergence)) && (d in convergence ==> convergence[d] == old(convergence)[d])
      {
        var d :| d in todo;
        todo := todo - {d};
        var db := cd.dbs[d];
        if db.status.generation == db.generation {
          convergence := convergence - {d};
        } else if d !in convergence || convergence[d].generation != db.generation {
          convergence := convergence[d := ConvergenceInfo(db.generation, now)];
        }
      }
    }

    /** Forgets everything remembered from an earlier tenure. */
    method LeadershipSanitySweep(cd: ClusterData, now: int)
      modifies this
      ensures keeperErrors == map[] && dbErrors == map[] && backoff == map[] && sightings == map[] && forceFailed == {}
      ensures notIncreasing == map[] && increasingAt == map[] && healthySince == map[] && lastAutoFailback == None
      ensures Renewed(cd, now, map[], convergence)
    {
      keeperErrors, dbErrors, notIncreasing, increasingAt, healthySince := map[], map[], map[], map[], map[];
      lastAutoFailback, sightings, convergence, backoff, forceFailed := None, map[], map[], map[], {};
      UpdateDbConvergenceInfos(cd, now);
    }

    /** The reports merged, as the tenure sees it. */
    method MergeReports(c: Reading, firstRun: bool) returns (merged: ClusterData, seen: map<string, Health.Sighting>)
      requires c.Usable()
      requires firstRun ==> Errors() == Tenures.NO_ERRORS && backoff == map[]
      modifies this`keeperErrors, this`dbErrors, this`notIncreasing, this`increasingAt, this`healthySince, this`forceFailed
      ensures Passable(merged, c.uids)
      ensures Tenures.Merges(c.now, c.cd, Believed(c.infos, sightings, c.sleep, c.now, firstRun), c.forced, firstRun,
                             old(Errors()), Errors(), backoff, merged)
      ensures seen == Noted(c.infos, sightings, c.now, firstRun)
      ensures NotesReports(c, Believed(c.infos, sightings, c.sleep, c.now, firstRun), merged.keepers, firstRun, old(Jotted()), Jotted())
      ensures unchanged(`convergence, `backoff, `sightings)
    {
      merged, seen := UpdateKeepersStatus(c.cd, c.infos, c.forced, c.sleep, c.now, firstRun);
      MergedIsPassable(c, sightings, firstRun, merged);
      if !firstRun {
        LaterMerges(c, Health.FreshInfos(c.infos, sightings, c.sleep, c.now), old(Errors()), Errors(), backoff, merged);
      }
    }

    /** Sightings and convergence timers move on once the document has been written. */
    method Remember(c: Reading, r: Result<ClusterData>, ghost firstRun: bool, seen: map<string, Health.Sighting>)
      requires seen == Noted(c.infos, sightings, c.now, firstRun)
      modifies this`sightings, this`convergence
      ensures sightings == Saved(c, r.Ok?, old(sightings), firstRun)
      ensures Timed(c, if r.Ok? then Some(r.value) else None, old(convergence), convergence)
      ensures Errors() == old(Errors()) && backoff == old(backoff) && Jotted() == old(Jotted()).(clock := convergence)
    {
      if r.Ok? && c.written {
        sightings := seen;
        UpdateDbConvergenceInfos(r.value, c.now);
      }
    }

    method Begin(c: Reading, firstRun: bool)
      modifies this
      ensures sightings == if firstRun then map[] else old(sightings)
      ensures if firstRun then Errors() == Tenures.NO_ERRORS && backoff == map[] && StartsWith(c, Jotted())
              else unchanged(this)
      ensures Believed(c.infos, sightings, c.sleep, c.now, firstRun) == Believed(c.infos, old(sightings), c.sleep, c.now, firstRun)
    {
      if firstRun {
        LeadershipSanitySweep(c.cd, c.now);
      }
    }

    /** The pass alone; the keepers' timers are not touched. */
    method PassAlone(cd: ClusterData, proxies: map<string, nat>, uids: seq<string>, now: int) returns (r: Result<ClusterData>)
      requires Passable(cd, uids)
      modifies this`backoff, this`lastAutoFailback
      ensures r.Ok? ==> cd.Consistent() && Step(cd, GetEnv(now), proxies, uids, r.value)
      ensures r.Ok? ==> Tenures.Succeeds(cd, GetEnv(now), old(backoff), backoff, r.value) && Tenures.Forgets(cd, backoff, r.value)
      ensures r.Err? ==> cd.phase == Initializing
      ensures unchanged(`keeperErrors, `dbErrors, `sightings, `convergence, `notIncreasing, `increasingAt, `healthySince)
      ensures Jotted() == old(Jotted()) && Errors() == old(Errors())
    {
      r := UpdateCluster(cd, proxies, uids, now);
    }

    /** The pass of a check over the merged document. */
    method PassOver(c: Reading, ghost firstRun: bool, merged: ClusterData, ghost errorsBefore: Tenures.Errors, ghost current: map<string, Health.KeeperInfo>)
      returns (r: Result<ClusterData>, ghost turn: Tenures.Turn)
      requires Passable(merged, c.uids)
      requires Tenures.Merges(c.now, c.cd, current, c.forced, firstRun, errorsBefore, Errors(), backoff, merged)
      modifies this`backoff, this`lastAutoFailback
      ensures Tenures.Took(turn, firstRun)
      ensures turn == Tenures.Turn(c.now, c.cd, current, c.forced, errorsBefore, Errors(), old(backoff), backoff, merged, GetEnv(c.now),
                                   if r.Ok? then Some(r.value) else None, c.written)
      ensures r.Ok? ==> turn.reported.Consistent() && Step(turn.reported, turn.env, c.proxies, c.uids, r.value)
      ensures Jotted() == old(Jotted()) && unchanged(`sightings)
    {
      ghost var errors, before := Errors(), backoff;
      r := PassAlone(merged, c.proxies, c.uids, c.now);
      turn := TurnOf(c, firstRun, current, errorsBefore, errors, before, backoff, merged, GetEnv(c.now), r);
    }

    /** The document is taken through reports and pass. */
    method MergeAndPass(c: Reading, firstRun: bool)
      returns (r: Result<ClusterData>, seen: map<string, Health.Sighting>, ghost turn: Tenures.Turn)
      requires c.Usable()
      requires firstRun ==> Errors() == Tenures.NO_ERRORS && backoff == map[]
      modifies this`keeperErrors, this`dbErrors, this`notIncreasing, this`increasingAt, this`healthySince, this`forceFailed
      modifies this`backoff, this`lastAutoFailback
      ensures Tenures.Took(turn, firstRun)
      ensures c.Answered(turn) && turn.current == Believed(c.infos, sightings, c.sleep, c.now, firstRun)
      ensures turn.errorsBefore == old(Errors()) && turn.backoffBefore == old(backoff)
      ensures turn.errors == Errors() && turn.backoff == backoff
      ensures seen == Noted(c.infos, sightings, c.now, firstRun)
      ensures turn.result == if r.Ok? then Some(r.value) else None
      ensures r.Ok? ==> turn.reported.Consistent() && Step(turn.reported, turn.env, c.proxies, c.uids, r.value)
      ensures NotesReports(c, turn.current, turn.reported.keepers, firstRun, old(Jotted()), Jotted())
      ensures unchanged(`convergence) && turn.env == GetEnv(c.now)
    {
      var merged;
      ghost var believed := Believed(c.infos, sightings, c.sleep, c.now, firstRun);
      merged, seen := MergeReports(c, firstRun);
      r, turn := PassOver(c, firstRun, merged, old(Errors()), believed);
      IsAnswered(c, sightings, firstRun, turn);
    }

    /**
     * One check of a leading sentinel: the keepers' reports are merged and a pass
     * is made over the result.  By `CheckMoves` this is a `Runs.Check`.
     * `written` says whether the compare-and-swap went through; only then are the
     * sightings kept.
     */
    method ClusterSentinelCheck(c: Reading, firstRun: bool) returns (r: Result<ClusterData>, ghost turn: Tenures.Turn, ghost before: Note)
      requires c.Usable()
      modifies this
      ensures Tenures.Took(turn, firstRun)
      ensures c.Answered(turn) && turn.current == Believed(c.infos, old(sightings), c.sleep, c.now, firstRun)
      ensures !firstRun ==> turn.errorsBefore == old(Errors()) && turn.backoffBefore == old(backoff)
      ensures turn.errors == Errors() && turn.backoff == backoff
      ensures turn.result == if r.Ok? then Some(r.value) else None
      ensures r.Ok? ==> turn.reported.Consistent() && Step(turn.reported, turn.env, c.proxies, c.uids, r.value)
      ensures sightings == Saved(c, r.Ok?, if firstRun then map[] else old(sightings), firstRun)
      ensures NotedBy(c, turn, firstRun, before, Jotted())
      ensures if firstRun then StartsWith(c, before) else before == old(Jotted())
    {
      Begin(c, firstRun);
      before := Jotted();
      var seen;
      r, seen, turn := MergeAndPass(c, firstRun);
      EnvGoesBy(c.now);
      ghost var merged := Jotted();
      Remember(c, r, firstRun, seen);
      IsNoted(c, turn, firstRun, before, merged, Jotted());
    }

    lemma EnvGoesBy(now: int)
      ensures GoesBy(GetEnv(now), convergence, notIncreasing)
    {
    }

    /** One more check of a tenure. */
    method NextTurn(c: Reading, firstRun: bool, ghost turns: seq<Tenures.Turn>) returns (ghost turn: Tenures.Turn, ghost before: Note)
      requires c.Usable() && Tenures.IsTenure(turns) && firstRun == (turns == [])
      requires turns != [] ==> turns[|turns| - 1].errors == Errors() && turns[|turns| - 1].backoff == backoff
      modifies this
      ensures Tenures.IsTenure(turns + [turn]) && c.Answered(turn)
      ensures turn.errors == Errors() && turn.backoff == backoff
      ensures turn.current == Believed(c.infos, if firstRun then map[] else old(sightings), c.sleep, c.now, firstRun)
      ensures sightings == Saved(c, turn.result.Some?, if firstRun then map[] else old(sightings), firstRun)
      ensures NotedBy(c, turn, firstRun, before, Jotted())
      ensures if firstRun then StartsWith(c, before) else before == old(Jotted())
    {
      var r;
      r, turn, before := ClusterSentinelCheck(c, firstRun);
      Tenures.Extends(turns, turn);
    }

    /**
     * The checks of one leadership tenure, the first of which forgets everything
     * from before.  By the lemmas of `Readings` it believes exactly the reports
     * that are new, and judges keepers and databases by them; by those of `Notes`
     * it knows how long they have been as they are.
     */
    method Lead(readings: seq<Reading>)
      returns (ghost turns: seq<Tenures.Turn>, ghost memory: seq<map<string, Health.Sighting>>, ghost notes: seq<Note>)
      requires forall i :: 0 <= i < |readings| ==> readings[i].Usable()
      modifies this
      ensures |turns| == |readings| && Led(readings, turns, memory, notes)
    {
      turns, memory, notes := [], [map[]], [Jotted()];
      for i := 0 to |readings|
        invariant |turns| == i && Led(readings, turns, memory, notes)
        invariant i > 0 ==> LeftOff(turns, memory, notes, Errors(), backoff, sightings, Jotted())
      {
        ghost var turn, before := NextTurn(readings[i], i == 0, turns);
        LedOneMore(readings, turns, memory, notes, turn, before, sightings, Jotted());
        turns, memory, notes := turns + [turn], memory + [sightings], if i == 0 then [before, Jotted()] else notes + [Jotted()];
      }
    }

    method NormalPass(cd: ClusterData, proxies: map<string, nat>, uids: seq<string>, now: int) returns (next: ClusterData, ghost c: Choices)
      requires Inv(cd) && cd.phase == Normal
      requires Distinct(uids) && |cd.keepers| <= |uids|
      modifies this`backoff, this`lastAutoFailback
      ensures unchanged(`keeperErrors, `dbErrors, `sightings, `convergence, `notIncreasing, `increasingAt, `healthySince)
      ensures NormalStep(cd, GetEnv(now), proxies, uids, c, next)
      ensures Tenures.Succeeds(cd, GetEnv(now), old(backoff), backoff, cd.(master := c.wanted)) && Tenures.Forgets(cd, backoff, cd.(master := c.wanted))
    {
      var keepers := RemoveDeadKeepers(cd, now);
      Invariant.LiveIsSound(cd, now);
      LiveCount(cd, now);
      var live := cd.(keepers := keepers);
      var why, wanted, request, delayed := Decide(live, now);
      DecisionSucceeds(cd, GetEnv(now), old(backoff), backoff, why, wanted, request, delayed);
      live := live.(manualSwitch := request);
      if wanted == cd.master {
        next, c := KeepMaster(cd, live, GetEnv(now), proxies, uids);
      } else {
        next := Elect(live, wanted);
        c := Choices(why, wanted, request, {}, {}, cd, SyncStandbys.Inputs({}, {}, [], {}, 0, 0),
                     SyncStandbys.SyncRecord({}, {}, {}), live.dbs[wanted], map[], cd);
      }
    }
  }

  /** The record of a check, from its reports to its result. */
  lemma TurnOf(c: Reading, firstRun: bool, current: map<string, Health.KeeperInfo>, errorsBefore: Tenures.Errors, errors: Tenures.Errors,
               backoffBefore: map<string, int>, backoff: map<string, int>, merged: ClusterData, env: Env, r: Result<ClusterData>)
    returns (turn: Tenures.Turn)
    requires Tenures.Merges(c.now, c.cd, current, c.forced, firstRun, errorsBefore, errors, backoffBefore, merged) && env.now == c.now
    requires r.Ok? ==> Tenures.Succeeds(merged, env, backoffBefore, backoff, r.value) && Tenures.Forgets(merged, backoff, r.value)
    requires r.Err? ==> merged.phase == Initializing
    ensures Tenures.Took(turn, firstRun)
    ensures turn == Tenures.Turn(c.now, c.cd, current, c.forced, errorsBefore, errors, backoffBefore, backoff, merged, env,
                                 if r.Ok? then Some(r.value) else None, c.written)
  {
    turn := Tenures.Turn(c.now, c.cd, current, c.forced, errorsBefore, errors, backoffBefore, backoff, merged, env,
                         if r.Ok? then Some(r.value) else None, c.written);
    Tenures.IsTurn(turn, firstRun);
  }

  lemma WantedIsMaster(cd: ClusterData, env: Env, proxies: map<string, nat>, uids: seq<string>, c: Choices, next: ClusterData)
    requires Inv(cd) && cd.phase == Normal && Distinct(uids) && NormalStep(cd, env, proxies, uids, c, next)
    ensures next.master == c.wanted
  {
  }

  /** A decision to keep a failed master that could be replaced is a deferral. */
  lemma DecisionSucceeds(cd: ClusterData, env: Env, before: map<string, int>, after: map<string, int>,
                         why: Decision, wanted: string, request: Option<string>, delayed: bool)
    requires cd.master in cd.dbs
    requires var live := Live(cd, env.now);
             var m := cd.dbs[cd.master];
             && live.Consistent()
             && Decided(live, env, why, wanted, request)
             && (why == Keep && request == cd.manualSwitch && !delayed && !MasterOk(live, env, m) ==>
                   forall d :: d in Candidates(live, env, m) ==> SyncElection(live, m) && d !in Electable(m))
    requires delayed ==>
               && after == before[cd.master := Tenures.DeferredSince(before, cd.master, env.now)]
               && env.now - after[cd.master] < cd.spec.failInterval
    ensures Tenures.Succeeds(cd, env, before, after, cd.(master := wanted))
  {
  }

  /** Under synchronous replication only electable standbys are considered. */
  predicate PassedOver(cd: ClusterData, m: Db, db: Db) { SyncElection(cd, m) && db.uid !in Electable(m) }

  method FirstAllowedCandidate(cd: ClusterData, env: Env, m: Db, candidates: seq<Db>) returns (best: Option<Db>)
    requires cd.Consistent() && IsCandidateList(cd, env, m, candidates)
    ensures best.Some? ==> FailoverTarget(cd, env, m, best.value)
    ensures best.None? ==> forall d :: d in Candidates(cd, env, m) ==> SyncElection(cd, m) && d !in Electable(m)
  {
    var i := 0;
    while i < |candidates| && PassedOver(cd, m, candidates[i])
      invariant 0 <= i <= |candidates|
      invariant forall j :: 0 <= j < i ==> PassedOver(cd, m, candidates[j])
    {
      i := i + 1;
    }
    FirstAllowed(cd, env, m, candidates, i);
    best := if i < |candidates| then Some(candidates[i]) else None;
  }

  /** The first allowed entry of the candidate list is the failover target. */
  lemma FirstAllowed(cd: ClusterData, env: Env, m: Db, candidates: seq<Db>, i: nat)
    requires cd.Consistent() && IsCandidateList(cd, env, m, candidates) && i <= |candidates|
    requires forall j :: 0 <= j < i ==> PassedOver(cd, m, candidates[j])
    requires i < |candidates| ==> !PassedOver(cd, m, candidates[i])
    ensures i < |candidates| ==> FailoverTarget(cd, env, m, candidates[i])
    ensures i == |candidates| ==> forall d :: d in Candidates(cd, env, m) ==> SyncElection(cd, m) && d !in Electable(m)
  {
    EnumeratedAre(cd, candidates, Candidates(cd, env, m));
    CandidateOrder(cd);
    var less := (a, b) => CandidateLess(cd, a, b);
    assert i < |candidates| ==> candidates[i] in candidates;
    forall d | d in Candidates(cd, env, m)
      ensures PassedOver(cd, m, cd.dbs[d]) || (i < |candidates| && !CandidateLess(cd, cd.dbs[d], candidates[i]))
    {
      assert cd.dbs[d] in candidates;
      var j :| 0 <= j < |candidates| && candidates[j] == cd.dbs[d];
      assert i < j ==> !less(candidates[j], candidates[i]);
      assert !less(candidates[j], candidates[j]);
    }
  }

  lemma OneFailbackTarget(cd: ClusterData, env: Env, m: Db, a: Db, b: Db)
    requires cd.Consistent() && IsFailbackTarget(cd, env, m, a) && IsFailbackTarget(cd, env, m, b)
    ensures a == b
  {
    Strings.StringOrderTotal(a.uid, b.uid);
  }

  method HighestPriority(cd: ClusterData, env: Env, m: Db, candidates: seq<Db>) returns (target: Option<Db>)
    requires cd.Consistent() && IsCandidateList(cd, env, m, candidates)
    requires forall i, j :: 0 <= i < j < |candidates| ==> Precedes(cd, candidates[i], candidates[j])
    ensures target.Some? ==> IsFailbackTarget(cd, env, m, target.value)
    ensures target.None? ==> forall d :: d in Candidates(cd, env, m) ==> Priority(cd, cd.dbs[d]) <= Priority(cd, m)
  {
    var best := Priority(cd, m);
    target := None;
    ghost var at := 0;
    for i := 0 to |candidates|
      invariant best >= Priority(cd, m) && at <= i
      invariant forall j :: 0 <= j < i ==> Priority(cd, candidates[j]) <= best
      invariant forall j :: 0 <= j < at ==> Priority(cd, candidates[j]) < best
      invariant target.Some? ==> at < i && target.value == candidates[at] && Priority(cd, target.value) == best > Priority(cd, m)
      invariant target.None? ==> best == Priority(cd, m)
    {
      var p := Priority(cd, candidates[i]);
      if p > best {
        best := p;
        target := Some(candidates[i]);
        at := i;
      }
    }
    if target.Some? {
      FirstOfHighest(cd, env, m, candidates, at);
    } else {
      NoneHigher(cd, env, m, candidates);
    }
  }

  lemma FirstOfHighest(cd: ClusterData, env: Env, m: Db, candidates: seq<Db>, at: nat)
    requires cd.Consistent() && IsCandidateList(cd, env, m, candidates) && at < |candidates|
    requires forall i, j :: 0 <= i < j < |candidates| ==> Precedes(cd, candidates[i], candidates[j])
    requires Priority(cd, candidates[at]) > Priority(cd, m)
    requires forall j :: 0 <= j < |candidates| ==> Priority(cd, candidates[j]) <= Priority(cd, candidates[at])
    requires forall j :: 0 <= j < at ==> Priority(cd, candidates[j]) < Priority(cd, candidates[at])
    ensures IsFailbackTarget(cd, env, m, candidates[at])
  {
    EnumeratedAre(cd, candidates, Candidates(cd, env, m));
    var db := candidates[at];
    assert db in candidates;
    forall d | d in Candidates(cd, env, m) && d != db.uid
      ensures Priority(cd, cd.dbs[d]) < Priority(cd, db) || (Priority(cd, cd.dbs[d]) == Priority(cd, db) && Precedes(cd, db, cd.dbs[d]))
    {
      assert cd.dbs[d] in candidates;
      var j :| 0 <= j < |candidates| && candidates[j] == cd.dbs[d];
    }
  }

  lemma NoneHigher(cd: ClusterData, env: Env, m: Db, candidates: seq<Db>)
    requires cd.Consistent() && IsCandidateList(cd, env, m, candidates)
    requires forall j :: 0 <= j < |candidates| ==> Priority(cd, candidates[j]) <= Priority(cd, m)
    ensures forall d :: d in Candidates(cd, env, m) ==> Priority(cd, cd.dbs[d]) <= Priority(cd, m)
  {
    EnumeratedAre(cd, candidates, Candidates(cd, env, m));
    forall d | d in Candidates(cd, env, m)
      ensures Priority(cd, cd.dbs[d]) <= Priority(cd, m)
    {
      assert cd.dbs[d] in candidates;
    }
  }

  /** A keeper owns at most one database, so a request has one target. */
  lemma OneTarget(cd: ClusterData, env: Env, d: string)
    requires cd.Consistent() && cd.Exclusive() && cd.master in cd.dbs
    requires d in cd.dbs && cd.manualSwitch == Some(cd.dbs[d].spec.keeper)
    ensures Applicable(cd, env) <==> d == cd.master || d in Candidates(cd, env, cd.dbs[cd.master])
  {
  }

  /** Applies the operator's request, exactly when its target is the master already or is a candidate. */
  method ApplyManualSwitch(cd: ClusterData, env: Env) returns (applied: bool, wanted: string)
    requires cd.Consistent() && cd.Exclusive() && cd.master in cd.dbs
    ensures applied <==> Applicable(cd, env)
    ensures !applied ==> wanted == cd.master
    ensures applied ==> cd.manualSwitch.Some? && wanted in cd.dbs && cd.dbs[wanted].spec.keeper == cd.manualSwitch.value
    ensures applied && wanted != cd.master ==> wanted in Candidates(cd, env, cd.dbs[cd.master])
  {
    wanted := cd.master;
    if cd.manualSwitch.None? || cd.manualSwitch.value !in cd.keepers {
      return false, wanted;
    }
    var target := FindDb(cd, cd.manualSwitch.value);
    if target.None? {
      return false, wanted;
    }
    var db := target.value;
    OneTarget(cd, env, db.uid);
    if db.uid == cd.master {
      return true, wanted;
    }
    var candidates := FindBestNewMasters(cd, env, cd.dbs[cd.master]);
    EnumeratedAre(cd, candidates, Candidates(cd, env, cd.dbs[cd.master]));
    for i := 0 to |candidates|
      invariant db !in candidates[..i]
    {
      assert candidates[..i + 1] == candidates[..i] + [candidates[i]];
      if candidates[i].uid == db.uid {
        assert candidates[i] in candidates;
        return true, db.uid;
      }
    }
    assert candidates[..|candidates|] == candidates;
    return false, wanted;
  }

  /** Merging reports leaves a document that a pass can work on. */
  lemma MergedIsPassable(c: Reading, sightings: map<string, Health.Sighting>, firstRun: bool, merged: ClusterData)
    requires c.Usable() && Health.Merged(c.cd, Believed(c.infos, sightings, c.sleep, c.now, firstRun), merged)
    ensures Passable(merged, c.uids)
  {
    var current := Believed(c.infos, sightings, c.sleep, c.now, firstRun);
    assert current.Keys <= c.infos.Keys;
    KeeperCount(c.cd.keepers.Keys, c.infos.Keys, merged.keepers.Keys);
    Runs.ReportKeepsInv(c.cd, current, merged);
  }

  lemma LaterMerges(c: Reading, current: map<string, Health.KeeperInfo>, before: Tenures.Errors, errors: Tenures.Errors, backoff: map<string, int>, merged: ClusterData)
    requires c.cd.Consistent() && Health.Merged(c.cd, current, merged)
    requires Health.KeepersAfter(c.cd.keepers, current, c.now, merged.keepers)
    requires errors.keepers == Health.NextTimers(before.keepers, merged.keepers.Keys, merged.keepers.Keys - current.Keys, c.now)
    requires Health.Judged(merged.keepers, errors.keepers, c.forced, c.cd.spec.failInterval, c.now)
    requires errors.dbs == Health.NextTimers(before.dbs, c.cd.dbs.Keys, Health.FailingDbs(c.cd, current), c.now)
    requires forall d :: d in c.cd.dbs ==> DbJudged(c.cd, current, errors.dbs, c.now, merged, d)
    ensures Tenures.Merges(c.now, c.cd, current, c.forced, false, before, errors, backoff, merged)
  {
    forall d | d in c.cd.dbs
      ensures d in merged.dbs && (merged.dbs[d].status.healthy <==> Trusted(c, errors, merged, d))
    {
      OneDbTrusted(c, current, errors, merged, d);
    }
  }

  predicate Trusted(c: Reading, errors: Tenures.Errors, merged: ClusterData, d: string)
    requires d in c.cd.dbs
  {
    && Health.Trusted(errors.dbs, d, c.cd.spec.failInterval, c.now)
    && c.cd.dbs[d].spec.keeper in merged.keepers && merged.keepers[c.cd.dbs[d].spec.keeper].healthy
  }

  lemma OneDbTrusted(c: Reading, current: map<string, Health.KeeperInfo>, errors: Tenures.Errors, merged: ClusterData, d: string)
    requires d in c.cd.dbs && DbJudged(c.cd, current, errors.dbs, c.now, merged, d)
    ensures d in merged.dbs && (merged.dbs[d].status.healthy <==> Trusted(c, errors, merged, d))
  {
  }

  lemma KeeperCount(before: set<string>, heard: set<string>, after: set<string>)
    requires after <= before + heard
    ensures |after| <= |before| + |heard|
  {
    SyncStandbys.SubsetSize(after, before + heard);
    assert before + heard == before + (heard - before);
    SyncStandbys.SubsetSize(heard - before, heard);
  }

  /** A check of a sentinel is a step of the document's runs. */
  lemma CheckMoves(turn: Tenures.Turn, firstRun: bool, used: set<string>, proxies: map<string, nat>, uids: seq<string>)
    requires Tenures.Took(turn, firstRun) && turn.reported.Consistent() && Distinct(uids) && turn.result.Some?
    requires forall u :: u in uids ==> u !in used && u != NO_UID
    requires Step(turn.reported, turn.env, proxies, uids, turn.result.value)
    ensures Runs.Moves(Runs.State(turn.cd, used), Runs.Check(turn.current, turn.reported, turn.env, proxies, uids),
                       Runs.State(turn.result.value, used + turn.result.value.dbs.Keys))
  {
  }

  lemma LiveCount(cd: ClusterData, now: int)
    ensures |LiveKeepers(cd, now)| <= |cd.keepers|
  {
    SyncStandbys.SubsetSize(LiveKeepers(cd, now).Keys, cd.keepers.Keys);
  }

  /** Chooses the first master, or follows up on the one chosen. */
  method Initialize(cd: ClusterData, env: Env, uid: string) returns (r: Result<ClusterData>)
    requires Inv(cd) && cd.phase == Initializing
    ensures r.Ok? ==> InitStep(cd, env, uid, r.value) && forall d :: d in r.value.dbs ==> r.value.dbs[d].uid == d
    ensures r.Err? <==> cd.master == NO_UID && (if cd.spec.initMode == InitExisting then cd.spec.existingKeeper !in cd.keepers else cd.keepers == map[])
  {
    if cd.master == NO_UID {
      var keeper;
      if cd.spec.initMode == InitExisting {
        keeper := cd.spec.existingKeeper;
        if keeper !in cd.keepers {
          return Err;
        }
      } else {
        if |cd.keepers| < 1 {
          return Err;
        }
        keeper :| keeper in cd.keepers;
      }
      return Ok(cd.(master := uid, dbs := cd.dbs[uid := InitialDb(cd, uid, keeper)]));
    }
    var m := cd.dbs[cd.master];
    if cd.spec.initMode == InitExisting {
      return Ok(if m.status.healthy && m.status.generation == m.generation then InitDone(cd) else cd);
    }
    match ConvergenceOf(env, m, cd.spec.initTimeout)
    case Converged => return Ok(if m.status.healthy then InitDone(cd) else cd);
    case StillConverging => return Ok(cd);
    case ConvergenceFailed => return Ok(cd.(master := NO_UID, dbs := map[]));
  }
}
