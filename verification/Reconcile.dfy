/**
 * What one pass of the sentinel does to the cluster document.
 *
 * The pass is described stage by stage.  Stages that do not depend on the order
 * in which maps are walked are functions; the ones that do are relations.
 * `Step` puts the stages together; the methods of `Sentinels.Sentinel` are
 * proved to take only such steps.
 */
module Reconcile {
  import opened Cluster
  import opened Options
  import opened Selection
  import Fencing
  import SyncStandbys
  import Slots
  import Wal

  /** Entries are filed properly, no keeper owns two databases, and generations have started. */
  ghost predicate Sound(cd: ClusterData) {
    && cd.Consistent()
    && cd.Exclusive()
    && forall d :: d in cd.dbs ==> d != NO_UID && cd.dbs[d].generation >= INITIAL_GENERATION
  }

  /** The master of the document is one of its primary-line databases. */
  predicate HasMaster(cd: ClusterData) { cd.master in cd.dbs && TypeOf(cd.dbs[cd.master]) == PrimaryLine }

  /** What every pass relies on and keeps. */
  ghost predicate Inv(cd: ClusterData) {
    && Sound(cd)
    && cd.spec.Valid()
    && match cd.phase
       case Normal => HasMaster(cd)
       case Initializing => if cd.master == NO_UID then cd.dbs == map[] else HasMaster(cd) && cd.dbs.Keys == {cd.master}
  }

  // ----------------------------------------------------------- dead keepers

  predicate Assigned(cd: ClusterData, k: string) {
    exists d :: d in cd.dbs && cd.dbs[d].spec.keeper == k
  }

  /** Keepers that own a database, or were healthy recently enough. */
  function LiveKeepers(cd: ClusterData, now: int): map<string, Keeper> {
    map k | k in cd.keepers && (Assigned(cd, k) || now <= cd.keepers[k].lastHealthy + cd.spec.deadKeeperRemoval) :: cd.keepers[k]
  }

  function Live(cd: ClusterData, now: int): ClusterData { cd.(keepers := LiveKeepers(cd, now)) }

  // ---------------------------------------------------------------- election

  predicate MasterOk(cd: ClusterData, env: Env, m: Db) {
    m.status.healthy && ConvergenceOf(env, m, cd.spec.convergenceTimeout) != ConvergenceFailed
  }

  /** The standbys an automatic failover may choose from under synchronous replication. */
  function Electable(m: Db): set<string> { m.status.syncStandbys * m.spec.syncStandbys }

  predicate SyncElection(cd: ClusterData, m: Db) { m.spec.syncRepl && cd.spec.syncRepl }

  /** `db` is the first candidate that the replication mode allows. */
  ghost predicate FailoverTarget(cd: ClusterData, env: Env, m: Db, db: Db)
    requires cd.Consistent()
  {
    && db.uid in Candidates(cd, env, m) && cd.dbs[db.uid] == db
    && (SyncElection(cd, m) ==> db.uid in Electable(m))
    && forall d :: d in Candidates(cd, env, m) && (SyncElection(cd, m) ==> d in Electable(m)) ==> !CandidateLess(cd, cd.dbs[d], db)
  }

  datatype Decision = Keep | ManualSwitch | Failover | AutoFailback

  /** The operator's request names the keeper of the master or of a candidate. */
  ghost predicate Applicable(cd: ClusterData, env: Env)
    requires cd.Consistent() && cd.master in cd.dbs
  {
    && cd.manualSwitch.Some?
    && exists d ::
         && d in cd.dbs && cd.dbs[d].spec.keeper == cd.manualSwitch.value
         && (d == cd.master || d in Candidates(cd, env, cd.dbs[cd.master]))
  }

  /** `db` is the first candidate of the highest priority, and that is higher than the priority of `m`. */
  ghost predicate IsFailbackTarget(cd: ClusterData, env: Env, m: Db, db: Db)
    requires cd.Consistent()
  {
    && db.uid in Candidates(cd, env, m) && cd.dbs[db.uid] == db
    && Priority(cd, db) > Priority(cd, m)
    && forall d :: d in Candidates(cd, env, m) && d != db.uid ==>
         Priority(cd, cd.dbs[d]) < Priority(cd, db) || (Priority(cd, cd.dbs[d]) == Priority(cd, db) && Precedes(cd, db, cd.dbs[d]))
  }

  /** Why the pass wants `wanted` as master, and what is left of the operator's request. */
  ghost predicate Decided(cd: ClusterData, env: Env, why: Decision, wanted: string, request: Option<string>)
    requires cd.Consistent() && cd.master in cd.dbs
  {
    var m := cd.dbs[cd.master];
    && (Applicable(cd, env) ==> request == None)
    && match why
    case Keep =>
      && wanted == cd.master
      && (request == cd.manualSwitch || (request == None && m.spec.keeper == cd.manualSwitch.value))
    case ManualSwitch =>
      && cd.manualSwitch.Some? && request == None
      && wanted != cd.master && wanted in Candidates(cd, env, m)
      && cd.dbs[wanted].spec.keeper == cd.manualSwitch.value
    case Failover =>
      && request == cd.manualSwitch
      && !MasterOk(cd, env, m)
      && wanted != cd.master && wanted in cd.dbs && FailoverTarget(cd, env, m, cd.dbs[wanted])
    case AutoFailback =>
      && request == cd.manualSwitch
      && MasterOk(cd, env, m) && cd.spec.unsafeAutoFailback
      && wanted != cd.master && wanted in cd.dbs && IsFailbackTarget(cd, env, m, cd.dbs[wanted])
  }

  function MasterRole(cd: ClusterData): Role { cd.spec.role }

  function MasterFollow(cd: ClusterData): Follow { if cd.spec.role == Standby then External else NoFollow }

  function ElectedSpec(cd: ClusterData, prior: Db, elected: Db): DbSpec {
    var spec := elected.spec.(role := MasterRole(cd), follow := MasterFollow(cd));
    if cd.spec.SyncRepl() then
      var standbys := SyncStandbys.HandedOver(prior.spec.syncStandbys, prior.uid, elected.uid);
      spec.(syncRepl := true, syncStandbys := standbys,
            external := if standbys == {} && cd.spec.minSync > 0 then {SyncStandbys.FAKE_STANDBY} else {})
    else
      spec.(syncRepl := false, syncStandbys := {}, external := {})
  }

  function AfterElection(cd: ClusterData, wanted: string): ClusterData
    requires cd.master in cd.dbs && wanted in cd.dbs
  {
    var prior, elected := cd.dbs[cd.master], cd.dbs[wanted];
    cd.(master := wanted,
        dbs := cd.dbs[cd.master := prior.(spec := prior.spec.(followers := {}))]
                     [wanted := elected.(spec := ElectedSpec(cd, prior, elected))],
        fence := Fencing.ClosedFence(cd.fence))
  }

  /** The master takes the role the cluster spec asks for. */
  function WithMasterRole(cd: ClusterData): ClusterData
    requires cd.master in cd.dbs
  {
    if cd.spec.role == Master then
      var m := cd.dbs[cd.master];
      cd.(dbs := cd.dbs[cd.master := m.(spec := m.spec.(role := Master, follow := NoFollow))])
    else cd
  }

  // ---------------------------------------------------------------- clean-up

  /** `db` can no longer catch up: it has stalled and the master has recycled the WAL it needs. */
  ghost predicate CannotSync(cd: ClusterData, env: Env, d: string) {
    && d in cd.dbs && cd.master in cd.dbs
    && var m, db := cd.dbs[cd.master], cd.dbs[d];
       && m.status.olderWal != ""
       && d != m.uid
       && TypeOf(db) == ReplicaLine
       && db.generation != INITIAL_GENERATION
       && db.status.healthy
       && db.status.xlog != m.status.xlog
       && d in env.stalled
       && Wal.IsWalName(m.status.olderWal)
       && !Wal.NotBefore(db.status.xlog, WAL_SEGMENT_SIZE, m.status.olderWal)
  }

  /**
   * The databases that go when the master is healthy and converged: other
   * primary-line ones, invalid ones, and ones that cannot catch up.  `before`
   * is the document the pass started from.
   */
  ghost predicate CleanedAway(before: ClusterData, cd: ClusterData, env: Env, d: string) {
    && d in cd.dbs
    && (|| (d != cd.master && (TypeOf(cd.dbs[d]) == PrimaryLine || ValidityOf(cd, cd.dbs[d]) == Invalid))
        || CannotSync(before, env, d))
  }

  ghost function Cleaned(before: ClusterData, cd: ClusterData, env: Env): ClusterData {
    cd.(dbs := map d | d in cd.dbs && !CleanedAway(before, cd, env, d) :: cd.dbs[d])
  }

  // ----------------------------------------------------------- sync standbys

  /** Good standbys have nothing left to initialize. */
  function WithInitDone(cd: ClusterData, good: set<string>): ClusterData {
    cd.(dbs := map d | d in cd.dbs ::
          if d in good then cd.dbs[d].(spec := cd.dbs[d].spec.(initMode := InitNone)) else cd.dbs[d])
  }

  function SyncRecordOf(m: Db): SyncStandbys.SyncRecord {
    SyncStandbys.SyncRecord(m.spec.syncStandbys, m.status.syncStandbys, m.spec.external)
  }

  ghost predicate SyncInputs(cd: ClusterData, env: Env, m: Db, good: set<string>, inp: SyncStandbys.Inputs)
    requires cd.Consistent()
  {
    && inp.present == cd.dbs.Keys
    && inp.good == good
    && inp.minSync == cd.spec.minSync
    && inp.maxSync == cd.spec.maxSync
    && (forall x :: x in inp.best <==> x in BestStandbys(cd, env, m))
    && (forall i, j :: 0 <= i < j < |inp.best| && inp.best[i] in cd.dbs && inp.best[j] in cd.dbs
          ==> cd.dbs[inp.best[i]].status.xlog <= cd.dbs[inp.best[j]].status.xlog)
    && (forall x :: x in inp.barred <==> x in cd.dbs && cd.keepers[cd.dbs[x].spec.keeper].canBeSync == Some(false))
  }

  function WithSync(m: Db, rec: SyncStandbys.SyncRecord, syncRepl: bool): Db {
    m.(spec := m.spec.(syncRepl := syncRepl, syncStandbys := rec.required, external := rec.external),
       status := m.status.(syncStandbys := rec.known))
  }

  /** `next` is the master after the sync section. */
  ghost predicate SyncUpdated(cd: ClusterData, inp: SyncStandbys.Inputs, rec: SyncStandbys.SyncRecord, next: Db)
    requires cd.master in cd.dbs
  {
    var m := cd.dbs[cd.master];
    if cd.spec.SyncRepl() then
      && SyncStandbys.Reconciled(SyncRecordOf(m), m.status.reportedSync, inp, rec)
      && next == WithSync(m, rec, m.spec.syncRepl || !SyncStandbys.Waits(SyncRecordOf(m), m.status.reportedSync, inp))
    else
      next == WithSync(m, SyncStandbys.SyncRecord({}, {}, {}), false)
  }

  // ------------------------------------------------------- number of standbys

  function NewStandby(uid: string, keeper: string, master: string): Db {
    Db(uid, INITIAL_GENERATION,
       DbSpec(keeper, InitResync, Standby, Internal(master), false, {}, false, {}, {}, NoSettings), NEW_STATUS)
  }

  predicate Free(cd: ClusterData, k: string) { k in cd.keepers && cd.keepers[k].healthy && !Assigned(cd, k) }

  /** Databases the master does not need as synchronous standbys are removed when there are enough good ones. */
  ghost predicate Trimmed(cd: ClusterData, good: set<string>, dbs: map<string, Db>)
    requires cd.master in cd.dbs
  {
    exists excess: set<string> :: TrimmedOf(cd, good, excess, dbs)
  }

  /** The good standbys that go are `excess`; the ones neither good nor required go in any case. */
  ghost predicate TrimmedOf(cd: ClusterData, good: set<string>, excess: set<string>, dbs: map<string, Db>)
    requires cd.master in cd.dbs
  {
    var required := cd.dbs[cd.master].spec.syncStandbys;
    var failing := set d | d in cd.dbs && TypeOf(cd.dbs[d]) == ReplicaLine && d !in required && d !in good;
    && excess <= good - required
    && |excess| == SyncStandbys.Min(|good| - cd.spec.maxStandbysPerSender, |good - required|)
    && dbs == map d | d in cd.dbs && d !in failing && d !in excess :: cd.dbs[d]
  }

  ghost predicate Distinct(s: seq<string>) { forall i, j :: 0 <= i < j < |s| ==> s[i] != s[j] }

  /** The i-th new UID goes to the i-th keeper. */
  ghost function NewStandbys(uids: seq<string>, keepers: seq<string>, master: string): map<string, Db>
    requires |keepers| <= |uids|
  {
    if keepers == [] then map[]
    else
      var n := |keepers| - 1;
      NewStandbys(uids, keepers[..n], master)[uids[n] := NewStandby(uids[n], keepers[n], master)]
  }

  lemma {:induction false} NewStandbysAre(uids: seq<string>, keepers: seq<string>, master: string)
    requires |keepers| <= |uids| && Distinct(uids)
    ensures forall u :: u in NewStandbys(uids, keepers, master) ==> u in uids
    ensures forall u :: u in NewStandbys(uids, keepers, master) ==>
              exists i :: 0 <= i < |keepers| && u == uids[i] && NewStandbys(uids, keepers, master)[u] == NewStandby(u, keepers[i], master)
  {
    if keepers != [] {
      var n := |keepers| - 1;
      NewStandbysAre(uids, keepers[..n], master);
    }
  }

  /** Missing standbys are created on free keepers, at most one on each, as long as there are any. */
  ghost predicate Extended(cd: ClusterData, uids: seq<string>, missing: int, dbs: map<string, Db>)
    requires Distinct(uids)
  {
    exists keepers: seq<string> ::
      && |keepers| <= |uids|
      && Distinct(keepers)
      && (forall k :: k in keepers ==> Free(cd, k))
      && |keepers| <= (if missing < 0 then 0 else missing)
      && (|keepers| < missing ==> forall k :: Free(cd, k) ==> k in keepers)
      && dbs == cd.dbs + NewStandbys(uids, keepers, cd.master)
  }

  // ------------------------------------------------------ standbys, followers

  function ReplicaSpec(spec: DbSpec, master: string): DbSpec {
    spec.(role := Standby, followers := {}, follow := Internal(master), syncRepl := false, syncStandbys := {}, external := {})
  }

  function Reconfigured(cd: ClusterData): ClusterData {
    cd.(dbs := map d | d in cd.dbs ::
          if TypeOf(cd.dbs[d]) == ReplicaLine then cd.dbs[d].(spec := ReplicaSpec(cd.dbs[d].spec, cd.master)) else cd.dbs[d])
  }

  /** The old master's follower list names whoever follows the wanted one. */
  function FollowersOf(cd: ClusterData, self: string, wanted: string): set<string> {
    set d | d in cd.dbs && d != self && cd.dbs[d].spec.follow == Internal(wanted)
  }

  function WithFollowers(cd: ClusterData, self: string, wanted: string): ClusterData
    requires self in cd.dbs
  {
    var m := cd.dbs[self];
    cd.(dbs := cd.dbs[self := m.(spec := m.spec.(followers := FollowersOf(cd, self, wanted)))])
  }

  // -------------------------------------------------------------- finishing

  function WithSettings(cd: ClusterData): ClusterData {
    cd.(dbs := map d | d in cd.dbs ::
          cd.dbs[d].(spec := cd.dbs[d].spec.(settings :=
            if TypeOf(cd.dbs[d]) == PrimaryLine then PrimarySettings(cd.spec.settings) else ReplicaSettings(cd.spec.settings))))
  }

  function FollowersBefore(before: ClusterData, d: string): set<string> {
    if d in before.dbs then before.dbs[d].spec.followers else {}
  }

  function WithOrphans(before: ClusterData, cd: ClusterData, now: int): ClusterData {
    if cd.master in cd.dbs then
      var m := cd.dbs[cd.master];
      var orphans := if cd.spec.slotTtl > 0
                     then Slots.Orphans(FollowersBefore(before, cd.master), m.spec.followers, m.status.orphans,
                                        before.master != NO_UID && before.master != cd.master, now)
                     else map[];
      cd.(dbs := cd.dbs[cd.master := m.(status := m.status.(orphans := orphans))])
    else cd
  }

  /** A database whose spec changed gets the next generation. */
  function WithGenerations(before: ClusterData, cd: ClusterData): ClusterData {
    cd.(dbs := map d | d in cd.dbs ::
          if d in before.dbs && cd.dbs[d].spec != before.dbs[d].spec
          then cd.dbs[d].(generation := cd.dbs[d].generation + 1) else cd.dbs[d])
  }

  function Finished(before: ClusterData, cd: ClusterData, now: int): ClusterData {
    WithGenerations(before, WithOrphans(before, WithSettings(cd), now))
  }

  // ---------------------------------------------------------- initialization

  function InitialDb(cd: ClusterData, uid: string, keeper: string): Db {
    var standby := cd.spec.initMode == InitPitr && cd.spec.role == Standby;
    Db(uid, INITIAL_GENERATION,
       DbSpec(keeper, cd.spec.initMode, if standby then Standby else Master, if standby then External else NoFollow,
              true, {}, false, {}, {}, NoSettings), NEW_STATUS)
  }

  function InitDone(cd: ClusterData): ClusterData
    requires cd.master in cd.dbs
  {
    var m := cd.dbs[cd.master];
    cd.(phase := Normal, dbs := cd.dbs[cd.master := m.(spec := m.spec.(initMode := InitNone, includeConfig := false))])
  }

  /** One pass over a cluster that is not initialized yet, before finishing. */
  ghost predicate InitStep(cd: ClusterData, env: Env, uid: string, next: ClusterData) {
    if cd.master == NO_UID then
      exists k ::
        && k in cd.keepers
        && (cd.spec.initMode == InitExisting ==> k == cd.spec.existingKeeper)
        && next == cd.(master := uid, dbs := cd.dbs[uid := InitialDb(cd, uid, k)])
    else
      && cd.master in cd.dbs
      && var m := cd.dbs[cd.master];
         if cd.spec.initMode == InitExisting then
           next == if m.status.healthy && m.status.generation == m.generation then InitDone(cd) else cd
         else
           match ConvergenceOf(env, m, cd.spec.initTimeout)
           case Converged => next == if m.status.healthy then InitDone(cd) else cd
           case StillConverging => next == cd
           case ConvergenceFailed => next == cd.(master := NO_UID, dbs := map[])
  }

  // ---------------------------------------------------------------- the step

  /** The choices a pass makes, and the intermediate documents they lead to. */
  datatype Choices = Choices(
    why: Decision,
    wanted: string,
    request: Option<string>,
    good: set<string>,
    converging: set<string>,
    ready: ClusterData,
    inputs: SyncStandbys.Inputs,
    sync: SyncStandbys.SyncRecord,
    master: Db,
    resized: map<string, Db>,
    maintained: ClusterData
  )

  /** The standbys left after clean-up, with the good ones marked as initialized. */
  ghost predicate Prepared(before: ClusterData, cd: ClusterData, env: Env, good: set<string>, converging: set<string>, ready: ClusterData)
    requires cd.Consistent()
  {
    var clean := Cleaned(before, cd, env);
    && good == ByStatus(clean, env, ReplicaLine, Good)
    && converging == ByStatus(clean, env, ReplicaLine, Converging)
    && ready == WithInitDone(clean, good)
  }

  /** The number of standbys is brought towards MaxStandbysPerSender. */
  ghost predicate Resized(cd: ClusterData, good: set<string>, converging: set<string>, uids: seq<string>, dbs: map<string, Db>)
    requires cd.master in cd.dbs && Distinct(uids)
  {
    if |good| >= cd.spec.maxStandbysPerSender then Trimmed(cd, good, dbs)
    else Extended(cd, uids, cd.spec.maxStandbysPerSender - |good| - |converging|, dbs)
  }

  /** Maintenance under a healthy and converged master. */
  ghost predicate Maintained(before: ClusterData, cd: ClusterData, env: Env, uids: seq<string>, c: Choices, next: ClusterData)
    requires cd.Consistent() && cd.master in before.dbs && Distinct(uids)
  {
    && Prepared(before, cd, env, c.good, c.converging, c.ready)
    && cd.master in c.ready.dbs
    && c.ready.Consistent()
    && (cd.spec.SyncRepl() ==> SyncInputs(c.ready, env, before.dbs[cd.master], c.good, c.inputs))
    && SyncUpdated(c.ready, c.inputs, c.sync, c.master)
    && var synced := c.ready.(dbs := c.ready.dbs[cd.master := c.master]);
       && Resized(synced, c.good, c.converging, uids, c.resized)
       && next == Reconfigured(synced.(dbs := c.resized))
  }

  /** The fence moved on and the master given its role. */
  function Opened(cd: ClusterData, proxies: map<string, nat>): ClusterData
    requires cd.master in cd.dbs
  {
    WithMasterRole(cd.(fence := Fencing.NextFence(cd.fence, cd.master, proxies)))
  }

  /** The pass keeps the current master. */
  ghost predicate KeepsMaster(before: ClusterData, cd: ClusterData, env: Env, proxies: map<string, nat>, uids: seq<string>, c: Choices, next: ClusterData)
    requires cd.Consistent() && cd.master in before.dbs && cd.master in cd.dbs && Distinct(uids)
  {
    var open := Opened(cd, proxies);
    var m := open.dbs[cd.master];
    if m.status.healthy && m.status.generation == m.generation then
      && Maintained(before, open, env, uids, c, c.maintained)
      && cd.master in c.maintained.dbs
      && next == WithFollowers(c.maintained, cd.master, cd.master)
    else
      next == WithFollowers(open, cd.master, cd.master)
  }

  ghost predicate NormalStep(before: ClusterData, env: Env, proxies: map<string, nat>, uids: seq<string>, c: Choices, next: ClusterData)
    requires before.Consistent() && before.master in before.dbs && Distinct(uids)
  {
    var live := Live(before, env.now);
    && live.Consistent()
    && Decided(live, env, c.why, c.wanted, c.request)
    && var cd := live.(manualSwitch := c.request);
       if c.why == Keep then KeepsMaster(before, cd, env, proxies, uids, c, next)
       else next == WithFollowers(AfterElection(cd, c.wanted), before.master, c.wanted)
  }

  /** One pass takes document `cd` to `next`. */
  ghost predicate Step(cd: ClusterData, env: Env, proxies: map<string, nat>, uids: seq<string>, next: ClusterData)
    requires cd.Consistent() && Distinct(uids)
  {
    match cd.phase
    case Initializing =>
      exists mid ::
        && (exists u :: u in uids && InitStep(cd, env, u, mid))
        && next == Finished(cd, mid, env.now)
    case Normal =>
      if cd.pause.Active(env.now) then next == cd
      else
        && cd.master in cd.dbs
        && exists c, mid ::
             && NormalStep(cd, env, proxies, uids, c, mid)
             && next == Finished(cd, mid, env.now)
  }
}
