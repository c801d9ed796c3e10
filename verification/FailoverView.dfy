/**
 * The link between the sentinel's pass and the durability argument: every pass
 * under synchronous replication that is not told otherwise by an operator moves
 * the document the way `Durability` assumes.
 */
module FailoverView {
  import opened Cluster
  import opened Invariant
  import opened Options
  import opened Reconcile
  import opened Selection
  import Durability
  import Health
  import Runs
  import SyncStandbys

  /** What the keeper writes to synchronous_standby_names. */
  function NamesOf(spec: DbSpec): set<string> { if spec.syncRepl then spec.syncStandbys + spec.external else {} }

  function RecordOf(db: Db): Durability.Record {
    Durability.Record(db.generation, NamesOf(db.spec), db.spec.syncStandbys, db.status.syncStandbys, TypeOf(db) == PrimaryLine)
  }

  function View(cd: ClusterData): Durability.Doc {
    Durability.Doc(cd.master, map d | d in cd.dbs :: RecordOf(cd.dbs[d]))
  }

  /** Required standbys are configured. */
  predicate Shaped(db: Db) { !db.spec.syncRepl ==> db.spec.syncStandbys == {} }

  ghost predicate AllShaped(cd: ClusterData) { forall d :: d in cd.dbs ==> Shaped(cd.dbs[d]) }

  predicate SameSync(a: DbSpec, b: DbSpec) { b.syncRepl == a.syncRepl && b.syncStandbys == a.syncStandbys && b.external == a.external }

  predicate Beside(a: Db, b: Db) {
    && b.status.syncStandbys == a.status.syncStandbys
    && TypeOf(b) == TypeOf(a)
    && (TypeOf(a) == PrimaryLine ==> SameSync(a.spec, b.spec))
    && (Shaped(a) ==> Shaped(b))
  }

  predicate Newborn(b: Db) { b.status.syncStandbys == {} && TypeOf(b) == ReplicaLine && Shaped(b) }

  /** Databases other than `m` move as bystanders. */
  ghost predicate Aside(cd: ClusterData, next: ClusterData, m: string) {
    forall d :: d in next.dbs && d != m ==> if d in cd.dbs then Beside(cd.dbs[d], next.dbs[d]) else Newborn(next.dbs[d])
  }

  lemma AsideTwice(a: ClusterData, b: ClusterData, c: ClusterData, m: string)
    requires Aside(a, b, m) && Aside(b, c, m)
    requires forall d :: d in c.dbs && d in a.dbs ==> d in b.dbs
    ensures Aside(a, c, m)
  {
  }

  // -------------------------------------------------------- keeping the master

  lemma OpenedAside(cd: ClusterData, proxies: map<string, nat>)
    requires cd.master in cd.dbs
    ensures Aside(cd, Opened(cd, proxies), cd.master)
    ensures var m := Opened(cd, proxies).dbs[cd.master]; SameSync(cd.dbs[cd.master].spec, m.spec) && m.status == cd.dbs[cd.master].status
  {
  }

  lemma PreparedAside(before: ClusterData, cd: ClusterData, env: Env, good: set<string>, converging: set<string>, ready: ClusterData)
    requires Sound(cd) && HasMaster(cd) && before.Consistent() && before.master == cd.master && cd.master in before.dbs
    requires Prepared(before, cd, env, good, converging, ready)
    ensures Aside(cd, ready, cd.master) && cd.master in ready.dbs && ready.dbs[cd.master] == cd.dbs[cd.master]
  {
  }

  lemma ResizedAside(cd: ClusterData, good: set<string>, converging: set<string>, uids: seq<string>, dbs: map<string, Db>)
    requires Sound(cd) && HasMaster(cd) && cd.master !in good && Fresh(cd, uids) && OthersReplicate(cd)
    requires Resized(cd, good, converging, uids, dbs)
    ensures Aside(cd, cd.(dbs := dbs), cd.master)
  {
    if |good| >= cd.spec.maxStandbysPerSender {
      TrimmedIsSound(cd, good, dbs);
    } else {
      ExtendedIsSound(cd, uids, cd.spec.maxStandbysPerSender - |good| - |converging|, dbs);
      GrownAside(cd, uids, dbs);
    }
  }

  lemma GrownAside(cd: ClusterData, uids: seq<string>, dbs: map<string, Db>)
    requires Grows(cd, uids, dbs)
    ensures Aside(cd, cd.(dbs := dbs), cd.master)
  {
  }

  lemma ReconfiguredAside(cd: ClusterData)
    requires HasMaster(cd)
    ensures Aside(cd, Reconfigured(cd), cd.master) && Reconfigured(cd).dbs[cd.master] == cd.dbs[cd.master]
  {
  }

  lemma SyncedAside(before: ClusterData, cd: ClusterData, env: Env, uids: seq<string>, c: Choices, next: ClusterData)
    requires Sound(cd) && HasMaster(cd) && before.Consistent() && before.master == cd.master && cd.master in before.dbs && Distinct(uids)
    requires Maintained(before, cd, env, uids, c, next)
    ensures Aside(cd, Synced(c), cd.master)
    ensures cd.master in c.ready.dbs && c.ready.dbs[cd.master] == cd.dbs[cd.master] && c.ready.master == cd.master && c.ready.spec == cd.spec
  {
    PreparedAside(before, cd, env, c.good, c.converging, c.ready);
  }

  lemma RestAside(cd: ClusterData, good: set<string>, converging: set<string>, uids: seq<string>, dbs: map<string, Db>)
    requires Sound(cd) && HasMaster(cd) && cd.master !in good && Fresh(cd, uids) && OthersReplicate(cd)
    requires Resized(cd, good, converging, uids, dbs)
    ensures var next := Reconfigured(cd.(dbs := dbs));
            Aside(cd, next, cd.master) && cd.master in next.dbs && next.dbs[cd.master] == cd.dbs[cd.master]
  {
    ResizedIsSound(cd, good, converging, uids, dbs);
    ResizedAside(cd, good, converging, uids, dbs);
    var resized := cd.(dbs := dbs);
    ReconfiguredAside(resized);
    AsideTwice(cd, resized, Reconfigured(resized), cd.master);
  }

  lemma MaintainedAside(before: ClusterData, cd: ClusterData, env: Env, uids: seq<string>, c: Choices, next: ClusterData)
    requires Sound(cd) && HasMaster(cd) && before.Consistent() && before.master == cd.master && cd.master in before.dbs && Fresh(cd, uids)
    requires Maintained(before, cd, env, uids, c, next)
    ensures Aside(cd, next, cd.master) && cd.master in next.dbs && next.dbs[cd.master] == c.master
  {
    SyncedIsSound(before, cd, env, uids, c, next);
    SyncedAside(before, cd, env, uids, c, next);
    RestAside(Synced(c), c.good, c.converging, uids, c.resized);
    MaintainedIsSound(before, cd, env, uids, c, next);
    OnlySurvivors(before, cd, env, uids, c, next);
    AsideTwice(cd, Synced(c), next, cd.master);
  }

  /** A pass never brings back a database it removed. */
  lemma OnlySurvivors(before: ClusterData, cd: ClusterData, env: Env, uids: seq<string>, c: Choices, next: ClusterData)
    requires Sound(cd) && HasMaster(cd) && before.Consistent() && before.master == cd.master && cd.master in before.dbs && Fresh(cd, uids)
    requires Maintained(before, cd, env, uids, c, next)
    ensures forall d :: d in next.dbs && d in cd.dbs ==> d in Synced(c).dbs
  {
    SyncedIsSound(before, cd, env, uids, c, next);
    ResizedIsSound(Synced(c), c.good, c.converging, uids, c.resized);
  }

  /** What a pass that keeps the master may do to the sets that decide a failover. */
  predicate MasterKept(a: Db, b: Db, sync: set<string>) {
    && TypeOf(b) == TypeOf(a)
    && b.spec.syncRepl
    && Electable(b) <= a.spec.syncStandbys
    && Electable(b) <= Electable(a) + sync
  }

  lemma MaintainedMaster(before: ClusterData, cd: ClusterData, env: Env, uids: seq<string>, c: Choices, next: ClusterData)
    requires Sound(cd) && HasMaster(cd) && before.Consistent() && before.master == cd.master && cd.master in before.dbs && Distinct(uids)
    requires Maintained(before, cd, env, uids, c, next)
    requires cd.spec.SyncRepl() && cd.dbs[cd.master].spec.syncRepl
    ensures MasterKept(cd.dbs[cd.master], c.master, cd.dbs[cd.master].status.reportedSync)
  {
    SyncedAside(before, cd, env, uids, c, next);
    var m := cd.dbs[cd.master];
    SyncStandbys.ElectableWasRequired(SyncRecordOf(m), m.status.reportedSync, c.inputs, c.sync);
    SyncKeepsShape(c.ready, c.inputs, c.sync, c.master);
  }

  function ReplicasOf(cd: ClusterData): set<string> { set d | d in cd.dbs && TypeOf(cd.dbs[d]) == ReplicaLine }

  /** Standbys become required only as replicas of the document. */
  lemma MaintainedRequired(before: ClusterData, cd: ClusterData, env: Env, uids: seq<string>, c: Choices, next: ClusterData)
    requires Sound(cd) && HasMaster(cd) && before.Consistent() && before.master == cd.master && cd.master in before.dbs && Distinct(uids)
    requires Maintained(before, cd, env, uids, c, next)
    ensures c.master.spec.syncStandbys <= cd.dbs[cd.master].spec.syncStandbys + ReplicasOf(cd)
  {
    SyncedAside(before, cd, env, uids, c, next);
    if cd.spec.SyncRepl() {
      PreparedAside(before, cd, env, c.good, c.converging, c.ready);
      ReadyIsWithin(before, cd, env, c.good, c.converging, c.ready);
      var m := cd.dbs[cd.master];
      SyncStandbys.RequiredComesFrom(SyncRecordOf(m), m.status.reportedSync, c.inputs, c.sync);
      BestAreReplicas(c.ready, env, before.dbs[cd.master]);
    }
  }

  lemma ReadyIsWithin(before: ClusterData, cd: ClusterData, env: Env, good: set<string>, converging: set<string>, ready: ClusterData)
    requires cd.Consistent() && Prepared(before, cd, env, good, converging, ready)
    ensures forall d :: d in ready.dbs ==> d in cd.dbs && TypeOf(ready.dbs[d]) == TypeOf(cd.dbs[d])
  {
  }

  lemma BestAreReplicas(cd: ClusterData, env: Env, m: Db)
    requires cd.Consistent()
    ensures BestStandbys(cd, env, m) <= ReplicasOf(cd)
  {
  }

  lemma OpenedReplicas(cd: ClusterData, proxies: map<string, nat>)
    requires HasMaster(cd)
    ensures ReplicasOf(Opened(cd, proxies)) == ReplicasOf(cd)
  {
  }

  lemma KeptRequired(before: ClusterData, cd: ClusterData, env: Env, proxies: map<string, nat>, uids: seq<string>, c: Choices, next: ClusterData)
    requires Sound(before) && HasMaster(before) && Sound(cd) && cd.dbs == before.dbs && cd.master == before.master && Fresh(cd, uids)
    requires KeepsMaster(before, cd, env, proxies, uids, c, next)
    ensures cd.master in next.dbs && next.dbs[cd.master].spec.syncStandbys <= cd.dbs[cd.master].spec.syncStandbys + ReplicasOf(cd)
  {
    var open := Opened(cd, proxies);
    OpenedIsSound(cd, proxies);
    OpenedAside(cd, proxies);
    OpenedReplicas(cd, proxies);
    if Invariant.Healthy(cd) {
      MaintainedAside(before, open, env, uids, c, c.maintained);
      MaintainedRequired(before, open, env, uids, c, c.maintained);
      FollowersAside(c.maintained, cd.master, cd.master);
    } else {
      FollowersAside(open, cd.master, cd.master);
    }
  }

  lemma KeepingRequired(before: ClusterData, env: Env, proxies: map<string, nat>, uids: seq<string>, c: Choices, next: ClusterData)
    requires Sound(before) && HasMaster(before) && Fresh(before, uids)
    requires NormalStep(before, env, proxies, uids, c, next) && c.why == Keep
    ensures before.master in next.dbs
    ensures next.dbs[before.master].spec.syncStandbys <= before.dbs[before.master].spec.syncStandbys + ReplicasOf(before)
  {
    LiveIsSound(before, env.now);
    var cd := Live(before, env.now).(manualSwitch := c.request);
    assert Sound(cd);
    KeptRequired(before, cd, env, proxies, uids, c, next);
  }

  /** The in-sync standbys a pass takes over from the master's report. */
  function SyncRead(cd: ClusterData): set<string>
    requires cd.master in cd.dbs
  {
    if Invariant.Healthy(cd) then cd.dbs[cd.master].status.reportedSync else {}
  }

  lemma FollowersAside(cd: ClusterData, self: string, wanted: string)
    requires self in cd.dbs
    ensures forall d :: d in cd.dbs ==> Beside(cd.dbs[d], WithFollowers(cd, self, wanted).dbs[d])
    ensures SameSync(cd.dbs[self].spec, WithFollowers(cd, self, wanted).dbs[self].spec)
    ensures WithFollowers(cd, self, wanted).dbs[self].status == cd.dbs[self].status
  {
  }

  lemma KeptAside(before: ClusterData, cd: ClusterData, env: Env, proxies: map<string, nat>, uids: seq<string>, c: Choices, next: ClusterData)
    requires Sound(before) && HasMaster(before) && Sound(cd) && cd.dbs == before.dbs && cd.master == before.master && Fresh(cd, uids)
    requires KeepsMaster(before, cd, env, proxies, uids, c, next)
    ensures cd.master in next.dbs && next.master == cd.master && Aside(before, next, cd.master)
  {
    var m := cd.master;
    var open := Opened(cd, proxies);
    OpenedIsSound(cd, proxies);
    OpenedAside(cd, proxies);
    if Invariant.Healthy(cd) {
      MaintainedIsSound(before, open, env, uids, c, c.maintained);
      MaintainedAside(before, open, env, uids, c, c.maintained);
      AsideTwice(cd, open, c.maintained, m);
      FollowersAside(c.maintained, m, m);
      AsideTwice(cd, c.maintained, next, m);
    } else {
      FollowersAside(open, m, m);
      AsideTwice(cd, open, next, m);
    }
  }

  lemma KeptView(before: ClusterData, cd: ClusterData, env: Env, proxies: map<string, nat>, uids: seq<string>, c: Choices, next: ClusterData)
    requires Sound(before) && HasMaster(before) && Sound(cd) && cd.dbs == before.dbs && cd.master == before.master && Fresh(cd, uids)
    requires cd.spec.SyncRepl() && cd.dbs[cd.master].spec.syncRepl
    requires KeepsMaster(before, cd, env, proxies, uids, c, next)
    ensures cd.master in next.dbs && next.master == cd.master && Aside(before, next, cd.master)
    ensures MasterKept(cd.dbs[cd.master], next.dbs[cd.master], SyncRead(cd))
  {
    var m := cd.master;
    var open := Opened(cd, proxies);
    KeptAside(before, cd, env, proxies, uids, c, next);
    OpenedIsSound(cd, proxies);
    OpenedAside(cd, proxies);
    if Invariant.Healthy(cd) {
      MaintainedIsSound(before, open, env, uids, c, c.maintained);
      MaintainedAside(before, open, env, uids, c, c.maintained);
      MaintainedMaster(before, open, env, uids, c, c.maintained);
      FollowersAside(c.maintained, m, m);
    } else {
      FollowersAside(open, m, m);
    }
  }

  /** Nothing that decides a failover has changed. */
  predicate Alike(a: Db, b: Db) {
    SameSync(a.spec, b.spec) && b.status.syncStandbys == a.status.syncStandbys && TypeOf(b) == TypeOf(a)
  }

  lemma SettingsAlike(cd: ClusterData, d: string)
    requires d in cd.dbs
    ensures d in WithSettings(cd).dbs && Alike(cd.dbs[d], WithSettings(cd).dbs[d])
  {
  }

  lemma OrphansAlike(before: ClusterData, cd: ClusterData, now: int, d: string)
    requires d in cd.dbs
    ensures d in WithOrphans(before, cd, now).dbs && Alike(cd.dbs[d], WithOrphans(before, cd, now).dbs[d])
  {
  }

  lemma GenerationsAlike(before: ClusterData, cd: ClusterData, d: string)
    requires d in cd.dbs
    ensures d in WithGenerations(before, cd).dbs && Alike(cd.dbs[d], WithGenerations(before, cd).dbs[d])
  {
  }

  lemma FinishedAlike(before: ClusterData, cd: ClusterData, now: int, d: string)
    requires d in cd.dbs
    ensures d in Finished(before, cd, now).dbs && Alike(cd.dbs[d], Finished(before, cd, now).dbs[d])
  {
    var settings := WithSettings(cd);
    var orphans := WithOrphans(before, settings, now);
    SettingsAlike(cd, d);
    OrphansAlike(before, settings, now, d);
    GenerationsAlike(before, orphans, d);
  }

  /** Whatever finishing adds, the pass is seen the same way. */
  lemma FinishedAside(before: ClusterData, mid: ClusterData, now: int, m: string)
    requires Sound(mid) && Aside(before, mid, m)
    ensures Aside(before, Finished(before, mid, now), m)
  {
    var next := Finished(before, mid, now);
    FinishedIsSound(before, mid, now);
    forall d | d in next.dbs && d != m
      ensures if d in before.dbs then Beside(before.dbs[d], next.dbs[d]) else Newborn(next.dbs[d])
    {
      FinishedAlike(before, mid, now, d);
    }
  }

  /** Generations tell the views apart. */
  lemma RuleAges(cd: ClusterData, next: ClusterData, d: string)
    requires Runs.GenerationRule(cd, next) && d in cd.dbs && d in next.dbs
    ensures Durability.Ages(RecordOf(cd.dbs[d]), RecordOf(next.dbs[d]))
  {
  }

  lemma AsideIsBystanding(cd: ClusterData, next: ClusterData, m: string)
    requires Aside(cd, next, m) && Runs.GenerationRule(cd, next) && AllShaped(next) && Sound(next)
    requires m == next.master && m in cd.dbs && m in next.dbs
    ensures Durability.OthersAge(View(cd), View(next))
  {
    forall d | d in next.dbs && d in cd.dbs && d != m
      ensures Durability.Bystander(RecordOf(cd.dbs[d]), RecordOf(next.dbs[d]))
    {
      RuleAges(cd, next, d);
    }
  }

  lemma AsideIsShaped(cd: ClusterData, next: ClusterData, m: string)
    requires Aside(cd, next, m) && AllShaped(cd) && (m in next.dbs ==> next.dbs[m].spec.syncRepl)
    ensures AllShaped(next)
  {
  }

  lemma KeepingView(before: ClusterData, env: Env, proxies: map<string, nat>, uids: seq<string>, c: Choices, next: ClusterData)
    requires Sound(before) && HasMaster(before) && Fresh(before, uids)
    requires before.spec.SyncRepl() && before.dbs[before.master].spec.syncRepl
    requires NormalStep(before, env, proxies, uids, c, next) && c.why == Keep
    ensures before.master in next.dbs && next.master == before.master && Aside(before, next, before.master)
    ensures MasterKept(before.dbs[before.master], next.dbs[before.master], SyncRead(before))
  {
    LiveIsSound(before, env.now);
    var cd := Live(before, env.now).(manualSwitch := c.request);
    assert Sound(cd);
    KeptView(before, cd, env, proxies, uids, c, next);
  }

  /** Synchronous replication is on, for the cluster and for its master. */
  predicate Synchronous(cd: ClusterData) {
    cd.spec.SyncRepl() && cd.master in cd.dbs && cd.dbs[cd.master].spec.syncRepl
  }

  lemma MasterKeptView(a: Db, b: Db, sync: set<string>)
    requires MasterKept(a, b, sync) && Durability.Ages(RecordOf(a), RecordOf(b))
    ensures RecordOf(b).primaryLine == RecordOf(a).primaryLine
    ensures RecordOf(b).Electable() <= RecordOf(a).required
    ensures RecordOf(b).Electable() <= RecordOf(a).Electable() + sync
  {
  }

  lemma FinishKeeping(cd: ClusterData, uids: seq<string>, mid: ClusterData, now: int, sync: set<string>)
    requires Sound(mid) && HasMaster(cd) && HasMaster(mid) && mid.master == cd.master && mid.spec == cd.spec
    requires Synchronous(cd) && AllShaped(cd)
    requires Aside(cd, mid, cd.master) && MasterKept(cd.dbs[cd.master], mid.dbs[cd.master], sync)
    requires mid.dbs[cd.master].spec.syncStandbys <= cd.dbs[cd.master].spec.syncStandbys + ReplicasOf(cd)
    requires From(cd, uids, mid)
    ensures var next := Finished(cd, mid, now);
            Durability.KeepsMaster(View(cd), sync, View(next)) && Synchronous(next) && AllShaped(next)
  {
    var next := Finished(cd, mid, now);
    var m := cd.master;
    Runs.FinishedFollowsRule(cd, uids, mid, now);
    FinishedIsSound(cd, mid, now);
    FinishedAside(cd, mid, now, m);
    FinishedAlike(cd, mid, now, m);
    AsideIsShaped(cd, next, m);
    AsideIsBystanding(cd, next, m);
    RuleAges(cd, next, m);
    MasterKeptView(cd.dbs[m], next.dbs[m], sync);
    ReplicasView(cd);
  }

  lemma ReplicasView(cd: ClusterData)
    ensures Durability.Replicas(View(cd)) == ReplicasOf(cd)
  {
  }

  /** A pass that keeps the master is a `Durability.Pass` with the standbys of the report it acted on. */
  lemma KeepingPassIsPass(cd: ClusterData, env: Env, proxies: map<string, nat>, uids: seq<string>, next: ClusterData)
    requires Inv(cd) && Fresh(cd, uids) && cd.phase == Normal && !cd.pause.Active(env.now)
    requires Synchronous(cd) && AllShaped(cd)
    requires Step(cd, env, proxies, uids, next) && next.master == cd.master
    ensures Durability.KeepsMaster(View(cd), SyncRead(cd), View(next))
    ensures Synchronous(next) && AllShaped(next)
  {
    var c, mid := Runs.OnePass(cd, env, proxies, uids, next);
    KeepingOutcome(cd, env, proxies, uids, c, mid);
    FinishKeeping(cd, uids, mid, env.now, SyncRead(cd));
  }

  lemma KeepingOutcome(cd: ClusterData, env: Env, proxies: map<string, nat>, uids: seq<string>, c: Choices, mid: ClusterData)
    requires Inv(cd) && Fresh(cd, uids) && cd.phase == Normal && Synchronous(cd)
    requires NormalStep(cd, env, proxies, uids, c, mid) && mid.master == cd.master
    ensures Sound(mid) && HasMaster(mid) && mid.spec == cd.spec && From(cd, uids, mid)
    ensures Aside(cd, mid, cd.master) && MasterKept(cd.dbs[cd.master], mid.dbs[cd.master], SyncRead(cd))
    ensures mid.dbs[cd.master].spec.syncStandbys <= cd.dbs[cd.master].spec.syncStandbys + ReplicasOf(cd)
  {
    Runs.ElectionChangesMaster(cd, env, proxies, uids, c, mid);
    KeepingRequired(cd, env, proxies, uids, c, mid);
    Runs.NormalKeepsPhase(cd, env, proxies, uids, c, mid);
    KeepingView(cd, env, proxies, uids, c, mid);
    KeepingPassIsSound(cd, env, proxies, uids, c, mid);
  }

  lemma ElectedAside(cd: ClusterData, wanted: string)
    requires Sound(cd) && HasMaster(cd) && wanted in cd.dbs && wanted != cd.master && cd.spec.SyncRepl()
    ensures var next := WithFollowers(AfterElection(cd, wanted), cd.master, wanted);
            && next.dbs.Keys == cd.dbs.Keys && Aside(cd, next, wanted)
            && var b := next.dbs[wanted];
               && b.spec.syncRepl && TypeOf(b) == PrimaryLine && b.status.syncStandbys == cd.dbs[wanted].status.syncStandbys
               && b.spec.syncStandbys == SyncStandbys.HandedOver(cd.dbs[cd.master].spec.syncStandbys, cd.master, wanted)
  {
  }

  /** No manual switch is pending and failing back is not enabled. */
  predicate AutomaticOnly(cd: ClusterData) { cd.manualSwitch.None? && !cd.spec.unsafeAutoFailback }

  lemma ElectingView(before: ClusterData, env: Env, proxies: map<string, nat>, uids: seq<string>, c: Choices, next: ClusterData)
    requires Sound(before) && HasMaster(before) && Distinct(uids) && Synchronous(before) && AutomaticOnly(before)
    requires NormalStep(before, env, proxies, uids, c, next) && c.why != Keep
    ensures next.master in before.dbs && next.master != before.master && next.master in Electable(before.dbs[before.master])
    ensures next.dbs.Keys == before.dbs.Keys && Aside(before, next, next.master)
    ensures var b := next.dbs[next.master];
            && b.spec.syncRepl && TypeOf(b) == PrimaryLine && b.status.syncStandbys == before.dbs[next.master].status.syncStandbys
            && b.spec.syncStandbys == SyncStandbys.HandedOver(before.dbs[before.master].spec.syncStandbys, before.master, next.master)
  {
    LiveIsSound(before, env.now);
    var cd := Live(before, env.now).(manualSwitch := c.request);
    assert Sound(cd);
    ElectedAside(cd, c.wanted);
  }

  lemma FinishElecting(cd: ClusterData, uids: seq<string>, mid: ClusterData, now: int)
    requires Sound(mid) && HasMaster(cd) && HasMaster(mid) && mid.spec == cd.spec && mid.dbs.Keys == cd.dbs.Keys && mid.master != cd.master
    requires Synchronous(cd) && AllShaped(cd)
    requires mid.master in cd.dbs && TypeOf(cd.dbs[mid.master]) == ReplicaLine && mid.master in Electable(cd.dbs[cd.master])
    requires Aside(cd, mid, mid.master)
    requires var b := mid.dbs[mid.master];
             && b.spec.syncRepl && b.status.syncStandbys == cd.dbs[mid.master].status.syncStandbys
             && b.spec.syncStandbys == SyncStandbys.HandedOver(cd.dbs[cd.master].spec.syncStandbys, cd.master, mid.master)
    requires From(cd, uids, mid)
    ensures var next := Finished(cd, mid, now);
            Durability.Elects(View(cd), View(next)) && Synchronous(next) && AllShaped(next)
  {
    var next := Finished(cd, mid, now);
    var n := mid.master;
    Runs.FinishedFollowsRule(cd, uids, mid, now);
    FinishedIsSound(cd, mid, now);
    FinishedAside(cd, mid, now, n);
    FinishedAlike(cd, mid, now, n);
    AsideIsShaped(cd, next, n);
    AsideIsBystanding(cd, next, n);
    RuleAges(cd, next, cd.master);
  }

  /** A pass that replaces the master is a `Durability.Fail`, provided no electable standby is a past master. */
  lemma ElectingPassIsFail(cd: ClusterData, env: Env, proxies: map<string, nat>, uids: seq<string>, next: ClusterData)
    requires Inv(cd) && Fresh(cd, uids) && cd.phase == Normal && !cd.pause.Active(env.now)
    requires Synchronous(cd) && AllShaped(cd) && AutomaticOnly(cd)
    requires forall x :: x in Electable(cd.dbs[cd.master]) && x in cd.dbs ==> TypeOf(cd.dbs[x]) == ReplicaLine
    requires Step(cd, env, proxies, uids, next) && next.master != cd.master
    ensures Durability.Elects(View(cd), View(next))
    ensures Synchronous(next) && AllShaped(next)
  {
    var c, mid := Runs.OnePass(cd, env, proxies, uids, next);
    ElectingOutcome(cd, env, proxies, uids, c, mid);
    FinishElecting(cd, uids, mid, env.now);
  }

  lemma ElectingOutcome(cd: ClusterData, env: Env, proxies: map<string, nat>, uids: seq<string>, c: Choices, mid: ClusterData)
    requires Inv(cd) && Fresh(cd, uids) && cd.phase == Normal && Synchronous(cd) && AutomaticOnly(cd)
    requires NormalStep(cd, env, proxies, uids, c, mid) && mid.master != cd.master
    ensures Sound(mid) && HasMaster(mid) && mid.spec == cd.spec && From(cd, uids, mid)
    ensures mid.master in cd.dbs && mid.master in Electable(cd.dbs[cd.master])
    ensures mid.dbs.Keys == cd.dbs.Keys && Aside(cd, mid, mid.master)
    ensures var b := mid.dbs[mid.master];
            && b.spec.syncRepl && b.status.syncStandbys == cd.dbs[mid.master].status.syncStandbys
            && b.spec.syncStandbys == SyncStandbys.HandedOver(cd.dbs[cd.master].spec.syncStandbys, cd.master, mid.master)
  {
    KeepingChangesNothing(cd, env, proxies, uids, c, mid);
    Runs.NormalKeepsPhase(cd, env, proxies, uids, c, mid);
    ElectingView(cd, env, proxies, uids, c, mid);
    ElectingPassIsSound(cd, env, proxies, uids, c, mid);
  }

  lemma KeepingChangesNothing(cd: ClusterData, env: Env, proxies: map<string, nat>, uids: seq<string>, c: Choices, mid: ClusterData)
    requires Inv(cd) && cd.phase == Normal && Distinct(uids)
    requires NormalStep(cd, env, proxies, uids, c, mid)
    ensures c.why == Keep ==> mid.master == cd.master
  {
  }

  /** Synchronous replication is on, and no operator interferes with the pass. */
  ghost predicate Automatic(cd: ClusterData, env: Env, uids: seq<string>) {
    && Inv(cd) && Fresh(cd, uids) && cd.phase == Normal && !cd.pause.Active(env.now)
    && Synchronous(cd) && AllShaped(cd) && AutomaticOnly(cd)
  }

  /** The in-sync standbys the pass takes over were published for the generation the document is at. */
  ghost predicate ActsOnReport(w: Durability.World, cd: ClusterData)
    requires cd.master in cd.dbs
  {
    SyncRead(cd) != {} ==>
      exists r :: r in w.reports && r.uid == cd.master && r.gen == cd.dbs[cd.master].generation && SyncRead(cd) <= r.sync
  }

  function StepOf(cd: ClusterData, next: ClusterData): Durability.Step
    requires cd.master in cd.dbs
  {
    if next.master == cd.master then Durability.Pass(SyncRead(cd), View(next)) else Durability.Fail(View(next))
  }

  /**
   * Every automatic pass over a document of a `Durability` run is a step of that
   * run, as long as it acts on a report its master published for the current
   * generation.
   */
  lemma EveryPassIsAStep(w: Durability.World, cd: ClusterData, env: Env, proxies: map<string, nat>, uids: seq<string>, next: ClusterData)
    requires Durability.Inv(w) && w.doc == View(cd) && Durability.Fresh(w, View(next))
    requires Automatic(cd, env, uids)
    requires ActsOnReport(w, cd)
    requires Step(cd, env, proxies, uids, next)
    ensures Durability.Enabled(w, StepOf(cd, next)) && Durability.Apply(w, StepOf(cd, next)).doc == View(next)
    ensures Synchronous(next) && AllShaped(next)
  {
    if next.master == cd.master {
      KeepingPassIsPass(cd, env, proxies, uids, next);
    } else {
      ElectableAreReplicas(w, cd);
      ElectingPassIsFail(cd, env, proxies, uids, next);
    }
  }

  // ------------------------------------------------- from the reports to the step

  /** What a check believes of an instance was published by its keeper. */
  ghost predicate AllPublished(w: Durability.World, current: map<string, Health.KeeperInfo>) {
    forall k :: k in current && current[k].pg.Some? && current[k].pg.value.uid != NO_UID ==> Published(w, current[k].pg.value)
  }

  /** The in-sync standbys count only when the instance answered. */
  ghost predicate Published(w: Durability.World, pg: Health.PgState) {
    exists r :: r in w.reports && r.uid == pg.uid && r.gen == pg.generation && (pg.healthy ==> pg.sync <= r.sync)
  }

  /** Merging reports does not show in the view. */
  lemma MergingKeepsView(cd: ClusterData, current: map<string, Health.KeeperInfo>, reported: ClusterData)
    requires Health.Merged(cd, current, reported)
    ensures View(reported) == View(cd)
    ensures reported.master == cd.master && reported.spec == cd.spec && reported.phase == cd.phase && reported.pause == cd.pause
    ensures Synchronous(cd) ==> Synchronous(reported)
    ensures AllShaped(cd) ==> AllShaped(reported)
    ensures AutomaticOnly(cd) ==> AutomaticOnly(reported)
  {
    forall d | d in cd.dbs
      ensures d in reported.dbs && RecordOf(reported.dbs[d]) == RecordOf(cd.dbs[d]) && (Shaped(cd.dbs[d]) ==> Shaped(reported.dbs[d]))
    {
    }
  }

  /** The standbys a pass takes over come from a report of the generation the document is at. */
  lemma SyncReadIsPublished(w: Durability.World, cd: ClusterData, current: map<string, Health.KeeperInfo>, reported: ClusterData)
    requires Inv(cd) && cd.master in cd.dbs && Health.Merged(cd, current, reported) && AllPublished(w, current)
    ensures reported.master in reported.dbs
    ensures ActsOnReport(w, reported)
  {
    if SyncRead(reported) != {} {
      var m := cd.dbs[cd.master];
      Health.SyncComesWithGeneration(m, current, reported.dbs[cd.master].status.healthy);
      assert Published(w, current[m.spec.keeper].pg.value);
    }
  }

  lemma MergingKeepsFresh(cd: ClusterData, current: map<string, Health.KeeperInfo>, reported: ClusterData, uids: seq<string>)
    requires Health.Merged(cd, current, reported) && Fresh(cd, uids)
    ensures Fresh(reported, uids)
  {
  }

  lemma MergingKeepsAutomatic(cd: ClusterData, current: map<string, Health.KeeperInfo>, reported: ClusterData, env: Env, uids: seq<string>)
    requires Health.Merged(cd, current, reported) && Automatic(cd, env, uids)
    ensures Automatic(reported, env, uids) && View(reported) == View(cd)
  {
    MergingKeepsView(cd, current, reported);
    MergingKeepsFresh(cd, current, reported, uids);
    Runs.ReportKeepsInv(cd, current, reported);
  }

  /** Databases are created under UIDs that the world has not seen. */
  lemma NewAreFresh(w: Durability.World, cd: ClusterData, env: Env, proxies: map<string, nat>, uids: seq<string>, next: ClusterData)
    requires Inv(cd) && Fresh(cd, uids) && w.doc == View(cd) && Step(cd, env, proxies, uids, next)
    requires forall u :: u in uids ==> u !in w.nodes && u !in w.past
    ensures Durability.Fresh(w, View(next))
  {
    Runs.StepKeepsInv(cd, env, proxies, uids, next);
  }

  /**
   * A whole check of a sentinel, from merging the keepers' reports to the
   * document it writes, is a step of `Durability`, provided the reports were
   * published in that run: its hypotheses on the pass follow.  So
   * `Durability.NoLostCommit` speaks about the sentinel's checks.
   */
  lemma CheckIsAStep(w: Durability.World, cd: ClusterData, current: map<string, Health.KeeperInfo>, reported: ClusterData,
                     env: Env, proxies: map<string, nat>, uids: seq<string>, next: ClusterData)
    requires Durability.Inv(w) && w.doc == View(cd) && AllPublished(w, current)
    requires Automatic(cd, env, uids)
    requires Health.Merged(cd, current, reported) && reported.Consistent()
    requires Step(reported, env, proxies, uids, next)
    requires forall u :: u in uids ==> u !in w.nodes && u !in w.past
    ensures reported.master in reported.dbs
    ensures Durability.Enabled(w, StepOf(reported, next)) && Durability.Apply(w, StepOf(reported, next)).doc == View(next)
    ensures Synchronous(next) && AllShaped(next)
  {
    MergingKeepsAutomatic(cd, current, reported, env, uids);
    SyncReadIsPublished(w, cd, current, reported);
    NewAreFresh(w, reported, env, proxies, uids, next);
    EveryPassIsAStep(w, reported, env, proxies, uids, next);
  }

  lemma ElectableAreReplicas(w: Durability.World, cd: ClusterData)
    requires Durability.Inv(w) && w.doc == View(cd) && cd.master in cd.dbs
    ensures forall x :: x in Electable(cd.dbs[cd.master]) && x in cd.dbs ==> TypeOf(cd.dbs[x]) == ReplicaLine
  {
    forall x | x in Electable(cd.dbs[cd.master]) && x in cd.dbs
      ensures TypeOf(cd.dbs[x]) == ReplicaLine
    {
      assert x in w.doc.dbs[w.doc.master].Electable();
      assert Durability.SafeStandby(w, x);
    }
  }

  // -------------------------------------------------------- shape, over all runs

  /** Standbys are required only while replication is synchronous. */
  lemma SyncKeepsShaped(cd: ClusterData, inp: SyncStandbys.Inputs, rec: SyncStandbys.SyncRecord, m: Db)
    requires HasMaster(cd) && SyncUpdated(cd, inp, rec, m) && Shaped(cd.dbs[cd.master])
    ensures Shaped(m)
  {
  }

  lemma MaintainedShaped(before: ClusterData, cd: ClusterData, env: Env, uids: seq<string>, c: Choices, next: ClusterData)
    requires Sound(cd) && HasMaster(cd) && before.Consistent() && before.master == cd.master && cd.master in before.dbs && Fresh(cd, uids)
    requires Maintained(before, cd, env, uids, c, next) && Shaped(cd.dbs[cd.master])
    ensures cd.master in next.dbs && Shaped(next.dbs[cd.master])
  {
    MaintainedAside(before, cd, env, uids, c, next);
    SyncedAside(before, cd, env, uids, c, next);
    SyncKeepsShaped(c.ready, c.inputs, c.sync, c.master);
  }

  lemma KeptMasterShaped(before: ClusterData, cd: ClusterData, env: Env, proxies: map<string, nat>, uids: seq<string>, c: Choices, next: ClusterData)
    requires Sound(before) && HasMaster(before) && Sound(cd) && cd.dbs == before.dbs && cd.master == before.master && Fresh(cd, uids)
    requires KeepsMaster(before, cd, env, proxies, uids, c, next) && Shaped(cd.dbs[cd.master])
    ensures cd.master in next.dbs && Shaped(next.dbs[cd.master])
  {
    var open := Opened(cd, proxies);
    OpenedIsSound(cd, proxies);
    OpenedAside(cd, proxies);
    if Invariant.Healthy(cd) {
      MaintainedShaped(before, open, env, uids, c, c.maintained);
      FollowersAside(c.maintained, cd.master, cd.master);
    } else {
      FollowersAside(open, cd.master, cd.master);
    }
  }

  lemma AsideShapes(cd: ClusterData, next: ClusterData, m: string)
    requires Aside(cd, next, m) && AllShaped(cd) && (m in next.dbs ==> Shaped(next.dbs[m]))
    ensures AllShaped(next)
  {
  }

  lemma ElectedShaped(cd: ClusterData, wanted: string)
    requires HasMaster(cd) && wanted in cd.dbs && wanted != cd.master && AllShaped(cd)
    ensures AllShaped(WithFollowers(AfterElection(cd, wanted), cd.master, wanted))
  {
  }

  lemma KeptShaped(before: ClusterData, cd: ClusterData, env: Env, proxies: map<string, nat>, uids: seq<string>, c: Choices, next: ClusterData)
    requires Sound(before) && HasMaster(before) && Sound(cd) && cd.dbs == before.dbs && cd.master == before.master && Fresh(cd, uids)
    requires KeepsMaster(before, cd, env, proxies, uids, c, next) && AllShaped(before)
    ensures AllShaped(next)
  {
    KeptAside(before, cd, env, proxies, uids, c, next);
    KeptMasterShaped(before, cd, env, proxies, uids, c, next);
    AsideShapes(before, next, cd.master);
  }

  lemma KeepingShaped(before: ClusterData, env: Env, proxies: map<string, nat>, uids: seq<string>, c: Choices, next: ClusterData)
    requires Sound(before) && HasMaster(before) && Fresh(before, uids) && AllShaped(before)
    requires NormalStep(before, env, proxies, uids, c, next) && c.why == Keep
    ensures AllShaped(next)
  {
    LiveIsSound(before, env.now);
    var cd := Live(before, env.now).(manualSwitch := c.request);
    assert Sound(cd);
    KeptShaped(before, cd, env, proxies, uids, c, next);
  }

  lemma ElectingShaped(before: ClusterData, env: Env, proxies: map<string, nat>, uids: seq<string>, c: Choices, next: ClusterData)
    requires Sound(before) && HasMaster(before) && Distinct(uids) && AllShaped(before)
    requires NormalStep(before, env, proxies, uids, c, next) && c.why != Keep
    ensures AllShaped(next)
  {
    ElectedShaped(Live(before, env.now).(manualSwitch := c.request), c.wanted);
  }

  lemma FinishedKeepsShaped(before: ClusterData, mid: ClusterData, now: int)
    requires AllShaped(mid)
    ensures AllShaped(Finished(before, mid, now))
  {
    var next := Finished(before, mid, now);
    forall d | d in next.dbs
      ensures Shaped(next.dbs[d])
    {
      assert d in mid.dbs;
      FinishedAlike(before, mid, now, d);
    }
  }

  lemma InitKeepsShaped(cd: ClusterData, env: Env, u: string, mid: ClusterData)
    requires Inv(cd) && cd.phase == Initializing && InitStep(cd, env, u, mid) && AllShaped(cd)
    ensures AllShaped(mid)
  {
  }

  lemma StepKeepsShaped(cd: ClusterData, env: Env, proxies: map<string, nat>, uids: seq<string>, next: ClusterData)
    requires Inv(cd) && Fresh(cd, uids) && AllShaped(cd)
    requires Step(cd, env, proxies, uids, next)
    ensures AllShaped(next)
  {
    match cd.phase
    case Initializing =>
      var mid, u :| u in uids && InitStep(cd, env, u, mid) && next == Finished(cd, mid, env.now);
      InitKeepsShaped(cd, env, u, mid);
      FinishedKeepsShaped(cd, mid, env.now);
    case Normal =>
      if !cd.pause.Active(env.now) {
        var c, mid := Runs.OnePass(cd, env, proxies, uids, next);
        if c.why == Keep {
          KeepingShaped(cd, env, proxies, uids, c, mid);
        } else {
          ElectingShaped(cd, env, proxies, uids, c, mid);
        }
        FinishedKeepsShaped(cd, mid, env.now);
      }
  }

  lemma CommandKeepsShaped(cd: ClusterData, cmd: Runs.Command, now: int, next: ClusterData)
    requires Inv(cd) && Runs.Commanded(cd, cmd, now, next) && AllShaped(cd)
    ensures AllShaped(next)
  {
  }

  lemma MoveKeepsShaped(s: Runs.State, e: Runs.Event, t: Runs.State)
    requires Runs.Good(s) && Runs.Moves(s, e, t) && AllShaped(s.cd)
    ensures AllShaped(t.cd)
  {
    match e
    case Check(current, reported, env, proxies, uids) =>
      MergingKeepsView(s.cd, current, reported);
      Runs.ReportKeepsInv(s.cd, current, reported);
      StepKeepsShaped(reported, env, proxies, uids, t.cd);
    case Operator(cmd, now) =>
      CommandKeepsShaped(s.cd, cmd, now, t.cd);
  }

  lemma NextIsShaped(states: seq<Runs.State>, events: seq<Runs.Event>, i: nat)
    requires Runs.IsRun(states, events) && i < |events| && AllShaped(states[i].cd)
    ensures AllShaped(states[i + 1].cd)
  {
    Runs.InvAlwaysHolds(states, events, i);
    assert Runs.MovesAt(states, events, i);
    MoveKeepsShaped(states[i], events[i], states[i + 1]);
  }

  lemma StartIsShaped(states: seq<Runs.State>, events: seq<Runs.Event>)
    requires Runs.IsRun(states, events)
    ensures AllShaped(states[0].cd)
  {
  }

  /** In every document of every run, synchronous or not, only synchronous databases require standbys. */
  lemma {:induction false} AlwaysShaped(states: seq<Runs.State>, events: seq<Runs.Event>, i: nat)
    requires Runs.IsRun(states, events) && i < |states|
    ensures AllShaped(states[i].cd)
  {
    if i == 0 {
      StartIsShaped(states, events);
    } else {
      AlwaysShaped(states, events, i - 1);
      NextIsShaped(states, events, i - 1);
    }
  }
}
