/**
 * The set a failover may choose from, followed through a whole pass: clean-up,
 * the sync section, the removal of standbys in excess, and finishing.
 */
module Electability {
  import opened Cluster
  import opened Selection
  import opened Reconcile
  import opened Invariant
  import Runs
  import SyncStandbys

  /** Some standby in the document may be elected. */
  ghost predicate CanFailOver(cd: ClusterData) {
    cd.master in cd.dbs && exists x :: x in Electable(cd.dbs[cd.master]) && x in cd.dbs
  }

  /** The clean-up of a pass leaves `d` alone. */
  ghost predicate Survives(cd: ClusterData, env: Env, d: string) {
    d in cd.dbs && TypeOf(cd.dbs[d]) == ReplicaLine && ValidityOf(cd, cd.dbs[d]) != Invalid && !CannotSync(cd, env, d)
  }

  lemma SurvivorIsReady(before: ClusterData, cd: ClusterData, env: Env, good: set<string>, converging: set<string>, ready: ClusterData, d: string)
    requires cd.Consistent() && Survives(before, env, d) && d in cd.dbs
    requires before.master in before.dbs && cd.master == before.master && cd.master in cd.dbs && d != cd.master
    requires cd.dbs[d] == before.dbs[d] && cd.dbs[cd.master].status == before.dbs[cd.master].status
    requires Prepared(before, cd, env, good, converging, ready)
    ensures d in ready.dbs
  {
  }

  lemma InputsAreValid(before: ClusterData, cd: ClusterData, env: Env, m: Db, good: set<string>, converging: set<string>, ready: ClusterData, inp: SyncStandbys.Inputs)
    requires Sound(cd) && HasMaster(cd) && cd.spec.Valid() && before.Consistent() && before.master == cd.master && cd.master in before.dbs
    requires Prepared(before, cd, env, good, converging, ready) && ready.Consistent()
    requires SyncInputs(ready, env, m, good, inp)
    ensures inp.Valid()
  {
    PreparedIsSound(before, cd, env, good, converging, ready);
    InitDoneKeepsGood(Cleaned(before, cd, env), env);
    forall i | 0 <= i < |inp.best|
      ensures inp.best[i] in good
    {
      assert inp.best[i] in BestStandbys(ready, env, m);
    }
  }

  /** Neither failing standbys nor standbys in excess are removed while they are required. */
  lemma RequiredStay(cd: ClusterData, good: set<string>, converging: set<string>, uids: seq<string>, dbs: map<string, Db>, x: string)
    requires HasMaster(cd) && Distinct(uids) && cd.master !in good
    requires Resized(cd, good, converging, uids, dbs)
    requires x in cd.dbs && x in cd.dbs[cd.master].spec.syncStandbys
    ensures x in dbs
  {
  }

  lemma SyncKeepsElectable(before: ClusterData, cd: ClusterData, env: Env, uids: seq<string>, c: Choices, next: ClusterData, survivor: string)
    requires Sound(cd) && HasMaster(cd) && cd.spec.Valid() && cd.spec.SyncRepl() && 1 <= cd.spec.minSync
    requires before.Consistent() && before.master == cd.master && cd.master in before.dbs && Distinct(uids)
    requires Maintained(before, cd, env, uids, c, next)
    requires survivor in c.ready.dbs && survivor in Electable(c.ready.dbs[cd.master])
    ensures exists x :: x in Electable(c.master) && x in c.ready.dbs
  {
    InputsAreValid(before, cd, env, before.dbs[cd.master], c.good, c.converging, c.ready, c.inputs);
    var m := c.ready.dbs[cd.master];
    assert survivor in SyncRecordOf(m).Electable() * c.inputs.present;
    SyncStandbys.ElectableNeverEmptied(SyncRecordOf(m), m.status.reportedSync, c.inputs, c.sync, survivor);
    var x :| x in c.sync.Electable() * c.inputs.present;
    assert x in Electable(c.master) && x in c.ready.dbs;
  }

  lemma MaintainedKeepsElectable(before: ClusterData, cd: ClusterData, env: Env, uids: seq<string>, c: Choices, next: ClusterData, survivor: string)
    requires Sound(cd) && HasMaster(cd) && cd.spec.Valid() && cd.spec.SyncRepl() && 1 <= cd.spec.minSync
    requires before.Consistent() && before.master == cd.master && cd.master in before.dbs && Fresh(cd, uids)
    requires Maintained(before, cd, env, uids, c, next)
    requires survivor in c.ready.dbs && survivor in Electable(c.ready.dbs[cd.master])
    ensures CanFailOver(next)
  {
    SyncKeepsElectable(before, cd, env, uids, c, next, survivor);
    var x :| x in Electable(c.master) && x in c.ready.dbs;
    SyncedIsSound(before, cd, env, uids, c, next);
    ResizedIsSound(Synced(c), c.good, c.converging, uids, c.resized);
    RequiredStay(Synced(c), c.good, c.converging, uids, c.resized, x);
    ReconfiguredKeepsElectable(Synced(c).(dbs := c.resized), x);
  }

  lemma ReconfiguredKeepsElectable(cd: ClusterData, x: string)
    requires HasMaster(cd) && x in cd.dbs && x in Electable(cd.dbs[cd.master])
    ensures CanFailOver(Reconfigured(cd))
  {
  }

  /** Clean-up of a surviving electable standby leaves it electable. */
  lemma ReadyIsElectable(before: ClusterData, cd: ClusterData, env: Env, good: set<string>, converging: set<string>, ready: ClusterData, d: string)
    requires Sound(cd) && HasMaster(cd) && before.Consistent() && before.master == cd.master && cd.master in before.dbs
    requires Prepared(before, cd, env, good, converging, ready)
    requires d in Electable(cd.dbs[cd.master])
    ensures cd.master in ready.dbs && d in Electable(ready.dbs[cd.master])
  {
  }

  lemma CleanKeepsElectable(before: ClusterData, cd: ClusterData, env: Env, uids: seq<string>, c: Choices, next: ClusterData, survivor: string)
    requires Sound(before) && HasMaster(before) && Sound(cd) && HasMaster(cd) && cd.master == before.master
    requires cd.spec.Valid() && cd.spec.SyncRepl() && 1 <= cd.spec.minSync && Fresh(cd, uids)
    requires Maintained(before, cd, env, uids, c, next)
    requires survivor in Electable(cd.dbs[cd.master]) && Survives(before, env, survivor) && survivor in cd.dbs
    requires cd.dbs[survivor] == before.dbs[survivor] && cd.dbs[cd.master].status == before.dbs[cd.master].status
    ensures CanFailOver(next)
  {
    SurvivorIsReady(before, cd, env, c.good, c.converging, c.ready, survivor);
    ReadyIsElectable(before, cd, env, c.good, c.converging, c.ready, survivor);
    MaintainedKeepsElectable(before, cd, env, uids, c, next, survivor);
  }

  lemma OpenedKeepsElectable(cd: ClusterData, proxies: map<string, nat>, x: string)
    requires HasMaster(cd) && x in Electable(cd.dbs[cd.master]) && x in cd.dbs && TypeOf(cd.dbs[x]) == ReplicaLine
    ensures var open := Opened(cd, proxies);
            && open.master == cd.master && x in open.dbs && open.dbs[x] == cd.dbs[x]
            && cd.master in open.dbs && open.dbs[cd.master].status == cd.dbs[cd.master].status
            && x in Electable(open.dbs[cd.master])
  {
  }

  lemma KeptKeepsElectable(before: ClusterData, cd: ClusterData, env: Env, proxies: map<string, nat>, uids: seq<string>, c: Choices, next: ClusterData, survivor: string)
    requires Sound(before) && HasMaster(before) && Sound(cd) && cd.dbs == before.dbs && cd.master == before.master
    requires cd.spec.Valid() && cd.spec.SyncRepl() && 1 <= cd.spec.minSync && Fresh(cd, uids)
    requires KeepsMaster(before, cd, env, proxies, uids, c, next)
    requires survivor in Electable(cd.dbs[cd.master]) && Survives(before, env, survivor)
    ensures CanFailOver(next)
  {
    var open := Opened(cd, proxies);
    OpenedIsSound(cd, proxies);
    OpenedKeepsElectable(cd, proxies, survivor);
    if Invariant.Healthy(cd) {
      CleanKeepsElectable(before, open, env, uids, c, c.maintained, survivor);
      MaintainedIsSound(before, open, env, uids, c, c.maintained);
      FollowersKeepElectable(c.maintained);
    } else {
      FollowersKeepElectable(open);
    }
  }

  lemma KeepingPassKeepsElectable(before: ClusterData, env: Env, proxies: map<string, nat>, uids: seq<string>, c: Choices, next: ClusterData, survivor: string)
    requires Sound(before) && HasMaster(before) && before.spec.Valid() && Fresh(before, uids)
    requires before.spec.SyncRepl() && 1 <= before.spec.minSync
    requires NormalStep(before, env, proxies, uids, c, next) && c.why == Keep
    requires survivor in Electable(before.dbs[before.master]) && Survives(before, env, survivor)
    ensures CanFailOver(next)
  {
    LiveIsSound(before, env.now);
    var cd := Live(before, env.now).(manualSwitch := c.request);
    assert Sound(cd);
    KeptKeepsElectable(before, cd, env, proxies, uids, c, next, survivor);
  }

  lemma NormalPassKeepsElectable(before: ClusterData, env: Env, proxies: map<string, nat>, uids: seq<string>, c: Choices, next: ClusterData, survivor: string)
    requires Inv(before) && before.phase == Normal && Fresh(before, uids)
    requires before.spec.SyncRepl() && 1 <= before.spec.minSync
    requires NormalStep(before, env, proxies, uids, c, next) && next.master == before.master
    requires survivor in Electable(before.dbs[before.master]) && Survives(before, env, survivor)
    ensures CanFailOver(next)
  {
    Runs.ElectionChangesMaster(before, env, proxies, uids, c, next);
    KeepingPassKeepsElectable(before, env, proxies, uids, c, next, survivor);
  }

  lemma FollowersKeepElectable(cd: ClusterData)
    requires CanFailOver(cd)
    ensures CanFailOver(WithFollowers(cd, cd.master, cd.master))
  {
  }

  lemma FinishedKeepsElectable(before: ClusterData, cd: ClusterData, now: int)
    requires CanFailOver(cd)
    ensures CanFailOver(Finished(before, cd, now))
  {
  }

  /**
   * With synchronous replication and MinSynchronousStandbys at least one, a pass
   * that keeps the master leaves an electable standby in the document, provided
   * one electable standby survives the clean-up of invalid databases and of
   * databases that miss WAL.
   */
  lemma PassKeepsElectable(cd: ClusterData, env: Env, proxies: map<string, nat>, uids: seq<string>, next: ClusterData, survivor: string)
    requires Inv(cd) && cd.phase == Normal && !cd.pause.Active(env.now) && Fresh(cd, uids)
    requires cd.spec.SyncRepl() && 1 <= cd.spec.minSync
    requires Step(cd, env, proxies, uids, next) && next.master == cd.master
    requires survivor in Electable(cd.dbs[cd.master]) && Survives(cd, env, survivor)
    ensures CanFailOver(next)
  {
    var c, mid := Runs.OnePass(cd, env, proxies, uids, next);
    NormalPassKeepsElectable(cd, env, proxies, uids, c, mid, survivor);
    FinishedKeepsElectable(cd, mid, env.now);
  }
}
