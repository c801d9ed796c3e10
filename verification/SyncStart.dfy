/**
 * How replication becomes synchronous: what every pass and command does to the
 * databases' types and known standbys, and what holds of the first document
 * whose master replicates synchronously.
 */
module SyncStart {
  import opened Cluster
  import opened FailoverView
  import opened Invariant
  import opened Options
  import opened Reconcile
  import opened Selection
  import Runs
  import SyncStandbys

  /** Replicas know no standbys. */
  predicate Calm(db: Db) { TypeOf(db) == ReplicaLine ==> db.status.syncStandbys == {} }

  ghost predicate AllCalm(cd: ClusterData) { forall d :: d in cd.dbs ==> Calm(cd.dbs[d]) }

  /** Only the new master may have turned from a replica into a primary, and replicas learn of no standbys. */
  predicate Drifted(a: Db, b: Db, master: string) {
    && (TypeOf(b) == TypeOf(a) || (TypeOf(b) == PrimaryLine && b.uid == master))
    && (TypeOf(b) == ReplicaLine ==> b.status.syncStandbys == a.status.syncStandbys)
  }

  ghost predicate Drifts(cd: ClusterData, next: ClusterData) {
    forall d :: d in next.dbs ==> if d in cd.dbs then Drifted(cd.dbs[d], next.dbs[d], next.master) else Calm(next.dbs[d])
  }

  lemma DriftsKeepsCalm(cd: ClusterData, next: ClusterData)
    requires Drifts(cd, next) && AllCalm(cd)
    ensures AllCalm(next)
  {
    forall d | d in next.dbs
      ensures Calm(next.dbs[d])
    {
      assert d in cd.dbs ==> Calm(cd.dbs[d]);
    }
  }

  lemma AsideDrifts(cd: ClusterData, next: ClusterData)
    requires Aside(cd, next, next.master) && next.master in next.dbs && TypeOf(next.dbs[next.master]) == PrimaryLine
    requires next.dbs[next.master].uid == next.master
    ensures Drifts(cd, next)
  {
  }

  lemma AlikeDrifts(a: Db, b: Db, c: Db, master: string)
    requires Drifted(a, b, master) && Alike(b, c) && c.uid == b.uid
    ensures Drifted(a, c, master)
  {
  }

  lemma FinishedKeepsUid(before: ClusterData, mid: ClusterData, now: int, d: string)
    requires d in mid.dbs
    ensures d in Finished(before, mid, now).dbs && Finished(before, mid, now).dbs[d].uid == mid.dbs[d].uid
  {
  }

  lemma FinishedKeys(before: ClusterData, mid: ClusterData, now: int)
    ensures Finished(before, mid, now).dbs.Keys == mid.dbs.Keys && Finished(before, mid, now).master == mid.master
  {
  }

  lemma FinishedDrifts(before: ClusterData, mid: ClusterData, now: int)
    requires Drifts(before, mid)
    ensures Drifts(before, Finished(before, mid, now))
  {
    var next := Finished(before, mid, now);
    FinishedKeys(before, mid, now);
    forall d | d in next.dbs
      ensures if d in before.dbs then Drifted(before.dbs[d], next.dbs[d], next.master) else Calm(next.dbs[d])
    {
      FinishedAlike(before, mid, now, d);
      FinishedKeepsUid(before, mid, now, d);
      if d in before.dbs {
        AlikeDrifts(before.dbs[d], mid.dbs[d], next.dbs[d], mid.master);
      }
    }
  }

  // ------------------------------------------------------------------- passes

  lemma ElectedStaysAside(cd: ClusterData, wanted: string)
    requires cd.Consistent() && HasMaster(cd) && wanted in cd.dbs && wanted != cd.master
    ensures var next := WithFollowers(AfterElection(cd, wanted), cd.master, wanted);
            && Aside(cd, next, wanted) && next.master == wanted && wanted in next.dbs
            && TypeOf(next.dbs[wanted]) == PrimaryLine && next.dbs[wanted].uid == wanted
  {
  }

  lemma ElectingDrifts(cd: ClusterData, env: Env, proxies: map<string, nat>, uids: seq<string>, c: Choices, mid: ClusterData)
    requires Sound(cd) && HasMaster(cd) && Distinct(uids)
    requires NormalStep(cd, env, proxies, uids, c, mid) && c.why != Keep
    ensures Drifts(cd, mid)
  {
    var live := Live(cd, env.now).(manualSwitch := c.request);
    ElectedStaysAside(live, c.wanted);
    AsideDrifts(cd, mid);
  }

  lemma KeepingDrifts(cd: ClusterData, env: Env, proxies: map<string, nat>, uids: seq<string>, c: Choices, mid: ClusterData)
    requires Sound(cd) && HasMaster(cd) && Fresh(cd, uids)
    requires NormalStep(cd, env, proxies, uids, c, mid) && c.why == Keep && HasMaster(mid) && Sound(mid)
    ensures Drifts(cd, mid)
  {
    LiveIsSound(cd, env.now);
    var live := Live(cd, env.now).(manualSwitch := c.request);
    assert Sound(live);
    KeptAside(cd, live, env, proxies, uids, c, mid);
    AsideDrifts(cd, mid);
  }

  lemma InitDrifts(cd: ClusterData, env: Env, u: string, mid: ClusterData)
    requires Inv(cd) && cd.phase == Initializing && InitStep(cd, env, u, mid)
    ensures Drifts(cd, mid)
  {
  }

  lemma NormalDrifts(cd: ClusterData, env: Env, proxies: map<string, nat>, uids: seq<string>, c: Choices, mid: ClusterData)
    requires Inv(cd) && cd.phase == Normal && Fresh(cd, uids) && NormalStep(cd, env, proxies, uids, c, mid)
    ensures Drifts(cd, mid)
  {
    NormalIsSound(cd, env, proxies, uids, c, mid);
    if c.why == Keep {
      KeepingDrifts(cd, env, proxies, uids, c, mid);
    } else {
      ElectingDrifts(cd, env, proxies, uids, c, mid);
    }
  }

  lemma StepDrifts(cd: ClusterData, env: Env, proxies: map<string, nat>, uids: seq<string>, next: ClusterData)
    requires Inv(cd) && Fresh(cd, uids) && Step(cd, env, proxies, uids, next)
    ensures Drifts(cd, next)
  {
    match cd.phase
    case Initializing =>
      var mid, u :| u in uids && InitStep(cd, env, u, mid) && next == Finished(cd, mid, env.now);
      InitDrifts(cd, env, u, mid);
      FinishedDrifts(cd, mid, env.now);
    case Normal =>
      if !cd.pause.Active(env.now) {
        var c, mid := Runs.OnePass(cd, env, proxies, uids, next);
        NormalDrifts(cd, env, proxies, uids, c, mid);
        FinishedDrifts(cd, mid, env.now);
      }
  }

  // ---------------------------------------------------------------- the start

  /** The master does not replicate synchronously, and after the pass there is one that does. */
  predicate Becomes(cd: ClusterData, next: ClusterData) {
    cd.phase == Normal && cd.master in cd.dbs && !cd.dbs[cd.master].spec.syncRepl && Synchronous(next)
  }

  /** The first synchronous document: its master has been reported, no standby may be elected, and required ones are replicas. */
  ghost predicate Begins(cd: ClusterData, next: ClusterData) {
    && next.master in next.dbs && next.master in cd.dbs && cd.dbs[next.master].status.generation > NO_GENERATION
    && var m := next.dbs[next.master];
       && m.spec.syncStandbys <= ReplicasOf(cd)
       && Electable(m) == {}
       && (m.spec.syncStandbys == {} || m.spec.syncRepl != cd.dbs[next.master].spec.syncRepl)
  }

  lemma SyncBegins(cd: ClusterData, inp: SyncStandbys.Inputs, rec: SyncStandbys.SyncRecord, m: Db)
    requires HasMaster(cd) && SyncUpdated(cd, inp, rec, m) && cd.dbs[cd.master].spec.syncStandbys == {}
    ensures Electable(m) == {}
  {
  }

  lemma MaintainedBegins(before: ClusterData, cd: ClusterData, env: Env, uids: seq<string>, c: Choices, next: ClusterData)
    requires Sound(cd) && HasMaster(cd) && before.Consistent() && before.master == cd.master && cd.master in before.dbs && Fresh(cd, uids)
    requires Maintained(before, cd, env, uids, c, next) && cd.dbs[cd.master].spec.syncStandbys == {}
    ensures cd.master in next.dbs && Electable(next.dbs[cd.master]) == {}
  {
    MaintainedAside(before, cd, env, uids, c, next);
    SyncedAside(before, cd, env, uids, c, next);
    SyncBegins(c.ready, c.inputs, c.sync, c.master);
  }

  /** A pass that keeps the master makes it synchronous only when it is healthy and has reported its generation. */
  lemma KeptBegins(before: ClusterData, cd: ClusterData, env: Env, proxies: map<string, nat>, uids: seq<string>, c: Choices, next: ClusterData)
    requires Sound(before) && HasMaster(before) && Sound(cd) && cd.dbs == before.dbs && cd.master == before.master && Fresh(cd, uids)
    requires KeepsMaster(before, cd, env, proxies, uids, c, next)
    requires !cd.dbs[cd.master].spec.syncRepl && cd.dbs[cd.master].spec.syncStandbys == {}
    ensures cd.master in next.dbs && Electable(next.dbs[cd.master]) == {}
    ensures next.dbs[cd.master].spec.syncRepl ==> Invariant.Healthy(cd)
  {
    var open := Opened(cd, proxies);
    OpenedIsSound(cd, proxies);
    OpenedAside(cd, proxies);
    if Invariant.Healthy(cd) {
      MaintainedBegins(before, open, env, uids, c, c.maintained);
      FollowersAside(c.maintained, cd.master, cd.master);
    } else {
      FollowersAside(open, cd.master, cd.master);
    }
  }

  lemma KeepingElectable(cd: ClusterData, env: Env, proxies: map<string, nat>, uids: seq<string>, c: Choices, mid: ClusterData)
    requires Sound(cd) && HasMaster(cd) && Fresh(cd, uids) && AllShaped(cd) && !cd.dbs[cd.master].spec.syncRepl
    requires NormalStep(cd, env, proxies, uids, c, mid) && c.why == Keep
    ensures cd.master in mid.dbs && Electable(mid.dbs[cd.master]) == {}
    ensures mid.dbs[cd.master].spec.syncRepl ==> cd.dbs[cd.master].status.generation > NO_GENERATION
  {
    LiveIsSound(cd, env.now);
    var live := Live(cd, env.now).(manualSwitch := c.request);
    assert Sound(live) && Shaped(cd.dbs[cd.master]);
    KeptBegins(cd, live, env, proxies, uids, c, mid);
  }

  lemma KeepingBegins(cd: ClusterData, env: Env, proxies: map<string, nat>, uids: seq<string>, c: Choices, mid: ClusterData)
    requires Sound(cd) && HasMaster(cd) && Fresh(cd, uids) && AllShaped(cd) && !cd.dbs[cd.master].spec.syncRepl
    requires NormalStep(cd, env, proxies, uids, c, mid) && c.why == Keep && mid.master == cd.master
    requires cd.master in mid.dbs && mid.dbs[cd.master].spec.syncRepl
    ensures Begins(cd, mid)
  {
    KeepingElectable(cd, env, proxies, uids, c, mid);
    KeepingRequired(cd, env, proxies, uids, c, mid);
    assert Shaped(cd.dbs[cd.master]);
  }

  /** A database that can be elected has reported its generation. */
  lemma CandidateReported(cd: ClusterData, env: Env, m: Db, d: string)
    requires Sound(cd) && d in Candidates(cd, env, m)
    ensures cd.dbs[d].status.generation > NO_GENERATION
  {
  }

  lemma ElectionBegins(cd: ClusterData, wanted: string)
    requires HasMaster(cd) && wanted in cd.dbs && wanted != cd.master && cd.dbs[cd.master].spec.syncStandbys == {}
    ensures var next := WithFollowers(AfterElection(cd, wanted), cd.master, wanted);
            next.master == wanted && wanted in next.dbs && next.dbs[wanted].spec.syncStandbys == {}
  {
  }

  lemma ElectingBegins(cd: ClusterData, env: Env, proxies: map<string, nat>, uids: seq<string>, c: Choices, mid: ClusterData)
    requires Sound(cd) && HasMaster(cd) && Distinct(uids) && AllShaped(cd) && !cd.dbs[cd.master].spec.syncRepl
    requires NormalStep(cd, env, proxies, uids, c, mid) && c.why != Keep
    ensures Begins(cd, mid)
  {
    LiveIsSound(cd, env.now);
    var live := Live(cd, env.now);
    assert Shaped(cd.dbs[cd.master]);
    CandidateReported(live, env, cd.dbs[cd.master], c.wanted);
    ElectionBegins(live.(manualSwitch := c.request), c.wanted);
  }

  lemma FinishedBegins(cd: ClusterData, mid: ClusterData, now: int)
    requires Begins(cd, mid)
    ensures Begins(cd, Finished(cd, mid, now))
  {
    FinishedAlike(cd, mid, now, mid.master);
  }

  /** However replication becomes synchronous, a durability argument can start there. */
  lemma StepBegins(cd: ClusterData, env: Env, proxies: map<string, nat>, uids: seq<string>, next: ClusterData)
    requires Inv(cd) && Fresh(cd, uids) && AllShaped(cd) && Step(cd, env, proxies, uids, next) && Becomes(cd, next)
    ensures Begins(cd, next)
  {
    if !cd.pause.Active(env.now) {
      var c, mid := Runs.OnePass(cd, env, proxies, uids, next);
      NormalIsSound(cd, env, proxies, uids, c, mid);
      FinishedAlike(cd, mid, env.now, mid.master);
      if c.why == Keep {
        KeepingChangesNothing(cd, env, proxies, uids, c, mid);
        KeepingBegins(cd, env, proxies, uids, c, mid);
      } else {
        ElectingBegins(cd, env, proxies, uids, c, mid);
      }
      FinishedBegins(cd, mid, env.now);
    }
  }
}
