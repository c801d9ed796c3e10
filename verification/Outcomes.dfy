/**
 * What a whole pass leaves behind, in terms of the fields of the document before
 * and after it: who becomes master and why, what the new and the old master are
 * told, who is removed, created and kept, and where the fence stands.
 */
module Outcomes {
  import opened Cluster
  import opened Options
  import opened Reconcile
  import opened Selection
  import Fencing
  import Invariant
  import Runs
  import Slots
  import SyncStandbys
  import Timeline
  import Wal

  /** A pass over an initialized cluster that is not paused. */
  ghost predicate Passes(cd: ClusterData, env: Env, proxies: map<string, nat>, uids: seq<string>, next: ClusterData) {
    && Inv(cd) && Invariant.Fresh(cd, uids) && cd.phase == Normal && !cd.pause.Active(env.now)
    && Step(cd, env, proxies, uids, next)
  }

  // --------------------------------------------------------------- finishing

  /** Finishing fills in settings, generations and the master's orphan slots, and nothing else. */
  ghost predicate OnlyFinishes(before: ClusterData, mid: ClusterData, next: ClusterData) {
    && next == mid.(dbs := next.dbs)
    && next.dbs.Keys == mid.dbs.Keys
    && forall d :: d in mid.dbs ==> DbFinished(before, mid, next, d)
  }

  ghost predicate DbFinished(before: ClusterData, mid: ClusterData, next: ClusterData, d: string)
    requires d in mid.dbs && d in next.dbs
  {
    && next.dbs[d].uid == mid.dbs[d].uid
    && next.dbs[d].spec == mid.dbs[d].spec.(settings := next.dbs[d].spec.settings)
    && next.dbs[d].status == mid.dbs[d].status.(orphans := next.dbs[d].status.orphans)
    && (d != mid.master ==> next.dbs[d].status == mid.dbs[d].status)
    && next.dbs[d].spec.settings == (if mid.dbs[d].spec.role == Master || mid.dbs[d].spec.follow == External
                                     then PrimarySettings(mid.spec.settings) else ReplicaSettings(mid.spec.settings))
    && next.dbs[d].generation == mid.dbs[d].generation +
         if d in before.dbs && next.dbs[d].spec != before.dbs[d].spec then 1 else 0
  }

  lemma OneFinished(before: ClusterData, mid: ClusterData, now: int, d: string)
    requires d in mid.dbs
    ensures d in Finished(before, mid, now).dbs && DbFinished(before, mid, Finished(before, mid, now), d)
  {
    var settled := WithSettings(mid);
    var swept := WithOrphans(before, settled, now);
    assert settled.dbs[d] == mid.dbs[d].(spec := mid.dbs[d].spec.(settings := settled.dbs[d].spec.settings));
    assert d in swept.dbs && swept.dbs[d] == settled.dbs[d].(status := settled.dbs[d].status.(orphans := swept.dbs[d].status.orphans));
    assert d != mid.master ==> swept.dbs[d] == settled.dbs[d];
  }

  lemma FinishedLeaves(before: ClusterData, mid: ClusterData, now: int)
    ensures var next := Finished(before, mid, now); next == mid.(dbs := next.dbs) && next.dbs.Keys == mid.dbs.Keys
  {
    assert WithSettings(mid).dbs.Keys == mid.dbs.Keys;
    assert WithOrphans(before, WithSettings(mid), now).dbs.Keys == mid.dbs.Keys;
  }

  lemma FinishedOnlyFinishes(before: ClusterData, mid: ClusterData, now: int)
    ensures OnlyFinishes(before, mid, Finished(before, mid, now))
  {
    FinishedLeaves(before, mid, now);
    forall d | d in mid.dbs
      ensures d in Finished(before, mid, now).dbs && DbFinished(before, mid, Finished(before, mid, now), d)
    {
      OneFinished(before, mid, now, d);
    }
  }

  // ------------------------------------------------------------ dead keepers

  /** A keeper is forgotten exactly when it owns no database and was last healthy too long ago; the others stay as they are. */
  lemma KeepersForgotten(cd: ClusterData, env: Env, proxies: map<string, nat>, uids: seq<string>, next: ClusterData, k: string)
    requires Passes(cd, env, proxies, uids, next)
    ensures k in next.keepers <==>
              && k in cd.keepers
              && ((exists d :: d in cd.dbs && cd.dbs[d].spec.keeper == k) || env.now - cd.keepers[k].lastHealthy <= cd.spec.deadKeeperRemoval)
    ensures k in next.keepers ==> next.keepers[k] == cd.keepers[k]
    ensures next.spec == cd.spec && next.phase == Normal && next.pause == cd.pause
  {
    var c, mid := Pass(cd, env, proxies, uids, next);
    LiveAre(cd, env.now, k);
  }

  lemma LiveAre(cd: ClusterData, now: int, k: string)
    ensures var live := LiveKeepers(cd, now);
            && (k in live <==>
                  && k in cd.keepers
                  && ((exists d :: d in cd.dbs && cd.dbs[d].spec.keeper == k) || now - cd.keepers[k].lastHealthy <= cd.spec.deadKeeperRemoval))
            && (k in live ==> live[k] == cd.keepers[k])
  {
  }

  /** The choices of a pass, and the document before finishing. */
  lemma Pass(cd: ClusterData, env: Env, proxies: map<string, nat>, uids: seq<string>, next: ClusterData) returns (c: Choices, mid: ClusterData)
    requires Passes(cd, env, proxies, uids, next)
    ensures NormalStep(cd, env, proxies, uids, c, mid) && next == Finished(cd, mid, env.now)
    ensures next.keepers == mid.keepers == LiveKeepers(cd, env.now)
    ensures next.spec == cd.spec && next.phase == cd.phase && next.pause == cd.pause
    ensures next.manualSwitch == mid.manualSwitch == c.request && next.master == mid.master == c.wanted
    ensures next.fence == mid.fence && next.dbs.Keys == mid.dbs.Keys
  {
    c, mid := Runs.OnePass(cd, env, proxies, uids, next);
    FinishedLeaves(cd, mid, env.now);
    PassLeaves(cd, env, proxies, uids, c, mid);
  }

  lemma PassLeaves(cd: ClusterData, env: Env, proxies: map<string, nat>, uids: seq<string>, c: Choices, mid: ClusterData)
    requires Inv(cd) && Invariant.Fresh(cd, uids) && cd.phase == Normal
    requires NormalStep(cd, env, proxies, uids, c, mid)
    ensures mid.keepers == LiveKeepers(cd, env.now) && mid.spec == cd.spec && mid.phase == cd.phase && mid.pause == cd.pause
    ensures mid.manualSwitch == c.request && mid.master == c.wanted
  {
  }

  // ------------------------------------------------------------------ reasons

  /** The master is not healthy, or has had longer to reach its generation than it is given. */
  predicate MasterFailed(cd: ClusterData, env: Env)
    requires cd.master in cd.dbs
  {
    var m, limit := cd.dbs[cd.master], cd.spec.convergenceTimeout;
    || !m.status.healthy
    || (m.status.generation != m.generation && limit != 0 && m.uid in env.convergenceTimers && env.now - env.convergenceTimers[m.uid] > limit)
  }

  /** Under synchronous replication only a standby both required and known to be in sync may take over by itself. */
  predicate MaySucceed(cd: ClusterData, d: string) {
    && MayReplace(cd, d)
    && var m := cd.dbs[cd.master];
       m.spec.syncRepl && cd.spec.syncRepl ==> d in m.spec.syncStandbys && d in m.status.syncStandbys
  }

  /** Forgetting dead keepers changes nothing for those that own databases. */
  lemma LiveIsAlike(cd: ClusterData, now: int, d: string)
    requires cd.Consistent() && d in cd.dbs
    ensures MayReplace(Live(cd, now), d) <==> MayReplace(cd, d)
    ensures forall e :: e in cd.dbs ==> (Precedes(Live(cd, now), cd.dbs[d], cd.dbs[e]) <==> Precedes(cd, cd.dbs[d], cd.dbs[e]))
    ensures Priority(Live(cd, now), cd.dbs[d]) == cd.keepers[cd.dbs[d].spec.keeper].priority
  {
  }

  lemma LiveCandidates(cd: ClusterData, env: Env, d: string)
    requires Inv(cd) && cd.phase == Normal
    ensures Live(cd, env.now).Consistent()
    ensures d in Candidates(Live(cd, env.now), env, cd.dbs[cd.master]) <==> MayReplace(cd, d)
  {
    Invariant.LiveIsSound(cd, env.now);
    CandidatesMayReplace(Live(cd, env.now), env, d);
    if d in cd.dbs {
      LiveIsAlike(cd, env.now, d);
    }
  }

  lemma FailedIsNotOk(cd: ClusterData, env: Env)
    requires cd.master in cd.dbs
    ensures MasterOk(Live(cd, env.now), env, cd.dbs[cd.master]) <==> !MasterFailed(cd, env)
  {
  }

  /** Whoever becomes master may replace the old one, and there is a reason for it. */
  lemma SwitchHasReason(cd: ClusterData, env: Env, proxies: map<string, nat>, uids: seq<string>, next: ClusterData)
    requires Passes(cd, env, proxies, uids, next) && next.master != cd.master
    ensures MayReplace(cd, next.master)
    ensures || (cd.manualSwitch == Some(cd.dbs[next.master].spec.keeper) && next.manualSwitch == None)
            || (MasterFailed(cd, env) && MaySucceed(cd, next.master) && next.manualSwitch == cd.manualSwitch)
            || (&& !MasterFailed(cd, env) && cd.spec.unsafeAutoFailback && next.manualSwitch == cd.manualSwitch
                && cd.keepers[cd.dbs[next.master].spec.keeper].priority > cd.keepers[cd.dbs[cd.master].spec.keeper].priority)
  {
    var c, mid := Pass(cd, env, proxies, uids, next);
    DecisionHasReason(cd, env, c.why, c.wanted, c.request);
  }

  lemma DecisionHasReason(cd: ClusterData, env: Env, why: Decision, wanted: string, request: Option<string>)
    requires Inv(cd) && cd.phase == Normal && Live(cd, env.now).Consistent()
    requires Decided(Live(cd, env.now), env, why, wanted, request) && wanted != cd.master
    ensures MayReplace(cd, wanted)
    ensures why == ManualSwitch ==> cd.manualSwitch == Some(cd.dbs[wanted].spec.keeper) && request == None
    ensures why == Failover ==> MasterFailed(cd, env) && MaySucceed(cd, wanted) && request == cd.manualSwitch
    ensures why == AutoFailback ==>
              && !MasterFailed(cd, env) && cd.spec.unsafeAutoFailback && request == cd.manualSwitch
              && cd.keepers[cd.dbs[wanted].spec.keeper].priority > cd.keepers[cd.dbs[cd.master].spec.keeper].priority
  {
    LiveCandidates(cd, env, wanted);
    FailedIsNotOk(cd, env);
    LiveIsAlike(cd, env.now, wanted);
    LiveIsAlike(cd, env.now, cd.master);
  }

  /** A failed master is succeeded by the first of those that may succeed it. */
  lemma FirstSucceeds(cd: ClusterData, env: Env, proxies: map<string, nat>, uids: seq<string>, next: ClusterData, d: string)
    requires Passes(cd, env, proxies, uids, next) && next.master != cd.master
    requires MasterFailed(cd, env) && next.manualSwitch == cd.manualSwitch
    requires MaySucceed(cd, d) && d != next.master && next.master in cd.dbs
    ensures Precedes(cd, cd.dbs[next.master], cd.dbs[d])
  {
    var c, mid := Pass(cd, env, proxies, uids, next);
    FirstIsWanted(cd, env, c.why, c.wanted, c.request, d);
  }

  lemma FirstIsWanted(cd: ClusterData, env: Env, why: Decision, wanted: string, request: Option<string>, d: string)
    requires Inv(cd) && cd.phase == Normal && Live(cd, env.now).Consistent()
    requires Decided(Live(cd, env.now), env, why, wanted, request) && wanted != cd.master && wanted in cd.dbs
    requires MasterFailed(cd, env) && request == cd.manualSwitch
    requires MaySucceed(cd, d) && d != wanted
    ensures Precedes(cd, cd.dbs[wanted], cd.dbs[d])
  {
    FailedIsNotOk(cd, env);
    LiveCandidates(cd, env, d);
    LiveCandidates(cd, env, wanted);
    NotBehindPrecedes(Live(cd, env.now), cd.dbs[wanted], cd.dbs[d]);
    LiveIsAlike(cd, env.now, wanted);
  }

  /** A cluster fails back to the first of those with the highest priority. */
  lemma PreferredTakesOver(cd: ClusterData, env: Env, proxies: map<string, nat>, uids: seq<string>, next: ClusterData, d: string)
    requires Passes(cd, env, proxies, uids, next) && next.master != cd.master
    requires !MasterFailed(cd, env) && cd.manualSwitch == None
    requires MayReplace(cd, d) && d != next.master && next.master in cd.dbs
    ensures var p, q := cd.keepers[cd.dbs[next.master].spec.keeper].priority, cd.keepers[cd.dbs[d].spec.keeper].priority;
            p > q || (p == q && Precedes(cd, cd.dbs[next.master], cd.dbs[d]))
  {
    var c, mid := Pass(cd, env, proxies, uids, next);
    PreferredIsWanted(cd, env, c.why, c.wanted, c.request, d);
  }

  lemma PreferredIsWanted(cd: ClusterData, env: Env, why: Decision, wanted: string, request: Option<string>, d: string)
    requires Inv(cd) && cd.phase == Normal && Live(cd, env.now).Consistent()
    requires Decided(Live(cd, env.now), env, why, wanted, request) && wanted != cd.master && wanted in cd.dbs
    requires !MasterFailed(cd, env) && cd.manualSwitch == None
    requires MayReplace(cd, d) && d != wanted
    ensures var p, q := cd.keepers[cd.dbs[wanted].spec.keeper].priority, cd.keepers[cd.dbs[d].spec.keeper].priority;
            p > q || (p == q && Precedes(cd, cd.dbs[wanted], cd.dbs[d]))
  {
    FailedIsNotOk(cd, env);
    LiveCandidates(cd, env, d);
    LiveCandidates(cd, env, wanted);
    LiveIsAlike(cd, env.now, wanted);
    LiveIsAlike(cd, env.now, d);
  }

  /** An operator's request is carried out and cleared as soon as its target is, or may replace, the master. */
  lemma RequestCarriedOut(cd: ClusterData, env: Env, proxies: map<string, nat>, uids: seq<string>, next: ClusterData, d: string)
    requires Passes(cd, env, proxies, uids, next)
    requires d in cd.dbs && cd.manualSwitch == Some(cd.dbs[d].spec.keeper) && (d == cd.master || MayReplace(cd, d))
    ensures next.master == d && next.manualSwitch == None
  {
    var c, mid := Pass(cd, env, proxies, uids, next);
    RequestDecides(cd, env, c.why, c.wanted, c.request, d);
  }

  lemma RequestDecides(cd: ClusterData, env: Env, why: Decision, wanted: string, request: Option<string>, d: string)
    requires Inv(cd) && cd.phase == Normal && Live(cd, env.now).Consistent()
    requires Decided(Live(cd, env.now), env, why, wanted, request)
    requires d in cd.dbs && cd.manualSwitch == Some(cd.dbs[d].spec.keeper) && (d == cd.master || MayReplace(cd, d))
    ensures wanted == d && request == None
  {
    LiveCandidates(cd, env, d);
    assert Applicable(Live(cd, env.now), env);
  }

  /** Until then it stands. */
  lemma RequestStands(cd: ClusterData, env: Env, proxies: map<string, nat>, uids: seq<string>, next: ClusterData)
    requires Passes(cd, env, proxies, uids, next)
    requires forall d :: d in cd.dbs && cd.manualSwitch == Some(cd.dbs[d].spec.keeper) ==> d != cd.master && !MayReplace(cd, d)
    ensures next.manualSwitch == cd.manualSwitch
  {
    var c, mid := Pass(cd, env, proxies, uids, next);
    LiveCandidates(cd, env, c.wanted);
  }

  // ---------------------------------------------------------------- elections

  /** The document right after an election, before finishing. */
  lemma Elects(cd: ClusterData, env: Env, proxies: map<string, nat>, uids: seq<string>, next: ClusterData) returns (mid: ClusterData)
    requires Passes(cd, env, proxies, uids, next) && next.master != cd.master
    ensures next.master in cd.dbs && next.master == mid.master && next.fence == mid.fence
    ensures OnlyFinishes(cd, mid, next)
    ensures mid == WithFollowers(AfterElection(Live(cd, env.now).(manualSwitch := next.manualSwitch), next.master), cd.master, next.master)
  {
    var c;
    c, mid := Pass(cd, env, proxies, uids, next);
    FinishedOnlyFinishes(cd, mid, env.now);
  }

  /**
   * `spec` is that of a new master: it takes the role of the cluster, and the
   * old master takes its place among the synchronous standbys.  The name that
   * never answers is asked for exactly when a minimum is and there is no other.
   */
  predicate Inherits(cd: ClusterData, wanted: string, spec: DbSpec)
    requires cd.master in cd.dbs
  {
    && spec.role == cd.spec.role
    && spec.follow == (if cd.spec.role == Standby then External else NoFollow)
    && spec.syncRepl == (cd.spec.syncRepl && cd.spec.role == Master)
    && spec.syncStandbys ==
       (if !spec.syncRepl then {}
        else set d | d in cd.dbs[cd.master].spec.syncStandbys :: if d == wanted then cd.master else d)
    && spec.external == (if spec.syncRepl && spec.syncStandbys == {} && cd.spec.minSync > 0 then {SyncStandbys.FAKE_STANDBY} else {})
  }

  lemma HandedOverIs(standbys: set<string>, prior: string, elected: string)
    ensures SyncStandbys.HandedOver(standbys, prior, elected) == set d | d in standbys :: if d == elected then prior else d
  {
    if elected in standbys {
      assert prior == if elected == elected then prior else elected;
    }
    forall d | d in SyncStandbys.HandedOver(standbys, prior, elected)
      ensures d in set d | d in standbys :: if d == elected then prior else d
    {
      if d in standbys && d != elected {
        assert d == if d == elected then prior else d;
      }
    }
  }

  lemma ElectedInherits(cd: ClusterData, wanted: string)
    requires cd.Consistent() && cd.master in cd.dbs && wanted in cd.dbs && wanted != cd.master
    ensures Inherits(cd, wanted, WithFollowers(AfterElection(cd, wanted), cd.master, wanted).dbs[wanted].spec)
  {
    HandedOverIs(cd.dbs[cd.master].spec.syncStandbys, cd.master, wanted);
  }

  lemma FinishedInherits(cd: ClusterData, live: ClusterData, wanted: string, spec: DbSpec, settings: Settings)
    requires cd.master in cd.dbs && live.master == cd.master && live.dbs == cd.dbs && live.spec == cd.spec
    requires Inherits(live, wanted, spec)
    ensures Inherits(cd, wanted, spec.(settings := settings))
  {
  }

  lemma WaitsForSomeone(cd: ClusterData, wanted: string, spec: DbSpec)
    requires cd.master in cd.dbs && Inherits(cd, wanted, spec) && spec.syncRepl && cd.spec.minSync > 0
    ensures exists name :: name in spec.syncStandbys || name in spec.external
  {
    if spec.syncStandbys != {} {
      var name :| name in spec.syncStandbys;
    } else {
      assert SyncStandbys.FAKE_STANDBY in spec.external;
    }
  }

  /**
   * The new master inherits, whatever the reason for its election, and as long as
   * a minimum of synchronous standbys is asked for it has a name to wait for.
   */
  lemma ElectedMaster(cd: ClusterData, env: Env, proxies: map<string, nat>, uids: seq<string>, next: ClusterData)
    requires Passes(cd, env, proxies, uids, next) && next.master != cd.master
    ensures next.master in next.dbs && Inherits(cd, next.master, next.dbs[next.master].spec)
    ensures var spec := next.dbs[next.master].spec;
            cd.spec.syncRepl && cd.spec.role == Master && cd.spec.minSync > 0 ==>
              && (exists name :: name in spec.syncStandbys || name in spec.external)
              && (spec.external == {SyncStandbys.FAKE_STANDBY} <==> spec.syncStandbys == {})
              && (spec.external == {} <==> spec.syncStandbys != {})
  {
    var mid := Elects(cd, env, proxies, uids, next);
    Invariant.LiveIsSound(cd, env.now);
    var live := Live(cd, env.now).(manualSwitch := next.manualSwitch);
    ElectedInherits(live, next.master);
    assert DbFinished(cd, mid, next, next.master);
    FinishedInherits(cd, live, next.master, mid.dbs[next.master].spec, next.dbs[next.master].spec.settings);
    if cd.spec.syncRepl && cd.spec.role == Master && cd.spec.minSync > 0 {
      WaitsForSomeone(cd, next.master, next.dbs[next.master].spec);
    }
  }

  /** An election removes and creates nothing, and touches no other spec but the old master's list of followers. */
  lemma ElectionSpares(cd: ClusterData, env: Env, proxies: map<string, nat>, uids: seq<string>, next: ClusterData, d: string)
    requires Passes(cd, env, proxies, uids, next) && next.master != cd.master && d in cd.dbs
    ensures next.dbs.Keys == cd.dbs.Keys
    ensures d != next.master ==>
              && next.dbs[d].status == cd.dbs[d].status
              && next.dbs[d].spec == cd.dbs[d].spec.(settings := next.dbs[d].spec.settings, followers := next.dbs[d].spec.followers)
    ensures d != next.master && d != cd.master ==> next.dbs[d].spec.followers == cd.dbs[d].spec.followers
    ensures d == cd.master ==>
              next.dbs[d].spec.followers == set e | e in cd.dbs && e != next.master && e != cd.master && cd.dbs[e].spec.follow == Internal(next.master)
  {
    var mid := Elects(cd, env, proxies, uids, next);
    ElectionTouches(Live(cd, env.now).(manualSwitch := next.manualSwitch), next.master, d);
    assert DbFinished(cd, mid, next, d);
  }

  lemma ElectionTouches(cd: ClusterData, wanted: string, d: string)
    requires cd.master in cd.dbs && wanted in cd.dbs && wanted != cd.master && d in cd.dbs
    ensures var mid := WithFollowers(AfterElection(cd, wanted), cd.master, wanted);
            && mid.dbs.Keys == cd.dbs.Keys
            && (d != wanted && d != cd.master ==> mid.dbs[d] == cd.dbs[d])
            && (d == cd.master ==> mid.dbs[d] == cd.dbs[d].(spec := cd.dbs[d].spec.(followers := mid.dbs[d].spec.followers)))
            && (d == cd.master ==>
                  mid.dbs[d].spec.followers == (set e | e in cd.dbs && e != wanted && e != cd.master && cd.dbs[e].spec.follow == Internal(wanted)))
  {
  }

  /** The fence is closed by an election, and otherwise opens for the master or takes over the active proxies. */
  lemma FenceAfter(cd: ClusterData, env: Env, proxies: map<string, nat>, uids: seq<string>, next: ClusterData)
    requires Passes(cd, env, proxies, uids, next)
    ensures next.master != cd.master ==> next.fence.master == "" && next.fence.enabled == cd.fence.enabled
    ensures next.master == cd.master && cd.fence.master == "" ==>
              && next.fence.enabled == cd.fence.enabled
              && next.fence.master == if forall p :: p in proxies ==> proxies[p] == cd.fence.generation then cd.master else ""
    ensures next.master == cd.master && cd.fence.master != "" ==>
              next.fence.master == cd.fence.master && next.fence.enabled == proxies.Keys
    ensures next.fence.generation == cd.fence.generation +
              if next.fence.master == cd.fence.master && next.fence.enabled == cd.fence.enabled then 0 else 1
  {
    var c, mid := Pass(cd, env, proxies, uids, next);
    PassMovesFence(cd, env, proxies, uids, c, mid);
    Fencing.ClosedTable(cd.fence);
    Fencing.NextTable(cd.fence, cd.master, proxies);
  }

  lemma PassMovesFence(cd: ClusterData, env: Env, proxies: map<string, nat>, uids: seq<string>, c: Choices, mid: ClusterData)
    requires Inv(cd) && cd.phase == Normal && Invariant.Fresh(cd, uids)
    requires NormalStep(cd, env, proxies, uids, c, mid)
    ensures mid.fence == if c.wanted == cd.master then Fencing.NextFence(cd.fence, cd.master, proxies) else Fencing.ClosedFence(cd.fence)
  {
  }

  // -------------------------------------------------------------- maintenance

  /** The pass keeps a master that is healthy and has reached its generation. */
  ghost predicate Maintains(cd: ClusterData, env: Env, proxies: map<string, nat>, uids: seq<string>, next: ClusterData) {
    && Passes(cd, env, proxies, uids, next) && next.master == cd.master
    && cd.dbs[cd.master].status.healthy && cd.dbs[cd.master].status.generation == cd.dbs[cd.master].generation
  }

  /** The database belongs to another cluster, or its timeline has left the master's. */
  predicate Foreign(m: DbStatus, s: DbStatus) {
    && s.generation != 0
    && (|| (s.systemId != "" && s.systemId != m.systemId)
        || Timeline.Detect(m.timeline, m.history, s.timeline, s.history, s.xlog).different)
  }

  /** A standby has not moved for too many checks, and the master has recycled the WAL it needs next. */
  ghost predicate LeftBehind(cd: ClusterData, env: Env, d: string)
    requires d in cd.dbs && cd.master in cd.dbs
  {
    var m, db := cd.dbs[cd.master].status, cd.dbs[d];
    && db.spec.role == Standby && db.spec.follow != External && db.generation != 1
    && db.status.healthy && db.status.xlog != m.xlog && d in env.stalled
    && m.olderWal != "" && Wal.IsWalName(m.olderWal) && !Wal.NotBefore(db.status.xlog, WAL_SEGMENT_SIZE, m.olderWal)
  }

  /** Another primary, a foreign database, or a standby left behind. */
  ghost predicate Unfit(cd: ClusterData, env: Env, d: string)
    requires d in cd.dbs && cd.master in cd.dbs
  {
    && d != cd.master
    && (|| cd.dbs[d].spec.role == Master || cd.dbs[d].spec.follow == External
        || Foreign(cd.dbs[cd.master].status, cd.dbs[d].status)
        || LeftBehind(cd, env, d))
  }

  /** A standby worth keeping that is healthy and has reached its generation. */
  ghost predicate GoodStandby(cd: ClusterData, env: Env, d: string) {
    && d in cd.dbs && cd.master in cd.dbs && d != cd.master && !Unfit(cd, env, d)
    && var db := cd.dbs[d];
       && db.spec.keeper in cd.keepers && cd.keepers[db.spec.keeper].healthy && db.status.healthy
       && db.status.generation == db.generation != 0
  }

  /** One on a healthy keeper that has reported and has still time to reach its generation. */
  ghost predicate ConvergingStandby(cd: ClusterData, env: Env, d: string) {
    && d in cd.dbs && cd.master in cd.dbs && d != cd.master && !Unfit(cd, env, d)
    && var db := cd.dbs[d];
       && db.spec.keeper in cd.keepers && cd.keepers[db.spec.keeper].healthy
       && db.status.generation != 0 && db.status.generation != db.generation && !Overdue(cd, env, db)
  }

  ghost function GoodStandbys(cd: ClusterData, env: Env): set<string> { set d | d in cd.dbs && GoodStandby(cd, env, d) }

  ghost function ConvergingStandbys(cd: ClusterData, env: Env): set<string> { set d | d in cd.dbs && ConvergingStandby(cd, env, d) }

  /** The document a keeping pass maintains: dead keepers gone, the fence moved, the master in its role. */
  ghost function Ahead(cd: ClusterData, env: Env, proxies: map<string, nat>, request: Option<string>): ClusterData
    requires cd.master in cd.dbs
  {
    Opened(Live(cd, env.now).(manualSwitch := request), proxies)
  }

  /** What it shares with the document the pass read. */
  ghost predicate Alike(cd: ClusterData, open: ClusterData) {
    && open.spec == cd.spec && open.master == cd.master && open.dbs.Keys == cd.dbs.Keys && cd.master in cd.dbs
    && (forall d :: d in cd.dbs && d != cd.master ==> open.dbs[d] == cd.dbs[d])
    && open.dbs[cd.master].spec.keeper == cd.dbs[cd.master].spec.keeper
    && open.dbs[cd.master].status == cd.dbs[cd.master].status && open.dbs[cd.master].generation == cd.dbs[cd.master].generation
    && (forall d :: d in cd.dbs ==>
          cd.dbs[d].spec.keeper in open.keepers && cd.dbs[d].spec.keeper in cd.keepers
          && open.keepers[cd.dbs[d].spec.keeper] == cd.keepers[cd.dbs[d].spec.keeper])
  }

  lemma AheadIsAlike(cd: ClusterData, env: Env, proxies: map<string, nat>, request: Option<string>)
    requires Inv(cd) && cd.phase == Normal
    ensures var open := Ahead(cd, env, proxies, request);
            && Alike(cd, open) && Sound(open) && HasMaster(open) && open.keepers == LiveKeepers(cd, env.now)
            && open.dbs[cd.master].spec == (if cd.spec.role == Master then cd.dbs[cd.master].spec.(role := Master, follow := NoFollow) else cd.dbs[cd.master].spec)
  {
    Invariant.LiveIsSound(cd, env.now);
    Invariant.OpenedIsSound(Live(cd, env.now).(manualSwitch := request), proxies);
  }

  lemma Keeps(cd: ClusterData, env: Env, proxies: map<string, nat>, uids: seq<string>, next: ClusterData) returns (c: Choices, mid: ClusterData)
    requires Maintains(cd, env, proxies, uids, next)
    ensures var open := Ahead(cd, env, proxies, next.manualSwitch);
            && Alike(cd, open) && Sound(open) && HasMaster(open)
            && Maintained(cd, open, env, uids, c, c.maintained)
            && cd.master in c.maintained.dbs
            && mid == WithFollowers(c.maintained, cd.master, cd.master)
    ensures OnlyFinishes(cd, mid, next)
  {
    c, mid := Pass(cd, env, proxies, uids, next);
    AheadIsAlike(cd, env, proxies, next.manualSwitch);
    FinishedOnlyFinishes(cd, mid, env.now);
  }

  // ---- clean-up

  lemma CleanedAreUnfit(cd: ClusterData, open: ClusterData, env: Env, d: string)
    requires Alike(cd, open) && cd.Consistent() && d in cd.dbs
    ensures CleanedAway(cd, open, env, d) <==> Unfit(cd, env, d)
  {
    if d != cd.master {
      ValidityTable(open, open.dbs[d]);
    }
  }

  lemma ClassifiedGood(cd: ClusterData, open: ClusterData, env: Env, d: string)
    requires Alike(cd, open) && cd.Consistent() && open.Consistent() && HasMaster(open) && d in cd.dbs
    requires var clean := Cleaned(cd, open, env); clean.Consistent() && cd.master in clean.dbs
    ensures d in ByStatus(Cleaned(cd, open, env), env, ReplicaLine, Good) <==> GoodStandby(cd, env, d)
    ensures d in ByStatus(Cleaned(cd, open, env), env, ReplicaLine, Converging) <==> ConvergingStandby(cd, env, d)
  {
    CleanedAreUnfit(cd, open, env, d);
    var clean := Cleaned(cd, open, env);
    if d in clean.dbs && d != cd.master {
      assert clean.dbs[d] == cd.dbs[d];
      ValidityTable(clean, clean.dbs[d]);
      StatusTable(clean, env, clean.dbs[d]);
    }
  }

  lemma PreparedAre(cd: ClusterData, open: ClusterData, env: Env, good: set<string>, converging: set<string>, ready: ClusterData)
    requires Alike(cd, open) && cd.Consistent() && Sound(open) && HasMaster(open)
    requires Prepared(cd, open, env, good, converging, ready)
    ensures good == GoodStandbys(cd, env) && converging == ConvergingStandbys(cd, env)
    ensures ready == open.(dbs := ready.dbs)
    ensures forall d :: d in ready.dbs <==> d in cd.dbs && !Unfit(cd, env, d)
    ensures forall d :: d in ready.dbs && d != cd.master ==>
              ready.dbs[d] == if d in good then cd.dbs[d].(spec := cd.dbs[d].spec.(initMode := InitNone)) else cd.dbs[d]
    ensures cd.master in ready.dbs && ready.dbs[cd.master] == open.dbs[cd.master]
  {
    Invariant.CleanedIsSound(cd, open, env);
    forall d | d in cd.dbs
      ensures d in good <==> GoodStandby(cd, env, d)
      ensures d in converging <==> ConvergingStandby(cd, env, d)
      ensures d in ready.dbs <==> !Unfit(cd, env, d)
    {
      ClassifiedGood(cd, open, env, d);
      CleanedAreUnfit(cd, open, env, d);
    }
    assert !Unfit(cd, env, cd.master);
  }

  // ---- from there to the maintained document

  /** What is left after clean-up, with the good standbys marked as initialized. */
  ghost predicate Readied(cd: ClusterData, open: ClusterData, env: Env, c: Choices)
    requires cd.master in cd.dbs
  {
    && c.good == GoodStandbys(cd, env) && c.converging == ConvergingStandbys(cd, env)
    && c.ready == open.(dbs := c.ready.dbs) && cd.master in c.ready.dbs
    && cd.master in open.dbs && c.ready.dbs[cd.master] == open.dbs[cd.master]
    && (forall d :: d in c.ready.dbs <==> d in cd.dbs && !Unfit(cd, env, d))
    && (forall d :: d in c.ready.dbs && d != cd.master ==>
          c.ready.dbs[d] == if d in c.good then cd.dbs[d].(spec := cd.dbs[d].spec.(initMode := InitNone)) else cd.dbs[d])
  }

  lemma MaintainedReadies(cd: ClusterData, open: ClusterData, env: Env, uids: seq<string>, c: Choices)
    requires Alike(cd, open) && cd.Consistent() && Sound(open) && HasMaster(open) && Distinct(uids)
    requires Maintained(cd, open, env, uids, c, c.maintained)
    ensures Readied(cd, open, env, c)
  {
    assert Prepared(cd, open, env, c.good, c.converging, c.ready);
    PreparedAre(cd, open, env, c.good, c.converging, c.ready);
  }

  /** Then the synchronous standbys are settled, the number of standbys changed, and they are made to follow. */
  ghost predicate Settles(cd: ClusterData, uids: seq<string>, c: Choices)
    requires Distinct(uids)
  {
    && Invariant.Synced(c).master == cd.master && cd.master in Invariant.Synced(c).dbs
    && TypeOf(c.master) == PrimaryLine && cd.master in cd.dbs && c.master.spec.keeper == cd.dbs[cd.master].spec.keeper
    && Resized(Invariant.Synced(c), c.good, c.converging, uids, c.resized)
    && c.maintained == Reconfigured(Invariant.Synced(c).(dbs := c.resized))
  }

  lemma MaintainedSettles(cd: ClusterData, open: ClusterData, env: Env, uids: seq<string>, c: Choices)
    requires Alike(cd, open) && cd.Consistent() && Sound(open) && HasMaster(open) && Distinct(uids)
    requires Maintained(cd, open, env, uids, c, c.maintained) && c.ready.master == cd.master && c.ready.dbs[cd.master] == open.dbs[cd.master]
    ensures Settles(cd, uids, c)
  {
    assert Invariant.Synced(c) == c.ready.(dbs := c.ready.dbs[cd.master := c.master]);
    Invariant.SyncKeepsShape(c.ready, c.inputs, c.sync, c.master);
  }

  lemma KeepsAndSettles(cd: ClusterData, env: Env, proxies: map<string, nat>, uids: seq<string>, next: ClusterData)
    returns (open: ClusterData, c: Choices, mid: ClusterData)
    requires Maintains(cd, env, proxies, uids, next)
    ensures Alike(cd, open) && Readied(cd, open, env, c) && Settles(cd, uids, c)
    ensures cd.master in c.maintained.dbs && mid == WithFollowers(c.maintained, cd.master, cd.master)
    ensures OnlyFinishes(cd, mid, next)
  {
    c, mid := Keeps(cd, env, proxies, uids, next);
    open := Ahead(cd, env, proxies, next.manualSwitch);
    MaintainedReadies(cd, open, env, uids, c);
    MaintainedSettles(cd, open, env, uids, c);
  }

  /** A maintained standby as it was found, but configured to follow the master. */
  predicate Configured(was: DbSpec, good: bool, master: string, spec: DbSpec) {
    && spec.keeper == was.keeper && spec.includeConfig == was.includeConfig
    && spec.role == Standby && spec.follow == Internal(master) && spec.followers == {}
    && !spec.syncRepl && spec.syncStandbys == {} && spec.external == {}
    && spec.initMode == if good then InitNone else was.initMode
  }

  lemma OldStandby(cd: ClusterData, open: ClusterData, env: Env, uids: seq<string>, c: Choices, d: string)
    requires Alike(cd, open) && Invariant.Fresh(cd, uids) && Readied(cd, open, env, c) && Settles(cd, uids, c)
    requires d in cd.dbs && d != cd.master && d in c.maintained.dbs
    ensures !Unfit(cd, env, d)
    ensures Configured(cd.dbs[d].spec, d in c.good, cd.master, c.maintained.dbs[d].spec)
    ensures c.maintained.dbs[d].status == cd.dbs[d].status
  {
    OldResized(Invariant.Synced(c), c.good, c.converging, uids, c.resized, d);
  }

  lemma OldResized(cd: ClusterData, good: set<string>, converging: set<string>, uids: seq<string>, dbs: map<string, Db>, d: string)
    requires cd.master in cd.dbs && Distinct(uids) && d !in uids && d in dbs
    requires Resized(cd, good, converging, uids, dbs)
    ensures d in cd.dbs && dbs[d] == cd.dbs[d]
  {
    if |good| < cd.spec.maxStandbysPerSender {
      var keepers: seq<string> :| |keepers| <= |uids| && dbs == cd.dbs + NewStandbys(uids, keepers, cd.master);
      NewStandbysAre(uids, keepers, cd.master);
    }
  }

  /** Whoever is unfit is removed; whoever stays keeps its status and is configured to follow the master. */
  lemma Survivors(cd: ClusterData, env: Env, proxies: map<string, nat>, uids: seq<string>, next: ClusterData, d: string)
    requires Maintains(cd, env, proxies, uids, next) && d in cd.dbs && d != cd.master && d in next.dbs
    ensures !Unfit(cd, env, d)
    ensures Configured(cd.dbs[d].spec, GoodStandby(cd, env, d), cd.master, next.dbs[d].spec)
    ensures next.dbs[d].status == cd.dbs[d].status
  {
    var open, c, mid := KeepsAndSettles(cd, env, proxies, uids, next);
    OldStandby(cd, open, env, uids, c, d);
    assert DbFinished(cd, mid, next, d);
  }

  // ---- number of standbys

  /** The databases that clean-up leaves. */
  ghost function FitDbs(cd: ClusterData, env: Env): set<string>
    requires cd.master in cd.dbs
  {
    set d | d in cd.dbs && !Unfit(cd, env, d)
  }

  /**
   * Of the fit databases those left are the master, the required standbys and
   * good ones: of the good ones that are not required as many go as there are
   * good ones too many, as far as there are so many.
   */
  predicate LeavesEnough(fit: set<string>, master: string, good: set<string>, required: set<string>, limit: nat, left: set<string>) {
    && left <= fit
    && left <= {master} + good + required
    && fit * required <= left
    && master in left
    && good - left <= good - required
    && |good - left| == (if |good| - limit < |good - required| then |good| - limit else |good - required|)
  }

  lemma TrimmedLeavesEnough(cd: ClusterData, good: set<string>, dbs: map<string, Db>)
    requires HasMaster(cd) && Trimmed(cd, good, dbs) && good <= cd.dbs.Keys && cd.master !in good
    requires Invariant.OthersReplicate(cd)
    ensures LeavesEnough(cd.dbs.Keys, cd.master, good, cd.dbs[cd.master].spec.syncStandbys, cd.spec.maxStandbysPerSender, dbs.Keys)
  {
    var excess: set<string> :| TrimmedOf(cd, good, excess, dbs);
    TrimmedKeys(cd, good, excess, dbs);
    LeftAreEnough(cd.dbs.Keys, cd.master, good, cd.dbs[cd.master].spec.syncStandbys, cd.spec.maxStandbysPerSender, excess, dbs.Keys);
  }

  lemma TrimmedKeys(cd: ClusterData, good: set<string>, excess: set<string>, dbs: map<string, Db>)
    requires HasMaster(cd) && TrimmedOf(cd, good, excess, dbs) && Invariant.OthersReplicate(cd)
    ensures forall d :: d in dbs.Keys <==>
              d in cd.dbs.Keys && d !in excess && (d == cd.master || d in cd.dbs[cd.master].spec.syncStandbys || d in good)
  {
  }

  lemma LeftAreEnough(fit: set<string>, master: string, good: set<string>, required: set<string>, limit: nat, excess: set<string>, left: set<string>)
    requires master in fit && good <= fit && master !in good && excess <= good - required
    requires |excess| == SyncStandbys.Min(|good| - limit, |good - required|)
    requires forall d :: d in left <==> d in fit && d !in excess && (d == master || d in required || d in good)
    ensures LeavesEnough(fit, master, good, required, limit, left)
  {
    assert good - left == excess;
  }

  lemma SyncedIsFit(cd: ClusterData, open: ClusterData, env: Env, uids: seq<string>, c: Choices)
    requires Alike(cd, open) && Readied(cd, open, env, c) && Distinct(uids) && Settles(cd, uids, c)
    ensures var synced := Invariant.Synced(c);
            && synced.dbs.Keys == FitDbs(cd, env) && synced.dbs[cd.master] == c.master && synced.spec == cd.spec
            && HasMaster(synced) && Invariant.OthersReplicate(synced)
    ensures c.good <= FitDbs(cd, env) && cd.master !in c.good
  {
  }

  lemma MaintainedKeys(cd: ClusterData, uids: seq<string>, c: Choices)
    requires Distinct(uids) && Settles(cd, uids, c)
    ensures c.maintained.dbs.Keys == c.resized.Keys
  {
  }

  lemma Trims(cd: ClusterData, open: ClusterData, env: Env, uids: seq<string>, c: Choices)
    requires Alike(cd, open) && Readied(cd, open, env, c) && Distinct(uids) && Settles(cd, uids, c)
    requires |GoodStandbys(cd, env)| >= cd.spec.maxStandbysPerSender
    ensures LeavesEnough(FitDbs(cd, env), cd.master, GoodStandbys(cd, env), c.master.spec.syncStandbys, cd.spec.maxStandbysPerSender, c.maintained.dbs.Keys)
  {
    SyncedIsFit(cd, open, env, uids, c);
    TrimmedLeavesEnough(Invariant.Synced(c), c.good, c.resized);
    MaintainedKeys(cd, uids, c);
  }

  lemma MasterIsTold(cd: ClusterData, uids: seq<string>, c: Choices, mid: ClusterData, next: ClusterData)
    requires Invariant.Fresh(cd, uids) && cd.master in cd.dbs && Settles(cd, uids, c) && cd.master in c.maintained.dbs
    requires mid == WithFollowers(c.maintained, cd.master, cd.master) && OnlyFinishes(cd, mid, next)
    ensures next.dbs.Keys == c.maintained.dbs.Keys
    ensures var was, told := c.master, next.dbs[cd.master];
            && told.spec == was.spec.(followers := told.spec.followers, settings := told.spec.settings)
            && told.spec.followers == (set d | d in c.maintained.dbs && d != cd.master && c.maintained.dbs[d].spec.follow == Internal(cd.master))
            && told.status == was.status.(orphans := told.status.orphans)
  {
    MasterMaintained(cd, uids, c);
    assert DbFinished(cd, mid, next, cd.master);
  }

  /** With enough good standbys nobody is added, and those that are too many go. */
  lemma EnoughStandbys(cd: ClusterData, env: Env, proxies: map<string, nat>, uids: seq<string>, next: ClusterData)
    requires Maintains(cd, env, proxies, uids, next)
    requires |GoodStandbys(cd, env)| >= cd.spec.maxStandbysPerSender
    ensures cd.master in next.dbs
    ensures LeavesEnough(FitDbs(cd, env), cd.master, GoodStandbys(cd, env), next.dbs[cd.master].spec.syncStandbys, cd.spec.maxStandbysPerSender, next.dbs.Keys)
  {
    var open, c, mid := KeepsAndSettles(cd, env, proxies, uids, next);
    Trims(cd, open, env, uids, c);
    MasterIsTold(cd, uids, c, mid, next);
  }

  lemma MasterMaintained(cd: ClusterData, uids: seq<string>, c: Choices)
    requires Invariant.Fresh(cd, uids) && cd.master in cd.dbs && Settles(cd, uids, c) && cd.master in c.maintained.dbs
    ensures c.maintained.dbs[cd.master] == c.master
  {
    OldResized(Invariant.Synced(c), c.good, c.converging, uids, c.resized, cd.master);
  }

  /** `db` is a standby just created on keeper `k`. */
  predicate JustCreated(db: Db, d: string, master: string) {
    && db.uid == d && db.generation == 1 && db.status == NEW_STATUS
    && db.spec.initMode == InitResync && !db.spec.includeConfig
    && db.spec.role == Standby && db.spec.follow == Internal(master) && db.spec.followers == {}
    && !db.spec.syncRepl && db.spec.syncStandbys == {} && db.spec.external == {}
  }

  /** New databases are standbys of the master, each on a free keeper, as many as are missing or as keepers are free. */
  ghost predicate Adds(cd: ClusterData, uids: seq<string>, missing: int, dbs: map<string, Db>) {
    && cd.dbs.Keys <= dbs.Keys
    && (forall d :: d in dbs && d !in cd.dbs ==> d in uids && AddedTo(cd, dbs[d], d))
    && |dbs.Keys - cd.dbs.Keys| <= (if missing < 0 then 0 else missing)
    && (|dbs.Keys - cd.dbs.Keys| < missing ==> forall k :: Free(cd, k) ==> Housed(cd, dbs, k))
  }

  predicate AddedTo(cd: ClusterData, db: Db, d: string) { JustCreated(db, d, cd.master) && Free(cd, db.spec.keeper) }

  /** One of the new databases is on keeper `k`. */
  ghost predicate Housed(cd: ClusterData, dbs: map<string, Db>, k: string) {
    exists d :: d in dbs && d !in cd.dbs && dbs[d].spec.keeper == k
  }

  lemma {:induction false} NewStandbysCount(uids: seq<string>, keepers: seq<string>, master: string)
    requires |keepers| <= |uids| && Distinct(uids)
    ensures |NewStandbys(uids, keepers, master)| == |keepers|
    ensures forall i :: 0 <= i < |keepers| ==>
              uids[i] in NewStandbys(uids, keepers, master) && NewStandbys(uids, keepers, master)[uids[i]].spec.keeper == keepers[i]
  {
    if keepers != [] {
      var n := |keepers| - 1;
      NewStandbysCount(uids, keepers[..n], master);
      NewStandbysAre(uids, keepers[..n], master);
      var fewer := NewStandbys(uids, keepers[..n], master);
      assert uids[n] !in fewer;
      assert NewStandbys(uids, keepers, master).Keys == fewer.Keys + {uids[n]};
    }
  }

  lemma OneAdded(cd: ClusterData, uids: seq<string>, keepers: seq<string>, d: string)
    requires Distinct(uids) && |keepers| <= |uids| && forall k :: k in keepers ==> Free(cd, k)
    requires d in NewStandbys(uids, keepers, cd.master)
    ensures d in uids && AddedTo(cd, NewStandbys(uids, keepers, cd.master)[d], d)
  {
    NewStandbysAre(uids, keepers, cd.master);
  }

  lemma OneHoused(cd: ClusterData, uids: seq<string>, keepers: seq<string>, dbs: map<string, Db>, i: nat)
    requires Invariant.Fresh(cd, uids) && |keepers| <= |uids| && i < |keepers|
    requires dbs == cd.dbs + NewStandbys(uids, keepers, cd.master)
    ensures Housed(cd, dbs, keepers[i])
  {
    NewStandbysCount(uids, keepers, cd.master);
    assert uids[i] in dbs && uids[i] !in cd.dbs;
  }

  lemma AddedCount(cd: ClusterData, uids: seq<string>, keepers: seq<string>, dbs: map<string, Db>)
    requires Invariant.Fresh(cd, uids) && |keepers| <= |uids|
    requires dbs == cd.dbs + NewStandbys(uids, keepers, cd.master)
    ensures dbs.Keys - cd.dbs.Keys == NewStandbys(uids, keepers, cd.master).Keys && |dbs.Keys - cd.dbs.Keys| == |keepers|
  {
    NewStandbysAre(uids, keepers, cd.master);
    NewStandbysCount(uids, keepers, cd.master);
  }

  lemma ExtendedByAdds(cd: ClusterData, uids: seq<string>, keepers: seq<string>, missing: int, dbs: map<string, Db>)
    requires Invariant.Fresh(cd, uids) && |keepers| <= |uids| && forall k :: k in keepers ==> Free(cd, k)
    requires |keepers| <= (if missing < 0 then 0 else missing)
    requires |keepers| < missing ==> forall k :: Free(cd, k) ==> k in keepers
    requires dbs == cd.dbs + NewStandbys(uids, keepers, cd.master)
    ensures Adds(cd, uids, missing, dbs)
  {
    AddedCount(cd, uids, keepers, dbs);
    forall d | d in dbs && d !in cd.dbs
      ensures d in uids && AddedTo(cd, dbs[d], d)
    {
      OneAdded(cd, uids, keepers, d);
    }
    forall k | k in keepers
      ensures Housed(cd, dbs, k)
    {
      var i :| 0 <= i < |keepers| && keepers[i] == k;
      OneHoused(cd, uids, keepers, dbs, i);
    }
  }

  lemma ExtendedAdds(cd: ClusterData, uids: seq<string>, missing: int, dbs: map<string, Db>)
    requires Invariant.Fresh(cd, uids) && Extended(cd, uids, missing, dbs)
    ensures Adds(cd, uids, missing, dbs)
  {
    var keepers: seq<string> :|
      && |keepers| <= |uids|
      && (forall k :: k in keepers ==> Free(cd, k))
      && |keepers| <= (if missing < 0 then 0 else missing)
      && (|keepers| < missing ==> forall k :: Free(cd, k) ==> k in keepers)
      && dbs == cd.dbs + NewStandbys(uids, keepers, cd.master);
    ExtendedByAdds(cd, uids, keepers, missing, dbs);
  }

  /** How many standbys are missing when the converging ones are counted on. */
  ghost function Missing(cd: ClusterData, env: Env): int {
    cd.spec.maxStandbysPerSender - |GoodStandbys(cd, env)| - |ConvergingStandbys(cd, env)|
  }

  lemma Extends(cd: ClusterData, open: ClusterData, env: Env, uids: seq<string>, c: Choices)
    requires Alike(cd, open) && Readied(cd, open, env, c) && Invariant.Fresh(cd, uids) && Settles(cd, uids, c)
    requires |GoodStandbys(cd, env)| < cd.spec.maxStandbysPerSender
    ensures Adds(Invariant.Synced(c), uids, Missing(cd, env), c.resized)
  {
    SyncedIsFit(cd, open, env, uids, c);
    ExtendedAdds(Invariant.Synced(c), uids, Missing(cd, env), c.resized);
  }

  /** Of the old databases those in `fit` are left, and `missing` new ones are created if possible. */
  ghost predicate Fills(before: set<string>, fit: set<string>, missing: int, next: ClusterData) {
    && next.dbs.Keys * before == fit
    && |next.dbs.Keys - before| <= (if missing < 0 then 0 else missing)
    && (|next.dbs.Keys - before| < missing ==> forall k :: k in next.keepers && next.keepers[k].healthy ==> Assigned(next, k))
  }

  lemma AddedFills(cd: ClusterData, before: set<string>, uids: seq<string>, missing: int, next: ClusterData)
    requires Adds(cd, uids, missing, next.dbs) && cd.dbs.Keys <= before && forall u :: u in uids ==> u !in before
    requires next.keepers == cd.keepers && forall d :: d in cd.dbs ==> next.dbs[d].spec.keeper == cd.dbs[d].spec.keeper
    ensures Fills(before, cd.dbs.Keys, missing, next)
  {
    assert next.dbs.Keys - before == next.dbs.Keys - cd.dbs.Keys;
    forall k | |next.dbs.Keys - before| < missing && k in next.keepers && next.keepers[k].healthy
      ensures Assigned(next, k)
    {
      if !Assigned(cd, k) {
        assert Free(cd, k);
        assert Housed(cd, next.dbs, k);
      }
    }
  }

  lemma SameKeepersFill(before: set<string>, fit: set<string>, missing: int, a: ClusterData, b: ClusterData)
    requires Fills(before, fit, missing, a)
    requires b.keepers == a.keepers && b.dbs.Keys == a.dbs.Keys && forall d :: d in a.dbs ==> b.dbs[d].spec.keeper == a.dbs[d].spec.keeper
    ensures Fills(before, fit, missing, b)
  {
    forall k | Assigned(a, k)
      ensures Assigned(b, k)
    {
    }
  }

  lemma ResizedFills(cd: ClusterData, open: ClusterData, env: Env, uids: seq<string>, c: Choices)
    requires Alike(cd, open) && Readied(cd, open, env, c) && Invariant.Fresh(cd, uids) && Settles(cd, uids, c)
    requires |GoodStandbys(cd, env)| < cd.spec.maxStandbysPerSender
    ensures Fills(cd.dbs.Keys, FitDbs(cd, env), Missing(cd, env), Invariant.Synced(c).(dbs := c.resized))
  {
    var synced := Invariant.Synced(c);
    Extends(cd, open, env, uids, c);
    SyncedIsFit(cd, open, env, uids, c);
    forall d | d in synced.dbs
      ensures d in c.resized && c.resized[d].spec.keeper == synced.dbs[d].spec.keeper
    {
      OldResized(synced, c.good, c.converging, uids, c.resized, d);
    }
    AddedFills(synced, cd.dbs.Keys, uids, Missing(cd, env), synced.(dbs := c.resized));
  }

  /** Making the standbys follow and listing them leaves everything else of a standby as it is. */
  lemma FollowedAlike(cd: ClusterData, d: string)
    requires cd.master in cd.dbs && d in cd.dbs
    ensures var mid := WithFollowers(Reconfigured(cd), cd.master, cd.master);
            && mid == cd.(dbs := mid.dbs) && mid.dbs.Keys == cd.dbs.Keys
            && mid.dbs[d].spec.keeper == cd.dbs[d].spec.keeper
            && (d != cd.master && TypeOf(cd.dbs[d]) == ReplicaLine ==> mid.dbs[d] == cd.dbs[d].(spec := ReplicaSpec(cd.dbs[d].spec, cd.master)))
  {
  }

  lemma OneSameKeeper(cd: ClusterData, resized: ClusterData, mid: ClusterData, next: ClusterData, d: string)
    requires resized.master in resized.dbs && mid == WithFollowers(Reconfigured(resized), resized.master, resized.master)
    requires OnlyFinishes(cd, mid, next) && d in resized.dbs
    ensures d in next.dbs && next.dbs[d].spec.keeper == resized.dbs[d].spec.keeper
  {
    FollowedAlike(resized, d);
    assert DbFinished(cd, mid, next, d);
  }

  lemma FinishedSameKeepers(cd: ClusterData, uids: seq<string>, c: Choices, mid: ClusterData, next: ClusterData)
    requires Distinct(uids) && Settles(cd, uids, c) && cd.master in c.maintained.dbs
    requires mid == WithFollowers(c.maintained, cd.master, cd.master) && OnlyFinishes(cd, mid, next)
    ensures var resized := Invariant.Synced(c).(dbs := c.resized);
            && next.keepers == resized.keepers && next.dbs.Keys == resized.dbs.Keys
            && forall d :: d in resized.dbs ==> next.dbs[d].spec.keeper == resized.dbs[d].spec.keeper
  {
    var resized := Invariant.Synced(c).(dbs := c.resized);
    assert cd.master in resized.dbs;
    forall d | d in resized.dbs
      ensures d in next.dbs && next.dbs[d].spec.keeper == resized.dbs[d].spec.keeper
    {
      OneSameKeeper(cd, resized, mid, next, d);
    }
    FollowedAlike(resized, cd.master);
  }

  /** With too few good standbys nobody fit is removed, and as many are created as are missing and have a healthy keeper without a database. */
  lemma FewStandbys(cd: ClusterData, env: Env, proxies: map<string, nat>, uids: seq<string>, next: ClusterData)
    requires Maintains(cd, env, proxies, uids, next)
    requires |GoodStandbys(cd, env)| < cd.spec.maxStandbysPerSender
    ensures Fills(cd.dbs.Keys, FitDbs(cd, env), Missing(cd, env), next)
  {
    var open, c, mid := KeepsAndSettles(cd, env, proxies, uids, next);
    ResizedFills(cd, open, env, uids, c);
    FinishedSameKeepers(cd, uids, c, mid, next);
    SameKeepersFill(cd.dbs.Keys, FitDbs(cd, env), Missing(cd, env), Invariant.Synced(c).(dbs := c.resized), next);
  }

  lemma ResizedCreates(cd: ClusterData, open: ClusterData, env: Env, uids: seq<string>, c: Choices, d: string)
    requires Alike(cd, open) && Readied(cd, open, env, c) && Invariant.Fresh(cd, uids) && Settles(cd, uids, c)
    requires d in c.resized && d !in cd.dbs
    ensures d in uids && JustCreated(c.resized[d], d, cd.master) && Free(Invariant.Synced(c), c.resized[d].spec.keeper)
  {
    SyncedIsFit(cd, open, env, uids, c);
    if |c.good| >= cd.spec.maxStandbysPerSender {
      TrimmedLeavesEnough(Invariant.Synced(c), c.good, c.resized);
    } else {
      Extends(cd, open, env, uids, c);
    }
  }

  lemma FinishedIsCreated(cd: ClusterData, resized: ClusterData, mid: ClusterData, next: ClusterData, d: string)
    requires resized.master in resized.dbs && mid == WithFollowers(Reconfigured(resized), resized.master, resized.master)
    requires OnlyFinishes(cd, mid, next) && d in resized.dbs && d != resized.master && d !in cd.dbs
    requires JustCreated(resized.dbs[d], d, resized.master) && mid.master == resized.master
    ensures d in next.dbs && JustCreated(next.dbs[d], d, resized.master)
  {
    FollowedAlike(resized, d);
    assert DbFinished(cd, mid, next, d);
  }

  lemma CreatedStays(cd: ClusterData, uids: seq<string>, c: Choices, mid: ClusterData, next: ClusterData, d: string)
    requires Distinct(uids) && Settles(cd, uids, c) && cd.master in c.maintained.dbs && d != cd.master
    requires mid == WithFollowers(c.maintained, cd.master, cd.master) && OnlyFinishes(cd, mid, next)
    requires d in c.resized && d !in cd.dbs && JustCreated(c.resized[d], d, cd.master)
    ensures d in next.dbs && JustCreated(next.dbs[d], d, cd.master)
  {
    FinishedIsCreated(cd, Invariant.Synced(c).(dbs := c.resized), mid, next, d);
  }

  /** A database that appears is a new standby under an unused UID, on a healthy keeper that had no database left. */
  lemma Created(cd: ClusterData, env: Env, proxies: map<string, nat>, uids: seq<string>, next: ClusterData, d: string)
    requires Maintains(cd, env, proxies, uids, next) && d in next.dbs && d !in cd.dbs
    ensures d in uids && JustCreated(next.dbs[d], d, cd.master)
    ensures var k := next.dbs[d].spec.keeper;
            && k in next.keepers && next.keepers[k].healthy
            && forall e :: e in FitDbs(cd, env) ==> cd.dbs[e].spec.keeper != k
  {
    var open, c, mid := KeepsAndSettles(cd, env, proxies, uids, next);
    FinishedSameKeepers(cd, uids, c, mid, next);
    ResizedCreates(cd, open, env, uids, c, d);
    CreatedStays(cd, uids, c, mid, next, d);
    assert next.dbs[d].spec.keeper == c.resized[d].spec.keeper;
    forall e | e in FitDbs(cd, env)
      ensures cd.dbs[e].spec.keeper != c.resized[d].spec.keeper
    {
      FreeIsUnused(cd, open, env, uids, c, c.resized[d].spec.keeper, e);
    }
  }

  lemma FreeIsUnused(cd: ClusterData, open: ClusterData, env: Env, uids: seq<string>, c: Choices, k: string, e: string)
    requires Alike(cd, open) && Readied(cd, open, env, c) && Distinct(uids) && Settles(cd, uids, c) && Free(Invariant.Synced(c), k)
    requires e in FitDbs(cd, env)
    ensures cd.dbs[e].spec.keeper != k
  {
    var synced := Invariant.Synced(c);
    assert e in c.ready.dbs;
    assert e in synced.dbs && synced.dbs[e].spec.keeper == cd.dbs[e].spec.keeper;
  }

  // ---- the master

  /** A master's required, known and outside standbys. */
  function RecordOf(m: Db): SyncStandbys.SyncRecord { SyncStandbys.SyncRecord(m.spec.syncStandbys, m.status.syncStandbys, m.spec.external) }

  /** What the sync section read and decided, on the fields of the master before and after. */
  ghost predicate SyncSettled(cd: ClusterData, env: Env, inp: SyncStandbys.Inputs, was: Db, told: Db)
    requires cd.master in cd.dbs
  {
    && (cd.spec.syncRepl && cd.spec.role == Master ==> SyncReads(cd, env, inp))
    && SyncDecided(cd.spec, inp, was, told)
  }

  /** With synchronous replication the section has reconciled the record; otherwise the master waits for nobody. */
  ghost predicate SyncDecided(spec: ClusterSpec, inp: SyncStandbys.Inputs, was: Db, told: Db) {
    if spec.syncRepl && spec.role == Master then
      && SyncStandbys.Reconciled(RecordOf(was), was.status.reportedSync, inp, RecordOf(told))
      && told.spec.syncRepl == (was.spec.syncRepl || !SyncStandbys.Waits(RecordOf(was), was.status.reportedSync, inp))
    else
      !told.spec.syncRepl && told.spec.syncStandbys == {} && told.status.syncStandbys == {} && told.spec.external == {}
  }

  /** The databases, standbys and limits it goes by. */
  ghost predicate SyncReads(cd: ClusterData, env: Env, inp: SyncStandbys.Inputs)
    requires cd.master in cd.dbs
  {
    && inp.Valid() && inp.minSync == cd.spec.minSync && inp.maxSync == cd.spec.maxSync
    && inp.present == FitDbs(cd, env) && inp.good == GoodStandbys(cd, env)
    && ReadsBest(cd, inp) && ReadsBarred(cd, inp) && ReadsInOrder(cd, inp)
  }

  /** The best standbys are the good ones on the master's timeline. */
  ghost predicate ReadsBest(cd: ClusterData, inp: SyncStandbys.Inputs)
    requires cd.master in cd.dbs
  {
    forall d :: d in inp.best <==> d in inp.good && d in cd.dbs && cd.dbs[d].status.timeline == cd.dbs[cd.master].status.timeline
  }

  /** A database is barred when its keeper refuses to be synchronous. */
  ghost predicate ReadsBarred(cd: ClusterData, inp: SyncStandbys.Inputs) {
    forall d :: d in inp.barred <==>
      d in inp.present && d in cd.dbs && cd.dbs[d].spec.keeper in cd.keepers && cd.keepers[cd.dbs[d].spec.keeper].canBeSync == Some(false)
  }

  /** The best standbys come in the order of their WAL positions. */
  ghost predicate ReadsInOrder(cd: ClusterData, inp: SyncStandbys.Inputs) {
    forall i, j :: 0 <= i < j < |inp.best| && inp.best[i] in cd.dbs && inp.best[j] in cd.dbs
      ==> cd.dbs[inp.best[i]].status.xlog <= cd.dbs[inp.best[j]].status.xlog
  }

  lemma BestIsRead(cd: ClusterData, open: ClusterData, env: Env, c: Choices, d: string)
    requires cd.spec.SyncRepl() && Alike(cd, open) && Readied(cd, open, env, c) && c.ready.Consistent()
    requires ByStatus(c.ready, env, ReplicaLine, Good) == c.good
    ensures d in BestStandbys(c.ready, env, cd.dbs[cd.master])
            <==> d in c.good && d in cd.dbs && cd.dbs[d].status.timeline == cd.dbs[cd.master].status.timeline
  {
    assert d in c.good ==> d in c.ready.dbs && c.ready.dbs[d].status == cd.dbs[d].status;
  }

  lemma ReadiedAlike(cd: ClusterData, open: ClusterData, env: Env, c: Choices, d: string)
    requires Alike(cd, open) && Readied(cd, open, env, c) && d in c.ready.dbs
    ensures d in cd.dbs && c.ready.dbs[d].status == cd.dbs[d].status && c.ready.dbs[d].spec.keeper == cd.dbs[d].spec.keeper
    ensures cd.dbs[d].spec.keeper in cd.keepers && cd.dbs[d].spec.keeper in c.ready.keepers
    ensures c.ready.keepers[cd.dbs[d].spec.keeper] == cd.keepers[cd.dbs[d].spec.keeper]
  {
  }

  /** `ready` agrees with `cd` on what the sync section reads. */
  ghost predicate SameReading(cd: ClusterData, ready: ClusterData) {
    forall d :: d in ready.dbs ==>
      && d in cd.dbs && ready.dbs[d].status == cd.dbs[d].status && ready.dbs[d].spec.keeper == cd.dbs[d].spec.keeper
      && cd.dbs[d].spec.keeper in cd.keepers && cd.dbs[d].spec.keeper in ready.keepers
      && ready.keepers[cd.dbs[d].spec.keeper] == cd.keepers[cd.dbs[d].spec.keeper]
  }

  lemma InputsAreSame(cd: ClusterData, ready: ClusterData, env: Env, m: Db, good: set<string>, inp: SyncStandbys.Inputs)
    requires SameReading(cd, ready) && ready.Consistent() && SyncInputs(ready, env, m, good, inp)
    ensures ReadsBarred(cd, inp) && ReadsInOrder(cd, inp)
  {
    forall d | d in inp.best
      ensures d in ready.dbs
    {
      assert d in BestStandbys(ready, env, m);
    }
  }

  lemma ReadiedReadsSame(cd: ClusterData, open: ClusterData, env: Env, c: Choices)
    requires Alike(cd, open) && Readied(cd, open, env, c)
    ensures SameReading(cd, c.ready)
  {
    forall d | d in c.ready.dbs {
      ReadiedAlike(cd, open, env, c, d);
    }
  }

  lemma BestAreRead(cd: ClusterData, open: ClusterData, env: Env, c: Choices)
    requires cd.spec.SyncRepl() && Alike(cd, open) && Readied(cd, open, env, c) && c.ready.Consistent()
    requires ByStatus(c.ready, env, ReplicaLine, Good) == c.good == c.inputs.good
    requires forall d :: d in c.inputs.best <==> d in BestStandbys(c.ready, env, cd.dbs[cd.master])
    ensures ReadsBest(cd, c.inputs)
  {
    forall d {
      BestIsRead(cd, open, env, c, d);
    }
  }

  lemma InputsAreRead(cd: ClusterData, open: ClusterData, env: Env, c: Choices)
    requires Inv(cd) && cd.phase == Normal && cd.spec.SyncRepl() && Alike(cd, open) && Readied(cd, open, env, c)
    requires c.ready.Consistent() && SyncInputs(c.ready, env, cd.dbs[cd.master], c.good, c.inputs)
    requires ByStatus(c.ready, env, ReplicaLine, Good) == c.good
    ensures SyncReads(cd, env, c.inputs)
  {
    ReadiedReadsSame(cd, open, env, c);
    InputsAreSame(cd, c.ready, env, cd.dbs[cd.master], c.good, c.inputs);
    BestAreRead(cd, open, env, c);
    assert c.inputs.present == FitDbs(cd, env);
  }

  lemma UpdatedIsDecided(cd: ClusterData, inp: SyncStandbys.Inputs, rec: SyncStandbys.SyncRecord, was: Db, told: Db)
    requires cd.master in cd.dbs && SyncUpdated(cd, inp, rec, told)
    requires var m := cd.dbs[cd.master];
             RecordOf(m) == RecordOf(was) && m.status.reportedSync == was.status.reportedSync && m.spec.syncRepl == was.spec.syncRepl
    ensures SyncDecided(cd.spec, inp, was, told)
  {
    var m := cd.dbs[cd.master];
    assert SyncRecordOf(m) == RecordOf(was);
    assert cd.spec.SyncRepl() ==> RecordOf(told) == rec;
  }

  lemma SyncIsSettled(cd: ClusterData, open: ClusterData, env: Env, uids: seq<string>, c: Choices)
    requires Inv(cd) && cd.phase == Normal && Alike(cd, open) && Sound(open) && HasMaster(open) && Distinct(uids)
    requires open.dbs[cd.master].spec == cd.dbs[cd.master].spec.(role := open.dbs[cd.master].spec.role, follow := open.dbs[cd.master].spec.follow)
    requires Maintained(cd, open, env, uids, c, c.maintained) && Readied(cd, open, env, c)
    ensures SyncSettled(cd, env, c.inputs, cd.dbs[cd.master], c.master)
  {
    if cd.spec.SyncRepl() {
      ReadiedIsGood(cd, open, env, uids, c);
      InputsAreRead(cd, open, env, c);
    }
    UpdatedIsDecided(c.ready, c.inputs, c.sync, cd.dbs[cd.master], c.master);
  }

  lemma ReadiedIsGood(cd: ClusterData, open: ClusterData, env: Env, uids: seq<string>, c: Choices)
    requires Inv(cd) && cd.phase == Normal && Alike(cd, open) && Sound(open) && HasMaster(open) && Distinct(uids)
    requires Maintained(cd, open, env, uids, c, c.maintained)
    ensures c.ready.Consistent() && ByStatus(c.ready, env, ReplicaLine, Good) == c.good
  {
    Invariant.CleanedIsSound(cd, open, env);
    Invariant.InitDoneKeepsGood(Cleaned(cd, open, env), env);
  }

  /** A kept master keeps its role, unless the cluster asks for a master, and everything but its followers and what the sync section decides. */
  lemma KeptMaster(cd: ClusterData, env: Env, proxies: map<string, nat>, uids: seq<string>, next: ClusterData) returns (inp: SyncStandbys.Inputs)
    requires Maintains(cd, env, proxies, uids, next)
    ensures cd.master in next.dbs && SyncSettled(cd, env, inp, cd.dbs[cd.master], next.dbs[cd.master])
    ensures var was, told := cd.dbs[cd.master], next.dbs[cd.master];
            && told.spec.keeper == was.spec.keeper && told.spec.initMode == was.spec.initMode && told.spec.includeConfig == was.spec.includeConfig
            && told.spec.role == (if cd.spec.role == Master then Master else was.spec.role)
            && told.spec.follow == (if cd.spec.role == Master then NoFollow else was.spec.follow)
            && told.spec.followers == next.dbs.Keys - {cd.master}
            && told.status == was.status.(syncStandbys := told.status.syncStandbys, orphans := told.status.orphans)
  {
    var c, mid := Keeps(cd, env, proxies, uids, next);
    var open := Ahead(cd, env, proxies, next.manualSwitch);
    AheadIsAlike(cd, env, proxies, next.manualSwitch);
    MaintainedReadies(cd, open, env, uids, c);
    MaintainedSettles(cd, open, env, uids, c);
    inp := c.inputs;
    SyncIsSettled(cd, open, env, uids, c);
    MasterIsTold(cd, uids, c, mid, next);
    Runs.HealthyPassLeavesOnePrimary(cd, env, proxies, uids, next);
  }

  // ---- synchronous standbys

  /** `u` is required by the master and has neither been known nor just been reported to be in sync. */
  predicate Outstanding(cd: ClusterData, u: string) {
    && cd.master in cd.dbs
    && var m := cd.dbs[cd.master]; u in m.spec.syncStandbys && u !in m.status.syncStandbys && u !in m.status.reportedSync
  }

  /** A required standby that is not in sync is let go as soon as it is no good standby. */
  lemma StandbyLetGo(cd: ClusterData, env: Env, proxies: map<string, nat>, uids: seq<string>, next: ClusterData, u: string)
    requires Maintains(cd, env, proxies, uids, next) && cd.spec.syncRepl && cd.spec.role == Master
    requires Outstanding(cd, u) && !GoodStandby(cd, env, u)
    ensures cd.master in next.dbs && u !in next.dbs[cd.master].spec.syncStandbys
  {
    var inp := KeptMaster(cd, env, proxies, uids, next);
    var was := cd.dbs[cd.master];
    SyncStandbys.LetsTheFailedGo(RecordOf(was), was.status.reportedSync, inp, RecordOf(next.dbs[cd.master]), u);
  }

  /** While those outstanding are all good the required standbys stay the same, and the ones found in sync are noted. */
  lemma StandbysAwaited(cd: ClusterData, env: Env, proxies: map<string, nat>, uids: seq<string>, next: ClusterData, u: string)
    requires Maintains(cd, env, proxies, uids, next) && cd.spec.syncRepl && cd.spec.role == Master
    requires Outstanding(cd, u) && forall v :: Outstanding(cd, v) ==> GoodStandby(cd, env, v)
    ensures cd.master in next.dbs
    ensures var was, told := cd.dbs[cd.master], next.dbs[cd.master];
            && told.spec.syncStandbys == was.spec.syncStandbys && told.spec.external == was.spec.external && told.spec.syncRepl == was.spec.syncRepl
            && told.status.syncStandbys ==
               set v | v in was.spec.syncStandbys && (v in was.status.syncStandbys || v in was.status.reportedSync)
  {
    var inp := KeptMaster(cd, env, proxies, uids, next);
    var was := cd.dbs[cd.master];
    assert forall v :: SyncStandbys.Outstanding(RecordOf(was), was.status.reportedSync, v) <==> Outstanding(cd, v);
    SyncStandbys.WaitsForTheGood(RecordOf(was), was.status.reportedSync, inp, RecordOf(next.dbs[cd.master]), u);
    SyncStandbys.WaitsIff(RecordOf(was), was.status.reportedSync, inp);
  }

  /** The required standbys found in sync. */
  function FoundInSync(m: Db): set<string> {
    set v | v in m.spec.syncStandbys && (v in m.status.syncStandbys || v in m.status.reportedSync)
  }

  /** A good standby on the master's timeline whose keeper does not refuse to be synchronous. */
  ghost predicate MayBeRequired(cd: ClusterData, env: Env, d: string) {
    && GoodStandby(cd, env, d)
    && cd.dbs[d].status.timeline == cd.dbs[cd.master].status.timeline
    && cd.keepers[cd.dbs[d].spec.keeper].canBeSync != Some(false)
  }

  /**
   * `d` is required rightly, or rightly not: a new one may be required; such a
   * one is left out, or a good one dropped, only when the maximum is reached;
   * and a fit one is dropped only when the minimum is.
   */
  ghost predicate RightlyRequired(cd: ClusterData, env: Env, prev: set<string>, required: set<string>, d: string)
    requires cd.master in cd.dbs
  {
    && (d in required && d !in prev ==> MayBeRequired(cd, env, d))
    && (d !in required && MayBeRequired(cd, env, d) ==> |required| >= cd.spec.maxSync)
    && (d !in required && d in prev && GoodStandby(cd, env, d) ==> |required| >= cd.spec.maxSync)
    && (d !in required && d in prev && d in FitDbs(cd, env) ==> |required| >= cd.spec.minSync)
  }

  lemma ChosenFrom(cd: ClusterData, env: Env, inp: SyncStandbys.Inputs, prev: set<string>, required: set<string>, d: string)
    requires cd.master in cd.dbs && SyncReads(cd, env, inp) && SyncStandbys.Recomputed(prev, inp, required)
    ensures RightlyRequired(cd, env, prev, required, d)
    ensures (required <= prev && |required| <= cd.spec.maxSync) || prev * FitDbs(cd, env) <= required
  {
    SyncStandbys.RecomputedShape(prev, inp, required);
    assert d in inp.best && d !in inp.barred <==> MayBeRequired(cd, env, d);
    if d !in required {
      if MayBeRequired(cd, env, d) {
        SyncStandbys.FillsUp(prev, inp, required, d);
      }
      if d in prev && GoodStandby(cd, env, d) {
        SyncStandbys.GoodMembersStay(prev, inp, required, d);
      }
      if d in prev && d in FitDbs(cd, env) {
        SyncStandbys.FailedMembersFillUp(prev, inp, required, d);
      }
    }
  }

  lemma DecidedAnew(cd: ClusterData, inp: SyncStandbys.Inputs, told: Db)
    requires cd.master in cd.dbs && cd.spec.syncRepl && cd.spec.role == Master
    requires inp.Valid() && inp.minSync == cd.spec.minSync && SyncDecided(cd.spec, inp, cd.dbs[cd.master], told)
    requires (exists u :: Outstanding(cd, u)) ==> exists v :: Outstanding(cd, v) && v !in inp.good
    ensures told.spec.syncRepl && told.status.syncStandbys == FoundInSync(cd.dbs[cd.master]) * told.spec.syncStandbys
    ensures told.spec.external == if |told.spec.syncStandbys| < cd.spec.minSync then {SyncStandbys.FAKE_STANDBY} else {}
    ensures SyncStandbys.Recomputed(FoundInSync(cd.dbs[cd.master]), inp, told.spec.syncStandbys)
  {
    var was := cd.dbs[cd.master];
    assert forall v :: SyncStandbys.Outstanding(RecordOf(was), was.status.reportedSync, v) <==> Outstanding(cd, v);
    SyncStandbys.WaitsIff(RecordOf(was), was.status.reportedSync, inp);
    SyncStandbys.ChoosesAnew(RecordOf(was), was.status.reportedSync, inp, RecordOf(told));
    SyncStandbys.KnownAreInSync(RecordOf(was), was.status.reportedSync, inp, RecordOf(told));
    assert SyncStandbys.InSync(RecordOf(was), was.status.reportedSync) == FoundInSync(was);
  }

  /**
   * When none is outstanding, or one of them is no good standby, the required
   * standbys are chosen anew from those in sync.  The name that never answers is
   * asked for exactly when fewer are left than the minimum.
   */
  lemma StandbysChosen(cd: ClusterData, env: Env, proxies: map<string, nat>, uids: seq<string>, next: ClusterData, d: string)
    requires Maintains(cd, env, proxies, uids, next) && cd.spec.syncRepl && cd.spec.role == Master
    requires (exists u :: Outstanding(cd, u)) ==> exists v :: Outstanding(cd, v) && !GoodStandby(cd, env, v)
    ensures cd.master in next.dbs
    ensures var prev, told := FoundInSync(cd.dbs[cd.master]), next.dbs[cd.master];
            var required := told.spec.syncStandbys;
            && told.spec.syncRepl && told.status.syncStandbys == prev * required
            && told.spec.external == (if |required| < cd.spec.minSync then {SyncStandbys.FAKE_STANDBY} else {})
            && RightlyRequired(cd, env, prev, required, d)
            && ((required <= prev && |required| <= cd.spec.maxSync) || prev * FitDbs(cd, env) <= required)
  {
    var inp := KeptMaster(cd, env, proxies, uids, next);
    DecidedAnew(cd, inp, next.dbs[cd.master]);
    ChosenFrom(cd, env, inp, FoundInSync(cd.dbs[cd.master]), next.dbs[cd.master].spec.syncStandbys, d);
  }

  // ------------------------------------------------------ when nothing is done

  lemma KeepsOnly(cd: ClusterData, env: Env, proxies: map<string, nat>, uids: seq<string>, next: ClusterData) returns (open: ClusterData, mid: ClusterData)
    requires Passes(cd, env, proxies, uids, next) && next.master == cd.master
    requires !(cd.dbs[cd.master].status.healthy && cd.dbs[cd.master].status.generation == cd.dbs[cd.master].generation)
    ensures Alike(cd, open) && mid == WithFollowers(open, cd.master, cd.master) && OnlyFinishes(cd, mid, next)
    ensures open.dbs[cd.master].spec == if cd.spec.role == Master then cd.dbs[cd.master].spec.(role := Master, follow := NoFollow) else cd.dbs[cd.master].spec
  {
    var c;
    c, mid := Pass(cd, env, proxies, uids, next);
    open := Ahead(cd, env, proxies, next.manualSwitch);
    AheadIsAlike(cd, env, proxies, next.manualSwitch);
    UnhealthyOnlyLists(cd, env, proxies, uids, c, mid);
    FinishedOnlyFinishes(cd, mid, env.now);
  }

  /**
   * While a master that is kept is not healthy, or has not reached its
   * generation, nobody is removed, created or reconfigured.
   */
  lemma NotMaintained(cd: ClusterData, env: Env, proxies: map<string, nat>, uids: seq<string>, next: ClusterData, d: string)
    requires Passes(cd, env, proxies, uids, next) && next.master == cd.master && d in cd.dbs
    requires !(cd.dbs[cd.master].status.healthy && cd.dbs[cd.master].status.generation == cd.dbs[cd.master].generation)
    ensures next.dbs.Keys == cd.dbs.Keys
    ensures d != cd.master ==> next.dbs[d].status == cd.dbs[d].status && next.dbs[d].spec == cd.dbs[d].spec.(settings := next.dbs[d].spec.settings)
  {
    var open, mid := KeepsOnly(cd, env, proxies, uids, next);
    ListedOnly(cd, open, d);
    assert DbFinished(cd, mid, next, d);
  }

  /** The master takes its role all the same, and lists who follows it. */
  lemma MasterNotMaintained(cd: ClusterData, env: Env, proxies: map<string, nat>, uids: seq<string>, next: ClusterData)
    requires Passes(cd, env, proxies, uids, next) && next.master == cd.master
    requires !(cd.dbs[cd.master].status.healthy && cd.dbs[cd.master].status.generation == cd.dbs[cd.master].generation)
    ensures cd.master in next.dbs
    ensures var was, told := cd.dbs[cd.master], next.dbs[cd.master];
            && told.status == was.status.(orphans := told.status.orphans)
            && told.spec == was.spec.(role := told.spec.role, follow := told.spec.follow, followers := told.spec.followers, settings := told.spec.settings)
            && told.spec.role == (if cd.spec.role == Master then Master else was.spec.role)
            && told.spec.follow == (if cd.spec.role == Master then NoFollow else was.spec.follow)
            && told.spec.followers == set e | e in cd.dbs && e != cd.master && cd.dbs[e].spec.follow == Internal(cd.master)
  {
    var open, mid := KeepsOnly(cd, env, proxies, uids, next);
    ListedOnly(cd, open, cd.master);
    assert DbFinished(cd, mid, next, cd.master);
  }

  lemma UnhealthyOnlyLists(cd: ClusterData, env: Env, proxies: map<string, nat>, uids: seq<string>, c: Choices, mid: ClusterData)
    requires Inv(cd) && cd.phase == Normal && Distinct(uids) && NormalStep(cd, env, proxies, uids, c, mid) && mid.master == cd.master
    requires !(cd.dbs[cd.master].status.healthy && cd.dbs[cd.master].status.generation == cd.dbs[cd.master].generation)
    requires Ahead(cd, env, proxies, c.request).dbs[cd.master].status == cd.dbs[cd.master].status
    requires Ahead(cd, env, proxies, c.request).dbs[cd.master].generation == cd.dbs[cd.master].generation
    ensures mid == WithFollowers(Ahead(cd, env, proxies, c.request), cd.master, cd.master)
  {
    Runs.ElectionChangesMaster(cd, env, proxies, uids, c, mid);
  }

  lemma ListedOnly(cd: ClusterData, open: ClusterData, d: string)
    requires Alike(cd, open) && d in cd.dbs
    ensures var mid := WithFollowers(open, cd.master, cd.master);
            && mid.master == cd.master && mid.dbs.Keys == cd.dbs.Keys
            && (d != cd.master ==> mid.dbs[d] == cd.dbs[d])
            && (d == cd.master ==>
                  && mid.dbs[d] == open.dbs[d].(spec := open.dbs[d].spec.(followers := mid.dbs[d].spec.followers))
                  && mid.dbs[d].spec.followers == (set e | e in cd.dbs && e != cd.master && cd.dbs[e].spec.follow == Internal(cd.master)))
  {
  }

  // ----------------------------------------------------------------- the slots

  lemma FinishedTracks(before: ClusterData, mid: ClusterData, now: int)
    requires mid.master in mid.dbs
    ensures mid.master in Finished(before, mid, now).dbs
    ensures var told := Finished(before, mid, now).dbs[mid.master];
            told.status.orphans ==
              if mid.spec.slotTtl > 0
              then Slots.Orphans(FollowersBefore(before, mid.master), told.spec.followers, mid.dbs[mid.master].status.orphans,
                                 before.master != NO_UID && before.master != mid.master, now)
              else map[]
  {
    var settled := WithSettings(mid);
    assert mid.master in settled.dbs && settled.dbs[mid.master].status == mid.dbs[mid.master].status;
    assert settled.dbs[mid.master].spec.followers == mid.dbs[mid.master].spec.followers;
    assert mid.master in WithOrphans(before, settled, now).dbs;
  }

  lemma KeptTracks(cd: ClusterData, env: Env, proxies: map<string, nat>, uids: seq<string>, next: ClusterData)
    requires Passes(cd, env, proxies, uids, next) && next.master == cd.master
    ensures cd.master in next.dbs
    ensures next.dbs[cd.master].status.orphans ==
              if cd.spec.slotTtl > 0
              then Slots.Orphans(cd.dbs[cd.master].spec.followers, next.dbs[cd.master].spec.followers, cd.dbs[cd.master].status.orphans, false, env.now)
              else map[]
  {
    var c, mid := Pass(cd, env, proxies, uids, next);
    MidKeepsOrphans(cd, env, proxies, uids, c, mid);
    FinishedTracks(cd, mid, env.now);
  }

  lemma MidKeepsOrphans(cd: ClusterData, env: Env, proxies: map<string, nat>, uids: seq<string>, c: Choices, mid: ClusterData)
    requires Inv(cd) && cd.phase == Normal && Invariant.Fresh(cd, uids) && NormalStep(cd, env, proxies, uids, c, mid) && mid.master == cd.master
    ensures cd.master in mid.dbs && mid.dbs[cd.master].status.orphans == cd.dbs[cd.master].status.orphans
  {
    Runs.ElectionChangesMaster(cd, env, proxies, uids, c, mid);
    AheadIsAlike(cd, env, proxies, c.request);
    var open := Ahead(cd, env, proxies, c.request);
    if cd.dbs[cd.master].status.healthy && cd.dbs[cd.master].status.generation == cd.dbs[cd.master].generation {
      MaintainedReadies(cd, open, env, uids, c);
      MaintainedSettles(cd, open, env, uids, c);
      MasterMaintained(cd, uids, c);
    }
  }

  /**
   * The slot of a member that leaves is tracked by a kept master from then on,
   * until the member follows again; without a time to live none is.
   */
  lemma SlotsTracked(cd: ClusterData, env: Env, proxies: map<string, nat>, uids: seq<string>, next: ClusterData, u: string)
    requires Passes(cd, env, proxies, uids, next) && next.master == cd.master
    ensures cd.master in next.dbs
    ensures var slot, was, told := "hysteron_" + u, cd.dbs[cd.master], next.dbs[cd.master];
            && (slot in told.status.orphans <==>
                  cd.spec.slotTtl > 0 && u !in told.spec.followers && (slot in was.status.orphans || u in was.spec.followers))
            && (slot in told.status.orphans ==>
                  told.status.orphans[slot] == if slot in was.status.orphans then was.status.orphans[slot] else env.now)
  {
    KeptTracks(cd, env, proxies, uids, next);
    Slots.OrphansIff(cd.dbs[cd.master].spec.followers, next.dbs[cd.master].spec.followers, cd.dbs[cd.master].status.orphans, false, env.now, u);
  }

  /** A new master starts with none. */
  lemma SlotsForgotten(cd: ClusterData, env: Env, proxies: map<string, nat>, uids: seq<string>, next: ClusterData)
    requires Passes(cd, env, proxies, uids, next) && next.master != cd.master
    ensures next.master in next.dbs && next.dbs[next.master].status.orphans == map[]
  {
    var c, mid := Pass(cd, env, proxies, uids, next);
    FinishedTracks(cd, mid, env.now);
  }

  // ------------------------------------------------------------ initialization

  /** A pass over a cluster that is not initialized yet and has a master to come. */
  ghost predicate Initializes(cd: ClusterData, env: Env, proxies: map<string, nat>, uids: seq<string>, next: ClusterData) {
    && Inv(cd) && Invariant.Fresh(cd, uids) && cd.phase == Initializing
    && Step(cd, env, proxies, uids, next)
  }

  /** The first pass creates the one database the cluster starts with, on a keeper of the document. */
  lemma FirstDatabase(cd: ClusterData, env: Env, proxies: map<string, nat>, uids: seq<string>, next: ClusterData)
    requires Initializes(cd, env, proxies, uids, next) && cd.master == NO_UID
    ensures next.phase == Initializing && next.master in uids && next.dbs.Keys == {next.master} && next.fence == cd.fence
    ensures var db := next.dbs[next.master];
            && db.uid == next.master && db.generation == 1 && db.spec.initMode == cd.spec.initMode && db.spec.includeConfig
            && db.spec.keeper in cd.keepers && (cd.spec.initMode == InitExisting ==> db.spec.keeper == cd.spec.existingKeeper)
            && db.spec.followers == {} && !db.spec.syncRepl && db.spec.syncStandbys == {} && db.spec.external == {}
            && (if cd.spec.initMode == InitPitr && cd.spec.role == Standby
                then db.spec.role == Standby && db.spec.follow == External
                else db.spec.role == Master && db.spec.follow == NoFollow)
  {
    var mid := InitPass(cd, env, proxies, uids, next);
    assert DbFinished(cd, mid, next, next.master);
  }

  lemma InitPass(cd: ClusterData, env: Env, proxies: map<string, nat>, uids: seq<string>, next: ClusterData) returns (mid: ClusterData)
    requires Initializes(cd, env, proxies, uids, next)
    ensures OnlyFinishes(cd, mid, next)
    ensures exists u :: u in uids && InitStep(cd, env, u, mid)
  {
    mid :| (exists u :: u in uids && InitStep(cd, env, u, mid)) && next == Finished(cd, mid, env.now);
    FinishedOnlyFinishes(cd, mid, env.now);
  }

  /** The master's initialization takes too long. */
  predicate InitLate(cd: ClusterData, env: Env)
    requires cd.master in cd.dbs
  {
    var m := cd.dbs[cd.master];
    && cd.spec.initMode != InitExisting && m.status.generation != m.generation
    && cd.spec.initTimeout != 0 && m.uid in env.convergenceTimers && env.now - env.convergenceTimers[m.uid] > cd.spec.initTimeout
  }

  /** Where a cluster that waits for its first master goes from here. */
  predicate InitMoves(cd: ClusterData, env: Env, next: ClusterData)
    requires cd.master in cd.dbs
  {
    var m := cd.dbs[cd.master];
    && (next.phase == Normal <==> m.status.generation == m.generation && m.status.healthy)
    && (if InitLate(cd, env) then next.master == NO_UID && next.dbs == map[] else next.master == cd.master && next.dbs.Keys == {cd.master})
    && (next.phase == Normal && next.master in next.dbs ==>
          next.dbs[next.master].spec.initMode == InitNone && !next.dbs[next.master].spec.includeConfig)
  }

  lemma InitStepMoves(cd: ClusterData, env: Env, u: string, mid: ClusterData)
    requires Inv(cd) && cd.phase == Initializing && cd.master != NO_UID && InitStep(cd, env, u, mid)
    ensures InitMoves(cd, env, mid)
  {
  }

  lemma FinishedMoves(cd: ClusterData, env: Env, mid: ClusterData, next: ClusterData)
    requires cd.master in cd.dbs && OnlyFinishes(cd, mid, next) && InitMoves(cd, env, mid)
    ensures InitMoves(cd, env, next)
  {
    if mid.master in mid.dbs {
      assert DbFinished(cd, mid, next, mid.master);
    }
    assert mid.dbs == map[] ==> next.dbs == map[];
  }

  /** The initialization is over exactly when the master is healthy and has reached its generation; when it takes too long the cluster starts anew. */
  lemma InitializedWhenHealthy(cd: ClusterData, env: Env, proxies: map<string, nat>, uids: seq<string>, next: ClusterData)
    requires Initializes(cd, env, proxies, uids, next) && cd.master != NO_UID
    ensures InitMoves(cd, env, next)
  {
    var mid := InitPass(cd, env, proxies, uids, next);
    var u :| u in uids && InitStep(cd, env, u, mid);
    InitStepMoves(cd, env, u, mid);
    FinishedMoves(cd, env, mid, next);
  }

  /** A paused cluster is left alone. */
  lemma PausedIsLeftAlone(cd: ClusterData, env: Env, proxies: map<string, nat>, uids: seq<string>, next: ClusterData)
    requires Inv(cd) && Invariant.Fresh(cd, uids) && cd.phase == Normal && Step(cd, env, proxies, uids, next)
    requires cd.pause == Paused || (cd.pause.PausedUntil? && env.now < cd.pause.time)
    ensures next == cd
  {
  }
}
