/**
 * The document invariant: every pass of a sentinel keeps it, stage by stage, and
 * a pass over a healthy converged master leaves one primary-line database that
 * all the others follow.
 */
module Invariant {
  import opened Cluster
  import opened Selection
  import opened Reconcile
  import SyncStandbys

  /** `next` has no other databases than `cd`, on the same keepers. */
  ghost predicate Rewrites(cd: ClusterData, next: ClusterData) {
    && next.keepers == cd.keepers
    && next.dbs.Keys <= cd.dbs.Keys
    && forall d :: d in next.dbs ==>
         && next.dbs[d].uid == cd.dbs[d].uid
         && next.dbs[d].spec.keeper == cd.dbs[d].spec.keeper
         && SameGenerations(cd.dbs[d], next.dbs[d])
  }

  /** Neither the generation nor the one last reported has changed. */
  predicate SameGenerations(a: Db, b: Db) { b.generation == a.generation && b.status.generation == a.status.generation }

  /** Databases of `next` come from `cd` with their generation and the one reported, or are new. */
  ghost predicate From(cd: ClusterData, uids: seq<string>, next: ClusterData) {
    forall d :: d in next.dbs ==>
      if d in cd.dbs then SameGenerations(cd.dbs[d], next.dbs[d])
      else d in uids && next.dbs[d].generation == INITIAL_GENERATION && next.dbs[d].status.generation == NO_GENERATION
  }

  lemma FromLater(a: ClusterData, b: ClusterData, uids: seq<string>, next: ClusterData)
    requires Rewrites(a, b) && From(b, uids, next) && forall u :: u in uids ==> u !in a.dbs
    ensures From(a, uids, next)
  {
  }

  lemma FromEarlier(a: ClusterData, uids: seq<string>, b: ClusterData, next: ClusterData)
    requires From(a, uids, b) && Rewrites(b, next)
    ensures From(a, uids, next)
  {
  }

  lemma RewritesTwice(a: ClusterData, b: ClusterData, c: ClusterData)
    requires Rewrites(a, b) && Rewrites(b, c)
    ensures Rewrites(a, c)
  {
  }

  lemma RewritesKeepSound(cd: ClusterData, next: ClusterData)
    requires Sound(cd) && Rewrites(cd, next)
    ensures Sound(next)
  {
  }

  lemma LiveIsSound(cd: ClusterData, now: int)
    requires Sound(cd)
    ensures Sound(Live(cd, now))
  {
  }

  /** `next` rewrites `cd` without removing a database or changing a type. */
  ghost predicate Retouches(cd: ClusterData, next: ClusterData) {
    && Rewrites(cd, next)
    && next.dbs.Keys == cd.dbs.Keys
    && forall d :: d in cd.dbs ==> TypeOf(next.dbs[d]) == TypeOf(cd.dbs[d])
  }

  lemma SettingsRetouch(cd: ClusterData)
    ensures Retouches(cd, WithSettings(cd))
  {
  }

  lemma OrphansRetouch(before: ClusterData, cd: ClusterData, now: int)
    ensures Retouches(cd, WithOrphans(before, cd, now))
  {
  }

  lemma FinishedIsSound(before: ClusterData, cd: ClusterData, now: int)
    requires Sound(cd)
    ensures Sound(Finished(before, cd, now))
    ensures Finished(before, cd, now).dbs.Keys == cd.dbs.Keys
    ensures forall d :: d in cd.dbs ==> TypeOf(Finished(before, cd, now).dbs[d]) == TypeOf(cd.dbs[d])
  {
    var settings := WithSettings(cd);
    var orphans := WithOrphans(before, settings, now);
    SettingsRetouch(cd);
    OrphansRetouch(before, settings, now);
    RewritesKeepSound(cd, settings);
    RewritesKeepSound(settings, orphans);
    GenerationsKeepSound(before, orphans);
  }

  lemma GenerationsKeepSound(before: ClusterData, cd: ClusterData)
    requires Sound(cd)
    ensures Sound(WithGenerations(before, cd))
  {
  }

  lemma FollowersKeepSound(cd: ClusterData, self: string, wanted: string)
    requires Sound(cd) && self in cd.dbs
    ensures Sound(WithFollowers(cd, self, wanted)) && Retouches(cd, WithFollowers(cd, self, wanted))
  {
    RewritesKeepSound(cd, WithFollowers(cd, self, wanted));
  }

  // ---------------------------------------------------------------- election

  lemma ElectionRewrites(cd: ClusterData, wanted: string)
    requires cd.master in cd.dbs && wanted in cd.dbs
    ensures Rewrites(cd, AfterElection(cd, wanted)) && HasMaster(AfterElection(cd, wanted)) && cd.master in AfterElection(cd, wanted).dbs
  {
  }

  lemma ElectionKeepsInv(cd: ClusterData, wanted: string)
    requires Sound(cd) && cd.master in cd.dbs && wanted in cd.dbs
    ensures Sound(WithFollowers(AfterElection(cd, wanted), cd.master, wanted))
    ensures HasMaster(WithFollowers(AfterElection(cd, wanted), cd.master, wanted))
    ensures Rewrites(cd, WithFollowers(AfterElection(cd, wanted), cd.master, wanted))
  {
    ElectionRewrites(cd, wanted);
    RewritesKeepSound(cd, AfterElection(cd, wanted));
    FollowersKeepSound(AfterElection(cd, wanted), cd.master, wanted);
  }

  // -------------------------------------------------------------- maintenance

  lemma InitDoneKeepsGood(cd: ClusterData, env: Env)
    requires cd.Consistent()
    ensures var ready := WithInitDone(cd, ByStatus(cd, env, ReplicaLine, Good));
            ready.Consistent() && ByStatus(ready, env, ReplicaLine, Good) == ByStatus(cd, env, ReplicaLine, Good)
  {
  }

  lemma CleanedIsSound(before: ClusterData, cd: ClusterData, env: Env)
    requires Sound(cd) && HasMaster(cd) && before.Consistent() && before.master == cd.master && cd.master in before.dbs
    ensures var clean := Cleaned(before, cd, env);
            Sound(clean) && HasMaster(clean) && Rewrites(cd, clean) && OthersReplicate(clean)
  {
    assert !CannotSync(before, env, cd.master);
    RewritesKeepSound(cd, Cleaned(before, cd, env));
  }

  lemma InitDoneIsSound(cd: ClusterData, good: set<string>)
    requires Sound(cd) && HasMaster(cd) && OthersReplicate(cd)
    ensures var ready := WithInitDone(cd, good);
            Sound(ready) && HasMaster(ready) && Rewrites(cd, ready) && OthersReplicate(ready)
  {
    RewritesKeepSound(cd, WithInitDone(cd, good));
  }

  lemma PreparedIsSound(before: ClusterData, cd: ClusterData, env: Env, good: set<string>, converging: set<string>, ready: ClusterData)
    requires Sound(cd) && HasMaster(cd) && before.Consistent() && before.master == cd.master && cd.master in before.dbs
    requires Prepared(before, cd, env, good, converging, ready)
    ensures Sound(ready) && HasMaster(ready) && ready.master == cd.master && ready.keepers == cd.keepers
    ensures Rewrites(cd, ready)
    ensures cd.master !in good
    ensures OthersReplicate(ready)
  {
    var clean := Cleaned(before, cd, env);
    CleanedIsSound(before, cd, env);
    InitDoneIsSound(clean, good);
    RewritesTwice(cd, clean, ready);
  }

  /** New databases get unused UIDs. */
  ghost predicate Fresh(cd: ClusterData, uids: seq<string>) {
    Distinct(uids) && forall u :: u in uids ==> u !in cd.dbs && u != NO_UID
  }

  lemma TrimmedIsSound(cd: ClusterData, good: set<string>, dbs: map<string, Db>)
    requires Sound(cd) && HasMaster(cd) && cd.master !in good
    requires Trimmed(cd, good, dbs)
    ensures Sound(cd.(dbs := dbs)) && cd.master in dbs && dbs[cd.master] == cd.dbs[cd.master]
    ensures forall d :: d in dbs ==> d in cd.dbs && dbs[d] == cd.dbs[d]
  {
  }

  /** Every entry of `dbs` is an old one or a new standby on a free keeper of its own. */
  ghost predicate Grows(cd: ClusterData, uids: seq<string>, dbs: map<string, Db>) {
    && cd.dbs.Keys <= dbs.Keys
    && (forall d :: d in dbs ==>
          if d in cd.dbs then dbs[d] == cd.dbs[d]
          else d in uids && Free(cd, dbs[d].spec.keeper) && dbs[d] == NewStandby(d, dbs[d].spec.keeper, cd.master))
    && (forall d, e :: d in dbs && e in dbs && d !in cd.dbs && e !in cd.dbs && dbs[d].spec.keeper == dbs[e].spec.keeper ==> d == e)
  }

  lemma NewKeepersDiffer(uids: seq<string>, keepers: seq<string>, master: string, d: string, e: string)
    requires |keepers| <= |uids| && Distinct(uids) && Distinct(keepers)
    requires var added := NewStandbys(uids, keepers, master); d in added && e in added && added[d].spec.keeper == added[e].spec.keeper
    ensures d == e
  {
    NewStandbysAre(uids, keepers, master);
    var i :| 0 <= i < |keepers| && d == uids[i] && NewStandbys(uids, keepers, master)[d] == NewStandby(d, keepers[i], master);
    var j :| 0 <= j < |keepers| && e == uids[j] && NewStandbys(uids, keepers, master)[e] == NewStandby(e, keepers[j], master);
  }

  lemma ExtendedGrows(cd: ClusterData, uids: seq<string>, keepers: seq<string>, dbs: map<string, Db>)
    requires Fresh(cd, uids) && |keepers| <= |uids| && Distinct(keepers) && forall k :: k in keepers ==> Free(cd, k)
    requires dbs == cd.dbs + NewStandbys(uids, keepers, cd.master)
    ensures Grows(cd, uids, dbs)
  {
    NewStandbysAre(uids, keepers, cd.master);
    forall d, e | d in dbs && e in dbs && d !in cd.dbs && e !in cd.dbs && dbs[d].spec.keeper == dbs[e].spec.keeper
      ensures d == e
    {
      NewKeepersDiffer(uids, keepers, cd.master, d, e);
    }
  }

  lemma GrownIsSound(cd: ClusterData, uids: seq<string>, dbs: map<string, Db>)
    requires Sound(cd) && Fresh(cd, uids) && Grows(cd, uids, dbs)
    ensures Sound(cd.(dbs := dbs))
  {
  }

  lemma ExtendedIsSound(cd: ClusterData, uids: seq<string>, missing: int, dbs: map<string, Db>)
    requires Sound(cd) && Fresh(cd, uids)
    requires Extended(cd, uids, missing, dbs)
    ensures Sound(cd.(dbs := dbs)) && Grows(cd, uids, dbs)
  {
    var keepers: seq<string> :|
      && |keepers| <= |uids|
      && Distinct(keepers)
      && (forall k :: k in keepers ==> Free(cd, k))
      && dbs == cd.dbs + NewStandbys(uids, keepers, cd.master);
    ExtendedGrows(cd, uids, keepers, dbs);
    GrownIsSound(cd, uids, dbs);
  }

  lemma ReconfiguredIsSound(cd: ClusterData)
    requires Sound(cd) && HasMaster(cd)
    ensures Sound(Reconfigured(cd)) && HasMaster(Reconfigured(cd)) && Rewrites(cd, Reconfigured(cd))
    ensures Reconfigured(cd).dbs.Keys == cd.dbs.Keys
    ensures forall d :: d in cd.dbs && TypeOf(cd.dbs[d]) == ReplicaLine ==>
              var spec := Reconfigured(cd).dbs[d].spec;
              spec.role == Standby && spec.follow == Internal(cd.master)
  {
  }

  /** All databases but the master are its standbys. */
  predicate AllFollow(cd: ClusterData) {
    forall d :: d in cd.dbs && d != cd.master ==> cd.dbs[d].spec.role == Standby && cd.dbs[d].spec.follow == Internal(cd.master)
  }

  /** All databases but the master are of the replica line. */
  predicate OthersReplicate(cd: ClusterData) {
    forall d :: d in cd.dbs && d != cd.master ==> TypeOf(cd.dbs[d]) == ReplicaLine
  }

  lemma GrownReplicate(cd: ClusterData, uids: seq<string>, dbs: map<string, Db>)
    requires OthersReplicate(cd) && Grows(cd, uids, dbs)
    ensures OthersReplicate(cd.(dbs := dbs))
  {
  }

  lemma ResizedIsSound(cd: ClusterData, good: set<string>, converging: set<string>, uids: seq<string>, dbs: map<string, Db>)
    requires Sound(cd) && HasMaster(cd) && cd.master !in good && Fresh(cd, uids)
    requires OthersReplicate(cd)
    requires Resized(cd, good, converging, uids, dbs)
    ensures Sound(cd.(dbs := dbs)) && HasMaster(cd.(dbs := dbs)) && dbs[cd.master] == cd.dbs[cd.master]
    ensures OthersReplicate(cd.(dbs := dbs))
    ensures From(cd, uids, cd.(dbs := dbs))
  {
    if |good| >= cd.spec.maxStandbysPerSender {
      TrimmedIsSound(cd, good, dbs);
    } else {
      ExtendedIsSound(cd, uids, cd.spec.maxStandbysPerSender - |good| - |converging|, dbs);
      GrownReplicate(cd, uids, dbs);
    }
  }

  /** The document once the synchronous standbys are settled. */
  ghost function Synced(c: Choices): ClusterData { c.ready.(dbs := c.ready.dbs[c.ready.master := c.master]) }

  lemma SyncKeepsShape(cd: ClusterData, inp: SyncStandbys.Inputs, rec: SyncStandbys.SyncRecord, m: Db)
    requires HasMaster(cd) && SyncUpdated(cd, inp, rec, m)
    ensures var prior := cd.dbs[cd.master];
            m.uid == prior.uid && m.spec.keeper == prior.spec.keeper && SameGenerations(prior, m) && TypeOf(m) == PrimaryLine
  {
  }

  lemma MasterReplaced(cd: ClusterData, m: Db)
    requires Sound(cd) && HasMaster(cd) && OthersReplicate(cd)
    requires var prior := cd.dbs[cd.master];
             m.uid == prior.uid && m.spec.keeper == prior.spec.keeper && SameGenerations(prior, m) && TypeOf(m) == PrimaryLine
    ensures var next := cd.(dbs := cd.dbs[cd.master := m]);
            Sound(next) && HasMaster(next) && OthersReplicate(next) && Rewrites(cd, next)
  {
  }

  lemma SyncedIsSound(before: ClusterData, cd: ClusterData, env: Env, uids: seq<string>, c: Choices, next: ClusterData)
    requires Sound(cd) && HasMaster(cd) && before.Consistent() && before.master == cd.master && cd.master in before.dbs && Distinct(uids)
    requires Maintained(before, cd, env, uids, c, next)
    ensures Sound(Synced(c)) && HasMaster(Synced(c)) && OthersReplicate(Synced(c)) && Rewrites(cd, Synced(c))
    ensures Synced(c).master == cd.master && cd.master !in c.good
  {
    PreparedIsSound(before, cd, env, c.good, c.converging, c.ready);
    SyncKeepsShape(c.ready, c.inputs, c.sync, c.master);
    MasterReplaced(c.ready, c.master);
    RewritesTwice(cd, c.ready, Synced(c));
  }

  lemma MaintainedIsSound(before: ClusterData, cd: ClusterData, env: Env, uids: seq<string>, c: Choices, next: ClusterData)
    requires Sound(cd) && HasMaster(cd) && before.Consistent() && before.master == cd.master && cd.master in before.dbs
    requires Fresh(cd, uids)
    requires Maintained(before, cd, env, uids, c, next)
    ensures Sound(next) && HasMaster(next) && next.master == cd.master && AllFollow(next)
    ensures From(cd, uids, next)
  {
    SyncedIsSound(before, cd, env, uids, c, next);
    var resized := Synced(c).(dbs := c.resized);
    ResizedIsSound(Synced(c), c.good, c.converging, uids, c.resized);
    ReconfiguredIsSound(resized);
    FromEarlier(Synced(c), uids, resized, next);
    FromLater(cd, Synced(c), uids, next);
  }

  lemma OpenedIsSound(cd: ClusterData, proxies: map<string, nat>)
    requires Sound(cd) && HasMaster(cd)
    ensures Sound(Opened(cd, proxies)) && HasMaster(Opened(cd, proxies)) && Rewrites(cd, Opened(cd, proxies))
  {
  }

  /** Every database but the master follows it, and the master knows exactly these followers. */
  predicate OnePrimary(cd: ClusterData) {
    && cd.master in cd.dbs
    && AllFollow(cd)
    && cd.dbs[cd.master].spec.followers == cd.dbs.Keys - {cd.master}
  }

  lemma FollowersAreAll(cd: ClusterData)
    requires cd.master in cd.dbs && AllFollow(cd)
    ensures OnePrimary(WithFollowers(cd, cd.master, cd.master))
  {
  }

  lemma KeptIsSound(before: ClusterData, cd: ClusterData, env: Env, proxies: map<string, nat>, uids: seq<string>, c: Choices, next: ClusterData)
    requires Sound(cd) && HasMaster(cd) && before.Consistent() && before.master == cd.master && cd.master in before.dbs
    requires Fresh(cd, uids)
    requires KeepsMaster(before, cd, env, proxies, uids, c, next)
    ensures Sound(next) && HasMaster(next) && next.master == cd.master
    ensures From(cd, uids, next)
    ensures Healthy(cd) ==> OnePrimary(next)
  {
    var open := Opened(cd, proxies);
    OpenedIsSound(cd, proxies);
    if Healthy(cd) {
      MaintainedIsSound(before, open, env, uids, c, c.maintained);
      FollowersKeepSound(c.maintained, cd.master, cd.master);
      FollowersAreAll(c.maintained);
    } else {
      FollowersKeepSound(open, cd.master, cd.master);
    }
  }

  /** The master is healthy and its keeper has finished a pass for its current spec. */
  predicate Healthy(cd: ClusterData) {
    cd.master in cd.dbs && var m := cd.dbs[cd.master]; m.status.healthy && m.status.generation == m.generation
  }

  lemma KeepingPassIsSound(before: ClusterData, env: Env, proxies: map<string, nat>, uids: seq<string>, c: Choices, next: ClusterData)
    requires Sound(before) && HasMaster(before) && Fresh(before, uids)
    requires NormalStep(before, env, proxies, uids, c, next) && c.why == Keep
    ensures Sound(next) && HasMaster(next) && next.master == before.master
    ensures From(before, uids, next)
    ensures Healthy(before) ==> OnePrimary(next)
  {
    LiveIsSound(before, env.now);
    var cd := Live(before, env.now).(manualSwitch := c.request);
    assert Sound(cd);
    KeptIsSound(before, cd, env, proxies, uids, c, next);
  }

  lemma ElectingPassIsSound(before: ClusterData, env: Env, proxies: map<string, nat>, uids: seq<string>, c: Choices, next: ClusterData)
    requires Sound(before) && HasMaster(before) && Distinct(uids)
    requires NormalStep(before, env, proxies, uids, c, next) && c.why != Keep
    ensures Sound(next) && HasMaster(next)
    ensures From(before, uids, next)
  {
    LiveIsSound(before, env.now);
    var cd := Live(before, env.now).(manualSwitch := c.request);
    assert Sound(cd);
    ElectionKeepsInv(cd, c.wanted);
    FromSame(before, uids, cd, next);
  }

  lemma FromSame(before: ClusterData, uids: seq<string>, cd: ClusterData, next: ClusterData)
    requires cd.dbs == before.dbs && Rewrites(cd, next)
    ensures From(before, uids, next)
  {
  }

  lemma NormalIsSound(before: ClusterData, env: Env, proxies: map<string, nat>, uids: seq<string>, c: Choices, next: ClusterData)
    requires Sound(before) && HasMaster(before) && Fresh(before, uids)
    requires NormalStep(before, env, proxies, uids, c, next)
    ensures Sound(next) && HasMaster(next)
    ensures From(before, uids, next)
  {
    if c.why == Keep {
      KeepingPassIsSound(before, env, proxies, uids, c, next);
    } else {
      ElectingPassIsSound(before, env, proxies, uids, c, next);
    }
  }
}
