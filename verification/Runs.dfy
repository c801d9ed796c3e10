/**
 * Runs of the cluster document: passes of any sentinel and operator commands,
 * each applied to the latest document, as compare-and-swap guarantees.
 */
module Runs {
  import opened Cluster
  import opened Invariant
  import opened Options
  import opened Reconcile
  import opened Selection
  import Health

  // --------------------------------------------------------------- one pass

  lemma OnePass(cd: ClusterData, env: Env, proxies: map<string, nat>, uids: seq<string>, next: ClusterData) returns (c: Choices, mid: ClusterData)
    requires Inv(cd) && Distinct(uids) && cd.phase == Normal && !cd.pause.Active(env.now)
    requires Step(cd, env, proxies, uids, next)
    ensures NormalStep(cd, env, proxies, uids, c, mid) && next == Finished(cd, mid, env.now) && next.master == mid.master
  {
    c, mid :| NormalStep(cd, env, proxies, uids, c, mid) && next == Finished(cd, mid, env.now);
  }

  lemma InitKeepsSound(cd: ClusterData, env: Env, u: string, mid: ClusterData)
    requires Inv(cd) && cd.phase == Initializing && u != NO_UID
    requires InitStep(cd, env, u, mid)
    ensures Inv(mid) && From(cd, [u], mid) && mid.spec == cd.spec
  {
    assert cd.master == NO_UID ==> cd.dbs == map[];
  }

  lemma FinishedKeepsInv(before: ClusterData, mid: ClusterData, now: int)
    requires Inv(mid)
    ensures Inv(Finished(before, mid, now))
  {
    FinishedIsSound(before, mid, now);
    assert mid.dbs == map[] ==> Finished(before, mid, now).dbs == map[];
  }

  /** Where finishing puts a database whose generation the pass had left alone. */
  ghost predicate GenerationRule(cd: ClusterData, next: ClusterData) {
    forall d :: d in next.dbs && d in cd.dbs ==>
      next.dbs[d].generation == cd.dbs[d].generation + if next.dbs[d].spec == cd.dbs[d].spec then 0 else 1
  }

  lemma FinishedFollowsRule(before: ClusterData, uids: seq<string>, mid: ClusterData, now: int)
    requires From(before, uids, mid)
    ensures GenerationRule(before, Finished(before, mid, now))
  {
  }

  lemma FinishedFrom(before: ClusterData, uids: seq<string>, mid: ClusterData, now: int)
    requires From(before, uids, mid)
    ensures forall d :: d in Finished(before, mid, now).dbs && d !in before.dbs ==> d in uids
  {
  }

  /**
   * Every pass keeps the document invariant, creates databases only under fresh
   * UIDs, and raises a surviving database's generation by one exactly when its
   * spec changed.
   */
  lemma StepKeepsInv(cd: ClusterData, env: Env, proxies: map<string, nat>, uids: seq<string>, next: ClusterData)
    requires Inv(cd) && Fresh(cd, uids)
    requires Step(cd, env, proxies, uids, next)
    ensures Inv(next)
    ensures GenerationRule(cd, next)
    ensures forall d :: d in next.dbs && d !in cd.dbs ==> d in uids
  {
    match cd.phase
    case Initializing =>
      var mid, u :| u in uids && InitStep(cd, env, u, mid) && next == Finished(cd, mid, env.now);
      InitKeepsSound(cd, env, u, mid);
      FinishedKeepsInv(cd, mid, env.now);
      FinishedFollowsRule(cd, [u], mid, env.now);
      FinishedFrom(cd, [u], mid, env.now);
    case Normal =>
      if !cd.pause.Active(env.now) {
        var c, mid := OnePass(cd, env, proxies, uids, next);
        NormalIsSound(cd, env, proxies, uids, c, mid);
        NormalKeepsPhase(cd, env, proxies, uids, c, mid);
        FinishedKeepsInv(cd, mid, env.now);
        FinishedFollowsRule(cd, uids, mid, env.now);
        FinishedFrom(cd, uids, mid, env.now);
      }
  }

  /** A pass keeps what was last reported of each database; a new one has nothing reported. */
  ghost predicate ReportedRule(cd: ClusterData, next: ClusterData) {
    forall d :: d in next.dbs ==> next.dbs[d].status.generation == if d in cd.dbs then cd.dbs[d].status.generation else NO_GENERATION
  }

  lemma FinishedKeepsReported(before: ClusterData, uids: seq<string>, mid: ClusterData, now: int)
    requires From(before, uids, mid)
    ensures ReportedRule(before, Finished(before, mid, now))
  {
  }

  lemma StepKeepsReported(cd: ClusterData, env: Env, proxies: map<string, nat>, uids: seq<string>, next: ClusterData)
    requires Inv(cd) && Fresh(cd, uids)
    requires Step(cd, env, proxies, uids, next)
    ensures ReportedRule(cd, next)
  {
    match cd.phase
    case Initializing =>
      var mid, u :| u in uids && InitStep(cd, env, u, mid) && next == Finished(cd, mid, env.now);
      InitKeepsSound(cd, env, u, mid);
      FinishedKeepsReported(cd, [u], mid, env.now);
    case Normal =>
      if !cd.pause.Active(env.now) {
        var c, mid := OnePass(cd, env, proxies, uids, next);
        NormalIsSound(cd, env, proxies, uids, c, mid);
        FinishedKeepsReported(cd, uids, mid, env.now);
      }
  }

  lemma NormalKeepsPhase(cd: ClusterData, env: Env, proxies: map<string, nat>, uids: seq<string>, c: Choices, mid: ClusterData)
    requires Inv(cd) && cd.phase == Normal && Distinct(uids)
    requires NormalStep(cd, env, proxies, uids, c, mid)
    ensures mid.phase == Normal && mid.spec == cd.spec
  {
  }

  lemma FinishedKeepsOnePrimary(before: ClusterData, mid: ClusterData, now: int)
    requires OnePrimary(mid)
    ensures OnePrimary(Finished(before, mid, now))
  {
  }

  /**
   * A pass that keeps a healthy converged master leaves it as the only
   * primary-line database, followed by all the others.
   */
  lemma HealthyPassLeavesOnePrimary(cd: ClusterData, env: Env, proxies: map<string, nat>, uids: seq<string>, next: ClusterData)
    requires Inv(cd) && Fresh(cd, uids) && cd.phase == Normal && !cd.pause.Active(env.now)
    requires Step(cd, env, proxies, uids, next) && next.master == cd.master
    requires Invariant.Healthy(cd)
    ensures OnePrimary(next)
    ensures forall d :: d in next.dbs ==> (TypeOf(next.dbs[d]) == PrimaryLine <==> d == next.master)
  {
    var c, mid := OnePass(cd, env, proxies, uids, next);
    ElectionChangesMaster(cd, env, proxies, uids, c, mid);
    KeepingPassIsSound(cd, env, proxies, uids, c, mid);
    FinishedKeepsOnePrimary(cd, mid, env.now);
    FinishedIsSound(cd, mid, env.now);
    FollowersReplicate(next);
  }

  lemma ElectionChangesMaster(cd: ClusterData, env: Env, proxies: map<string, nat>, uids: seq<string>, c: Choices, mid: ClusterData)
    requires Inv(cd) && cd.phase == Normal && Distinct(uids)
    requires NormalStep(cd, env, proxies, uids, c, mid)
    ensures c.why != Keep ==> mid.master != cd.master
  {
  }

  lemma FollowersReplicate(cd: ClusterData)
    requires HasMaster(cd) && AllFollow(cd)
    ensures forall d :: d in cd.dbs ==> (TypeOf(cd.dbs[d]) == PrimaryLine <==> d == cd.master)
  {
  }

  /** What makes a database fit to replace the master. */
  ghost predicate Fit(cd: ClusterData, env: Env, d: string)
    requires cd.Consistent() && cd.master in cd.dbs
  {
    && d in cd.dbs && d != cd.master
    && ValidityOf(cd, cd.dbs[d]) == Valid
    && StatusOf(cd, env, cd.dbs[d]) == Selection.Good
    && cd.dbs[d].status.timeline == cd.dbs[cd.master].status.timeline
    && (!cd.spec.SyncRepl() ==> cd.dbs[cd.master].status.xlog <= cd.dbs[d].status.xlog + cd.spec.maxStandbyLag)
  }

  lemma DecidedIsFit(cd: ClusterData, env: Env, why: Decision, wanted: string, request: Option<string>)
    requires cd.Consistent() && cd.master in cd.dbs
    requires Decided(cd, env, why, wanted, request) && why != Keep
    ensures Fit(cd, env, wanted)
  {
  }

  lemma NormalSwitchIsFit(cd: ClusterData, env: Env, proxies: map<string, nat>, uids: seq<string>, c: Choices, mid: ClusterData)
    requires Inv(cd) && cd.phase == Normal && Distinct(uids)
    requires NormalStep(cd, env, proxies, uids, c, mid)
    ensures mid.master != cd.master ==> Live(cd, env.now).Consistent() && Fit(Live(cd, env.now), env, mid.master)
  {
    if c.why != Keep {
      DecidedIsFit(Live(cd, env.now), env, c.why, c.wanted, c.request);
    }
  }

  /**
   * Whatever the reason for a switch (failover, operator or failing back), the
   * new master is another database that is valid, good, on the master's timeline
   * and, with asynchronous replication, within the maximum lag.
   */
  lemma SwitchTargetIsFit(cd: ClusterData, env: Env, proxies: map<string, nat>, uids: seq<string>, next: ClusterData)
    requires Inv(cd) && Fresh(cd, uids) && cd.phase == Normal && !cd.pause.Active(env.now)
    requires Step(cd, env, proxies, uids, next) && next.master != cd.master
    ensures Live(cd, env.now).Consistent() && Fit(Live(cd, env.now), env, next.master)
  {
    var c, mid := OnePass(cd, env, proxies, uids, next);
    NormalSwitchIsFit(cd, env, proxies, uids, c, mid);
  }

  // -------------------------------------------------------------- operators

  datatype Command =
    | SetPause(pause: Pause)
    | Switch(keeper: string)
    | Reinitialize(keeper: string)
    | RemoveKeeper(keeper: string)
    | UpdateSpec(spec: ClusterSpec)

  /** `d` is the database `FindDB` returns for a keeper. */
  predicate Owns(cd: ClusterData, keeper: string, d: string) { d in cd.dbs && cd.dbs[d].spec.keeper == keeper }

  /** The operator's command succeeds and turns `cd` into `next`. */
  ghost predicate Commanded(cd: ClusterData, cmd: Command, now: int, next: ClusterData) {
    match cmd
    case SetPause(pause) => next == cd.(pause := pause)
    case Switch(k) => !cd.pause.Active(now) && k in cd.keepers && next == cd.(manualSwitch := Some(k))
    case Reinitialize(k) =>
      && !cd.pause.Active(now) && k in cd.keepers
      && exists d ::
           && Owns(cd, k, d) && d != cd.master
           && var spec := cd.dbs[d].spec.(initMode := InitResync, role := Standby, follow := Internal(cd.master));
              next == cd.(manualSwitch := None, dbs := cd.dbs[d := cd.dbs[d].(spec := spec)])
    case RemoveKeeper(k) =>
      && !cd.pause.Active(now) && k in cd.keepers
      && if exists d :: Owns(cd, k, d)
         then exists d :: Owns(cd, k, d) && d != cd.master && next == cd.(keepers := cd.keepers - {k}, dbs := cd.dbs - {d})
         else next == cd.(keepers := cd.keepers - {k})
    case UpdateSpec(spec) =>
      && !cd.pause.Active(now) && spec.Valid() && spec.initMode == cd.spec.initMode
      && !(cd.spec.role == Master && spec.role == Standby)
      && next == cd.(spec := spec)
  }

  lemma CommandKeepsInv(cd: ClusterData, cmd: Command, now: int, next: ClusterData)
    requires Inv(cd) && Commanded(cd, cmd, now, next)
    ensures Inv(next)
    ensures next.dbs.Keys <= cd.dbs.Keys
    ensures !cmd.Reinitialize? ==> forall d :: d in next.dbs ==> next.dbs[d] == cd.dbs[d]
  {
    match cmd
    case Reinitialize(k) =>
      var d :| Owns(cd, k, d) && d != cd.master
               && var spec := cd.dbs[d].spec.(initMode := InitResync, role := Standby, follow := Internal(cd.master));
                  next == cd.(manualSwitch := None, dbs := cd.dbs[d := cd.dbs[d].(spec := spec)]);
      RewritesKeepSound(cd, next);
    case RemoveKeeper(k) => RemovalKeepsInv(cd, k, next);
    case _ =>
  }

  lemma RemovalKeepsInv(cd: ClusterData, k: string, next: ClusterData)
    requires Inv(cd)
    requires if exists d :: Owns(cd, k, d)
             then exists d :: Owns(cd, k, d) && d != cd.master && next == cd.(keepers := cd.keepers - {k}, dbs := cd.dbs - {d})
             else next == cd.(keepers := cd.keepers - {k})
    ensures Inv(next)
    ensures next.dbs.Keys <= cd.dbs.Keys && forall d :: d in next.dbs ==> next.dbs[d] == cd.dbs[d]
  {
    forall e | e in next.dbs
      ensures next.dbs[e].spec.keeper in next.keepers
    {
      assert !Owns(cd, k, e);
    }
  }

  // -------------------------------------------------------------------- runs

  /** The document, and every UID a database has had so far. */
  datatype State = State(cd: ClusterData, used: set<string>)

  /** A sentinel merges the reports `current` into the document and makes a pass over the result, or an operator edits it. */
  datatype Event =
    | Check(current: map<string, Health.KeeperInfo>, reported: ClusterData, env: Env, proxies: map<string, nat>, uids: seq<string>)
    | Operator(cmd: Command, now: int)

  ghost predicate Moves(s: State, e: Event, t: State) {
    && t.used == s.used + t.cd.dbs.Keys
    && match e
       case Check(current, reported, env, proxies, uids) =>
         && Health.Merged(s.cd, current, reported) && reported.Consistent()
         && Distinct(uids) && (forall u :: u in uids ==> u !in s.used && u != NO_UID)
         && Step(reported, env, proxies, uids, t.cd)
       case Operator(cmd, now) => Commanded(s.cd, cmd, now, t.cd)
  }

  ghost predicate IsRun(states: seq<State>, events: seq<Event>) {
    && |states| == |events| + 1
    && (exists spec: ClusterSpec :: spec.Valid() && states[0] == State(InitialClusterData(spec), {}))
    && forall i :: 0 <= i < |events| ==> MovesAt(states, events, i)
  }

  ghost predicate MovesAt(states: seq<State>, events: seq<Event>, i: nat)
    requires |states| == |events| + 1 && i < |events|
  {
    Moves(states[i], events[i], states[i + 1])
  }

  ghost predicate Good(s: State) { Inv(s.cd) && s.cd.dbs.Keys <= s.used }

  lemma ReportKeepsInv(cd: ClusterData, current: map<string, Health.KeeperInfo>, reported: ClusterData)
    requires Inv(cd) && Health.Merged(cd, current, reported)
    ensures Inv(reported)
  {
  }

  /** A database of a later document is the same one, at the same or a later generation, or is new. */
  ghost predicate Ages(s: State, t: State) {
    && s.used <= t.used
    && forall d :: d in t.cd.dbs && d in s.used ==>
         && d in s.cd.dbs
         && t.cd.dbs[d].generation >= s.cd.dbs[d].generation
         && (t.cd.dbs[d].generation == s.cd.dbs[d].generation ==> t.cd.dbs[d].spec == s.cd.dbs[d].spec)
  }

  lemma MoveKeepsGood(s: State, e: Event, t: State)
    requires Good(s) && Moves(s, e, t)
    ensures Good(t)
    ensures !(e.Operator? && e.cmd.Reinitialize?) ==> Ages(s, t)
  {
    match e
    case Check(current, reported, env, proxies, uids) =>
      ReportKeepsInv(s.cd, current, reported);
      StepKeepsInv(reported, env, proxies, uids, t.cd);
    case Operator(cmd, now) =>
      CommandKeepsInv(s.cd, cmd, now, t.cd);
  }

  lemma InitialIsGood(spec: ClusterSpec)
    requires spec.Valid()
    ensures Good(State(InitialClusterData(spec), {}))
  {
  }

  lemma StartIsGood(states: seq<State>, events: seq<Event>)
    requires IsRun(states, events)
    ensures Good(states[0])
  {
    var spec: ClusterSpec :| spec.Valid() && states[0] == State(InitialClusterData(spec), {});
    InitialIsGood(spec);
  }

  lemma NextIsGood(states: seq<State>, events: seq<Event>, i: nat)
    requires IsRun(states, events) && i < |events| && Good(states[i])
    ensures Good(states[i + 1])
  {
    assert MovesAt(states, events, i);
    MoveKeepsGood(states[i], events[i], states[i + 1]);
  }

  /** The document invariant holds throughout every run. */
  lemma {:induction false} InvAlwaysHolds(states: seq<State>, events: seq<Event>, i: nat)
    requires IsRun(states, events) && i < |states|
    ensures Good(states[i])
  {
    if i == 0 {
      StartIsGood(states, events);
    } else {
      InvAlwaysHolds(states, events, i - 1);
      NextIsGood(states, events, i - 1);
    }
  }

  lemma MoveAges(states: seq<State>, events: seq<Event>, i: nat)
    requires IsRun(states, events) && i < |events|
    ensures !(events[i].Operator? && events[i].cmd.Reinitialize?) ==> Ages(states[i], states[i + 1])
  {
    InvAlwaysHolds(states, events, i);
    assert MovesAt(states, events, i);
    MoveKeepsGood(states[i], events[i], states[i + 1]);
  }

  lemma AgesTransitive(s: State, t: State, u: State)
    requires Ages(s, t) && Ages(t, u)
    ensures Ages(s, u)
  {
  }

  /**
   * Over every run of passes and commands other than `Reinitialize`, a UID and a
   * generation determine the spec: a keeper that reports the generation it
   * finished has finished exactly that spec.
   */
  lemma {:induction false} OneSpecPerGeneration(states: seq<State>, events: seq<Event>, i: nat, j: nat)
    requires IsRun(states, events) && i <= j < |states|
    requires forall e :: e in events ==> !(e.Operator? && e.cmd.Reinitialize?)
    ensures Ages(states[i], states[j])
  {
    if i < j {
      OneSpecPerGeneration(states, events, i, j - 1);
      MoveAges(states, events, j - 1);
      assert events[j - 1] in events;
      AgesTransitive(states[i], states[j - 1], states[j]);
    }
  }

  /**
   * `Reinitialize` edits a spec under an unchanged generation.  That goes against
   * the rule exactly when the target was not waiting for a resync already.
   */
  lemma ReinitializationKeepsGeneration(cd: ClusterData, k: string, now: int, next: ClusterData, d: string)
    requires Inv(cd) && Commanded(cd, Reinitialize(k), now, next) && Owns(cd, k, d)
    ensures d in next.dbs && next.dbs[d].generation == cd.dbs[d].generation
    ensures GenerationRule(cd, next)
            <==> cd.dbs[d].spec.initMode == InitResync && cd.dbs[d].spec.role == Standby && cd.dbs[d].spec.follow == Internal(cd.master)
  {
  }
}
