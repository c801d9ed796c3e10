/**
 * Runs of the whole system, from its first document: sentinels' checks and
 * operators' commands on the document, interleaved with every action of the
 * keepers and of PostgreSQL.  Replication may be synchronous or not, and may
 * become so at any time.
 */
module JointRuns {
  import opened Cluster
  import opened FailoverView
  import opened Invariant
  import opened Reconcile
  import opened Selection
  import opened SyncStart
  import Durability
  import Health
  import Runs

  /** The document with the UIDs used so far, and the world around it. */
  datatype State = State(doc: Runs.State, w: Durability.World)

  datatype Event = Document(e: Runs.Event) | Local(step: Durability.Step)

  /**
   * A check believes only published reports.  A command may be anything but a
   * reinitialization.  Keepers are careful.
   */
  ghost predicate Moves(s: State, e: Event, t: State) {
    match e
    case Document(e) =>
      && Runs.Moves(s.doc, e, t.doc)
      && !(e.Operator? && e.cmd.Reinitialize?)
      && (e.Check? ==> AllPublished(s.w, e.current))
      && t.w == s.w.(doc := View(t.doc.cd))
    case Local(step) =>
      && Durability.IsLocal(step) && Durability.Enabled(s.w, step) && Durability.Careful(s.w, step)
      && t.doc == s.doc && t.w == Durability.Apply(s.w, step)
  }

  ghost predicate MovesAt(states: seq<State>, events: seq<Event>, i: nat)
    requires |states| == |events| + 1 && i < |events|
  {
    Moves(states[i], events[i], states[i + 1])
  }

  /** Nothing but an empty document. */
  function Start(spec: ClusterSpec): State {
    var cd := InitialClusterData(spec);
    State(Runs.State(cd, {}), Durability.World(View(cd), map[], {}, [], {}))
  }

  ghost predicate IsRun(states: seq<State>, events: seq<Event>) {
    && |states| == |events| + 1
    && (exists spec: ClusterSpec :: spec.Valid() && states[0] == Start(spec))
    && forall i :: 0 <= i < |events| ==> MovesAt(states, events, i)
  }

  // ---------------------------------------------------- synchronous or not

  /** A database whose generation has been reported has an instance. */
  ghost predicate Heard(cd: ClusterData, w: Durability.World) {
    forall d :: d in cd.dbs && cd.dbs[d].status.generation > NO_GENERATION ==> d in w.nodes
  }

  ghost predicate Sane(s: State) {
    && Runs.Good(s.doc) && AllShaped(s.doc.cd) && AllCalm(s.doc.cd) && Heard(s.doc.cd, s.w)
    && s.w.doc == View(s.doc.cd) && Durability.Tracked(s.w) && s.w.nodes.Keys <= s.doc.used
  }

  lemma StartIsSane(spec: ClusterSpec)
    requires spec.Valid()
    ensures Sane(Start(spec))
  {
    Runs.InitialIsGood(spec);
  }

  /** Merging reports changes neither types nor known standbys. */
  lemma MergedThenDrifts(cd: ClusterData, current: map<string, Health.KeeperInfo>, reported: ClusterData, next: ClusterData)
    requires Health.Merged(cd, current, reported) && Drifts(reported, next)
    ensures Drifts(cd, next)
  {
  }

  lemma MoveDrifts(s: Runs.State, e: Runs.Event, t: Runs.State)
    requires Runs.Good(s) && Runs.Moves(s, e, t) && !(e.Operator? && e.cmd.Reinitialize?)
    ensures Drifts(s.cd, t.cd)
  {
    match e
    case Check(current, reported, env, proxies, uids) =>
      Runs.ReportKeepsInv(s.cd, current, reported);
      StepDrifts(reported, env, proxies, uids, t.cd);
      MergedThenDrifts(s.cd, current, reported, t.cd);
    case Operator(cmd, now) =>
      Runs.CommandKeepsInv(s.cd, cmd, now, t.cd);
  }

  lemma MergingHeard(cd: ClusterData, current: map<string, Health.KeeperInfo>, reported: ClusterData, w: Durability.World)
    requires Inv(cd) && Health.Merged(cd, current, reported) && Heard(cd, w) && AllPublished(w, current)
    requires forall r :: r in w.reports ==> r.uid in w.nodes
    ensures Heard(reported, w)
  {
    forall d | d in reported.dbs && reported.dbs[d].status.generation > NO_GENERATION
      ensures d in w.nodes
    {
      var report := Health.ReportOn(cd.dbs[d], current);
      if report.Some? {
        assert Published(w, report.value);
      }
    }
  }

  lemma MoveHeard(s: State, e: Runs.Event, t: State)
    requires Sane(s) && Moves(s, Document(e), t)
    ensures Heard(t.doc.cd, t.w)
  {
    match e
    case Check(current, reported, env, proxies, uids) =>
      MergingHeard(s.doc.cd, current, reported, s.w);
      Runs.ReportKeepsInv(s.doc.cd, current, reported);
      Runs.StepKeepsReported(reported, env, proxies, uids, t.doc.cd);
    case Operator(cmd, now) =>
      Runs.CommandKeepsInv(s.doc.cd, cmd, now, t.doc.cd);
  }

  /** Generations count and primaries stay primaries, as far as the view shows. */
  lemma MoveKeepsTracked(s: State, t: State)
    requires Sane(s) && Runs.Good(t.doc) && Runs.Ages(s.doc, t.doc) && Drifts(s.doc.cd, t.doc.cd)
    ensures Durability.Tracked(s.w.(doc := View(t.doc.cd)))
  {
    Durability.DocKeepsTracked(s.w, View(t.doc.cd));
  }

  lemma DocumentKeepsSane(s: State, e: Runs.Event, t: State)
    requires Sane(s) && Moves(s, Document(e), t)
    ensures Sane(t)
  {
    Runs.MoveKeepsGood(s.doc, e, t.doc);
    MoveKeepsShaped(s.doc, e, t.doc);
    MoveDrifts(s.doc, e, t.doc);
    DriftsKeepsCalm(s.doc.cd, t.doc.cd);
    MoveHeard(s, e, t);
    MoveKeepsTracked(s, t);
  }

  lemma LocalKeepsSane(s: State, step: Durability.Step, t: State)
    requires Sane(s) && Moves(s, Local(step), t)
    ensures Sane(t)
  {
    Durability.LocalKeepsTracked(s.w, step);
  }

  lemma MoveKeepsSane(s: State, e: Event, t: State)
    requires Sane(s) && Moves(s, e, t)
    ensures Sane(t)
  {
    match e
    case Document(e) => DocumentKeepsSane(s, e, t);
    case Local(step) => LocalKeepsSane(s, step, t);
  }

  lemma FirstIsSane(states: seq<State>, events: seq<Event>)
    requires IsRun(states, events)
    ensures Sane(states[0])
  {
    var spec: ClusterSpec :| spec.Valid() && states[0] == Start(spec);
    StartIsSane(spec);
  }

  lemma NextIsSane(states: seq<State>, events: seq<Event>, i: nat)
    requires IsRun(states, events) && i < |events| && Sane(states[i])
    ensures Sane(states[i + 1])
  {
    assert MovesAt(states, events, i);
    MoveKeepsSane(states[i], events[i], states[i + 1]);
  }

  /** Throughout every run, keepers run behind the document and instances keep to their roles. */
  lemma {:induction false} AlwaysSane(states: seq<State>, events: seq<Event>, i: nat)
    requires IsRun(states, events) && i < |states|
    ensures Sane(states[i])
  {
    if i == 0 {
      FirstIsSane(states, events);
    } else {
      AlwaysSane(states, events, i - 1);
      NextIsSane(states, events, i - 1);
    }
  }

  // ------------------------------------------------- becoming synchronous

  /** A check makes replication synchronous. */
  predicate SwitchesOn(s: State, e: Event, t: State) {
    e.Document? && e.e.Check? && Becomes(s.doc.cd, t.doc.cd)
  }

  /** What the new master requires are replicas, and no instance of theirs is or may become a primary. */
  lemma RequiredAreNoOthers(s: State, t: State)
    requires Sane(s) && Sane(t) && Drifts(s.doc.cd, t.doc.cd) && t.w == s.w.(doc := View(t.doc.cd)) && t.doc.cd.master in t.doc.cd.dbs
    requires t.doc.cd.dbs[t.doc.cd.master].spec.syncStandbys <= ReplicasOf(s.doc.cd)
    ensures t.w.doc.dbs[t.w.doc.master].required !! Durability.Others(t.w)
  {
    forall u | u in ReplicasOf(s.doc.cd)
      ensures u !in Durability.Others(t.w)
    {
      assert u in s.w.nodes ==> Durability.RoleOk(s.w, u);
    }
  }

  /** The master cannot have reported a generation that has just risen. */
  lemma JustRisen(s: State, t: State)
    requires Sane(s) && t.w == s.w.(doc := View(t.doc.cd)) && Runs.Ages(s.doc, t.doc)
    requires var m := t.doc.cd.master;
             && m in t.doc.cd.dbs && m in s.doc.cd.dbs && m in s.w.nodes
             && t.doc.cd.dbs[m].spec.syncRepl != s.doc.cd.dbs[m].spec.syncRepl
    ensures forall r :: !Durability.Current(t.w, r)
  {
    assert Durability.Recorded(s.w, t.doc.cd.master);
  }

  lemma CheckBegins(s: State, e: Runs.Event, t: State)
    requires Sane(s) && Moves(s, Document(e), t) && SwitchesOn(s, Document(e), t)
    ensures Begins(e.reported, t.doc.cd)
  {
    MergingKeepsView(s.doc.cd, e.current, e.reported);
    Runs.ReportKeepsInv(s.doc.cd, e.current, e.reported);
    StepBegins(e.reported, e.env, e.proxies, e.uids, t.doc.cd);
  }

  lemma BeginsOnMerged(s: State, e: Runs.Event, t: State)
    requires Sane(s) && e.Check? && Health.Merged(s.doc.cd, e.current, e.reported) && AllPublished(s.w, e.current) && Begins(e.reported, t.doc.cd)
    ensures var m := t.doc.cd.master;
            && m in t.doc.cd.dbs && m in s.doc.cd.dbs && m in s.w.nodes
            && t.doc.cd.dbs[m].spec.syncStandbys <= ReplicasOf(s.doc.cd) && Electable(t.doc.cd.dbs[m]) == {}
            && (t.doc.cd.dbs[m].spec.syncStandbys == {} || t.doc.cd.dbs[m].spec.syncRepl != s.doc.cd.dbs[m].spec.syncRepl)
  {
    MergingHeard(s.doc.cd, e.current, e.reported, s.w);
  }

  lemma SaneView(s: State)
    requires Sane(s)
    ensures forall u :: u in s.w.doc.dbs ==>
              s.w.doc.dbs[u].required <= s.w.doc.dbs[u].names && (!s.w.doc.dbs[u].primaryLine ==> s.w.doc.dbs[u].known == {})
  {
    forall u | u in s.w.doc.dbs
      ensures s.w.doc.dbs[u].required <= s.w.doc.dbs[u].names && (!s.w.doc.dbs[u].primaryLine ==> s.w.doc.dbs[u].known == {})
    {
      assert Shaped(s.doc.cd.dbs[u]) && Calm(s.doc.cd.dbs[u]);
    }
  }

  /** The world around the first synchronous document is one from which durability can be argued. */
  lemma SwitchIsInit(s: State, e: Event, t: State)
    requires Sane(s) && Moves(s, e, t) && SwitchesOn(s, e, t)
    ensures Durability.Init(Durability.Anchored(t.w))
  {
    DocumentKeepsSane(s, e.e, t);
    Runs.MoveKeepsGood(s.doc, e.e, t.doc);
    MoveDrifts(s.doc, e.e, t.doc);
    CheckBegins(s, e.e, t);
    BeginsOnMerged(s, e.e, t);
    RequiredAreNoOthers(s, t);
    var m := t.doc.cd.dbs[t.doc.cd.master];
    if m.spec.syncStandbys != {} {
      JustRisen(s, t);
    }
    SaneView(t);
    Durability.AnchoredIsInit(t.w);
  }

  // ------------------------------------------------------ while synchronous

  /** Synchronous replication is on, and no switch or failing back is asked for. */
  predicate Steady(cd: ClusterData) { cd.phase == Normal && Synchronous(cd) && AutomaticOnly(cd) }

  /** `v` is the world around `s`, with the masters since replication became synchronous, and it is safe. */
  ghost predicate Safe(s: State, v: Durability.World) {
    && Sane(s) && Durability.Inv(v)
    && v == s.w.(lineage := v.lineage, past := v.past) && v.past <= s.doc.used
  }

  /** The world around `t`, with the masters counted on from `v`. */
  function CountedOn(v: Durability.World, t: State): Durability.World {
    t.w.(lineage := if t.doc.cd.master == v.doc.master then v.lineage else v.lineage + [t.doc.cd.master], past := v.past)
  }

  lemma StepCounts(v: Durability.World, cd: ClusterData, t: State)
    requires cd.master in cd.dbs && cd.master == v.doc.master && Durability.Enabled(v, StepOf(cd, t.doc.cd))
    requires t.w == v.(doc := View(t.doc.cd), lineage := t.w.lineage, past := t.w.past)
    ensures Durability.Apply(v, StepOf(cd, t.doc.cd)) == CountedOn(v, t)
    ensures Durability.Careful(v, StepOf(cd, t.doc.cd)) && Durability.CaughtUp(v, StepOf(cd, t.doc.cd))
  {
  }

  lemma ActiveCheckStaysSafe(s: State, v: Durability.World, e: Runs.Event, t: State)
    requires Safe(s, v) && Moves(s, Document(e), t) && e.Check? && Steady(s.doc.cd) && !s.doc.cd.pause.Active(e.env.now)
    ensures Durability.Inv(CountedOn(v, t))
  {
    CheckIsReady(s, v, e, t);
    CheckIsAStep(v, s.doc.cd, e.current, e.reported, e.env, e.proxies, e.uids, t.doc.cd);
    StepCounts(v, e.reported, t);
    Durability.StepKeepsInv(v, StepOf(e.reported, t.doc.cd));
  }

  lemma CheckIsReady(s: State, v: Durability.World, e: Runs.Event, t: State)
    requires Safe(s, v) && Moves(s, Document(e), t) && e.Check? && Steady(s.doc.cd) && !s.doc.cd.pause.Active(e.env.now)
    ensures Automatic(s.doc.cd, e.env, e.uids) && AllPublished(v, e.current) && v.doc == View(s.doc.cd)
    ensures forall u :: u in e.uids ==> u !in v.nodes && u !in v.past
    ensures e.reported.master == v.doc.master && t.w == v.(doc := View(t.doc.cd), lineage := t.w.lineage, past := t.w.past)
  {
    SamePublished(s.w, v, e.current);
    UnusedAreFresh(s.doc, e.uids);
  }

  lemma SamePublished(w: Durability.World, v: Durability.World, current: map<string, Health.KeeperInfo>)
    requires v.reports == w.reports && AllPublished(w, current)
    ensures AllPublished(v, current)
  {
    forall k | k in current && current[k].pg.Some? && current[k].pg.value.uid != NO_UID
      ensures Published(v, current[k].pg.value)
    {
      assert Published(w, current[k].pg.value);
    }
  }

  lemma UnusedAreFresh(s: Runs.State, uids: seq<string>)
    requires Runs.Good(s) && Distinct(uids) && forall u :: u in uids ==> u !in s.used && u != NO_UID
    ensures Fresh(s.cd, uids)
  {
  }

  lemma PausedCheckStaysSafe(s: State, v: Durability.World, e: Runs.Event, t: State)
    requires Safe(s, v) && Moves(s, Document(e), t) && e.Check? && Steady(s.doc.cd) && s.doc.cd.pause.Active(e.env.now)
    ensures Durability.Inv(CountedOn(v, t))
  {
    assert t.doc.cd == e.reported;
    MergingKeepsView(s.doc.cd, e.current, e.reported);
    assert CountedOn(v, t) == v;
  }

  lemma CommandKeepsMaster(cd: ClusterData, cmd: Runs.Command, now: int, next: ClusterData)
    requires Inv(cd) && Runs.Commanded(cd, cmd, now, next)
    ensures next.master == cd.master
  {
  }

  /** A command takes databases away at most, which is a pass as far as durability goes. */
  lemma FewerIsAPass(v: Durability.World, cd: ClusterData, next: ClusterData)
    requires Durability.Inv(v) && v.doc == View(cd) && next.master == cd.master && cd.master in next.dbs
    requires next.dbs.Keys <= cd.dbs.Keys && forall d :: d in next.dbs ==> next.dbs[d] == cd.dbs[d]
    ensures Durability.Enabled(v, Durability.Pass({}, View(next)))
  {
    Durability.FewerIsEnabled(v, View(next));
  }

  lemma CommandStaysSafe(s: State, v: Durability.World, cmd: Runs.Command, now: int, t: State)
    requires Safe(s, v) && Moves(s, Document(Runs.Operator(cmd, now)), t) && Steady(s.doc.cd)
    ensures Durability.Inv(CountedOn(v, t))
  {
    Runs.CommandKeepsInv(s.doc.cd, cmd, now, t.doc.cd);
    CommandKeepsMaster(s.doc.cd, cmd, now, t.doc.cd);
    CommandKeepsPhase(s.doc.cd, cmd, now, t.doc.cd);
    FewerIsAPass(v, s.doc.cd, t.doc.cd);
    Durability.StepKeepsInv(v, Durability.Pass({}, View(t.doc.cd)));
  }

  lemma CommandKeepsPhase(cd: ClusterData, cmd: Runs.Command, now: int, next: ClusterData)
    requires Inv(cd) && Runs.Commanded(cd, cmd, now, next) && cd.phase == Normal
    ensures next.phase == Normal
  {
  }

  /** What a keeper or PostgreSQL does depends on no lineage. */
  lemma LocalIgnoresLineage(w: Durability.World, v: Durability.World, step: Durability.Step)
    requires v == w.(lineage := v.lineage, past := v.past) && Durability.IsLocal(step) && Durability.Enabled(w, step)
    ensures Durability.Enabled(v, step)
    ensures Durability.Apply(v, step) == Durability.Apply(w, step).(lineage := v.lineage, past := v.past)
    ensures Durability.Careful(w, step) ==> Durability.Careful(v, step)
    ensures Durability.CaughtUp(w, step) ==> Durability.CaughtUp(v, step)
  {
  }

  lemma LocalStaysSafe(s: State, v: Durability.World, step: Durability.Step, t: State)
    requires Safe(s, v) && Moves(s, Local(step), t) && Durability.CaughtUp(s.w, step)
    ensures Durability.Inv(CountedOn(v, t))
  {
    LocalIgnoresLineage(s.w, v, step);
    Durability.StepKeepsInv(v, step);
    assert CountedOn(v, t) == Durability.Apply(v, step);
  }

  /** Standbys that are reported in sync have caught up. */
  ghost predicate CaughtUp(s: State, e: Event) { e.Local? ==> Durability.CaughtUp(s.w, e.step) }

  lemma MoveStaysSafe(s: State, v: Durability.World, e: Event, t: State)
    requires Safe(s, v) && Moves(s, e, t) && Steady(s.doc.cd) && CaughtUp(s, e)
    ensures Safe(t, CountedOn(v, t))
  {
    MoveKeepsSane(s, e, t);
    match e
    case Local(step) => LocalStaysSafe(s, v, step, t);
    case Document(e) =>
      match e {
        case Operator(cmd, now) => CommandStaysSafe(s, v, cmd, now, t);
        case Check(_, _, env, _, _) =>
          if s.doc.cd.pause.Active(env.now) {
            PausedCheckStaysSafe(s, v, e, t);
          } else {
            ActiveCheckStaysSafe(s, v, e, t);
          }
      }
  }

  // --------------------------------------------------------------------- runs

  /** Check `k - 1` makes replication synchronous, it stays so up to state `i`, and all the while reported standbys have caught up. */
  ghost predicate SynchronousFrom(states: seq<State>, events: seq<Event>, k: nat, i: nat)
    requires |states| == |events| + 1
  {
    && 0 < k <= i < |states|
    && SwitchesAt(states, events, k - 1)
    && (forall j :: k <= j <= i ==> SteadyAt(states, j))
    && forall j :: k <= j < i ==> CaughtUpAt(states, events, j)
  }

  predicate SteadyAt(states: seq<State>, j: nat)
    requires j < |states|
  {
    Steady(states[j].doc.cd)
  }

  ghost predicate CaughtUpAt(states: seq<State>, events: seq<Event>, j: nat)
    requires j < |states| && j < |events|
  {
    CaughtUp(states[j], events[j])
  }

  lemma OthersAreUsed(s: State)
    requires Sane(s)
    ensures Durability.Others(s.w) <= s.doc.used
  {
  }

  lemma SwitchIsSafe(s: State, e: Event, t: State)
    requires Sane(s) && Moves(s, e, t) && SwitchesOn(s, e, t)
    ensures Safe(t, Durability.Anchored(t.w)) && t.doc.cd.master in Durability.Anchored(t.w).lineage
  {
    MoveKeepsSane(s, e, t);
    SwitchIsInit(s, e, t);
    Durability.InitIsInv(Durability.Anchored(t.w));
    OthersAreUsed(t);
    assert Durability.Anchored(t.w).lineage[0] == t.doc.cd.master;
  }

  /** `v` is safe around state `i` and counts the masters from state `k` on. */
  ghost predicate Follows(states: seq<State>, k: nat, i: nat, v: Durability.World) {
    i < |states| && Safe(states[i], v) && forall j :: k <= j <= i ==> MasterAt(states, j) in v.lineage
  }

  function MasterAt(states: seq<State>, j: nat): string
    requires j < |states|
  {
    states[j].doc.cd.master
  }

  ghost predicate SwitchesAt(states: seq<State>, events: seq<Event>, i: nat)
    requires |states| == |events| + 1 && i < |events|
  {
    SwitchesOn(states[i], events[i], states[i + 1])
  }

  ghost predicate SafeFirst(states: seq<State>, i: nat)
    requires i < |states|
  {
    Safe(states[i], Durability.Anchored(states[i].w)) && MasterAt(states, i) in Durability.Anchored(states[i].w).lineage
  }

  lemma SwitchedIsSafe(states: seq<State>, events: seq<Event>, i: nat)
    requires IsRun(states, events) && i < |events| && Sane(states[i]) && SwitchesAt(states, events, i)
    ensures SafeFirst(states, i + 1)
  {
    assert MovesAt(states, events, i);
    SwitchIsSafe(states[i], events[i], states[i + 1]);
  }

  lemma FirstFollows(states: seq<State>, events: seq<Event>, i: nat)
    requires IsRun(states, events) && i < |events| && SwitchesAt(states, events, i)
    ensures Follows(states, i + 1, i + 1, Durability.Anchored(states[i + 1].w))
  {
    AlwaysSane(states, events, i);
    SwitchedIsSafe(states, events, i);
    FollowsItself(states, i + 1, Durability.Anchored(states[i + 1].w));
  }

  lemma FollowsItself(states: seq<State>, k: nat, v: Durability.World)
    requires k < |states| && Safe(states[k], v) && MasterAt(states, k) in v.lineage
    ensures Follows(states, k, k, v)
  {
  }

  lemma NextIsSafe(states: seq<State>, events: seq<Event>, i: nat, v: Durability.World)
    requires IsRun(states, events) && i < |events| && Safe(states[i], v) && SteadyAt(states, i) && CaughtUpAt(states, events, i)
    ensures Safe(states[i + 1], CountedOn(v, states[i + 1]))
  {
    assert MovesAt(states, events, i);
    MoveStaysSafe(states[i], v, events[i], states[i + 1]);
  }

  lemma CountedOnCounts(s: State, v: Durability.World, t: State)
    requires Safe(s, v) && Safe(t, CountedOn(v, t))
    ensures t.doc.cd.master in CountedOn(v, t).lineage
    ensures forall m :: m in v.lineage ==> m in CountedOn(v, t).lineage
  {
    var next := CountedOn(v, t);
    assert next.lineage[|next.lineage| - 1] == t.doc.cd.master;
  }

  lemma NextFollows(states: seq<State>, events: seq<Event>, k: nat, i: nat, v: Durability.World)
    requires IsRun(states, events) && k <= i < |events| && Follows(states, k, i, v)
    requires SteadyAt(states, i) && CaughtUpAt(states, events, i)
    ensures Follows(states, k, i + 1, CountedOn(v, states[i + 1]))
  {
    NextIsSafe(states, events, i, v);
    CountedOnCounts(states[i], v, states[i + 1]);
    forall j | k <= j <= i + 1
      ensures MasterAt(states, j) in CountedOn(v, states[i + 1]).lineage
    {
      assert j <= i ==> MasterAt(states, j) in v.lineage;
    }
  }

  lemma {:induction false} StaysSafe(states: seq<State>, events: seq<Event>, k: nat, i: nat) returns (v: Durability.World)
    requires IsRun(states, events) && SynchronousFrom(states, events, k, i)
    ensures Follows(states, k, i, v)
  {
    if i == k {
      v := Durability.Anchored(states[k].w);
      FirstFollows(states, events, k - 1);
    } else {
      var u := StaysSafe(states, events, k, i - 1);
      NextFollows(states, events, k, i - 1, u);
      v := CountedOn(u, states[i]);
    }
  }

  /**
   * No lost commit, of the whole system: in every run from the first document,
   * from any check that makes replication synchronous and for as long as it
   * stays so, the master of every document holds every commit that any master
   * since has acknowledged.
   */
  lemma NoLostCommit(states: seq<State>, events: seq<Event>, k: nat, j: nat, i: nat)
    requires IsRun(states, events) && SynchronousFrom(states, events, k, i) && k <= j <= i
    ensures Durability.Holds(states[i].w, states[j].doc.cd.master, states[i].doc.cd.master)
  {
    var v := StaysSafe(states, events, k, i);
    assert MasterAt(states, j) in v.lineage;
    MasterHolds(states[i], v, states[j].doc.cd.master);
  }

  lemma MasterHolds(s: State, v: Durability.World, m: string)
    requires Safe(s, v) && m in v.lineage
    ensures Durability.Holds(s.w, m, s.doc.cd.master)
  {
    var n :| 0 <= n < |v.lineage| && v.lineage[n] == m;
    Durability.MasterHoldsAll(v, n);
  }
}
