/**
 * What it means that a database has converged: over every run of checks and
 * commands, the keeper has finished a pass for exactly the spec in the document.
 */
module Convergence {
  import opened Cluster
  import opened Invariant
  import opened Reconcile
  import Health
  import Keepers
  import Runs

  /** `a` is what some document up to number `j` says of its database. */
  ghost predicate TakenFrom(states: seq<Runs.State>, j: nat, a: Keepers.Assignment) {
    exists i: nat :: i <= j && SaysAt(states, i, a)
  }

  ghost predicate SaysAt(states: seq<Runs.State>, i: nat, a: Keepers.Assignment) {
    i < |states| && a.uid in states[i].cd.dbs && states[i].cd.dbs[a.uid].generation == a.generation && states[i].cd.dbs[a.uid].spec == a.spec
  }

  /** Check `i` reads a report that gives `g` as the last finished generation of `d`. */
  ghost predicate Reports(events: seq<Runs.Event>, i: nat, d: string, g: nat) {
    && i < |events| && events[i].Check?
    && exists k :: k in events[i].current && Names(events[i].current[k], d, g)
  }

  predicate Names(info: Health.KeeperInfo, d: string, g: nat) {
    info.pg.Some? && info.pg.value.uid == d && info.pg.value.generation == g
  }

  /** A reported generation is one that a pass finished, working from a document not later than the check. */
  ghost predicate Honest(states: seq<Runs.State>, events: seq<Runs.Event>, finished: set<Keepers.Assignment>) {
    forall i: nat, d, g: nat :: Reports(events, i, d, g) && g > NO_GENERATION ==> Done(states, i, finished, d, g)
  }

  ghost predicate Done(states: seq<Runs.State>, i: nat, finished: set<Keepers.Assignment>, d: string, g: nat) {
    exists a :: a in finished && a.uid == d && a.generation == g && TakenFrom(states, i, a)
  }

  /** A keeper that reports its record, having worked from documents only, reports honestly. */
  lemma RecordsAreHonest(states: seq<Runs.State>, i: nat, finished: set<Keepers.Assignment>, record: Keepers.LocalState)
    requires Keepers.Backed(record, finished) && record.generation > NO_GENERATION
    requires forall a :: a in finished ==> TakenFrom(states, i, a)
    ensures Done(states, i, finished, record.uid, record.generation)
  {
    var a :| a in finished && a.uid == record.uid && a.generation == record.generation;
  }

  // ------------------------------------------------- the status of a document

  lemma MergedStatus(cd: ClusterData, current: map<string, Health.KeeperInfo>, reported: ClusterData, d: string)
    requires Health.Merged(cd, current, reported) && d in cd.dbs
    requires reported.dbs[d].status.generation != cd.dbs[d].status.generation
    ensures exists k :: k in current && Names(current[k], cd.dbs[d].uid, reported.dbs[d].status.generation)
  {
    var k := cd.dbs[d].spec.keeper;
    assert k in current && Names(current[k], cd.dbs[d].uid, reported.dbs[d].status.generation);
  }

  /** A move leaves a database's reported generation alone, unless the check just read it from a report. */
  lemma MoveReports(states: seq<Runs.State>, events: seq<Runs.Event>, i: nat, d: string)
    requires Runs.IsRun(states, events) && i < |events|
    requires d in states[i + 1].cd.dbs && states[i + 1].cd.dbs[d].status.generation > NO_GENERATION
    ensures var g := states[i + 1].cd.dbs[d].status.generation;
            Reports(events, i, d, g) || (d in states[i].cd.dbs && states[i].cd.dbs[d].status.generation == g)
  {
    Runs.InvAlwaysHolds(states, events, i);
    assert Runs.MovesAt(states, events, i);
    var s, t := states[i], states[i + 1];
    match events[i]
    case Check(current, reported, env, proxies, uids) =>
      Runs.ReportKeepsInv(s.cd, current, reported);
      Runs.StepKeepsReported(reported, env, proxies, uids, t.cd);
      if reported.dbs[d].status.generation != s.cd.dbs[d].status.generation {
        MergedStatus(s.cd, current, reported, d);
      }
    case Operator(cmd, now) =>
      CommandKeepsReported(s.cd, cmd, now, t.cd, d);
  }

  lemma CommandKeepsReported(cd: ClusterData, cmd: Runs.Command, now: int, next: ClusterData, d: string)
    requires Inv(cd) && Runs.Commanded(cd, cmd, now, next) && d in next.dbs
    ensures d in cd.dbs && next.dbs[d].status.generation == cd.dbs[d].status.generation
  {
    Runs.CommandKeepsInv(cd, cmd, now, next);
  }

  /** The generation a document shows as reported was in a report that an earlier check read. */
  lemma {:induction false} StatusWasReported(states: seq<Runs.State>, events: seq<Runs.Event>, j: nat, d: string)
    requires Runs.IsRun(states, events) && j < |states|
    requires d in states[j].cd.dbs && states[j].cd.dbs[d].status.generation > NO_GENERATION
    ensures exists i: nat :: i < j && Reports(events, i, d, states[j].cd.dbs[d].status.generation)
  {
    if j > 0 {
      MoveReports(states, events, j - 1, d);
      if !Reports(events, j - 1, d, states[j].cd.dbs[d].status.generation) {
        StatusWasReported(states, events, j - 1, d);
      }
    }
  }

  /**
   * Converged means current: in every document of a run without
   * `Reinitialize`, a database whose reported generation is its generation has
   * had a pass finished by a keeper for exactly the spec the document holds.
   */
  lemma ConvergedMeansCurrentSpec(states: seq<Runs.State>, events: seq<Runs.Event>, finished: set<Keepers.Assignment>, j: nat, d: string)
    requires Runs.IsRun(states, events) && j < |states| && Honest(states, events, finished)
    requires forall e :: e in events ==> !(e.Operator? && e.cmd.Reinitialize?)
    requires d in states[j].cd.dbs && states[j].cd.dbs[d].status.generation == states[j].cd.dbs[d].generation
    ensures Keepers.Assignment(d, states[j].cd.dbs[d].generation, states[j].cd.dbs[d].spec) in finished
  {
    var g := states[j].cd.dbs[d].generation;
    Runs.InvAlwaysHolds(states, events, j);
    StatusWasReported(states, events, j, d);
    var i: nat :| i < j && Reports(events, i, d, g);
    assert Done(states, i, finished, d, g);
    var a :| a in finished && a.uid == d && a.generation == g && TakenFrom(states, i, a);
    var h: nat :| h <= i && SaysAt(states, h, a);
    Runs.OneSpecPerGeneration(states, events, h, j);
    Runs.InvAlwaysHolds(states, events, h);
  }
}
