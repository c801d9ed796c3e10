/**
 * The link between the sentinel's pass and the fence protocol: whatever else a
 * pass does, it moves the fence by exactly one of the protocol's writes.
 */
module FenceView {
  import opened Cluster
  import opened Selection
  import opened Reconcile
  import Fencing
  import FenceProtocol
  import Invariant
  import Runs

  function View(cd: ClusterData): FenceProtocol.Doc { FenceProtocol.Doc(cd.fence, cd.master) }

  lemma NormalMovesFence(cd: ClusterData, env: Env, proxies: map<string, nat>, uids: seq<string>, c: Choices, mid: ClusterData)
    requires Inv(cd) && cd.phase == Normal && Invariant.Fresh(cd, uids)
    requires NormalStep(cd, env, proxies, uids, c, mid)
    ensures c.why == Keep ==> mid.master == cd.master && mid.fence == Fencing.NextFence(cd.fence, cd.master, proxies)
    ensures c.why != Keep ==> mid.master != cd.master && mid.master != NO_UID && mid.fence == Fencing.ClosedFence(cd.fence)
  {
  }

  lemma FinishedLeavesFence(before: ClusterData, mid: ClusterData, now: int)
    ensures View(Finished(before, mid, now)) == View(mid)
  {
  }

  /** The write a sentinel makes for a pass. */
  function FenceStep(s: string, cd: ClusterData, next: ClusterData): FenceProtocol.Step {
    if next.master == cd.master then FenceProtocol.Keep(s) else FenceProtocol.Elect(s, next.master)
  }

  /**
   * A pass of sentinel `s` over the document it read, with the active proxies it
   * read after that, is an enabled step of the protocol if the write succeeds.
   * So `FenceProtocol.OneDestination` speaks about the sentinels' passes.
   */
  lemma EveryPassIsAStep(w: FenceProtocol.World, s: string, cd: ClusterData, env: Env, proxies: map<string, nat>, uids: seq<string>, next: ClusterData)
    requires w.doc == View(cd) && FenceProtocol.SentinelOf(w, s) == FenceProtocol.HasInfos(View(cd), proxies)
    requires Inv(cd) && Invariant.Fresh(cd, uids) && cd.phase == Normal && !cd.pause.Active(env.now)
    requires Step(cd, env, proxies, uids, next)
    ensures FenceProtocol.Enabled(w, FenceStep(s, cd, next))
    ensures FenceProtocol.Apply(w, FenceStep(s, cd, next)).doc == View(next)
  {
    var c, mid := Runs.OnePass(cd, env, proxies, uids, next);
    NormalMovesFence(cd, env, proxies, uids, c, mid);
    FinishedLeavesFence(cd, mid, env.now);
  }

  /** Passes over a paused or uninitialized cluster, and operator commands, leave the fence alone. */
  lemma OthersLeaveFence(cd: ClusterData, env: Env, proxies: map<string, nat>, uids: seq<string>, cmd: Runs.Command, next: ClusterData)
    requires Inv(cd) && Invariant.Fresh(cd, uids)
    requires || ((cd.phase == Initializing || cd.pause.Active(env.now)) && Step(cd, env, proxies, uids, next))
             || Runs.Commanded(cd, cmd, env.now, next)
    ensures next.fence == cd.fence
  {
    if (cd.phase == Initializing || cd.pause.Active(env.now)) && Step(cd, env, proxies, uids, next) {
      if cd.phase == Initializing {
        var mid, u :| u in uids && InitStep(cd, env, u, mid) && next == Finished(cd, mid, env.now);
        FinishedLeavesFence(cd, mid, env.now);
      }
    }
  }
}
