/**
 * The fence between masters and proxies.
 *
 * Any number of sentinels move the fence by compare-and-swap; every proxy reads
 * it, reports the generation it has seen, and routes writes or stops routing
 * them.  `Script` is what one check of a proxy does, action by action; the
 * protocol below interleaves single actions of all proxies with the reads and
 * writes of all sentinels.
 */
module Fencing {
  import opened Cluster
  import opened Options

  /** Proxies lose their destination as soon as another master is wanted. */
  function ClosedFence(f: Fence): Fence {
    if f.master != NO_UID then Fence(NO_UID, f.enabled, f.generation + 1) else f
  }

  /** The fence opens for `master` only when every active proxy has seen it closed. */
  function NextFence(f: Fence, master: string, proxies: map<string, nat>): Fence {
    if f.master == NO_UID then
      if forall p :: p in proxies ==> proxies[p] == f.generation then Fence(master, f.enabled, f.generation + 1) else f
    else if f.enabled != proxies.Keys then f.(enabled := proxies.Keys, generation := f.generation + 1)
    else f
  }

  /** A closed fence names no master and, if it was open, has a new generation. */
  lemma ClosedTable(f: Fence)
    ensures var g := ClosedFence(f);
            && g.master == "" && g.enabled == f.enabled
            && (f.master == "" ==> g.generation == f.generation)
            && (f.master != "" ==> g.generation == f.generation + 1)
  {
  }

  /**
   * A closed fence opens for the master when every active proxy has seen its
   * generation, and stays as it is otherwise; an open one takes over the active
   * proxies.  The generation rises exactly when something changes.
   */
  lemma NextTable(f: Fence, master: string, proxies: map<string, nat>)
    requires master != ""
    ensures var g := NextFence(f, master, proxies);
            && (f.master == "" ==> g.enabled == f.enabled)
            && (f.master == "" && (forall p :: p in proxies ==> proxies[p] == f.generation) ==> g.master == master)
            && (f.master == "" && (exists p :: p in proxies && proxies[p] != f.generation) ==> g == f)
            && (f.master != "" ==> g.master == f.master && g.enabled == proxies.Keys)
            && (g.generation == f.generation + if g.master == f.master && g.enabled == f.enabled then 0 else 1)
  {
  }

  // --------------------------------------------------------- a proxy's check

  datatype Action = Clear | Report(generation: nat) | Route(destination: string)

  /** What a check reads: nothing, a document it cannot use, one without a fence, or a fence whose master has an entry or not. */
  datatype Snapshot = Missing | Unusable | NoFence | Usable(fence: Fence, known: bool)

  /** The effects of one check, in order.  A master is reported before it is routed to, and cleared before it is reported gone. */
  function Script(uid: string, snap: Snapshot, resolves: bool, reportOk: bool): seq<Action> {
    match snap
    case Missing => [Clear]
    case Unusable => [Clear]
    case NoFence => if reportOk then [Clear, Report(NO_GENERATION)] else [Clear]
    case Usable(f, known) =>
      if f.master == NO_UID || !known then
        if reportOk then [Clear, Report(f.generation)] else [Clear]
      else if !resolves then [Clear]
      else if !reportOk then []
      else [Report(f.generation), Route(if uid in f.enabled then f.master else NO_UID)]
  }

  datatype CheckResult = CheckOk | CheckFailed

  /** A proxy's cluster checker, with the destination it routes writes to. */
  class ClusterChecker {
    const uid: string
    var destination: string
    var published: Option<nat>          // the generation in this proxy's info
    ghost var effects: seq<Action>      // everything it did, in order

    constructor (uid: string)
      ensures this.uid == uid && destination == NO_UID && published == None && effects == []
    {
      this.uid := uid;
      destination := NO_UID;
      published := None;
      effects := [];
    }

    method ClearDestinations()
      modifies this
      ensures destination == NO_UID && published == old(published) && effects == old(effects) + [Clear]
    {
      destination := NO_UID;
      effects := effects + [Clear];
    }

    method SetProxyInfo(generation: nat, ok: bool)
      modifies this
      ensures destination == old(destination)
      ensures published == if ok then Some(generation) else old(published)
      ensures effects == if ok then old(effects) + [Report(generation)] else old(effects)
    {
      if ok {
        published := Some(generation);
        effects := effects + [Report(generation)];
      }
    }

    method SetWritableDestination(dst: string)
      modifies this
      ensures destination == dst && published == old(published) && effects == old(effects) + [Route(dst)]
    {
      destination := dst;
      effects := effects + [Route(dst)];
    }

    /**
     * One check.  Its effects are exactly the script's.  Writes are routed only to
     * the master of an open fence that enables this proxy; without a usable open
     * fence they stop, and only a report that fails leaves the route as it was.
     * The generation is published unless the document gives none, the master's
     * address does not resolve or the report fails.
     */
    method Check(snap: Snapshot, resolves: bool, reportOk: bool) returns (r: CheckResult)
      modifies this
      ensures effects == old(effects) + Script(uid, snap, resolves, reportOk)
      ensures destination == Played(old(destination), Script(uid, snap, resolves, reportOk))
      ensures published == Announced(old(published), Script(uid, snap, resolves, reportOk))
      ensures !(snap.Usable? && snap.fence.master != NO_UID && snap.known && resolves) ==> destination == NO_UID
      ensures snap.Usable? && snap.fence.master != NO_UID && snap.known && resolves ==>
                destination == if !reportOk then old(destination) else if uid in snap.fence.enabled then snap.fence.master else NO_UID
      ensures snap.Missing? || snap.Unusable? || !reportOk ==> published == old(published)
      ensures snap.NoFence? && reportOk ==> published == Some(0)
      ensures snap.Usable? && reportOk ==>
                published == if snap.fence.master == NO_UID || !snap.known || resolves then Some(snap.fence.generation) else old(published)
      ensures r == CheckFailed <==> snap == Unusable || (snap.Usable? && snap.fence.master != NO_UID && snap.known && resolves && !reportOk)
    {
      match snap
      case Missing =>
        ClearDestinations();
        return CheckOk;
      case Unusable =>
        ClearDestinations();
        return CheckFailed;
      case NoFence =>
        ClearDestinations();
        SetProxyInfo(NO_GENERATION, reportOk);
        return CheckOk;
      case Usable(fence, known) =>
        if fence.master == NO_UID || !known {
          ClearDestinations();
          SetProxyInfo(fence.generation, reportOk);
          return CheckOk;
        }
        if !resolves {
          ClearDestinations();
          return CheckOk;
        }
        SetProxyInfo(fence.generation, reportOk);
        if !reportOk {
          return CheckFailed;
        }
        if uid in fence.enabled {
          SetWritableDestination(fence.master);
        } else {
          SetWritableDestination(NO_UID);
        }
        return CheckOk;
    }
  }

  /** Where a sequence of actions leaves the destination. */
  function Played(destination: string, actions: seq<Action>): string {
    if actions == [] then destination
    else
      var last := actions[|actions| - 1];
      if last.Clear? then NO_UID
      else if last.Route? then last.destination
      else Played(destination, actions[..|actions| - 1])
  }

  /** The last generation announced. */
  function Announced(published: Option<nat>, actions: seq<Action>): Option<nat> {
    if actions == [] then published
    else
      var last := actions[|actions| - 1];
      if last.Report? then Some(last.generation) else Announced(published, actions[..|actions| - 1])
  }
}
