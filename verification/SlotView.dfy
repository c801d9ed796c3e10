/**
 * The link between the sentinel's passes and the slots left behind: consecutive
 * documents under one master are consecutive pages of its tenure.
 */
module SlotView {
  import opened Cluster
  import opened Selection
  import opened Reconcile
  import opened Invariant
  import FailoverView
  import Health
  import Runs
  import Slots

  function PageOf(cd: ClusterData, now: int): Slots.Page
    requires cd.master in cd.dbs
  {
    Slots.Page(cd.dbs[cd.master].spec.followers, cd.dbs[cd.master].status.orphans, now)
  }

  lemma MaintainedKeepsOrphans(before: ClusterData, cd: ClusterData, env: Env, uids: seq<string>, c: Choices, next: ClusterData)
    requires Sound(cd) && HasMaster(cd) && before.Consistent() && before.master == cd.master && cd.master in before.dbs && Fresh(cd, uids)
    requires Maintained(before, cd, env, uids, c, next)
    ensures cd.master in next.dbs && next.dbs[cd.master].status.orphans == cd.dbs[cd.master].status.orphans
  {
    FailoverView.SyncedAside(before, cd, env, uids, c, next);
    FailoverView.MaintainedAside(before, cd, env, uids, c, next);
  }

  lemma KeptKeepsOrphans(before: ClusterData, cd: ClusterData, env: Env, proxies: map<string, nat>, uids: seq<string>, c: Choices, next: ClusterData)
    requires Sound(before) && HasMaster(before) && Sound(cd) && cd.dbs == before.dbs && cd.master == before.master && Fresh(cd, uids)
    requires KeepsMaster(before, cd, env, proxies, uids, c, next)
    ensures cd.master in next.dbs && next.dbs[cd.master].status.orphans == cd.dbs[cd.master].status.orphans
  {
    var open := Opened(cd, proxies);
    OpenedIsSound(cd, proxies);
    FailoverView.OpenedAside(cd, proxies);
    if Invariant.Healthy(cd) {
      MaintainedKeepsOrphans(before, open, env, uids, c, c.maintained);
      MaintainedIsSound(before, open, env, uids, c, c.maintained);
    }
  }

  lemma PassKeepsOrphans(before: ClusterData, env: Env, proxies: map<string, nat>, uids: seq<string>, c: Choices, next: ClusterData)
    requires Inv(before) && before.phase == Normal && Fresh(before, uids)
    requires NormalStep(before, env, proxies, uids, c, next) && next.master == before.master
    ensures before.master in next.dbs && next.dbs[before.master].status.orphans == before.dbs[before.master].status.orphans
    ensures next.spec == before.spec
  {
    Runs.ElectionChangesMaster(before, env, proxies, uids, c, next);
    Runs.NormalKeepsPhase(before, env, proxies, uids, c, next);
    LiveIsSound(before, env.now);
    var cd := Live(before, env.now).(manualSwitch := c.request);
    assert Sound(cd);
    KeptKeepsOrphans(before, cd, env, proxies, uids, c, next);
  }

  lemma FinishedTurnsPage(before: ClusterData, mid: ClusterData, now: int)
    requires mid.master == before.master && before.master in before.dbs && mid.master in mid.dbs && mid.spec.slotTtl > 0
    requires mid.dbs[mid.master].status.orphans == before.dbs[before.master].status.orphans
    ensures var next := Finished(before, mid, now);
            && next.master in next.dbs
            && PageOf(next, now).tracked
               == Slots.Orphans(PageOf(before, 0).followers, PageOf(next, now).followers, PageOf(before, 0).tracked, false, now)
  {
  }

  /** A pass that keeps the master turns the page of its tenure. */
  lemma PassTurnsPage(cd: ClusterData, written: int, env: Env, proxies: map<string, nat>, uids: seq<string>, next: ClusterData)
    requires Inv(cd) && Fresh(cd, uids) && cd.phase == Normal && !cd.pause.Active(env.now) && cd.spec.slotTtl > 0
    requires Step(cd, env, proxies, uids, next) && next.master == cd.master
    ensures next.master in next.dbs && Slots.Turns([PageOf(cd, written), PageOf(next, env.now)], 1)
  {
    var c, mid := Runs.OnePass(cd, env, proxies, uids, next);
    PassKeepsOrphans(cd, env, proxies, uids, c, mid);
    FinishedTurnsPage(cd, mid, env.now);
  }

  lemma FinishedForgets(before: ClusterData, mid: ClusterData, now: int)
    requires mid.master != before.master && before.master != NO_UID && mid.master in mid.dbs
    ensures var next := Finished(before, mid, now); next.master in next.dbs && next.dbs[next.master].status.orphans == map[]
  {
  }

  /** A new master's tenure starts with no slots on record. */
  lemma ElectionStartsTenure(cd: ClusterData, env: Env, proxies: map<string, nat>, uids: seq<string>, next: ClusterData)
    requires Inv(cd) && Fresh(cd, uids) && cd.phase == Normal && !cd.pause.Active(env.now)
    requires Step(cd, env, proxies, uids, next) && next.master != cd.master
    ensures next.master in next.dbs && Slots.Tenure([PageOf(next, env.now)]) && PageOf(next, env.now).tracked == map[]
  {
    var c, mid := Runs.OnePass(cd, env, proxies, uids, next);
    NormalIsSound(cd, env, proxies, uids, c, mid);
    FinishedForgets(cd, mid, env.now);
  }

  // -------------------------------------------------------------------- runs

  /** No slot of a follower is on record as left behind. */
  ghost predicate Tidy(cd: ClusterData) {
    cd.master in cd.dbs ==> forall u :: u in cd.dbs[cd.master].spec.followers ==> Slots.SlotName(u) !in cd.dbs[cd.master].status.orphans
  }

  lemma FinishedIsTidy(before: ClusterData, mid: ClusterData, now: int)
    ensures Tidy(Finished(before, mid, now))
  {
    var cd := WithSettings(mid);
    if cd.master in cd.dbs {
      forall u | u in cd.dbs[cd.master].spec.followers
        ensures Slots.SlotName(u) in Slots.SlotsOf(cd.dbs[cd.master].spec.followers)
      {
      }
    }
  }

  lemma StepKeepsTidy(cd: ClusterData, env: Env, proxies: map<string, nat>, uids: seq<string>, next: ClusterData)
    requires Inv(cd) && Fresh(cd, uids) && Step(cd, env, proxies, uids, next) && Tidy(cd)
    ensures Tidy(next)
  {
    if cd.phase == Initializing {
      var mid :| next == Finished(cd, mid, env.now);
      FinishedIsTidy(cd, mid, env.now);
    } else if !cd.pause.Active(env.now) {
      var c, mid := Runs.OnePass(cd, env, proxies, uids, next);
      FinishedIsTidy(cd, mid, env.now);
    }
  }

  /** The master's followers and slots left behind are the same in both documents. */
  ghost predicate SamePage(cd: ClusterData, next: ClusterData) {
    && next.master == cd.master
    && (cd.master in cd.dbs <==> cd.master in next.dbs)
    && (cd.master in cd.dbs ==> PageOf(next, 0) == PageOf(cd, 0))
  }

  lemma MergingKeepsPage(cd: ClusterData, current: map<string, Health.KeeperInfo>, reported: ClusterData)
    requires Health.Merged(cd, current, reported)
    ensures SamePage(cd, reported)
  {
  }

  lemma CommandKeepsPage(cd: ClusterData, cmd: Runs.Command, now: int, next: ClusterData)
    requires Inv(cd) && Runs.Commanded(cd, cmd, now, next)
    ensures SamePage(cd, next)
  {
    Runs.CommandKeepsInv(cd, cmd, now, next);
  }

  lemma SamePageKeepsTidy(cd: ClusterData, next: ClusterData)
    requires SamePage(cd, next) && Tidy(cd)
    ensures Tidy(next)
  {
  }

  lemma MoveKeepsTidy(s: Runs.State, e: Runs.Event, t: Runs.State)
    requires Runs.Good(s) && Runs.Moves(s, e, t) && Tidy(s.cd)
    ensures Tidy(t.cd)
  {
    match e
    case Check(current, reported, env, proxies, uids) =>
      MergingKeepsPage(s.cd, current, reported);
      SamePageKeepsTidy(s.cd, reported);
      Runs.ReportKeepsInv(s.cd, current, reported);
      StepKeepsTidy(reported, env, proxies, uids, t.cd);
    case Operator(cmd, now) =>
      CommandKeepsPage(s.cd, cmd, now, t.cd);
      SamePageKeepsTidy(s.cd, t.cd);
  }

  lemma StartIsTidy(states: seq<Runs.State>, events: seq<Runs.Event>)
    requires Runs.IsRun(states, events)
    ensures Tidy(states[0].cd)
  {
  }

  lemma NextIsTidy(states: seq<Runs.State>, events: seq<Runs.Event>, i: nat)
    requires Runs.IsRun(states, events) && i < |events| && Tidy(states[i].cd)
    ensures Tidy(states[i + 1].cd)
  {
    Runs.InvAlwaysHolds(states, events, i);
    assert Runs.MovesAt(states, events, i);
    MoveKeepsTidy(states[i], events[i], states[i + 1]);
  }

  /** In every document of a run, the slots on record are of standbys that have left. */
  lemma {:induction false} AlwaysTidy(states: seq<Runs.State>, events: seq<Runs.Event>, i: nat)
    requires Runs.IsRun(states, events) && i < |states|
    ensures Tidy(states[i].cd)
  {
    if i == 0 {
      StartIsTidy(states, events);
    } else {
      AlwaysTidy(states, events, i - 1);
      NextIsTidy(states, events, i - 1);
    }
  }

  function TimeOf(e: Runs.Event): int {
    match e
    case Check(_, _, env, _, _) => env.now
    case Operator(_, now) => now
  }

  /** `m` is master from document `a` to document `b`, under a positive time to live of slots. */
  ghost predicate Reigns(states: seq<Runs.State>, a: nat, b: nat, m: string) {
    && a <= b < |states|
    && forall i :: a <= i <= b ==> ReignsAt(states, i, m)
  }

  ghost predicate ReignsAt(states: seq<Runs.State>, i: nat, m: string)
    requires i < |states|
  {
    var cd := states[i].cd;
    cd.phase == Normal && cd.master == m && m in cd.dbs && cd.spec.slotTtl > 0
  }

  /** A page that stays the same turns into itself. */
  lemma SamePageTurns(cd: ClusterData, written: int, next: ClusterData, now: int)
    requires SamePage(cd, next) && Tidy(cd) && cd.master in cd.dbs
    ensures Slots.Turns([PageOf(cd, written), PageOf(next, now)], 1)
  {
    var p := PageOf(cd, written);
    forall u | u in p.followers
      ensures Slots.SlotName(u) !in p.tracked
    {
    }
    forall s | s in p.tracked
      ensures s !in Slots.SlotsOf(p.followers)
    {
    }
    assert Slots.Orphans(p.followers, p.followers, p.tracked, false, now) == p.tracked;
  }

  lemma CheckTurnsPage(reported: ClusterData, written: int, env: Env, proxies: map<string, nat>, uids: seq<string>, next: ClusterData)
    requires Inv(reported) && Fresh(reported, uids) && Step(reported, env, proxies, uids, next) && Tidy(reported)
    requires reported.phase == Normal && reported.spec.slotTtl > 0 && next.master == reported.master
    ensures next.master in next.dbs && Slots.Turns([PageOf(reported, written), PageOf(next, env.now)], 1)
  {
    if reported.pause.Active(env.now) {
      SamePageTurns(reported, written, next, env.now);
    } else {
      PassTurnsPage(reported, written, env, proxies, uids, next);
    }
  }

  /** Every move that keeps the master turns its page, or leaves it as it is. */
  lemma MoveTurnsPage(s: Runs.State, written: int, e: Runs.Event, t: Runs.State)
    requires Runs.Good(s) && Runs.Moves(s, e, t) && Tidy(s.cd)
    requires s.cd.phase == Normal && s.cd.spec.slotTtl > 0 && t.cd.master == s.cd.master
    ensures t.cd.master in t.cd.dbs && Slots.Turns([PageOf(s.cd, written), PageOf(t.cd, TimeOf(e))], 1)
  {
    match e
    case Check(current, reported, env, proxies, uids) =>
      MergingKeepsPage(s.cd, current, reported);
      SamePageKeepsTidy(s.cd, reported);
      Runs.ReportKeepsInv(s.cd, current, reported);
      CheckTurnsPage(reported, written, env, proxies, uids, t.cd);
    case Operator(cmd, now) =>
      CommandKeepsPage(s.cd, cmd, now, t.cd);
      SamePageTurns(s.cd, written, t.cd, now);
  }

  ghost function PageAt(states: seq<Runs.State>, events: seq<Runs.Event>, i: nat): Slots.Page
    requires i < |states| && |states| == |events| + 1 && states[i].cd.master in states[i].cd.dbs
  {
    PageOf(states[i].cd, if i == 0 then 0 else TimeOf(events[i - 1]))
  }

  /** The documents of a reign as pages. */
  ghost function PagesOf(states: seq<Runs.State>, events: seq<Runs.Event>, a: nat, b: nat, m: string): (pages: seq<Slots.Page>)
    requires Reigns(states, a, b, m) && |states| == |events| + 1
    ensures |pages| == b - a + 1
    decreases b - a
  {
    assert ReignsAt(states, b, m);
    (if a == b then [] else PagesOf(states, events, a, b - 1, m)) + [PageAt(states, events, b)]
  }

  lemma {:induction false} PagesAre(states: seq<Runs.State>, events: seq<Runs.Event>, a: nat, b: nat, m: string, i: nat)
    requires Reigns(states, a, b, m) && |states| == |events| + 1 && a <= i <= b
    ensures ReignsAt(states, i, m) && PagesOf(states, events, a, b, m)[i - a] == PageAt(states, events, i)
    decreases b
  {
    if i < b {
      PagesAre(states, events, a, b - 1, m, i);
    }
  }

  lemma ReignTurns(states: seq<Runs.State>, events: seq<Runs.Event>, m: string, i: nat)
    requires Runs.IsRun(states, events) && 0 < i < |states| && ReignsAt(states, i - 1, m) && ReignsAt(states, i, m)
    ensures Slots.Turns([PageAt(states, events, i - 1), PageAt(states, events, i)], 1)
  {
    AlwaysTidy(states, events, i - 1);
    Runs.InvAlwaysHolds(states, events, i - 1);
    assert Runs.MovesAt(states, events, i - 1);
    MoveTurnsPage(states[i - 1], PageAt(states, events, i - 1).now, events[i - 1], states[i]);
  }

  /** The documents of one master, over any run of checks and commands, are the pages of a tenure. */
  lemma ReignIsTenure(states: seq<Runs.State>, events: seq<Runs.Event>, a: nat, b: nat, m: string)
    requires Runs.IsRun(states, events) && Reigns(states, a, b, m)
    ensures Slots.Tenure(PagesOf(states, events, a, b, m))
  {
    var pages := PagesOf(states, events, a, b, m);
    PagesAre(states, events, a, b, m, a);
    AlwaysTidy(states, events, a);
    forall i | 0 < i < |pages|
      ensures Slots.Turns(pages, i)
    {
      PagesAre(states, events, a, b, m, a + i - 1);
      PagesAre(states, events, a, b, m, a + i);
      ReignTurns(states, events, m, a + i);
    }
  }

  /** `u` follows `m` in document `left - 1` and in none from `left` to `i`. */
  ghost predicate Left(states: seq<Runs.State>, left: nat, i: nat, m: string, u: string) {
    && 0 < left <= i < |states|
    && (forall j :: left - 1 <= j <= i ==> m in states[j].cd.dbs)
    && u in states[left - 1].cd.dbs[m].spec.followers
    && forall j :: left <= j <= i ==> u !in states[j].cd.dbs[m].spec.followers
  }

  lemma LeftIsGone(states: seq<Runs.State>, events: seq<Runs.Event>, left: nat, i: nat, m: string, u: string)
    requires |states| == |events| + 1 && left > 0 && Reigns(states, left - 1, i, m) && Left(states, left, i, m, u)
    ensures Slots.Gone(PagesOf(states, events, left - 1, i, m), 1, i - left + 1, u)
  {
    var pages := PagesOf(states, events, left - 1, i, m);
    PagesAre(states, events, left - 1, i, m, left - 1);
    forall t | 1 <= t <= i - left + 1
      ensures u !in pages[t].followers
    {
      PagesAre(states, events, left - 1, i, m, left - 1 + t);
    }
  }

  /**
   * Over any run: as long as one master reigns under a positive time to live, its
   * keeper drops the slot of a standby that left only when that time has passed
   * since the check that first saw it gone, the slot is inactive and it holds
   * back no xmin.
   */
  lemma DroppedOnlyAfterTtl(states: seq<Runs.State>, events: seq<Runs.Event>, left: nat, i: nat, m: string, u: string, f: Slots.Facts)
    requires Runs.IsRun(states, events) && left > 0 && Reigns(states, left - 1, i, m) && Left(states, left, i, m, u)
    requires f.ttl > 0 && f.tracked == states[i].cd.dbs[m].status.orphans && Slots.ShouldDrop(Slots.SlotName(u), f)
    ensures f.now >= TimeOf(events[left - 1]) + f.ttl
    ensures Slots.SlotName(u) in f.states && !f.states[Slots.SlotName(u)].active && !f.states[Slots.SlotName(u)].hasXmin
  {
    ReignIsTenure(states, events, left - 1, i, m);
    LeftIsGone(states, events, left, i, m, u);
    PagesAre(states, events, left - 1, i, m, left);
    PagesAre(states, events, left - 1, i, m, i);
    Slots.DroppedOnlyAfterTtl(PagesOf(states, events, left - 1, i, m), 1, i - left + 1, u, f);
  }
}
