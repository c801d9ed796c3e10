/**
 * Timeline-branch divergence between a followed PostgreSQL instance and a local
 * one.  A history lists, oldest first, the timelines an instance went through
 * before its current one and the WAL position at which each was left; keepers
 * publish only its last entries.
 */
module Timeline {
  import opened Options

  datatype Switch = Switch(timeline: nat, point: nat)

  datatype Reason =
    | NoDivergence
    | FollowedTimelineOlder
    | SameTimelineDifferentSwitchPoint
    | FollowedForkedBeforeCurrentPosition

  datatype Divergence = Divergence(different: bool, reason: Reason, followedPoint: nat, currentPoint: nat)

  const NONE := Divergence(false, NoDivergence, 0, 0)

  /** The switch point of the first entry for `id`. */
  function Lookup(h: seq<Switch>, id: nat): Option<nat> {
    if h == [] then None
    else if h[0].timeline == id then Some(h[0].point)
    else Lookup(h[1..], id)
  }

  function Detect(followedTimeline: nat, followedHistory: seq<Switch>,
                  currentTimeline: nat, currentHistory: seq<Switch>, currentPos: nat): Divergence
  {
    if followedTimeline < currentTimeline then
      Divergence(true, FollowedTimelineOlder, 0, 0)
    else if followedTimeline == currentTimeline then
      if currentTimeline <= 1 then NONE
      else
        var followed := Lookup(followedHistory, currentTimeline - 1);
        var current := Lookup(currentHistory, currentTimeline - 1);
        if followed.None? || current.None? then NONE
        else if followed.value != current.value then
          Divergence(true, SameTimelineDifferentSwitchPoint, followed.value, current.value)
        else NONE
    else
      var followed := Lookup(followedHistory, currentTimeline);
      if followed.Some? && followed.value < currentPos then
        Divergence(true, FollowedForkedBeforeCurrentPosition, followed.value, currentPos)
      else NONE
  }

  /** An instance with its complete history. */
  datatype Instance = Instance(timeline: nat, history: seq<Switch>, pos: nat) {
    ghost predicate Valid() {
      && (forall i, j :: 0 <= i < j < |history| ==> history[i].timeline < history[j].timeline)
      && (forall i :: 0 <= i < |history| ==> history[i].timeline < timeline)
    }
  }

  /** The part of a history that is published: its last `n` entries. */
  function Kept(h: seq<Switch>, n: nat): seq<Switch> {
    if |h| > n then h[|h| - n..] else h
  }

  /** Everything `current` has written lies on the line `followed` came along. */
  ghost predicate OnBranch(current: Instance, followed: Instance) {
    || (current.timeline == followed.timeline && current.history == followed.history && current.pos <= followed.pos)
    || (exists i ::
          && 0 <= i < |followed.history|
          && followed.history[i].timeline == current.timeline
          && followed.history[..i] == current.history
          && current.pos <= followed.history[i].point)
  }

  lemma {:induction false} LookupFinds(h: seq<Switch>, i: nat)
    requires i < |h|
    requires forall j :: 0 <= j < i ==> h[j].timeline != h[i].timeline
    ensures Lookup(h, h[i].timeline) == Some(h[i].point)
  {
    if i > 0 {
      LookupFinds(h[1..], i - 1);
    }
  }

  lemma {:induction false} LookupMisses(h: seq<Switch>, id: nat)
    requires forall j :: 0 <= j < |h| ==> h[j].timeline != id
    ensures Lookup(h, id) == None
  {
    if h != [] {
      LookupMisses(h[1..], id);
    }
  }

  /** The entry for timeline `id`, with switch point `p`, is among the last `n` of a history. */
  ghost predicate Published(h: seq<Switch>, n: nat, id: nat, p: nat) {
    exists i :: 0 <= i < |h| && |h| <= i + n && h[i] == Switch(id, p)
  }

  /** With distinct timelines the kept part answers for exactly the entries it still holds. */
  lemma KeptLookup(inst: Instance, n: nat, i: nat)
    requires inst.Valid() && i < |inst.history|
    ensures Lookup(Kept(inst.history, n), inst.history[i].timeline) ==
            if |inst.history| <= i + n then Some(inst.history[i].point) else None
  {
    var h := inst.history;
    var kept := Kept(h, n);
    var cut := |h| - |kept|;
    if cut <= i {
      assert kept[i - cut] == h[i];
      LookupFinds(kept, i - cut);
    } else {
      assert forall j :: 0 <= j < |kept| ==> kept[j] == h[j + cut];
      LookupMisses(kept, h[i].timeline);
    }
  }

  lemma LookupIsPublished(inst: Instance, n: nat, id: nat, p: nat)
    requires inst.Valid()
    ensures Lookup(Kept(inst.history, n), id) == Some(p) <==> Published(inst.history, n, id, p)
  {
    var h := inst.history;
    if exists i :: 0 <= i < |h| && h[i].timeline == id {
      var i :| 0 <= i < |h| && h[i].timeline == id;
      KeptLookup(inst, n, i);
    } else {
      LookupMisses(Kept(h, n), id);
    }
  }

  /**
   * No false alarm: an instance on the followed branch is never reported as
   * diverged, however few history entries either side publishes.
   */
  lemma OnBranchNeverReported(current: Instance, followed: Instance, n: nat, m: nat)
    requires followed.Valid()
    requires OnBranch(current, followed)
    ensures Detected(current, followed, n, m) == NONE
  {
    if current.timeline == followed.timeline && current.history == followed.history {
      SameHistorySamePoint(current, followed, n, m);
    } else {
      var i :| && 0 <= i < |followed.history|
               && followed.history[i].timeline == current.timeline
               && followed.history[..i] == current.history
               && current.pos <= followed.history[i].point;
      KeptLookup(followed, n, i);
    }
  }

  /** Two instances with one history never publish different points for a timeline. */
  lemma SameHistorySamePoint(current: Instance, followed: Instance, n: nat, m: nat)
    requires followed.Valid() && current.timeline == followed.timeline && current.history == followed.history
    ensures Detected(current, followed, n, m) == NONE
  {
    var id := current.timeline - 1;
    if current.timeline > 1 {
      var f, c := Lookup(Kept(followed.history, n), id), Lookup(Kept(current.history, m), id);
      if f.Some? && c.Some? {
        LookupIsPublished(followed, n, id, f.value);
        LookupIsPublished(current, m, id, c.value);
        var i :| 0 <= i < |followed.history| && followed.history[i] == Switch(id, f.value);
        var j :| 0 <= j < |followed.history| && followed.history[j] == Switch(id, c.value);
        assert i == j;
      }
    }
  }

  /** What is detected when the followed side publishes `n` entries and the local one `m`. */
  function Detected(current: Instance, followed: Instance, n: nat, m: nat): Divergence {
    Detect(followed.timeline, Kept(followed.history, n), current.timeline, Kept(current.history, m), current.pos)
  }

  ghost predicate PublishedApart(f: seq<Switch>, n: nat, c: seq<Switch>, m: nat, id: nat) {
    exists p: nat, q: nat :: Published(f, n, id, p) && Published(c, m, id, q) && p != q
  }

  /** On one timeline, both sides publish where they left the timeline before it, and differ. */
  ghost predicate PublishDifferentParents(current: Instance, followed: Instance, n: nat, m: nat) {
    && current.timeline == followed.timeline && current.timeline > 1
    && PublishedApart(followed.history, n, current.history, m, current.timeline - 1)
  }

  /** The followed side publishes that it left the local instance's timeline before the local position. */
  ghost predicate PublishesFork(current: Instance, followed: Instance, n: nat) {
    && current.timeline < followed.timeline
    && exists p: nat :: Published(followed.history, n, current.timeline, p) && p < current.pos
  }

  /**
   * The alarm, for all pairs of instances and all numbers of published entries:
   * it is raised if and only if the followed instance is on an older timeline,
   * or both publish different points for the timeline just before a common one,
   * or the followed one publishes that it left the local timeline too early.
   */
  lemma ReportedIff(current: Instance, followed: Instance, n: nat, m: nat)
    requires current.Valid() && followed.Valid()
    ensures Detected(current, followed, n, m).different
       <==> || followed.timeline < current.timeline
            || PublishDifferentParents(current, followed, n, m)
            || PublishesFork(current, followed, n)
  {
    if followed.timeline == current.timeline && current.timeline > 1 {
      var id := current.timeline - 1;
      forall p: nat
        ensures Lookup(Kept(followed.history, n), id) == Some(p) <==> Published(followed.history, n, id, p)
        ensures Lookup(Kept(current.history, m), id) == Some(p) <==> Published(current.history, m, id, p)
      {
        LookupIsPublished(followed, n, id, p);
        LookupIsPublished(current, m, id, p);
      }
    } else if followed.timeline > current.timeline {
      forall p: nat
        ensures Lookup(Kept(followed.history, n), current.timeline) == Some(p) <==> Published(followed.history, n, current.timeline, p)
      {
        LookupIsPublished(followed, n, current.timeline, p);
      }
    }
  }

  /**
   * In particular, for a timeline the followed instance left: the alarm is raised
   * if and only if the local instance went past the point where the followed one
   * forked and that fork is still among the published entries.
   */
  lemma ForkReportedIffKept(current: Instance, followed: Instance, n: nat, m: nat, i: nat)
    requires followed.Valid() && i < |followed.history|
    requires followed.history[i].timeline == current.timeline
    ensures Detected(current, followed, n, m).different <==> followed.history[i].point < current.pos && |followed.history| <= i + n
  {
    KeptLookup(followed, n, i);
  }

  // -------------------------------------- instances off the branch, unnoticed

  /** With two entries kept, an instance three promotions behind can be past the fork; with three it is seen. */
  lemma OldForkGoesUnnoticed()
    ensures var followed := Instance(4, [Switch(1, 100), Switch(2, 200), Switch(3, 300)], 400);
            var current := Instance(1, [], 150);
            && followed.Valid() && current.Valid() && !OnBranch(current, followed)
            && !Detected(current, followed, 2, 2).different
            && Detected(current, followed, 3, 3).different
  {
  }

  /** A sibling timeline that the followed instance never went through, whatever is published. */
  lemma SiblingGoesUnnoticed(n: nat, m: nat)
    ensures var followed := Instance(3, [Switch(1, 100)], 200);
            var current := Instance(2, [Switch(1, 100)], 150);
            && followed.Valid() && current.Valid() && !OnBranch(current, followed)
            && !Detected(current, followed, n, m).different
  {
  }

  /** One timeline reached from different points of an earlier one, with an identifier skipped in between. */
  lemma SkippedTimelineGoesUnnoticed(n: nat, m: nat)
    ensures var followed := Instance(3, [Switch(1, 100)], 200);
            var current := Instance(3, [Switch(1, 150)], 180);
            && followed.Valid() && current.Valid() && !OnBranch(current, followed)
            && !Detected(current, followed, n, m).different
  {
  }

  /** One timeline and the same last switch, after an earlier fork; only the last switch is compared. */
  lemma EarlierForkGoesUnnoticed(n: nat, m: nat)
    ensures var followed := Instance(3, [Switch(1, 100), Switch(2, 200)], 300);
            var current := Instance(3, [Switch(1, 150), Switch(2, 200)], 250);
            && followed.Valid() && current.Valid() && !OnBranch(current, followed)
            && !Detected(current, followed, n, m).different
  {
  }

  /** On the same history the local instance may be ahead of the followed one: positions on one timeline are not compared. */
  lemma AheadGoesUnnoticed(n: nat, m: nat)
    ensures var followed := Instance(2, [Switch(1, 100)], 150);
            var current := Instance(2, [Switch(1, 100)], 180);
            && followed.Valid() && current.Valid() && !OnBranch(current, followed)
            && !Detected(current, followed, n, m).different
  {
  }
}
