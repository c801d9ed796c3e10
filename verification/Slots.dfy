/**
 * Replication slots of followers that left: the sentinel records when each one
 * left, the master's keeper drops the slot once its time to live has passed.
 */
module Slots {
  import Matchers

  const PREFIX := "hysteron_"

  function SlotName(uid: string): string { PREFIX + uid }

  lemma SlotNameInjective(a: string, b: string)
    ensures SlotName(a) == SlotName(b) ==> a == b
  {
    assert SlotName(a)[|PREFIX|..] == a && SlotName(b)[|PREFIX|..] == b;
  }

  function SlotsOf(uids: set<string>): set<string> { set u | u in uids :: SlotName(u) }

  /** Tracked slots after a pass: the ones that stay unfollowed keep their time, the ones just left get `now`. */
  function Orphans(prev: set<string>, cur: set<string>, tracked: map<string, int>, masterChanged: bool, now: int): map<string, int> {
    if masterChanged then map[]
    else map s | s in tracked.Keys + SlotsOf(prev) && s !in SlotsOf(cur) :: if s in tracked then tracked[s] else now
  }

  method ComputeOrphanMemberSlots(prev: set<string>, cur: set<string>, tracked: map<string, int>, masterChanged: bool, now: int)
    returns (out: map<string, int>)
    ensures out == Orphans(prev, cur, tracked, masterChanged, now)
  {
    if masterChanged {
      return map[];
    }
    out := tracked;
    var managed: set<string> := {};
    var todo := cur;
    while todo != {}
      invariant todo <= cur
      invariant forall s :: s in managed <==> s in SlotsOf(cur - todo)
      invariant forall s :: s in out <==> s in tracked && s !in SlotsOf(cur - todo)
      invariant forall s :: s in out ==> out[s] == tracked[s]
    {
      var uid :| uid in todo;
      assert cur - (todo - {uid}) == (cur - todo) + {uid};
      todo := todo - {uid};
      managed := managed + {SlotName(uid)};
      out := out - {SlotName(uid)};
    }
    assert cur - todo == cur;
    ghost var kept := out;
    todo := prev;
    while todo != {}
      invariant todo <= prev
      invariant forall s :: s in out <==> s in kept || (s in SlotsOf(prev - todo) && s !in managed)
      invariant forall s :: s in out ==> out[s] == if s in kept then kept[s] else now
    {
      var uid :| uid in todo;
      assert prev - (todo - {uid}) == (prev - todo) + {uid};
      todo := todo - {uid};
      var slot := SlotName(uid);
      if slot in managed {
      } else if slot in out {
      } else {
        out := out[slot := now];
      }
    }
    assert prev - todo == prev;
  }

  // ----------------------------------------------------- the keeper's side

  predicate IsMemberSlot(slot: string) { |PREFIX| <= |slot| && slot[..|PREFIX|] == PREFIX }

  datatype SlotState = SlotState(active: bool, hasXmin: bool)

  /** What the keeper's decision reads: the document, the slots' state, and the time. */
  datatype Facts = Facts(
    ttl: int,
    tracked: map<string, int>,
    states: map<string, SlotState>,
    known: set<string>,       // UIDs of the document's databases
    now: int
  )

  /** Whether a member slot that nobody follows any more may go. */
  predicate ShouldDrop(slot: string, f: Facts) {
    if f.ttl <= 0 then true
    else if IsMemberSlot(slot) && slot[|PREFIX|..] in f.known && slot !in f.tracked then false
    else if slot !in f.tracked then true
    else if f.now - f.tracked[slot] < f.ttl then false
    else if slot !in f.states then false
    else !f.states[slot].active && !f.states[slot].hasXmin
  }

  /** A slot the operator has taken out of the keeper's hands, by name or by matcher. */
  ghost predicate Ignored(slot: string, ignored: set<string>, matchers: seq<Matchers.Matcher>) {
    slot in ignored || Matchers.PhysicalIgnored(matchers, slot)
  }

  /** The slots wanted on the master: its followers' and the additional ones, but for the ignored. */
  ghost function Managed(uid: string, followers: set<string>, additional: set<string>, ignored: set<string>, matchers: seq<Matchers.Matcher>): set<string> {
    set s | s in SlotsOf(followers - {uid} + additional) && !Ignored(s, ignored, matchers)
  }

  method ManagedReplicationSlots(uid: string, followers: set<string>, additional: set<string>, ignored: set<string>, matchers: seq<Matchers.Matcher>)
    returns (r: set<string>)
    ensures r == Managed(uid, followers, additional, ignored, matchers)
  {
    r := {};
    var todo := followers;
    while todo != {}
      invariant todo <= followers
      invariant forall s :: s in r <==> s in SlotsOf(followers - todo - {uid}) && !Ignored(s, ignored, matchers)
    {
      var u :| u in todo;
      assert followers - (todo - {u}) - {uid} == if u == uid then followers - todo - {uid} else (followers - todo - {uid}) + {u};
      todo := todo - {u};
      if u != uid && SlotName(u) !in ignored {
        var matched := Matchers.IsIgnoredPhysicalSlot(matchers, SlotName(u));
        if !matched {
          r := r + {SlotName(u)};
        }
      }
    }
    assert followers - todo - {uid} == followers - {uid};
    ghost var mine := r;
    todo := additional;
    while todo != {}
      invariant todo <= additional
      invariant forall s :: s in r <==> s in mine || (s in SlotsOf(additional - todo) && !Ignored(s, ignored, matchers))
    {
      var u :| u in todo;
      assert additional - (todo - {u}) == (additional - todo) + {u};
      todo := todo - {u};
      if SlotName(u) !in ignored {
        var matched := Matchers.IsIgnoredPhysicalSlot(matchers, SlotName(u));
        if !matched {
          r := r + {SlotName(u)};
        }
      }
    }
    assert additional - todo == additional;
  }

  /** An unmanaged member slot that may go. */
  ghost predicate Droppable(slot: string, managed: set<string>, ignored: set<string>, matchers: seq<Matchers.Matcher>, f: Facts) {
    IsMemberSlot(slot) && !Ignored(slot, ignored, matchers) && slot !in managed && ShouldDrop(slot, f)
  }

  /**
   * Reconciles the slots of the instance.  `stuck` are slots PostgreSQL refuses
   * to drop, which is only logged; `refused` are slots it refuses to create,
   * which ends the reconciliation with an error.  Only droppable slots are
   * dropped, and unless there is an error all managed slots exist in the end.
   */
  method UpdateReplSlots(slots: set<string>, uid: string, followers: set<string>, additional: set<string>, ignored: set<string>,
                         matchers: seq<Matchers.Matcher>, f: Facts, stuck: set<string>, refused: set<string>)
    returns (r: set<string>, ok: bool)
    ensures var managed := Managed(uid, followers, additional, ignored, matchers);
            && (ok <==> forall s :: s in managed && s !in slots ==> s !in refused)
            && (ok ==> managed <= r)
            && (forall s :: s in slots ==> (s !in r <==> Droppable(s, managed, ignored, matchers, f) && s !in stuck))
            && (forall s :: s in r && s !in slots ==> s in managed && s !in refused)
    ensures forall s :: s in slots && (!IsMemberSlot(s) || Ignored(s, ignored, matchers)) ==> s in r
    ensures forall s :: s in r && s !in slots ==> !Ignored(s, ignored, matchers)
  {
    var managed := ManagedReplicationSlots(uid, followers, additional, ignored, matchers);
    r := slots;
    var todo := slots;
    while todo != {}
      invariant todo <= slots
      invariant forall s :: s in r <==> s in slots && !(s !in todo && Droppable(s, managed, ignored, matchers, f) && s !in stuck)
    {
      var s :| s in todo;
      todo := todo - {s};
      if IsMemberSlot(s) && s !in ignored {
        var matched := Matchers.IsIgnoredPhysicalSlot(matchers, s);
        if !matched && s !in managed && ShouldDrop(s, f) && s !in stuck {
          r := r - {s};
        }
      }
    }
    ghost var kept := r;
    todo := managed;
    while todo != {}
      invariant todo <= managed
      invariant forall s :: s in r <==> s in kept || (s in managed && s !in todo)
      invariant forall s :: s in managed && s !in todo && s !in slots ==> s !in refused
    {
      var s :| s in todo;
      if s !in slots {
        if s in refused {
          return r, false;
        }
        r := r + {s};
      }
      todo := todo - {s};
    }
    ok := true;
  }

  /**
   * When a member's slot goes: it is the operator's no matter, its member neither
   * follows nor is kept a slot for by request, and either no time to live is set,
   * or the document knows neither member nor slot, or the time has passed since
   * the member left and the slot is idle.
   */
  lemma DroppableIff(u: string, uid: string, followers: set<string>, additional: set<string>, ignored: set<string>,
                     matchers: seq<Matchers.Matcher>, f: Facts)
    ensures var slot := "hysteron_" + u;
            Droppable(slot, Managed(uid, followers, additional, ignored, matchers), ignored, matchers, f) <==>
              && slot !in ignored && !Matchers.PhysicalIgnored(matchers, slot)
              && !(u in followers && u != uid) && u !in additional
              && (|| f.ttl <= 0
                  || (slot !in f.tracked && u !in f.known)
                  || (&& slot in f.tracked && f.now - f.tracked[slot] >= f.ttl
                      && slot in f.states && !f.states[slot].active && !f.states[slot].hasXmin))
  {
    var slot := "hysteron_" + u;
    assert slot == SlotName(u) && IsMemberSlot(slot) && slot[|PREFIX|..] == u;
    NotFollowedNotManaged(u, followers - {uid} + additional);
  }

  /** Which slots are wanted: those of the other followers and the additional ones that no operator has claimed. */
  lemma ManagedIff(u: string, uid: string, followers: set<string>, additional: set<string>, ignored: set<string>, matchers: seq<Matchers.Matcher>)
    ensures var slot := "hysteron_" + u;
            slot in Managed(uid, followers, additional, ignored, matchers) <==>
              && slot !in ignored && !Matchers.PhysicalIgnored(matchers, slot)
              && ((u in followers && u != uid) || u in additional)
  {
    assert "hysteron_" + u == SlotName(u);
    NotFollowedNotManaged(u, followers - {uid} + additional);
  }

  /** Which slots are tracked: of members that do not follow, those that were tracked and those that have just left. */
  lemma OrphansIff(prev: set<string>, cur: set<string>, tracked: map<string, int>, masterChanged: bool, now: int, u: string)
    ensures var slot, next := "hysteron_" + u, Orphans(prev, cur, tracked, masterChanged, now);
            && (slot in next <==> !masterChanged && u !in cur && (slot in tracked || u in prev))
            && (slot in next ==> next[slot] == if slot in tracked then tracked[slot] else now)
  {
    assert "hysteron_" + u == SlotName(u);
    NotFollowedNotManaged(u, cur);
    NotFollowedNotManaged(u, prev);
  }

  // ------------------------------------------------------ across components

  /** What one document of a master's tenure says about followers and slots left behind, and when it was written. */
  datatype Page = Page(followers: set<string>, tracked: map<string, int>, now: int)

  /** Consecutive documents of one tenure, under a positive time to live. */
  ghost predicate Tenure(pages: seq<Page>) {
    && |pages| > 0
    && (forall u :: u in pages[0].followers ==> SlotName(u) !in pages[0].tracked)
    && forall i :: 0 < i < |pages| ==> Turns(pages, i)
  }

  ghost predicate Turns(pages: seq<Page>, i: nat)
    requires 0 < i < |pages|
  {
    pages[i].tracked == Orphans(pages[i - 1].followers, pages[i].followers, pages[i - 1].tracked, false, pages[i].now)
  }

  lemma FollowedIsNotTracked(pages: seq<Page>, i: nat, u: string)
    requires Tenure(pages) && i < |pages| && u in pages[i].followers
    ensures SlotName(u) !in pages[i].tracked
  {
    if i > 0 {
      assert Turns(pages, i);
      assert SlotName(u) in SlotsOf(pages[i].followers);
    }
  }

  /** `u` was followed up to page `left - 1` and has not been since. */
  ghost predicate Gone(pages: seq<Page>, left: nat, i: nat, u: string) {
    0 < left <= i < |pages| && u in pages[left - 1].followers && forall t :: left <= t <= i ==> u !in pages[t].followers
  }

  lemma NotFollowedNotManaged(u: string, followers: set<string>)
    ensures SlotName(u) in SlotsOf(followers) <==> u in followers
  {
    forall v | v in followers
      ensures SlotName(v) == SlotName(u) ==> v == u
    {
      SlotNameInjective(v, u);
    }
  }

  /** As long as nobody follows a departed standby's slot, every document records the time it left. */
  lemma {:induction false} LeavingTimeStands(pages: seq<Page>, left: nat, i: nat, u: string)
    requires Tenure(pages) && Gone(pages, left, i, u)
    ensures SlotName(u) in pages[i].tracked && pages[i].tracked[SlotName(u)] == pages[left].now
  {
    assert Turns(pages, i);
    NotFollowedNotManaged(u, pages[i].followers);
    NotFollowedNotManaged(u, pages[i - 1].followers);
    if left == i {
      FollowedIsNotTracked(pages, i - 1, u);
    } else {
      LeavingTimeStands(pages, left, i - 1, u);
    }
  }

  /**
   * Within one tenure and under a positive time to live, the keeper drops a
   * departed standby's slot only when that time has passed since the document
   * first showed it gone, the slot is inactive and it holds back no xmin.
   */
  lemma DroppedOnlyAfterTtl(pages: seq<Page>, left: nat, i: nat, u: string, f: Facts)
    requires Tenure(pages) && Gone(pages, left, i, u)
    requires f.ttl > 0 && f.tracked == pages[i].tracked && ShouldDrop(SlotName(u), f)
    ensures f.now >= pages[left].now + f.ttl
    ensures SlotName(u) in f.states && !f.states[SlotName(u)].active && !f.states[SlotName(u)].hasXmin
  {
    LeavingTimeStands(pages, left, i, u);
  }
}
