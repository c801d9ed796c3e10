/**
 * The synchronous-standby section of the sentinel's reconciliation step.
 *
 * A master carries three sets of standby UIDs: the required ones (written to
 * its spec and, by its keeper, to synchronous_standby_names), the ones known to
 * be in sync (its status), and the ones its last report lists as in sync.
 * `Reconcile` moves the first two, and `Recompute` picks a new required set
 * once they agree.  Go ranges over maps in any order, so every loop over a set
 * below takes its elements in an arbitrary order.
 */
module SyncStandbys {

  const FAKE_STANDBY := "hysteronfakestandby"

  /** What the surrounding step hands to the sync section. */
  datatype Inputs = Inputs(
    present: set<string>,  // databases left in the document after clean-up
    good: set<string>,     // standbys that are valid, converged and healthy
    best: seq<string>,     // good standbys on the master's timeline, in order
    barred: set<string>,   // databases whose keeper refuses to be synchronous
    minSync: nat,
    maxSync: nat
  ) {
    ghost predicate Valid() {
      && good <= present
      && (forall i :: 0 <= i < |best| ==> best[i] in good)
      && 1 <= maxSync
      && minSync <= maxSync
    }
  }

  /** The sync part of a master's record. */
  datatype SyncRecord = SyncRecord(
    required: set<string>,
    known: set<string>,
    external: set<string>
  ) {
    /** The standbys a failover may choose from. */
    function Electable(): set<string> { required * known }
  }

  /** The required standbys handed over: the new master's place is taken by the old one. */
  function HandedOver(standbys: set<string>, prior: string, elected: string): set<string> {
    if elected in standbys then standbys - {elected} + {prior} else standbys
  }

  /** A handover keeps the number of required standbys, and nobody is asked to wait for itself. */
  lemma HandoverKeepsCount(standbys: set<string>, prior: string, elected: string)
    requires prior !in standbys && prior != elected
    ensures elected !in HandedOver(standbys, prior, elected)
    ensures |HandedOver(standbys, prior, elected)| == |standbys|
    ensures elected in standbys <==> prior in HandedOver(standbys, prior, elected)
  {
    if elected in standbys {
      var others := standbys - {elected};
      assert standbys == others + {elected};
    }
  }

  function Min(a: int, b: int): int { if a <= b then a else b }

  lemma SubsetSize<T>(a: set<T>, b: set<T>)
    requires a <= b
    ensures |a| <= |b|
    ensures |a| == |b| ==> a == b
  {
    assert b == a + (b - a);
    assert |b| == |a| + |b - a|;
  }

  /** The first `room` members of `best` that may still be added to `have`. */
  function Additions(best: seq<string>, have: set<string>, barred: set<string>, room: int): set<string> {
    if best == [] || room <= 0 then {}
    else if best[0] in have || best[0] in barred then Additions(best[1..], have, barred, room)
    else Additions(best[1..], have + {best[0]}, barred, room - 1) + {best[0]}
  }

  lemma {:induction false} AdditionsAreNew(best: seq<string>, have: set<string>, barred: set<string>, room: int)
    ensures var r := Additions(best, have, barred, room);
            && r !! have
            && r !! barred
            && forall x :: x in r ==> x in best
  {
    if best != [] && room > 0 {
      if best[0] in have || best[0] in barred {
        AdditionsAreNew(best[1..], have, barred, room);
      } else {
        AdditionsAreNew(best[1..], have + {best[0]}, barred, room - 1);
      }
    }
  }

  /** Additions never exceed the room, and stop short of it only when nothing addable is left. */
  lemma {:induction false} AdditionsFillRoom(best: seq<string>, have: set<string>, barred: set<string>, room: nat)
    ensures var r := Additions(best, have, barred, room);
            && |r| <= room
            && (|r| < room ==> forall x :: x in best ==> x in have || x in r || x in barred)
  {
    if best != [] && room > 0 {
      assert forall x :: x in best ==> x == best[0] || x in best[1..];
      if best[0] in have || best[0] in barred {
        AdditionsFillRoom(best[1..], have, barred, room);
      } else {
        AdditionsFillRoom(best[1..], have + {best[0]}, barred, room - 1);
        AdditionsAreNew(best[1..], have + {best[0]}, barred, room - 1);
      }
    }
  }

  /** Previous members that are still present and good. */
  function Healthy(prev: set<string>, inp: Inputs): set<string> { prev * inp.present * inp.good }

  /** The kept members together with the best standbys added to them. */
  function Base(kept: set<string>, inp: Inputs): set<string> {
    kept + Additions(inp.best, kept, inp.barred, inp.maxSync - |kept|)
  }

  /** Previous members, good or not, that `base` does not use. */
  function Spare(prev: set<string>, inp: Inputs, base: set<string>): set<string> { prev * inp.present - base }

  function Shortfall(wanted: nat, size: nat): nat { if wanted <= size then 0 else wanted - size }

  function Merged(target: set<string>, prev: set<string>, present: set<string>): set<string> {
    if target <= prev then target else target + prev * present
  }

  /** `next` follows from `prev` by keeping `kept` and falling back on `back`. */
  ghost predicate RecomputedBy(prev: set<string>, inp: Inputs, kept: set<string>, back: set<string>, next: set<string>) {
    var base := Base(kept, inp);
    && kept <= Healthy(prev, inp)
    && |kept| == Min(|Healthy(prev, inp)|, inp.maxSync)
    && back <= Spare(prev, inp, base)
    && |back| == Min(Shortfall(inp.minSync, |base|), |Spare(prev, inp, base)|)
    && next == Merged(base + back, prev, inp.present)
  }

  /** Some resolution of the map-order choices leads from `prev` to `next`. */
  ghost predicate Recomputed(prev: set<string>, inp: Inputs, next: set<string>) {
    exists kept, back :: RecomputedBy(prev, inp, kept, back, next)
  }

  // ---------------------------------------------------------------- the code

  method RemoveAbsent(current: set<string>, keep: set<string>) returns (r: set<string>)
    ensures r == current * keep
  {
    var toRemove: set<string> := {};
    var todo := current;
    while todo != {}
      invariant todo <= current
      invariant toRemove == (current - todo) - keep
    {
      var uid :| uid in todo;
      if uid !in keep {
        toRemove := toRemove + {uid};
      }
      todo := todo - {uid};
    }
    r := current - toRemove;
  }

  method RemoveExcess(current: set<string>, limit: nat) returns (r: set<string>)
    ensures r <= current
    ensures |r| == Min(|current|, limit)
  {
    r := current;
    if |current| > limit {
      var rc := |current| - limit;
      var toRemove: set<string> := {};
      var removedCount := 0;
      var todo := current;
      while todo != {} && removedCount < rc
        invariant todo <= current
        invariant removedCount <= rc
        invariant toRemove == current - todo
        invariant removedCount == |toRemove|
        invariant |todo| == |current| - removedCount
      {
        var uid :| uid in todo;
        toRemove := toRemove + {uid};
        removedCount := removedCount + 1;
        todo := todo - {uid};
      }
      r := current - toRemove;
      assert r == todo;
    }
  }

  lemma AdditionsStep(best: seq<string>, i: nat, have: set<string>, barred: set<string>, room: int)
    requires i < |best|
    ensures Additions(best[i..], have, barred, room) ==
            if room <= 0 then {}
            else if best[i] in have || best[i] in barred then Additions(best[i + 1..], have, barred, room)
            else Additions(best[i + 1..], have + {best[i]}, barred, room - 1) + {best[i]}
  {
  }

  method AddBest(current: set<string>, inp: Inputs) returns (r: set<string>)
    ensures r == Base(current, inp)
  {
    r := current;
    var ac := inp.maxSync - |current|;
    ghost var goal := Base(current, inp);
    var addedCount := 0;
    var i := 0;
    assert inp.best[0..] == inp.best;
    while i < |inp.best| && addedCount < ac
      invariant 0 <= i <= |inp.best|
      invariant forall x :: x in goal <==> x in r || x in Additions(inp.best[i..], r, inp.barred, ac - addedCount)
    {
      AdditionsStep(inp.best, i, r, inp.barred, ac - addedCount);
      var uid := inp.best[i];
      i := i + 1;
      if uid !in r && uid !in inp.barred {
        r := r + {uid};
        addedCount := addedCount + 1;
      }
    }
  }

  lemma FallBackSize(back: set<string>, spare: set<string>, todo: set<string>, wanted: int)
    requires forall x :: x in back <==> x in spare && x !in todo
    requires 0 < |back| ==> |back| <= wanted
    requires todo == {} || wanted <= |back|
    ensures back <= spare
    ensures |back| == Min(if wanted <= 0 then 0 else wanted, |spare|)
  {
    if todo == {} {
      assert back == spare;
    } else {
      SubsetSize(back, spare);
    }
  }

  method FallBack(current: set<string>, prev: set<string>, inp: Inputs) returns (r: set<string>, ghost back: set<string>)
    ensures r == current + back
    ensures back <= Spare(prev, inp, current)
    ensures |back| == Min(Shortfall(inp.minSync, |current|), |Spare(prev, inp, current)|)
  {
    r := current;
    back := {};
    ghost var spare := Spare(prev, inp, current);
    var ac := inp.minSync - |current|;
    var addedCount := 0;
    var todo := inp.present;
    while todo != {} && addedCount < ac
      invariant todo <= inp.present
      invariant forall x :: x in r <==> x in current || x in back
      invariant forall x :: x in back <==> x in spare && x !in todo
      invariant addedCount == |back|
      invariant 0 < addedCount ==> addedCount <= ac
    {
      var uid :| uid in todo;
      assert uid !in back;
      if uid !in r && uid in prev {
        assert uid in spare;
        r := r + {uid};
        back := back + {uid};
        addedCount := addedCount + 1;
      } else {
        assert uid !in spare;
      }
      todo := todo - {uid};
    }
    FallBackSize(back, spare, todo, ac);
  }

  method MergePrevious(target: set<string>, prev: set<string>, present: set<string>) returns (r: set<string>)
    ensures r == Merged(target, prev, present)
  {
    var allInPrev := true;
    var todo := target;
    while todo != {}
      invariant todo <= target
      invariant allInPrev <==> target - todo <= prev
    {
      var uid :| uid in todo;
      if uid !in prev {
        allInPrev := false;
      }
      todo := todo - {uid};
    }
    r := target;
    if !allInPrev {
      todo := present;
      while todo != {}
        invariant todo <= present
        invariant r == target + (present - todo) * prev
      {
        var uid :| uid in todo;
        if uid in prev {
          r := r + {uid};
        }
        todo := todo - {uid};
      }
    }
  }

  method Recompute(prev: set<string>, inp: Inputs) returns (next: set<string>)
    requires inp.Valid()
    ensures Recomputed(prev, inp, next)
  {
    var sync := RemoveAbsent(prev, inp.present);
    sync := RemoveAbsent(sync, inp.good);
    var kept := RemoveExcess(sync, inp.maxSync);
    var base := AddBest(kept, inp);
    var target, back := FallBack(base, prev, inp);
    next := MergePrevious(target, prev, inp.present);
    assert RecomputedBy(prev, inp, kept, back, next);
  }

  /** Where one pass leaves the known set, before any new required set is chosen. */
  function Acknowledged(rec: SyncRecord, reported: set<string>): set<string> {
    if rec.known == rec.required then rec.known else rec.required * (rec.known + reported)
  }

  /** A required standby that is not yet in sync has failed or disappeared. */
  ghost predicate Stuck(rec: SyncRecord, reported: set<string>, inp: Inputs) {
    exists uid :: uid in rec.required - Acknowledged(rec, reported) && uid !in inp.good
  }

  /** The required set stands until the standbys it still waits for are in sync. */
  ghost predicate Waits(rec: SyncRecord, reported: set<string>, inp: Inputs) {
    rec.known != rec.required && Acknowledged(rec, reported) != rec.required && !Stuck(rec, reported, inp)
  }

  /** The outcome of the whole section for one pass. */
  ghost predicate Reconciled(rec: SyncRecord, reported: set<string>, inp: Inputs, out: SyncRecord) {
    var known := Acknowledged(rec, reported);
    if Waits(rec, reported, inp) then
      out == rec.(known := known)
    else
      && Recomputed(known, inp, out.required)
      && out.known == known * out.required
      && out.external == if |out.required| < inp.minSync then {FAKE_STANDBY} else {}
  }

  /** Has one of the standbys that are not in sync disappeared or failed? */
  method AnyFailed(notInSync: set<string>, inp: Inputs) returns (update: bool)
    requires inp.Valid()
    ensures update <==> exists uid :: uid in notInSync && uid !in inp.good
  {
    var todo := notInSync;
    update := false;
    while todo != {}
      invariant todo <= notInSync
      invariant update <==> exists uid :: uid in notInSync && uid !in todo && uid !in inp.good
    {
      var uid :| uid in todo;
      if uid !in inp.present {
        update := true;
      } else if uid !in inp.good {
        update := true;
      }
      todo := todo - {uid};
    }
  }

  method Reconcile(rec: SyncRecord, reported: set<string>, inp: Inputs) returns (out: SyncRecord, waits: bool)
    requires inp.Valid()
    ensures Reconciled(rec, reported, inp, out)
    ensures waits <==> Waits(rec, reported, inp)
  {
    out := rec;
    waits := false;
    if out.known != out.required {
      out := out.(known := out.known * out.required);
      var curSync := reported * out.required;
      var toAdd := curSync - out.known;
      out := out.(known := out.known + toAdd);
      assert out.known == Acknowledged(rec, reported);

      var update := AnyFailed(out.required - out.known, inp);
      if update {
        out := out.(required := out.known);
      }
    }
    if out.known != out.required {
      waits := true;
    } else {
      var next := Recompute(out.required, inp);
      var external: set<string> := {};
      if |next| < inp.minSync {
        external := {FAKE_STANDBY};
      }
      out := SyncRecord(next, out.known * next, external);
    }
  }

  // ------------------------------------------------------- what a pass keeps

  /**
   * The sets only move in the direction that keeps failover safe: whatever is
   * electable afterwards was required before, is required now, and was either
   * known to be in sync or has just been reported so.
   */
  lemma ElectableWasRequired(rec: SyncRecord, reported: set<string>, inp: Inputs, out: SyncRecord)
    requires Reconciled(rec, reported, inp, out)
    ensures out.known * out.required <= rec.required
    ensures out.known * out.required <= rec.known * rec.required + reported
  {
  }

  lemma RecomputedFrom(prev: set<string>, inp: Inputs, kept: set<string>, back: set<string>, next: set<string>)
    requires RecomputedBy(prev, inp, kept, back, next)
    ensures forall x :: x in next ==> x in prev || x in inp.best
  {
    AdditionsAreNew(inp.best, kept, inp.barred, inp.maxSync - |kept|);
  }

  /** Whatever is required afterwards was required before, or is one of the best standbys. */
  lemma RequiredComesFrom(rec: SyncRecord, reported: set<string>, inp: Inputs, out: SyncRecord)
    requires Reconciled(rec, reported, inp, out)
    ensures forall x :: x in out.required ==> x in rec.required || x in inp.best
  {
    if !Waits(rec, reported, inp) {
      var known := Acknowledged(rec, reported);
      var kept, back :| RecomputedBy(known, inp, kept, back, out.required);
      RecomputedFrom(known, inp, kept, back, out.required);
    }
  }

  lemma DisjointSize(a: set<string>, b: set<string>)
    requires a !! b
    ensures |a + b| == |a| + |b|
  {
  }

  lemma BaseSize(inp: Inputs, kept: set<string>)
    requires |kept| <= inp.maxSync
    ensures |Base(kept, inp)| <= inp.maxSync
    ensures |Base(kept, inp)| < inp.maxSync ==> forall x :: x in inp.best ==> x in Base(kept, inp) || x in inp.barred
  {
    var room := inp.maxSync - |kept|;
    var added := Additions(inp.best, kept, inp.barred, room);
    AdditionsAreNew(inp.best, kept, inp.barred, room);
    AdditionsFillRoom(inp.best, kept, inp.barred, room);
    DisjointSize(kept, added);
    assert Base(kept, inp) == kept + added;
  }

  /** Unless the limit cut members off, every healthy member is kept. */
  lemma KeptBelowLimit(prev: set<string>, inp: Inputs, kept: set<string>, back: set<string>, next: set<string>)
    requires RecomputedBy(prev, inp, kept, back, next)
    requires |kept| < inp.maxSync
    ensures kept == Healthy(prev, inp)
  {
    SubsetSize(kept, Healthy(prev, inp));
  }

  lemma TargetSize(prev: set<string>, inp: Inputs, kept: set<string>, back: set<string>, next: set<string>)
    requires inp.Valid()
    requires RecomputedBy(prev, inp, kept, back, next)
    ensures |Base(kept, inp) + back| <= inp.maxSync
    ensures |Base(kept, inp)| < inp.minSync ==> |Base(kept, inp) + back| <= inp.minSync
    ensures |Base(kept, inp)| >= inp.minSync ==> back == {}
  {
    BaseSize(inp, kept);
    assert |Base(kept, inp) + back| == |Base(kept, inp)| + |back|;
  }

  lemma BaseMembers(inp: Inputs, kept: set<string>)
    ensures kept <= Base(kept, inp)
    ensures forall x :: x in Base(kept, inp) ==> x in kept || (x in inp.best && x !in inp.barred)
  {
    AdditionsAreNew(inp.best, kept, inp.barred, inp.maxSync - |kept|);
  }

  lemma RecomputedMembers(prev: set<string>, inp: Inputs, kept: set<string>, back: set<string>, next: set<string>)
    requires inp.Valid()
    requires RecomputedBy(prev, inp, kept, back, next)
    ensures next <= inp.present
    ensures forall x :: x in next && x !in prev ==> x in inp.best && x !in inp.barred
  {
    BaseMembers(inp, kept);
    assert forall x :: x in next ==> x in Base(kept, inp) || (x in prev && x in inp.present);
  }

  /**
   * Shape of a recomputed set: it either shrinks the previous one to at most
   * MaxSynchronousStandbys members, or still contains every previous member
   * that is left in the document.  Members are always present, and new ones are
   * good standbys whose keeper accepts to be synchronous.
   */
  lemma RecomputedShape(prev: set<string>, inp: Inputs, next: set<string>)
    requires inp.Valid()
    requires Recomputed(prev, inp, next)
    ensures next <= inp.present
    ensures forall x :: x in next && x !in prev ==> x in inp.best && x !in inp.barred
    ensures (next <= prev && |next| <= inp.maxSync) || prev * inp.present <= next
  {
    var kept, back :| RecomputedBy(prev, inp, kept, back, next);
    RecomputedMembers(prev, inp, kept, back, next);
    if Base(kept, inp) + back <= prev {
      TargetSize(prev, inp, kept, back, next);
    }
  }

  /**
   * Shape of a whole pass: it waits with the required set as it was, or moves on
   * from the standbys known to be in sync, and then asks for the standby that
   * never answers exactly when there are fewer required ones than the minimum.
   */
  lemma ReconciledShape(rec: SyncRecord, reported: set<string>, inp: Inputs, out: SyncRecord)
    requires inp.Valid() && Reconciled(rec, reported, inp, out)
    ensures out.required == rec.required || out.required <= inp.present
    ensures !Waits(rec, reported, inp) ==>
              var known := Acknowledged(rec, reported);
              && ((out.required <= known && |out.required| <= inp.maxSync) || known * inp.present <= out.required)
              && out.known <= out.required
              && (FAKE_STANDBY in out.external <==> |out.required| < inp.minSync)
  {
    if !Waits(rec, reported, inp) {
      RecomputedShape(Acknowledged(rec, reported), inp, out.required);
    }
  }

  // ------------------------------------------------------------ what it decides

  /** A required standby that nobody has found in sync yet. */
  predicate Outstanding(rec: SyncRecord, reported: set<string>, u: string) {
    u in rec.required && u !in rec.known && u !in reported
  }

  /** While all outstanding standbys are good, the section waits for them and takes note of the others. */
  lemma WaitsForTheGood(rec: SyncRecord, reported: set<string>, inp: Inputs, out: SyncRecord, u: string)
    requires inp.Valid() && Reconciled(rec, reported, inp, out)
    requires Outstanding(rec, reported, u) && forall v :: Outstanding(rec, reported, v) ==> v in inp.good
    ensures out.required == rec.required && out.external == rec.external
    ensures out.known == set v | v in rec.required && (v in rec.known || v in reported)
  {
    assert u !in Acknowledged(rec, reported);
  }

  /** It waits exactly while some are outstanding and all of these are good. */
  lemma WaitsIff(rec: SyncRecord, reported: set<string>, inp: Inputs)
    ensures Waits(rec, reported, inp) <==>
              && (exists u :: Outstanding(rec, reported, u))
              && forall v :: Outstanding(rec, reported, v) ==> v in inp.good
  {
    var known := Acknowledged(rec, reported);
    assert forall u :: Outstanding(rec, reported, u) <==> u in rec.required - known;
    assert known <= rec.required;
    if known != rec.required {
      var u :| u in rec.required && u !in known;
      assert Outstanding(rec, reported, u);
    }
  }

  lemma RecomputedDropsTheBad(prev: set<string>, inp: Inputs, next: set<string>, u: string)
    requires inp.Valid() && Recomputed(prev, inp, next) && u !in prev && u !in inp.good
    ensures u !in next
  {
    var kept, back :| RecomputedBy(prev, inp, kept, back, next);
    RecomputedFrom(prev, inp, kept, back, next);
  }

  /** An outstanding standby that is not good is let go. */
  lemma LetsTheFailedGo(rec: SyncRecord, reported: set<string>, inp: Inputs, out: SyncRecord, u: string)
    requires inp.Valid() && Reconciled(rec, reported, inp, out)
    requires Outstanding(rec, reported, u) && u !in inp.good
    ensures u !in out.required
  {
    assert u in rec.required - Acknowledged(rec, reported);
    RecomputedDropsTheBad(Acknowledged(rec, reported), inp, out.required, u);
  }

  /** What is known are the standbys found in sync, as far as they stay required. */
  lemma KnownAreInSync(rec: SyncRecord, reported: set<string>, inp: Inputs, out: SyncRecord)
    requires inp.Valid() && Reconciled(rec, reported, inp, out)
    ensures forall v :: v in out.known <==> v in out.required && v in rec.required && (v in rec.known || v in reported)
  {
  }

  /** The standbys found in sync. */
  ghost function InSync(rec: SyncRecord, reported: set<string>): set<string> {
    set v | v in rec.required && (v in rec.known || v in reported)
  }

  /** When none is outstanding, or an outstanding one has failed, a new set is chosen from those in sync. */
  lemma ChoosesAnew(rec: SyncRecord, reported: set<string>, inp: Inputs, out: SyncRecord)
    requires inp.Valid() && Reconciled(rec, reported, inp, out)
    requires (exists u :: Outstanding(rec, reported, u)) ==> exists v :: Outstanding(rec, reported, v) && v !in inp.good
    ensures Recomputed(InSync(rec, reported), inp, out.required)
    ensures out.external == if |out.required| < inp.minSync then {FAKE_STANDBY} else {}
  {
    var known := Acknowledged(rec, reported);
    assert InSync(rec, reported) == known;
    if known != rec.required {
      var u :| u in rec.required && u !in known;
      assert Outstanding(rec, reported, u);
      var v :| Outstanding(rec, reported, v) && v !in inp.good;
      assert v in rec.required - known;
    }
  }

  /** No usable best standby is left out while there is room. */
  lemma FillsUp(prev: set<string>, inp: Inputs, next: set<string>, x: string)
    requires inp.Valid() && Recomputed(prev, inp, next)
    requires x in inp.best && x !in inp.barred && x !in next
    ensures |next| >= inp.maxSync
  {
    var kept, back :| RecomputedBy(prev, inp, kept, back, next);
    BaseSize(inp, kept);
    SubsetSize(Base(kept, inp), next);
  }

  /** Members that are present and good go only when there are enough without them. */
  lemma GoodMembersStay(prev: set<string>, inp: Inputs, next: set<string>, x: string)
    requires inp.Valid() && Recomputed(prev, inp, next)
    requires x in prev && x in inp.present && x in inp.good && x !in next
    ensures |next| >= inp.maxSync
  {
    var kept, back :| RecomputedBy(prev, inp, kept, back, next);
    BaseMembers(inp, kept);
    if |kept| < inp.maxSync {
      KeptBelowLimit(prev, inp, kept, back, next);
    }
    SubsetSize(kept, next);
  }

  /** Members that have failed stay as long as the minimum is not met without them. */
  lemma FailedMembersFillUp(prev: set<string>, inp: Inputs, next: set<string>, x: string)
    requires inp.Valid() && Recomputed(prev, inp, next)
    requires x in prev && x in inp.present && x !in next
    ensures |next| >= inp.minSync
  {
    var kept, back :| RecomputedBy(prev, inp, kept, back, next);
    var base := Base(kept, inp);
    SubsetSize(base + back, next);
    assert x in Spare(prev, inp, base) - back;
    SubsetSize(back, Spare(prev, inp, base));
    DisjointSize(base, back);
  }

  /** A failed member that stays, in a set without new members, is needed for the minimum. */
  lemma FailedMembersAreNeeded(prev: set<string>, inp: Inputs, next: set<string>, x: string)
    requires inp.Valid() && Recomputed(prev, inp, next) && next <= prev
    requires x in next && x !in inp.good
    ensures |next| <= inp.minSync
  {
    var kept, back :| RecomputedBy(prev, inp, kept, back, next);
    TargetSize(prev, inp, kept, back, next);
    BaseMembers(inp, kept);
  }

  /** Of two best standbys, one is not added before the other that comes first. */
  lemma {:induction false} EarlierIsAdded(best: seq<string>, have: set<string>, barred: set<string>, room: int, i: nat, x: string)
    requires i < |best| && x !in best[..i + 1] && x in Additions(best, have, barred, room)
    ensures best[i] in have || best[i] in barred || best[i] in Additions(best, have, barred, room)
  {
    if i > 0 {
      var rest := best[1..];
      assert rest[..i] == best[1..i + 1] && rest[i - 1] == best[i];
      assert x != best[0] by {
        assert best[..i + 1][0] == best[0];
      }
      if best[0] in have || best[0] in barred {
        EarlierIsAdded(rest, have, barred, room, i - 1, x);
      } else {
        EarlierIsAdded(rest, have + {best[0]}, barred, room - 1, i - 1, x);
      }
    }
  }

  /** The same of what is kept and added together. */
  lemma EarlierInBase(inp: Inputs, kept: set<string>, i: nat, x: string)
    requires i < |inp.best| && x !in inp.best[..i + 1] && x in Base(kept, inp) && x !in kept
    ensures inp.best[i] in inp.barred || inp.best[i] in Base(kept, inp)
  {
    EarlierIsAdded(inp.best, kept, inp.barred, inp.maxSync - |kept|, i, x);
  }

  lemma NewInBase(prev: set<string>, inp: Inputs, kept: set<string>, back: set<string>, next: set<string>, x: string)
    requires RecomputedBy(prev, inp, kept, back, next) && x in next && x !in prev
    ensures x in Base(kept, inp) && x !in kept
  {
  }

  lemma BaseIsIn(prev: set<string>, inp: Inputs, kept: set<string>, back: set<string>, next: set<string>, x: string)
    requires RecomputedBy(prev, inp, kept, back, next) && x in Base(kept, inp)
    ensures x in next
  {
  }

  /** So a new member leaves no usable best standby before it out. */
  lemma FirstComeFirst(prev: set<string>, inp: Inputs, next: set<string>, i: nat, x: string)
    requires Recomputed(prev, inp, next) && x in next && x !in prev
    requires i < |inp.best| && x !in inp.best[..i + 1]
    ensures inp.best[i] in inp.barred || inp.best[i] in next
  {
    var kept, back :| RecomputedBy(prev, inp, kept, back, next);
    assert x in Base(kept, inp) && x !in kept by {
      NewInBase(prev, inp, kept, back, next, x);
    }
    EarlierInBase(inp, kept, i, x);
    if inp.best[i] !in inp.barred {
      BaseIsIn(prev, inp, kept, back, next, inp.best[i]);
    }
  }

  /** Something of the previous set is kept or fallen back on. */
  lemma SomethingStays(prev: set<string>, inp: Inputs, kept: set<string>, back: set<string>, next: set<string>, survivor: string)
    requires inp.Valid() && 1 <= inp.minSync
    requires RecomputedBy(prev, inp, kept, back, next)
    requires survivor in prev && survivor in inp.present
    ensures exists x :: x in Base(kept, inp) || x in back
  {
    var base := Base(kept, inp);
    if base == {} {
      assert survivor in Spare(prev, inp, base);
      assert |back| > 0;
      assert back != {};
      var x :| x in back;
    } else {
      var x :| x in base;
    }
  }

  /** A member of the previous set stays: with a positive minimum the overlap is never lost. */
  lemma OverlapKept(prev: set<string>, inp: Inputs, next: set<string>, survivor: string)
    requires inp.Valid() && 1 <= inp.minSync
    requires Recomputed(prev, inp, next)
    requires survivor in prev * inp.present
    ensures exists x :: x in next && x in prev && x in inp.present
  {
    var kept, back :| RecomputedBy(prev, inp, kept, back, next);
    RecomputedMembers(prev, inp, kept, back, next);
    if Base(kept, inp) + back <= prev {
      SomethingStays(prev, inp, kept, back, next, survivor);
      var x :| x in Base(kept, inp) || x in back;
      assert x in next && x in prev && x in inp.present;
    } else {
      assert survivor in next;
    }
  }

  /**
   * With MinSynchronousStandbys at least one, a pass never empties the set a
   * failover may choose from as long as one electable standby is still in the
   * document, and it leaves an electable standby in the document.
   */
  lemma ElectableNeverEmptied(rec: SyncRecord, reported: set<string>, inp: Inputs, out: SyncRecord, survivor: string)
    requires inp.Valid() && 1 <= inp.minSync
    requires Reconciled(rec, reported, inp, out)
    requires survivor in rec.Electable() * inp.present
    ensures out.Electable() * inp.present != {}
  {
    var known := Acknowledged(rec, reported);
    assert survivor in known;
    if Waits(rec, reported, inp) {
      assert survivor in out.Electable() * inp.present;
    } else {
      OverlapKept(known, inp, out.required, survivor);
      var x :| x in out.required && x in known && x in inp.present;
      assert x in out.Electable() * inp.present;
    }
  }

  // ------------------------------------------------------------- stability

  /** The two inputs agree on everything but the order of the best standbys. */
  ghost predicate SameStandbys(a: Inputs, b: Inputs) {
    && a.(best := b.best) == b
    && forall x :: x in a.best <==> x in b.best
  }

  /** No recomputation changes a settled set. */
  ghost predicate Settled(s: set<string>, inp: Inputs) {
    var healthy := s * inp.good;
    && s <= inp.present
    && |healthy| <= inp.maxSync
    && (|healthy| < inp.maxSync ==> forall x :: x in inp.best ==> x in healthy + inp.barred)
    && (inp.minSync <= |healthy| ==> s == healthy)
    && (|healthy| < inp.minSync ==> |s| <= inp.minSync)
  }

  lemma NothingToAdd(inp: Inputs, have: set<string>, room: int)
    requires 0 < room ==> forall x :: x in inp.best ==> x in have + inp.barred
    ensures Additions(inp.best, have, inp.barred, room) == {}
  {
    AdditionsAreNew(inp.best, have, inp.barred, room);
    assert forall x :: x !in Additions(inp.best, have, inp.barred, room);
  }

  /** A subset as large as the smaller of the set and the limit is the whole of a set within the limit. */
  lemma AllKept(kept: set<string>, all: set<string>, limit: nat)
    requires kept <= all && |all| <= limit && |kept| == Min(|all|, limit)
    ensures kept == all
  {
    SubsetSize(kept, all);
  }

  lemma PartsAddUp(whole: set<string>, part: set<string>)
    requires part <= whole
    ensures |whole| == |part| + |whole - part|
  {
  }

  lemma SettledBase(s: set<string>, inp: Inputs, kept: set<string>, back: set<string>, next: set<string>)
    requires Settled(s, inp)
    requires RecomputedBy(s, inp, kept, back, next)
    ensures Base(kept, inp) == s * inp.good
  {
    var healthy := s * inp.good;
    assert Healthy(s, inp) == healthy;
    AllKept(kept, healthy, inp.maxSync);
    NothingToAdd(inp, healthy, inp.maxSync - |healthy|);
  }

  lemma SettledBack(s: set<string>, inp: Inputs, kept: set<string>, back: set<string>, next: set<string>)
    requires Settled(s, inp)
    requires RecomputedBy(s, inp, kept, back, next)
    ensures back == s - s * inp.good
  {
    SettledBase(s, inp, kept, back, next);
    var healthy := s * inp.good;
    assert Spare(s, inp, healthy) == s - healthy;
    PartsAddUp(s, healthy);
    AllKept(back, s - healthy, Shortfall(inp.minSync, |healthy|));
  }

  lemma SettledIsFixpoint(s: set<string>, inp: Inputs, next: set<string>)
    requires inp.Valid()
    requires Settled(s, inp)
    requires Recomputed(s, inp, next)
    ensures next == s
  {
    var kept, back :| RecomputedBy(s, inp, kept, back, next);
    SettledBase(s, inp, kept, back, next);
    SettledBack(s, inp, kept, back, next);
    assert Base(kept, inp) + back == s;
  }

  lemma ShrinkingKeepsHealthy(prev: set<string>, inp: Inputs, kept: set<string>, back: set<string>, next: set<string>)
    requires inp.Valid()
    requires RecomputedBy(prev, inp, kept, back, next)
    requires Base(kept, inp) + back <= prev
    ensures next * inp.good == Base(kept, inp)
  {
    BaseMembers(inp, kept);
    if back != {} {
      SubsetSize(kept, Base(kept, inp));
      KeptBelowLimit(prev, inp, kept, back, next);
    }
  }

  lemma ShrinkingSettles(prev: set<string>, inp: Inputs, kept: set<string>, back: set<string>, next: set<string>)
    requires inp.Valid()
    requires RecomputedBy(prev, inp, kept, back, next)
    requires Base(kept, inp) + back <= prev
    ensures Settled(next, inp)
  {
    ShrinkingKeepsHealthy(prev, inp, kept, back, next);
    BaseSize(inp, kept);
    TargetSize(prev, inp, kept, back, next);
  }

  lemma MergingKeepsHealthy(prev: set<string>, inp: Inputs, kept: set<string>, back: set<string>, mid: set<string>)
    requires inp.Valid()
    requires RecomputedBy(prev, inp, kept, back, mid)
    requires !(Base(kept, inp) + back <= prev)
    ensures |kept| <= inp.maxSync && Base(kept, inp) <= mid
    ensures forall x :: x in mid && x in inp.good <==> x in Base(kept, inp)
  {
    AdditionsAreNew(inp.best, kept, inp.barred, inp.maxSync - |kept|);
    KeptBelowLimit(prev, inp, kept, back, mid);
  }

  lemma MergingThenShrinks(prev: set<string>, inp: Inputs, kept: set<string>, back: set<string>, mid: set<string>,
                           inp2: Inputs, kept2: set<string>, back2: set<string>, next: set<string>)
    requires inp.Valid() && inp2.Valid() && SameStandbys(inp, inp2)
    requires RecomputedBy(prev, inp, kept, back, mid)
    requires !(Base(kept, inp) + back <= prev)
    requires RecomputedBy(mid, inp2, kept2, back2, next)
    ensures Base(kept2, inp2) + back2 <= mid
  {
    var base := Base(kept, inp);
    MergingKeepsHealthy(prev, inp, kept, back, mid);
    assert Healthy(mid, inp2) == base;
    BaseSize(inp, kept);
    AllKept(kept2, base, inp2.maxSync);
    NothingToAdd(inp2, base, inp2.maxSync - |base|);
  }

  /**
   * While the good and best standbys do not change, recomputation reaches a
   * fixpoint after at most two changes, whatever order the maps are walked in
   * and however the best standbys are ordered each time.
   */
  lemma SettlesInTwoChanges(s0: set<string>, s1: set<string>, s2: set<string>, s3: set<string>,
                            i1: Inputs, i2: Inputs, i3: Inputs)
    requires i1.Valid() && i2.Valid() && i3.Valid()
    requires SameStandbys(i1, i2) && SameStandbys(i2, i3)
    requires Recomputed(s0, i1, s1) && Recomputed(s1, i2, s2) && Recomputed(s2, i3, s3)
    ensures s3 == s2
  {
    var k1, b1 :| RecomputedBy(s0, i1, k1, b1, s1);
    var k2, b2 :| RecomputedBy(s1, i2, k2, b2, s2);
    if Base(k1, i1) + b1 <= s0 {
      ShrinkingSettles(s0, i1, k1, b1, s1);
      SettledIsFixpoint(s1, i2, s2);
    } else {
      MergingThenShrinks(s0, i1, k1, b1, s1, i2, k2, b2, s2);
      ShrinkingSettles(s1, i2, k2, b2, s2);
    }
    SettledIsFixpoint(s2, i3, s3);
  }
}
