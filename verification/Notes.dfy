/**
 * What a sentinel remembers of the databases and keepers from check to check:
 * since when a database has had a generation to reach, how long its WAL position
 * has not moved, and since when a keeper has been healthy.  The predicates say
 * what one check does to the notes, the lemmas what they mean after any number
 * of checks, in terms of what the checks read.
 */
module Notes {
  import opened Cluster
  import opened Options
  import opened Readings
  import opened Selection
  import opened Stretches
  import Health
  import Tenures

  const STALL_CHECKS: nat := 10

  datatype ConvergenceInfo = ConvergenceInfo(generation: nat, timer: int)

  /** The reported WAL position of `d` has, or has not, moved. */
  predicate Stuck(cd: ClusterData, current: map<string, Health.KeeperInfo>, d: string, moved: bool) {
    && d in cd.dbs && Health.ReportOn(cd.dbs[d], current).Some?
    && (moved <==> cd.dbs[d].status.xlog != Health.ReportOn(cd.dbs[d], current).value.xlog)
  }

  function Count(counters: map<string, nat>, d: string): nat { if d in counters then counters[d] else 0 }

  /** Checks at which a reported WAL position has not moved are counted, and the time is noted when it has. */
  ghost predicate Progressed(cd: ClusterData, current: map<string, Health.KeeperInfo>, now: int,
                             counters: map<string, nat>, times: map<string, int>, nextCounters: map<string, nat>, nextTimes: map<string, int>) {
    && (forall d :: Count(nextCounters, d) ==
          if Stuck(cd, current, d, false) then Count(counters, d) + 1 else if Stuck(cd, current, d, true) then 0 else Count(counters, d))
    && (forall d :: Stuck(cd, current, d, true) ==> d in nextTimes && nextTimes[d] == now)
    && forall d :: !Stuck(cd, current, d, true) ==> (d in nextTimes <==> d in times) && (d in times ==> nextTimes[d] == times[d])
  }

  /** A convergence timer runs for every database that has a generation to reach, since that was set. */
  ghost predicate Renewed(cd: ClusterData, now: int, before: map<string, ConvergenceInfo>, after: map<string, ConvergenceInfo>) {
    && (forall d :: d in cd.dbs ==>
          if cd.dbs[d].status.generation == cd.dbs[d].generation then d !in after
          else
            && d in after
            && after[d] == if d in before && before[d].generation == cd.dbs[d].generation
                           then before[d] else ConvergenceInfo(cd.dbs[d].generation, now))
    && forall d :: d !in cd.dbs ==> (d in after <==> d in before) && (d in after ==> after[d] == before[d])
  }

  /** The timers are renewed once the document has been written, and only then. */
  ghost predicate Timed(c: Reading, result: Option<ClusterData>, before: map<string, ConvergenceInfo>, after: map<string, ConvergenceInfo>) {
    if result.Some? && c.written then Renewed(result.value, c.now, before, after) else after == before
  }

  /** The document showed the keeper healthy, or did not know it yet. */
  predicate WasHealthy(known: map<string, Keeper>, k: string) { k in known ==> known[k].healthy }

  /** Since when each keeper has been healthy; the time starts anew when the document showed it unhealthy. */
  ghost predicate HealthTracked(known: map<string, Keeper>, keepers: map<string, Keeper>, now: int, before: map<string, int>, after: map<string, int>) {
    && (forall k :: k in keepers ==>
          if keepers[k].healthy then k in after && after[k] == (if WasHealthy(known, k) && k in before then before[k] else now)
          else k !in after)
    && forall k :: k !in keepers ==> (k in after <==> k in before) && (k in after ==> after[k] == before[k])
  }

  // ------------------------------------------------------------------ a tenure

  /** All of it at one moment. */
  datatype Note = Note(
    clock: map<string, ConvergenceInfo>,   // since when a database has a generation to reach
    counters: map<string, nat>,            // reports since its WAL position last moved
    times: map<string, int>,               // when it last moved
    healthySince: map<string, int>         // since when a keeper has been healthy
  )

  /** A tenure starts with nothing but the timers of the document its first check reads. */
  ghost predicate StartsWith(c: Reading, note: Note) {
    Renewed(c.cd, c.now, map[], note.clock) && note.counters == map[] && note.times == map[] && note.healthySince == map[]
  }

  /** The pass of a check goes by the timers from before it, and by the counters with its reports. */
  ghost predicate GoesBy(env: Env, clock: map<string, ConvergenceInfo>, counters: map<string, nat>) {
    && env.convergenceTimers == (map d | d in clock :: clock[d].timer)
    && forall d :: d in env.stalled <==> Count(counters, d) > STALL_CHECKS
  }

  /** What the reports of a check do to the notes; those of the first check do nothing. */
  ghost predicate NotesReports(c: Reading, current: map<string, Health.KeeperInfo>, keepers: map<string, Keeper>, first: bool, before: Note, after: Note) {
    if first then
      after.counters == before.counters && after.times == before.times && after.healthySince == before.healthySince
    else
      && Progressed(c.cd, current, c.now, before.counters, before.times, after.counters, after.times)
      && HealthTracked(c.cd.keepers, keepers, c.now, before.healthySince, after.healthySince)
  }

  /** What a whole check does to them. */
  ghost predicate NotedBy(c: Reading, turn: Tenures.Turn, first: bool, before: Note, after: Note) {
    && NotesReports(c, turn.current, turn.reported.keepers, first, before, after)
    && GoesBy(turn.env, before.clock, after.counters)
    && Timed(c, turn.result, before.clock, after.clock)
  }

  lemma IsNoted(c: Reading, turn: Tenures.Turn, first: bool, before: Note, merged: Note, after: Note)
    requires NotesReports(c, turn.current, turn.reported.keepers, first, before, merged)
    requires GoesBy(turn.env, before.clock, merged.counters) && Timed(c, turn.result, before.clock, after.clock)
    requires after == merged.(clock := after.clock)
    ensures NotedBy(c, turn, first, before, after)
  {
  }

  ghost predicate NotedAt(readings: seq<Reading>, turns: seq<Tenures.Turn>, notes: seq<Note>, i: nat)
    requires i < |readings| && i < |turns| && i + 1 < |notes|
  {
    NotedBy(readings[i], turns[i], i == 0, notes[i], notes[i + 1])
  }

  /** `notes` are those before and after each check of a tenure. */
  ghost predicate NotesKept(readings: seq<Reading>, turns: seq<Tenures.Turn>, notes: seq<Note>) {
    && |turns| <= |readings| && |notes| == |turns| + 1
    && (turns != [] ==> StartsWith(readings[0], notes[0]))
    && forall i :: 0 <= i < |turns| ==> NotedAt(readings, turns, notes, i)
  }

  lemma NotedOneMore(readings: seq<Reading>, turns: seq<Tenures.Turn>, notes: seq<Note>, turn: Tenures.Turn, before: Note, after: Note)
    requires NotesKept(readings, turns, notes) && |turns| < |readings|
    requires NotedBy(readings[|turns|], turn, turns == [], before, after)
    requires if turns == [] then StartsWith(readings[0], before) else before == notes[|turns|]
    ensures NotesKept(readings, turns + [turn], if turns == [] then [before, after] else notes + [after])
  {
    var longer := if turns == [] then [before, after] else notes + [after];
    forall i | 0 <= i < |turns|
      ensures NotedAt(readings, turns + [turn], longer, i)
    {
      assert NotedAt(readings, turns, notes, i);
    }
  }

  /** The checks of a tenure, with what was remembered before and after each. */
  ghost predicate Led(readings: seq<Reading>, turns: seq<Tenures.Turn>, memory: seq<map<string, Health.Sighting>>, notes: seq<Note>) {
    Tenures.IsTenure(turns) && Recalls(readings, turns, memory) && NotesKept(readings, turns, notes)
  }

  /** Where the last of them has left the sentinel. */
  ghost predicate LeftOff(turns: seq<Tenures.Turn>, memory: seq<map<string, Health.Sighting>>, notes: seq<Note>,
                          errors: Tenures.Errors, backoff: map<string, int>, sightings: map<string, Health.Sighting>, note: Note) {
    && 0 < |turns| < |memory| && |turns| < |notes|
    && turns[|turns| - 1].errors == errors && turns[|turns| - 1].backoff == backoff
    && memory[|turns|] == sightings && notes[|turns|] == note
  }

  lemma LedOneMore(readings: seq<Reading>, turns: seq<Tenures.Turn>, memory: seq<map<string, Health.Sighting>>, notes: seq<Note>,
                   turn: Tenures.Turn, before: Note, sightings: map<string, Health.Sighting>, note: Note)
    requires Led(readings, turns, memory, notes) && |turns| < |readings| && Tenures.IsTenure(turns + [turn])
    requires readings[|turns|].Answered(turn) && NotedBy(readings[|turns|], turn, turns == [], before, note)
    requires var c, first, was := readings[|turns|], turns == [], memory[|turns|];
             && turn.current == Believed(c.infos, was, c.sleep, c.now, first)
             && sightings == Saved(c, turn.result.Some?, was, first)
    requires if turns == [] then StartsWith(readings[0], before) else before == notes[|turns|]
    ensures Led(readings, turns + [turn], memory + [sightings], if turns == [] then [before, note] else notes + [note])
    ensures LeftOff(turns + [turn], memory + [sightings], if turns == [] then [before, note] else notes + [note], turn.errors, turn.backoff, sightings, note)
  {
    RecallsOneMore(readings, turns, memory, turn, sightings);
    NotedOneMore(readings, turns, notes, turn, before, note);
  }

  // ----------------------------------------------------------- generations

  /** What a document says about `d`: it is not there, has reached its generation, or has that generation to reach. */
  ghost function ToReach(cd: ClusterData, d: string): Mark<nat> {
    if d !in cd.dbs then Silent
    else if cd.dbs[d].status.generation == cd.dbs[d].generation then Cleared
    else Is(cd.dbs[d].generation)
  }

  /** The document check `j` has written, if it has. */
  ghost function Written(readings: seq<Reading>, turns: seq<Tenures.Turn>, j: nat): Option<ClusterData>
    requires j < |readings| && j < |turns|
  {
    if readings[j].written then turns[j].result else None
  }

  /** What the document read first and the documents written since say about `d`. */
  ghost function ToReachMarks(readings: seq<Reading>, turns: seq<Tenures.Turn>, d: string): seq<Mark<nat>>
    requires 0 < |turns| <= |readings|
  {
    [ToReach(readings[0].cd, d)] +
    seq(|turns|, j requires 0 <= j < |turns| =>
          if Written(readings, turns, j).Some? then ToReach(Written(readings, turns, j).value, d) else Silent)
  }

  ghost function ToReachTimes(readings: seq<Reading>, turns: seq<Tenures.Turn>): seq<int>
    requires 0 < |turns| <= |readings|
  {
    [readings[0].now] + seq(|turns|, j requires 0 <= j < |turns| => readings[j].now)
  }

  ghost function ClockMemo(clock: map<string, ConvergenceInfo>, d: string): Option<Memo<nat>> {
    if d in clock then Some(Memo(clock[d].generation, clock[d].timer)) else None
  }

  ghost function ClockMemos(notes: seq<Note>, d: string): seq<Option<Memo<nat>>> {
    [None] + seq(|notes|, i requires 0 <= i < |notes| => ClockMemo(notes[i].clock, d))
  }

  lemma RenewedRemembers(cd: ClusterData, now: int, before: map<string, ConvergenceInfo>, after: map<string, ConvergenceInfo>, d: string)
    requires Renewed(cd, now, before, after)
    ensures ClockMemo(after, d) == Next(ClockMemo(before, d), ToReach(cd, d), now)
  {
  }

  lemma OneTimed(readings: seq<Reading>, turns: seq<Tenures.Turn>, notes: seq<Note>, i: nat, d: string)
    requires NotesKept(readings, turns, notes) && i < |turns|
    ensures ClockMemo(notes[i + 1].clock, d) == Next(ClockMemo(notes[i].clock, d), ToReachMarks(readings, turns, d)[i + 1], readings[i].now)
  {
    assert NotedAt(readings, turns, notes, i);
    if Written(readings, turns, i).Some? {
      RenewedRemembers(turns[i].result.value, readings[i].now, notes[i].clock, notes[i + 1].clock, d);
    }
  }

  lemma ClockRemembers(readings: seq<Reading>, turns: seq<Tenures.Turn>, notes: seq<Note>, d: string)
    requires NotesKept(readings, turns, notes) && |turns| > 0
    ensures Remembered(ToReachMarks(readings, turns, d), ToReachTimes(readings, turns), ClockMemos(notes, d))
  {
    var marks, times, memos := ToReachMarks(readings, turns, d), ToReachTimes(readings, turns), ClockMemos(notes, d);
    forall i | 0 <= i < |marks|
      ensures memos[i + 1] == Next(memos[i], marks[i], times[i])
    {
      if i == 0 {
        RenewedRemembers(readings[0].cd, readings[0].now, map[], notes[0].clock, d);
      } else {
        OneTimed(readings, turns, notes, i - 1, d);
      }
    }
  }

  /** The first `n` of these documents have given `d` a generation to reach since `t`. */
  ghost predicate HasToReachSince(readings: seq<Reading>, turns: seq<Tenures.Turn>, n: nat, d: string, t: int)
    requires 0 < |turns| <= |readings|
  {
    exists g: nat :: HeldFrom(ToReachMarks(readings, turns, d), ToReachTimes(readings, turns), n, g, t)
  }

  /**
   * At every check of a tenure, the convergence timer of a database shows since
   * when the documents read first and written since have given it the generation
   * it has to reach; there is none exactly if it has none to reach.
   */
  lemma TimerIsStartOfGeneration(readings: seq<Reading>, turns: seq<Tenures.Turn>, notes: seq<Note>, i: nat, d: string, t: int)
    requires NotesKept(readings, turns, notes) && i < |turns|
    ensures d in turns[i].env.convergenceTimers && turns[i].env.convergenceTimers[d] == t
            <==> HasToReachSince(readings, turns, i + 1, d, t)
  {
    var marks, times, memos := ToReachMarks(readings, turns, d), ToReachTimes(readings, turns), ClockMemos(notes, d);
    ClockRemembers(readings, turns, notes, d);
    assert NotedAt(readings, turns, notes, i);
    assert memos[i + 1] == ClockMemo(notes[i].clock, d);
    if d in notes[i].clock {
      MemoIff(marks, times, memos, i + 1, notes[i].clock[d].generation, notes[i].clock[d].timer);
    }
    if HasToReachSince(readings, turns, i + 1, d, t) {
      var g: nat :| HeldFrom(marks, times, i + 1, g, t);
      MemoIff(marks, times, memos, i + 1, g, t);
    }
  }

  // ---------------------------------------------------------- WAL positions

  /** Check `j` has heard about `d` from its keeper. */
  ghost predicate HeardAbout(readings: seq<Reading>, turns: seq<Tenures.Turn>, j: nat, d: string)
    requires j < |readings| && j < |turns|
  {
    && d in readings[j].cd.dbs
    && var k := readings[j].cd.dbs[d].spec.keeper;
       && HeardAt(readings, turns, j, k)
       && readings[j].infos[k].pg.Some? && readings[j].infos[k].pg.value.uid == readings[j].cd.dbs[d].uid
  }

  /** The WAL position it was told is the one in the document. */
  ghost predicate Unmoved(readings: seq<Reading>, turns: seq<Tenures.Turn>, j: nat, d: string)
    requires j < |readings| && j < |turns|
  {
    && HeardAbout(readings, turns, j, d)
    && readings[j].infos[readings[j].cd.dbs[d].spec.keeper].pg.value.xlog == readings[j].cd.dbs[d].status.xlog
  }

  /** It is another one. */
  ghost predicate Moved(readings: seq<Reading>, turns: seq<Tenures.Turn>, j: nat, d: string)
    requires j < |readings| && j < |turns|
  {
    && HeardAbout(readings, turns, j, d)
    && readings[j].infos[readings[j].cd.dbs[d].spec.keeper].pg.value.xlog != readings[j].cd.dbs[d].status.xlog
  }

  /** The checks before check `n` that found `d` unmoved, since it was last found moved. */
  ghost function UnmovedChecks(readings: seq<Reading>, turns: seq<Tenures.Turn>, n: nat, d: string): set<nat>
    requires n <= |readings| && n <= |turns|
  {
    set j: nat | j < n && Unmoved(readings, turns, j, d) && StillSince(readings, turns, j, n, d)
  }

  /** No check after `j` and before `n` has found `d` moved. */
  ghost predicate StillSince(readings: seq<Reading>, turns: seq<Tenures.Turn>, j: nat, n: nat, d: string)
    requires n <= |readings| && n <= |turns|
  {
    forall l :: j < l < n ==> !Moved(readings, turns, l, d)
  }

  lemma StuckIsUnmoved(readings: seq<Reading>, turns: seq<Tenures.Turn>, memory: seq<map<string, Health.Sighting>>, i: nat, d: string)
    requires Recalls(readings, turns, memory) && i < |turns|
    ensures Stuck(readings[i].cd, turns[i].current, d, false) <==> Unmoved(readings, turns, i, d)
    ensures Stuck(readings[i].cd, turns[i].current, d, true) <==> Moved(readings, turns, i, d)
  {
    if d in readings[i].cd.dbs {
      BelievedIffHeard(readings, turns, memory, i, readings[i].cd.dbs[d].spec.keeper);
    }
  }

  lemma OneMoreUnmoved(readings: seq<Reading>, turns: seq<Tenures.Turn>, n: nat, d: string)
    requires n < |readings| && n < |turns|
    ensures UnmovedChecks(readings, turns, n + 1, d) ==
            if Moved(readings, turns, n, d) then {}
            else if Unmoved(readings, turns, n, d) then UnmovedChecks(readings, turns, n, d) + {n}
            else UnmovedChecks(readings, turns, n, d)
  {
    forall j: nat | j < n
      ensures StillSince(readings, turns, j, n + 1, d) <==> StillSince(readings, turns, j, n, d) && !Moved(readings, turns, n, d)
    {
    }
  }

  /** The counters count them. */
  lemma {:induction false} CountersCount(readings: seq<Reading>, turns: seq<Tenures.Turn>, memory: seq<map<string, Health.Sighting>>, notes: seq<Note>, n: nat, d: string)
    requires Recalls(readings, turns, memory) && NotesKept(readings, turns, notes) && 0 < n <= |turns|
    ensures Count(notes[n].counters, d) == |UnmovedChecks(readings, turns, n, d)|
  {
    if n > 1 {
      CountersCount(readings, turns, memory, notes, n - 1, d);
      OneMoreCounted(readings, turns, memory, notes, n - 1, d);
    } else {
      FirstCounts(readings, turns, notes, d);
    }
  }

  lemma FirstCounts(readings: seq<Reading>, turns: seq<Tenures.Turn>, notes: seq<Note>, d: string)
    requires NotesKept(readings, turns, notes) && 0 < |turns|
    ensures Count(notes[1].counters, d) == 0 && UnmovedChecks(readings, turns, 1, d) == {}
  {
    assert NotedAt(readings, turns, notes, 0);
    OneMoreUnmoved(readings, turns, 0, d);
  }

  lemma OneMoreCounted(readings: seq<Reading>, turns: seq<Tenures.Turn>, memory: seq<map<string, Health.Sighting>>, notes: seq<Note>, i: nat, d: string)
    requires Recalls(readings, turns, memory) && NotesKept(readings, turns, notes) && 0 < i < |turns|
    requires Count(notes[i].counters, d) == |UnmovedChecks(readings, turns, i, d)|
    ensures Count(notes[i + 1].counters, d) == |UnmovedChecks(readings, turns, i + 1, d)|
  {
    OneMoreUnmoved(readings, turns, i, d);
    CountsOn(readings, turns, memory, notes, i, d);
  }

  lemma CountsOn(readings: seq<Reading>, turns: seq<Tenures.Turn>, memory: seq<map<string, Health.Sighting>>, notes: seq<Note>, i: nat, d: string)
    requires Recalls(readings, turns, memory) && NotesKept(readings, turns, notes) && 0 < i < |turns|
    ensures Count(notes[i + 1].counters, d) ==
            if Moved(readings, turns, i, d) then 0
            else if Unmoved(readings, turns, i, d) then Count(notes[i].counters, d) + 1
            else Count(notes[i].counters, d)
  {
    assert NotedAt(readings, turns, notes, i);
    StuckIsUnmoved(readings, turns, memory, i, d);
  }

  /**
   * At every check of a tenure, a database counts as stalled exactly when more
   * than ten checks have found its WAL position unmoved since one found it moved.
   */
  lemma StalledIffUnmoved(readings: seq<Reading>, turns: seq<Tenures.Turn>, memory: seq<map<string, Health.Sighting>>, notes: seq<Note>, i: nat, d: string)
    requires Recalls(readings, turns, memory) && NotesKept(readings, turns, notes) && i < |turns|
    ensures d in turns[i].env.stalled <==> |UnmovedChecks(readings, turns, i + 1, d)| > 10
  {
    assert NotedAt(readings, turns, notes, i);
    CountersCount(readings, turns, memory, notes, i + 1, d);
  }

  /** The time a WAL position last moved is that of the last check that found it moved. */
  lemma {:induction false} MovedLastAt(readings: seq<Reading>, turns: seq<Tenures.Turn>, memory: seq<map<string, Health.Sighting>>, notes: seq<Note>, n: nat, d: string)
    requires Recalls(readings, turns, memory) && NotesKept(readings, turns, notes) && 0 < n <= |turns|
    ensures d in notes[n].times ==>
              exists j: nat :: j < n && Moved(readings, turns, j, d) && StillSince(readings, turns, j, n, d) && notes[n].times[d] == readings[j].now
    ensures d !in notes[n].times ==> forall j: nat :: j < n ==> !Moved(readings, turns, j, d)
  {
    assert NotedAt(readings, turns, notes, n - 1);
    if n > 1 {
      MovedLastAt(readings, turns, memory, notes, n - 1, d);
      StuckIsUnmoved(readings, turns, memory, n - 1, d);
    }
  }

  // ------------------------------------------------------------------ keepers

  /** What check `j` finds about keeper `k`: unknown, unhealthy, healthy, or healthy again after the document showed it unhealthy. */
  ghost function HealthMark(readings: seq<Reading>, turns: seq<Tenures.Turn>, j: nat, k: string): Mark<()>
    requires j < |readings| && j < |turns|
  {
    if j == 0 || k !in turns[j].reported.keepers then Silent
    else if !turns[j].reported.keepers[k].healthy then Cleared
    else if k in readings[j].cd.keepers && !readings[j].cd.keepers[k].healthy then Anew(())
    else Is(())
  }

  ghost function HealthMarks(readings: seq<Reading>, turns: seq<Tenures.Turn>, k: string): seq<Mark<()>>
    requires |turns| <= |readings|
  {
    seq(|turns|, j requires 0 <= j < |turns| => HealthMark(readings, turns, j, k))
  }

  ghost function Times(readings: seq<Reading>, turns: seq<Tenures.Turn>): seq<int>
    requires |turns| <= |readings|
  {
    seq(|turns|, j requires 0 <= j < |turns| => readings[j].now)
  }

  ghost function HealthMemo(note: Note, k: string): Option<Memo<()>> {
    if k in note.healthySince then Some(Memo((), note.healthySince[k])) else None
  }

  lemma HealthRemembers(readings: seq<Reading>, turns: seq<Tenures.Turn>, notes: seq<Note>, k: string)
    requires NotesKept(readings, turns, notes) && |turns| > 0
    ensures Remembered(HealthMarks(readings, turns, k), Times(readings, turns), seq(|notes|, i requires 0 <= i < |notes| => HealthMemo(notes[i], k)))
  {
    forall i | 0 <= i < |turns|
      ensures HealthMemo(notes[i + 1], k) == Next(HealthMemo(notes[i], k), HealthMark(readings, turns, i, k), readings[i].now)
    {
      assert NotedAt(readings, turns, notes, i);
    }
  }

  /** A keeper has been healthy since the check that found it so and since which none has found it unhealthy, or healthy again. */
  lemma HealthySinceIff(readings: seq<Reading>, turns: seq<Tenures.Turn>, notes: seq<Note>, i: nat, k: string, t: int)
    requires NotesKept(readings, turns, notes) && i < |turns|
    ensures k in notes[i + 1].healthySince && notes[i + 1].healthySince[k] == t
            <==> HeldFrom(HealthMarks(readings, turns, k), Times(readings, turns), i + 1, (), t)
  {
    var memos := seq(|notes|, j requires 0 <= j < |notes| => HealthMemo(notes[j], k));
    HealthRemembers(readings, turns, notes, k);
    assert memos[i + 1] == HealthMemo(notes[i + 1], k);
    MemoIff(HealthMarks(readings, turns, k), Times(readings, turns), memos, i + 1, (), t);
  }
}
