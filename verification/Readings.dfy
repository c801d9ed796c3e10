/**
 * What the checks of a tenure read, and what they make of it.  A keeper's report
 * is believed as long as it is new; health is judged by the reports believed.
 * Both are put here in terms of the readings alone.
 */
module Readings {
  import opened Cluster
  import opened Reconcile
  import Health
  import Invariant
  import Tenures

  /** The reports a check believes: on the first check of a tenure none, later the fresh ones. */
  function Believed(infos: map<string, Health.KeeperInfo>, sightings: map<string, Health.Sighting>, sleep: int, now: int, firstRun: bool): map<string, Health.KeeperInfo> {
    if firstRun then map[] else Health.FreshInfos(infos, sightings, sleep, now)
  }

  /** What is remembered of the reports once the document is written. */
  function Noted(infos: map<string, Health.KeeperInfo>, sightings: map<string, Health.Sighting>, now: int, firstRun: bool): map<string, Health.Sighting> {
    if firstRun then sightings + Health.Unseen(infos) else Health.NextSightings(infos, sightings, now)
  }

  /** What one check reads from the store and the clock, and whether its write goes through. */
  datatype Reading = Reading(
    cd: ClusterData,
    infos: map<string, Health.KeeperInfo>,
    forced: set<string>,
    proxies: map<string, nat>,
    uids: seq<string>,
    sleep: int,
    now: int,
    written: bool
  ) {
    ghost predicate Usable() { Inv(cd) && Invariant.Fresh(cd, uids) && 1 <= |uids| && |cd.keepers| + |infos| <= |uids| }

    /** `turn` is a check of this reading. */
    ghost predicate Answered(turn: Tenures.Turn) {
      && turn.cd == cd && turn.now == now && turn.forced == forced && turn.written == written
      && forall k :: k in turn.current ==> k in infos && turn.current[k] == infos[k]
    }
  }

  lemma IsAnswered(c: Reading, sightings: map<string, Health.Sighting>, firstRun: bool, turn: Tenures.Turn)
    requires turn.cd == c.cd && turn.now == c.now && turn.forced == c.forced && turn.written == c.written
    requires turn.current == Believed(c.infos, sightings, c.sleep, c.now, firstRun)
    ensures c.Answered(turn)
  {
  }

  ghost predicate AnsweredAt(readings: seq<Reading>, turns: seq<Tenures.Turn>, i: nat)
    requires i < |readings| && i < |turns|
  {
    readings[i].Answered(turns[i])
  }

  lemma OneMoreAnswered(readings: seq<Reading>, turns: seq<Tenures.Turn>, turn: Tenures.Turn)
    requires |turns| < |readings| && readings[|turns|].Answered(turn)
    requires forall i :: 0 <= i < |turns| ==> AnsweredAt(readings, turns, i)
    ensures forall i :: 0 <= i <= |turns| ==> AnsweredAt(readings, turns + [turn], i)
  {
    forall i | 0 <= i < |turns|
      ensures AnsweredAt(readings, turns + [turn], i)
    {
      assert AnsweredAt(readings, turns, i);
    }
  }

  /** The sightings after a check: they move on only once the document has been written. */
  function Saved(c: Reading, ok: bool, sightings: map<string, Health.Sighting>, firstRun: bool): map<string, Health.Sighting> {
    if ok && c.written then Noted(c.infos, sightings, c.now, firstRun) else sightings
  }

  // ------------------------------------------------------------------ a tenure

  /** What check `i` believes goes by what is remembered before it, and what is remembered after it by what it read. */
  ghost predicate RecallsAt(readings: seq<Reading>, turns: seq<Tenures.Turn>, memory: seq<map<string, Health.Sighting>>, i: nat)
    requires i < |readings| && i < |turns| && i + 1 < |memory|
  {
    && turns[i].current == Believed(readings[i].infos, memory[i], readings[i].sleep, readings[i].now, i == 0)
    && memory[i + 1] == Saved(readings[i], turns[i].result.Some?, memory[i], i == 0)
  }

  /** The checks `turns` of a tenure were made of `readings`, with `memory` the sightings before and after each. */
  ghost predicate Recalls(readings: seq<Reading>, turns: seq<Tenures.Turn>, memory: seq<map<string, Health.Sighting>>) {
    && |readings| >= |turns| && |memory| == |turns| + 1 && memory[0] == map[]
    && (forall i :: 0 <= i < |turns| ==> AnsweredAt(readings, turns, i))
    && forall i :: 0 <= i < |turns| ==> RecallsAt(readings, turns, memory, i)
  }

  lemma RecallsOneMore(readings: seq<Reading>, turns: seq<Tenures.Turn>, memory: seq<map<string, Health.Sighting>>,
                       turn: Tenures.Turn, sightings: map<string, Health.Sighting>)
    requires Recalls(readings, turns, memory) && |turns| < |readings|
    requires var c, first, before := readings[|turns|], turns == [], memory[|turns|];
             && c.Answered(turn)
             && turn.current == Believed(c.infos, before, c.sleep, c.now, first)
             && sightings == Saved(c, turn.result.Some?, before, first)
    ensures Recalls(readings, turns + [turn], memory + [sightings])
  {
    OneMoreAnswered(readings, turns, turn);
    forall i | 0 <= i < |turns|
      ensures RecallsAt(readings, turns + [turn], memory + [sightings], i)
    {
      assert RecallsAt(readings, turns, memory, i);
    }
  }

  // ------------------------------------------------------------ new and stale

  /** Check `j` read a report of keeper `k`, and its document was written. */
  ghost predicate Showed(readings: seq<Reading>, turns: seq<Tenures.Turn>, j: nat, k: string)
    requires j < |readings| && j < |turns|
  {
    turns[j].result.Some? && readings[j].written && k in readings[j].infos
  }

  /** It read report `u`. */
  ghost predicate ShowedUid(readings: seq<Reading>, turns: seq<Tenures.Turn>, j: nat, k: string, u: string)
    requires j < |readings| && j < |turns|
  {
    Showed(readings, turns, j, k) && readings[j].infos[k].infoUid == u
  }

  /** It read another one. */
  ghost predicate ShowedOther(readings: seq<Reading>, turns: seq<Tenures.Turn>, j: nat, k: string, u: string)
    requires j < |readings| && j < |turns|
  {
    Showed(readings, turns, j, k) && readings[j].infos[k].infoUid != u
  }

  ghost predicate OtherBetween(readings: seq<Reading>, turns: seq<Tenures.Turn>, a: nat, b: nat, k: string, u: string)
    requires b <= |readings| && b <= |turns|
  {
    exists l :: a < l < b && ShowedOther(readings, turns, l, k, u)
  }

  /** Report `u` of `k` has been there since check `a`: that read it, none before check `n` read another one, and before `a` there was another. */
  ghost predicate ThereSince(readings: seq<Reading>, turns: seq<Tenures.Turn>, a: nat, n: nat, k: string, u: string)
    requires n <= |readings| && n <= |turns|
  {
    && a < n
    && ShowedUid(readings, turns, a, k, u)
    && (forall j :: a <= j < n ==> !ShowedOther(readings, turns, j, k, u))
    && forall j :: 0 <= j < a && ShowedUid(readings, turns, j, k, u) ==> OtherBetween(readings, turns, j, a, k, u)
  }

  lemma OneSince(readings: seq<Reading>, turns: seq<Tenures.Turn>, a: nat, b: nat, n: nat, k: string, u: string, v: string)
    requires n <= |readings| && n <= |turns|
    requires ThereSince(readings, turns, a, n, k, u) && ThereSince(readings, turns, b, n, k, v)
    ensures a == b && u == v
  {
    assert a <= b ==> !ShowedOther(readings, turns, b, k, u);
    assert b <= a ==> !ShowedOther(readings, turns, a, k, v);
    assert a < b ==> OtherBetween(readings, turns, a, b, k, u);
    assert b < a ==> OtherBetween(readings, turns, b, a, k, u);
  }

  /** What is remembered of `k` is the report there, since when, and whether that was the first check. */
  ghost predicate RemembersStart(readings: seq<Reading>, turns: seq<Tenures.Turn>, n: nat, k: string, s: Health.Sighting, a: nat)
    requires n <= |readings| && n <= |turns|
  {
    && ThereSince(readings, turns, a, n, k, s.infoUid)
    && (s.seen <==> a > 0)
    && (a > 0 ==> s.timer == readings[a].now)
  }

  ghost predicate Remembers(readings: seq<Reading>, turns: seq<Tenures.Turn>, n: nat, k: string, s: Health.Sighting)
    requires n <= |readings| && n <= |turns|
  {
    exists a: nat :: RemembersStart(readings, turns, n, k, s, a)
  }

  /** A check that shows nothing new of `k` leaves it there. */
  lemma StillThere(readings: seq<Reading>, turns: seq<Tenures.Turn>, a: nat, n: nat, k: string, u: string)
    requires n < |readings| && n < |turns| && ThereSince(readings, turns, a, n, k, u) && !ShowedOther(readings, turns, n, k, u)
    ensures ThereSince(readings, turns, a, n + 1, k, u)
  {
  }

  /** A check that shows a new report of `k` is where that starts. */
  lemma StartsHere(readings: seq<Reading>, turns: seq<Tenures.Turn>, n: nat, k: string, u: string)
    requires n < |readings| && n < |turns| && ShowedUid(readings, turns, n, k, u)
    requires forall j :: 0 <= j < n && ShowedUid(readings, turns, j, k, u) ==> OtherBetween(readings, turns, j, n, k, u)
    ensures ThereSince(readings, turns, n, n + 1, k, u)
  {
  }

  /** If another report is there, everything earlier has been replaced. */
  lemma OtherIsThere(readings: seq<Reading>, turns: seq<Tenures.Turn>, a: nat, n: nat, k: string, u: string, v: string)
    requires n <= |readings| && n <= |turns| && ThereSince(readings, turns, a, n, k, v) && u != v
    ensures forall j :: 0 <= j < n && ShowedUid(readings, turns, j, k, u) ==> OtherBetween(readings, turns, j, n, k, u)
  {
    forall j | 0 <= j < n && ShowedUid(readings, turns, j, k, u)
      ensures OtherBetween(readings, turns, j, n, k, u)
    {
      assert j >= a ==> !ShowedOther(readings, turns, j, k, v);
      assert ShowedOther(readings, turns, a, k, u);
    }
  }

  /** The sightings remember, of each keeper, the report that is there and since when. */
  lemma {:induction false} SightingsRemember(readings: seq<Reading>, turns: seq<Tenures.Turn>, memory: seq<map<string, Health.Sighting>>, n: nat, k: string)
    requires Recalls(readings, turns, memory) && n <= |turns|
    ensures k in memory[n] ==> Remembers(readings, turns, n, k, memory[n][k])
    ensures k !in memory[n] ==> forall j: nat :: j < n ==> !Showed(readings, turns, j, k)
  {
    if n > 0 {
      SightingsRemember(readings, turns, memory, n - 1, k);
      assert RecallsAt(readings, turns, memory, n - 1);
      OneMoreRemembered(readings, turns, memory[n - 1], memory[n], n - 1, k);
    }
  }

  lemma OneMoreRemembered(readings: seq<Reading>, turns: seq<Tenures.Turn>, before: map<string, Health.Sighting>, after: map<string, Health.Sighting>, n: nat, k: string)
    requires n < |readings| && n < |turns|
    requires after == Saved(readings[n], turns[n].result.Some?, before, n == 0)
    requires k in before ==> Remembers(readings, turns, n, k, before[k])
    requires k !in before ==> forall j: nat :: j < n ==> !Showed(readings, turns, j, k)
    ensures k in after ==> Remembers(readings, turns, n + 1, k, after[k])
    ensures k !in after ==> forall j: nat :: j < n + 1 ==> !Showed(readings, turns, j, k)
  {
    if !Showed(readings, turns, n, k) {
      UnshownStays(readings, turns, before, after, n, k);
    } else {
      var u := readings[n].infos[k].infoUid;
      if k in before {
        var a: nat :| RemembersStart(readings, turns, n, k, before[k], a);
        if before[k].infoUid == u {
          StillThere(readings, turns, a, n, k, u);
          assert after[k] == before[k];
          assert RemembersStart(readings, turns, n + 1, k, after[k], a);
        } else {
          OtherIsThere(readings, turns, a, n, k, u, before[k].infoUid);
          StartsHere(readings, turns, n, k, u);
          assert RemembersStart(readings, turns, n + 1, k, after[k], n);
        }
      } else {
        StartsHere(readings, turns, n, k, u);
        assert RemembersStart(readings, turns, n + 1, k, after[k], n);
      }
    }
  }

  lemma UnshownStays(readings: seq<Reading>, turns: seq<Tenures.Turn>, before: map<string, Health.Sighting>, after: map<string, Health.Sighting>, n: nat, k: string)
    requires n < |readings| && n < |turns| && !Showed(readings, turns, n, k)
    requires after == Saved(readings[n], turns[n].result.Some?, before, n == 0)
    requires k in before ==> Remembers(readings, turns, n, k, before[k])
    ensures k in after <==> k in before
    ensures k in after ==> Remembers(readings, turns, n + 1, k, after[k])
  {
    if k in before {
      var a: nat :| RemembersStart(readings, turns, n, k, before[k], a);
      StillThere(readings, turns, a, n, k, before[k].infoUid);
      assert RemembersStart(readings, turns, n + 1, k, after[k], a);
    }
  }

  /**
   * Check `i` has heard keeper `k`: it is not the first check, it read a report,
   * and that is not the one noted by the first check, nor one that has been there
   * for longer than the sleep interval.
   */
  ghost predicate HeardAt(readings: seq<Reading>, turns: seq<Tenures.Turn>, i: nat, k: string)
    requires i < |readings| && i < |turns|
  {
    && i > 0 && k in readings[i].infos
    && forall a: nat :: ThereSince(readings, turns, a, i, k, readings[i].infos[k].infoUid) ==>
         a > 0 && readings[i].now - readings[a].now <= readings[i].sleep
  }

  /** A check believes exactly the reports of the keepers it has heard. */
  lemma BelievedIffHeard(readings: seq<Reading>, turns: seq<Tenures.Turn>, memory: seq<map<string, Health.Sighting>>, i: nat, k: string)
    requires Recalls(readings, turns, memory) && i < |turns|
    ensures k in turns[i].current <==> HeardAt(readings, turns, i, k)
    ensures k in turns[i].current ==> turns[i].current[k] == readings[i].infos[k]
  {
    assert RecallsAt(readings, turns, memory, i);
    SightingsRemember(readings, turns, memory, i, k);
    if i > 0 && k in readings[i].infos {
      FreshIffHeard(readings, turns, memory[i], i, k);
    }
  }

  lemma FreshIffHeard(readings: seq<Reading>, turns: seq<Tenures.Turn>, sightings: map<string, Health.Sighting>, i: nat, k: string)
    requires 0 < i < |readings| && i < |turns| && k in readings[i].infos
    requires k in sightings ==> Remembers(readings, turns, i, k, sightings[k])
    requires k !in sightings ==> forall j: nat :: j < i ==> !Showed(readings, turns, j, k)
    ensures Health.IsFresh(readings[i].infos[k], k, sightings, readings[i].sleep, readings[i].now) <==> HeardAt(readings, turns, i, k)
  {
    var u := readings[i].infos[k].infoUid;
    if k in sightings {
      var a: nat :| RemembersStart(readings, turns, i, k, sightings[k], a);
      forall b: nat | ThereSince(readings, turns, b, i, k, u)
        ensures a == b && u == sightings[k].infoUid
      {
        OneSince(readings, turns, a, b, i, k, sightings[k].infoUid, u);
      }
    }
  }

  /** A report that no written check of the tenure has read before is believed. */
  lemma NewIsBelieved(readings: seq<Reading>, turns: seq<Tenures.Turn>, memory: seq<map<string, Health.Sighting>>, i: nat, k: string)
    requires Recalls(readings, turns, memory) && 0 < i < |turns| && k in readings[i].infos
    requires forall j: nat :: j < i && Showed(readings, turns, j, k) ==> readings[j].infos[k].infoUid != readings[i].infos[k].infoUid
    ensures k in turns[i].current && turns[i].current[k] == readings[i].infos[k]
  {
    BelievedIffHeard(readings, turns, memory, i, k);
  }

  /** A report that has been there since a written check is not believed any more once the sleep interval has passed since that. */
  lemma StaleIsNotBelieved(readings: seq<Reading>, turns: seq<Tenures.Turn>, memory: seq<map<string, Health.Sighting>>, a: nat, i: nat, k: string)
    requires Recalls(readings, turns, memory) && a < i < |turns| && k in readings[i].infos && Showed(readings, turns, a, k)
    requires forall j: nat :: a <= j < i && k in readings[j].infos ==> readings[j].infos[k].infoUid == readings[i].infos[k].infoUid
    requires forall x: nat, y: nat :: x <= y < |turns| ==> readings[x].now <= readings[y].now
    requires readings[i].now - readings[a].now > readings[i].sleep
    ensures k !in turns[i].current
  {
    BelievedIffHeard(readings, turns, memory, i, k);
    var u := readings[i].infos[k].infoUid;
    var b := StartOf(readings, turns, a, i, k, u);
    assert readings[b].now <= readings[a].now;
  }

  /** A report that is there at `a` and stays has been there since some check up to `a`. */
  lemma {:induction false} StartOf(readings: seq<Reading>, turns: seq<Tenures.Turn>, a: nat, i: nat, k: string, u: string) returns (b: nat)
    requires a < i <= |readings| && i <= |turns| && ShowedUid(readings, turns, a, k, u)
    requires forall j :: a <= j < i ==> !ShowedOther(readings, turns, j, k, u)
    ensures b <= a && ThereSince(readings, turns, b, i, k, u)
    decreases a
  {
    b := a;
    if !ThereSince(readings, turns, a, i, k, u) {
      var j :| 0 <= j < a && ShowedUid(readings, turns, j, k, u) && !OtherBetween(readings, turns, j, a, k, u);
      b := StartOf(readings, turns, j, i, k, u);
    }
  }

  // ------------------------------------------------------------------- health

  /** Check `j` knew keeper `k` and has not heard it. */
  ghost predicate MissedAt(readings: seq<Reading>, turns: seq<Tenures.Turn>, j: nat, k: string)
    requires j < |readings| && j < |turns|
  {
    j > 0 && k in readings[j].cd.keepers && !HeardAt(readings, turns, j, k)
  }

  ghost predicate HeardBetween(readings: seq<Reading>, turns: seq<Tenures.Turn>, a: nat, b: nat, k: string)
    requires b <= |readings| && b <= |turns|
  {
    exists l :: a < l < b && HeardAt(readings, turns, l, k)
  }

  /** `k` has been missed since check `start`, and not before that since it was last heard. */
  ghost predicate MissedSince(readings: seq<Reading>, turns: seq<Tenures.Turn>, start: nat, i: nat, k: string)
    requires i < |readings| && i < |turns|
  {
    && start <= i && MissedAt(readings, turns, start, k)
    && (forall j :: start <= j <= i ==> !HeardAt(readings, turns, j, k))
    && forall j :: 0 <= j < start && MissedAt(readings, turns, j, k) ==> HeardBetween(readings, turns, j, start, k)
  }

  /** The rounds of the keepers' timers, seen from the readings. */
  lemma RoundIsReading(readings: seq<Reading>, turns: seq<Tenures.Turn>, memory: seq<map<string, Health.Sighting>>, j: nat, k: string)
    requires Recalls(readings, turns, memory) && Tenures.IsTenure(turns) && 0 < j < |turns|
    ensures var round := Tenures.RoundsOf(turns)[j - 1];
            && round.now == readings[j].now
            && (Health.Heard(round, k) <==> HeardAt(readings, turns, j, k))
            && (k in round.silent <==> MissedAt(readings, turns, j, k))
  {
    BelievedIffHeard(readings, turns, memory, j, k);
    Tenures.KnownOrHeard(turns, j);
    assert AnsweredAt(readings, turns, j);
  }

  lemma AllRounds(readings: seq<Reading>, turns: seq<Tenures.Turn>, memory: seq<map<string, Health.Sighting>>, k: string)
    requires Recalls(readings, turns, memory) && Tenures.IsTenure(turns) && |turns| > 0
    ensures forall j: nat :: j < |turns| - 1 ==> RoundAgrees(readings, turns, j, k)
  {
    forall j: nat | j < |turns| - 1
      ensures RoundAgrees(readings, turns, j, k)
    {
      RoundIsReading(readings, turns, memory, j + 1, k);
    }
  }

  /** Round `j` of the timers is check `j + 1`. */
  ghost predicate RoundAgrees(readings: seq<Reading>, turns: seq<Tenures.Turn>, j: nat, k: string)
    requires |readings| >= |turns| && j + 1 < |turns|
  {
    var round := Tenures.RoundsOf(turns)[j];
    && round.now == readings[j + 1].now
    && (Health.Heard(round, k) <==> HeardAt(readings, turns, j + 1, k))
    && (k in round.silent <==> MissedAt(readings, turns, j + 1, k))
  }

  lemma BetweenAgrees(readings: seq<Reading>, turns: seq<Tenures.Turn>, a: nat, b: nat, k: string)
    requires |readings| >= |turns| && b < |turns|
    requires forall j: nat :: j < |turns| - 1 ==> RoundAgrees(readings, turns, j, k)
    ensures Health.HeardBetween(Tenures.RoundsOf(turns), a, b, k) <==> HeardBetween(readings, turns, a + 1, b + 1, k)
  {
    var rounds := Tenures.RoundsOf(turns);
    if Health.HeardBetween(rounds, a, b, k) {
      var l :| a < l < b && Health.Heard(rounds[l], k);
      assert RoundAgrees(readings, turns, l, k);
      assert HeardAt(readings, turns, l + 1, k);
    }
    if HeardBetween(readings, turns, a + 1, b + 1, k) {
      var l :| a + 1 < l < b + 1 && HeardAt(readings, turns, l, k);
      assert RoundAgrees(readings, turns, l - 1, k);
      assert Health.Heard(rounds[l - 1], k);
    }
  }

  lemma SilenceIsMissed(readings: seq<Reading>, turns: seq<Tenures.Turn>, start: nat, i: nat, k: string)
    requires |readings| >= |turns| && start < i < |turns|
    requires forall j: nat :: j < |turns| - 1 ==> RoundAgrees(readings, turns, j, k)
    ensures Health.SilentSince(Tenures.RoundsOf(turns), start, i - 1, k) ==> MissedSince(readings, turns, start + 1, i, k)
  {
    var rounds := Tenures.RoundsOf(turns);
    if Health.SilentSince(rounds, start, i - 1, k) {
      assert RoundAgrees(readings, turns, start, k);
      forall j | start + 1 <= j <= i
        ensures !HeardAt(readings, turns, j, k)
      {
        assert RoundAgrees(readings, turns, j - 1, k) && !Health.Heard(rounds[j - 1], k);
      }
      forall j | 0 <= j < start + 1 && MissedAt(readings, turns, j, k)
        ensures HeardBetween(readings, turns, j, start + 1, k)
      {
        assert RoundAgrees(readings, turns, j - 1, k) && k in rounds[j - 1].silent;
        BetweenAgrees(readings, turns, j - 1, start, k);
      }
    }
  }

  lemma MissedIsSilence(readings: seq<Reading>, turns: seq<Tenures.Turn>, start: nat, i: nat, k: string)
    requires |readings| >= |turns| && start < i < |turns|
    requires forall j: nat :: j < |turns| - 1 ==> RoundAgrees(readings, turns, j, k)
    ensures MissedSince(readings, turns, start + 1, i, k) ==> Health.SilentSince(Tenures.RoundsOf(turns), start, i - 1, k)
  {
    var rounds := Tenures.RoundsOf(turns);
    if MissedSince(readings, turns, start + 1, i, k) {
      assert RoundAgrees(readings, turns, start, k);
      forall j | start <= j <= i - 1
        ensures !Health.Heard(rounds[j], k)
      {
        assert RoundAgrees(readings, turns, j, k) && !HeardAt(readings, turns, j + 1, k);
      }
      forall j | 0 <= j < start && k in rounds[j].silent
        ensures Health.HeardBetween(rounds, j, start, k)
      {
        assert RoundAgrees(readings, turns, j, k) && MissedAt(readings, turns, j + 1, k);
        BetweenAgrees(readings, turns, j, start, k);
      }
    }
  }

  /** `k` has been missed for longer than the interval. */
  ghost predicate MissedTooLong(readings: seq<Reading>, turns: seq<Tenures.Turn>, i: nat, k: string, interval: int)
    requires i < |readings| && i < |turns|
  {
    exists start: nat :: MissedSince(readings, turns, start, i, k) && readings[i].now - readings[start].now > interval
  }

  lemma TooLongAgrees(readings: seq<Reading>, turns: seq<Tenures.Turn>, i: nat, k: string, interval: int)
    requires |readings| >= |turns| && 0 < i < |turns|
    requires forall j: nat :: j < |turns| - 1 ==> RoundAgrees(readings, turns, j, k)
    ensures Health.TooLong(Tenures.RoundsOf(turns), i - 1, k, interval) <==> MissedTooLong(readings, turns, i, k, interval)
  {
    var rounds := Tenures.RoundsOf(turns);
    assert RoundAgrees(readings, turns, i - 1, k);
    if Health.TooLong(rounds, i - 1, k, interval) {
      var start: nat :| Health.SilentSince(rounds, start, i - 1, k) && rounds[i - 1].now - rounds[start].now > interval;
      SilenceIsMissed(readings, turns, start, i, k);
      assert RoundAgrees(readings, turns, start, k);
      assert MissedSince(readings, turns, start + 1, i, k);
    }
    if MissedTooLong(readings, turns, i, k, interval) {
      var start: nat :| MissedSince(readings, turns, start, i, k) && readings[i].now - readings[start].now > interval;
      MissedIsSilence(readings, turns, start - 1, i, k);
      assert RoundAgrees(readings, turns, start - 1, k);
      assert Health.SilentSince(rounds, start - 1, i - 1, k);
    }
  }

  /**
   * At every check of a tenure but the first, a keeper counts as healthy if and
   * only if no operator declared it failed and it has not been missed for longer
   * than the fail interval.
   */
  lemma HealthyUnlessMissed(readings: seq<Reading>, turns: seq<Tenures.Turn>, memory: seq<map<string, Health.Sighting>>, i: nat, k: string)
    requires Recalls(readings, turns, memory) && Tenures.IsTenure(turns) && 0 < i < |turns| && k in turns[i].reported.keepers
    ensures turns[i].reported.keepers[k].healthy
            <==> k !in readings[i].forced && !MissedTooLong(readings, turns, i, k, readings[i].cd.spec.failInterval)
  {
    AllRounds(readings, turns, memory, k);
    TooLongAgrees(readings, turns, i, k, readings[i].cd.spec.failInterval);
    Tenures.UnhealthyIffSilentTooLong(turns, i, k);
    assert AnsweredAt(readings, turns, i);
  }

  /** Check `j` read no healthy report about database `d` from its keeper, or has not heard that. */
  ghost predicate FailsAt(readings: seq<Reading>, turns: seq<Tenures.Turn>, j: nat, d: string)
    requires j < |readings| && j < |turns| && d in readings[j].cd.dbs
  {
    var k := readings[j].cd.dbs[d].spec.keeper;
    !(&& HeardAt(readings, turns, j, k)
      && readings[j].infos[k].pg.Some? && readings[j].infos[k].pg.value.uid == readings[j].cd.dbs[d].uid
      && readings[j].infos[k].pg.value.healthy)
  }

  /** Check `j` as a round: the databases of the document, and those that fail. */
  ghost function DbRound(readings: seq<Reading>, turns: seq<Tenures.Turn>, j: nat): Health.Round
    requires j < |readings| && j < |turns|
  {
    Health.Round(readings[j].now, readings[j].cd.dbs.Keys, set d | d in readings[j].cd.dbs && FailsAt(readings, turns, j, d))
  }

  /** The checks after the first. */
  ghost function DbRounds(readings: seq<Reading>, turns: seq<Tenures.Turn>): seq<Health.Round>
    requires 0 < |turns| <= |readings|
  {
    seq(|turns| - 1, j requires 0 <= j < |turns| - 1 => DbRound(readings, turns, j + 1))
  }

  lemma OneDbRound(readings: seq<Reading>, turns: seq<Tenures.Turn>, memory: seq<map<string, Health.Sighting>>, j: nat)
    requires Recalls(readings, turns, memory) && j < |turns|
    ensures DbRound(readings, turns, j) == Tenures.DbRoundOf(turns[j])
  {
    assert AnsweredAt(readings, turns, j);
    forall d | d in readings[j].cd.dbs
      ensures FailsAt(readings, turns, j, d) <==> Health.DbFailing(readings[j].cd.dbs[d], turns[j].current)
    {
      BelievedIffHeard(readings, turns, memory, j, readings[j].cd.dbs[d].spec.keeper);
    }
    assert DbRound(readings, turns, j).silent == Tenures.DbRoundOf(turns[j]).silent;
  }

  /**
   * At every check of a tenure but the first, a database counts as healthy if and
   * only if its keeper does and it has not been failing for longer than the fail
   * interval.
   */
  lemma DbHealthyUnlessFailing(readings: seq<Reading>, turns: seq<Tenures.Turn>, memory: seq<map<string, Health.Sighting>>, i: nat, d: string)
    requires Recalls(readings, turns, memory) && Tenures.IsTenure(turns) && 0 < i < |turns|
    requires d in readings[i].cd.dbs && d in turns[i].reported.dbs
    ensures var k := readings[i].cd.dbs[d].spec.keeper;
            turns[i].reported.dbs[d].status.healthy <==>
              && k in turns[i].reported.keepers && turns[i].reported.keepers[k].healthy
              && !Health.TooLong(DbRounds(readings, turns), i - 1, d, readings[i].cd.spec.failInterval)
  {
    forall j | 0 <= j < |turns| - 1
      ensures DbRounds(readings, turns)[j] == Tenures.DbRoundsOf(turns)[j]
    {
      OneDbRound(readings, turns, memory, j + 1);
    }
    assert DbRounds(readings, turns) == Tenures.DbRoundsOf(turns);
    assert AnsweredAt(readings, turns, i);
    Tenures.DbUnhealthyIffFailingTooLong(turns, i, d);
  }

  // ----------------------------------------------------- what is taken over

  /** A check takes over what it has heard about a database, the in-sync standbys just for itself, and nothing else. */
  lemma ReportTakenOver(readings: seq<Reading>, turns: seq<Tenures.Turn>, memory: seq<map<string, Health.Sighting>>, i: nat, d: string)
    requires Recalls(readings, turns, memory) && Tenures.IsTenure(turns) && i < |turns| && d in readings[i].cd.dbs
    ensures d in turns[i].reported.dbs
    ensures var was, told := readings[i].cd.dbs[d], turns[i].reported.dbs[d];
            var k := was.spec.keeper;
            var heard := HeardAt(readings, turns, i, k) && readings[i].infos[k].pg.Some? && readings[i].infos[k].pg.value.uid == was.uid;
            && told.spec == was.spec && told.generation == was.generation
            && told.status.syncStandbys == was.status.syncStandbys && told.status.orphans == was.status.orphans
            && told.status.generation == (if heard then readings[i].infos[k].pg.value.generation else was.status.generation)
            && (if heard && readings[i].infos[k].pg.value.healthy then
                  var pg := readings[i].infos[k].pg.value;
                  && told.status.reportedSync == pg.sync && told.status.systemId == pg.systemId && told.status.timeline == pg.timeline
                  && told.status.xlog == pg.xlog && told.status.history == pg.history && told.status.olderWal == pg.olderWal
                else
                  && told.status.reportedSync == {} && told.status.systemId == was.status.systemId && told.status.timeline == was.status.timeline
                  && told.status.xlog == was.status.xlog && told.status.history == was.status.history && told.status.olderWal == was.status.olderWal)
  {
    assert AnsweredAt(readings, turns, i);
    Tenures.ReportsAreMerged(turns, i);
    BelievedIffHeard(readings, turns, memory, i, readings[i].cd.dbs[d].spec.keeper);
    Health.StatusTable(readings[i].cd.dbs[d], turns[i].current, turns[i].reported.dbs[d].status.healthy);
  }

  /** A keeper appears when it is heard for the first time, and is then taken at its word about itself. */
  lemma KeeperTakenOver(readings: seq<Reading>, turns: seq<Tenures.Turn>, memory: seq<map<string, Health.Sighting>>, i: nat, k: string)
    requires Recalls(readings, turns, memory) && Tenures.IsTenure(turns) && i < |turns| && readings[i].cd.Consistent()
    ensures var was, told, heard := readings[i].cd.keepers, turns[i].reported.keepers, HeardAt(readings, turns, i, k);
            && (k in told <==> k in was || heard)
            && (heard ==>
                  var info := readings[i].infos[k];
                  told[k].canBeMaster == info.canBeMaster && told[k].canBeSync == info.canBeSync && told[k].priority == info.priority)
            && (k in was && !heard ==>
                  told[k].canBeMaster == was[k].canBeMaster && told[k].canBeSync == was[k].canBeSync && told[k].priority == was[k].priority)
            && (k in told && i > 0 && told[k].healthy ==> told[k].lastHealthy == readings[i].now)
            && (k in was && i > 0 && !told[k].healthy ==> told[k].lastHealthy == was[k].lastHealthy)
            && (k in was && i == 0 ==> told[k] == was[k])
  {
    assert AnsweredAt(readings, turns, i);
    Tenures.ReportsAreMerged(turns, i);
    BelievedIffHeard(readings, turns, memory, i, k);
    if i > 0 {
      Health.KeeperTable(readings[i].cd.keepers, turns[i].current, readings[i].now, turns[i].reported.keepers, k);
    }
  }
}
