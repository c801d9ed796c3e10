/**
 * How a sentinel judges health: which keeper reports are fresh, how long a
 * keeper or database has been in error, and what a report does to the document.
 */
module Health {
  import opened Cluster
  import opened Options
  import Timeline

  /** What a keeper says about its PostgreSQL instance. */
  datatype PgState = PgState(
    uid: string,
    generation: nat,
    healthy: bool,
    systemId: string,
    timeline: nat,
    xlog: Lsn,
    history: seq<Timeline.Switch>,
    sync: set<string>,
    olderWal: string
  )

  /** A keeper's report; `infoUid` changes whenever it is renewed. */
  datatype KeeperInfo = KeeperInfo(
    infoUid: string,
    canBeMaster: Option<bool>,
    canBeSync: Option<bool>,
    priority: int,
    pg: Option<PgState>
  )

  /** The last report seen of a keeper, and since when. */
  datatype Sighting = Sighting(infoUid: string, seen: bool, timer: int)

  predicate IsFresh(info: KeeperInfo, k: string, sightings: map<string, Sighting>, sleep: int, now: int) {
    k in sightings && sightings[k].infoUid == info.infoUid ==> sightings[k].seen && now - sightings[k].timer <= sleep
  }

  function FreshInfos(infos: map<string, KeeperInfo>, sightings: map<string, Sighting>, sleep: int, now: int): map<string, KeeperInfo> {
    map k | k in infos && IsFresh(infos[k], k, sightings, sleep, now) :: infos[k]
  }

  function NextSightings(infos: map<string, KeeperInfo>, sightings: map<string, Sighting>, now: int): map<string, Sighting> {
    map k | k in sightings.Keys + infos.Keys ::
      if k in infos && (k in sightings ==> sightings[k].infoUid != infos[k].infoUid) then Sighting(infos[k].infoUid, true, now)
      else sightings[k]
  }

  /** On the first check of a tenure every report is noted without being taken as seen. */
  function Unseen(infos: map<string, KeeperInfo>): map<string, Sighting> {
    map k | k in infos :: Sighting(infos[k].infoUid, false, 0)
  }

  /** Error timers: a timer starts with the first failure and stops when there is none. */
  function NextTimers(timers: map<string, int>, uids: set<string>, failing: set<string>, now: int): map<string, int> {
    map u | u in timers.Keys + failing && !(u in uids && u !in failing) :: if u in timers then timers[u] else now
  }

  /** Not in error, or not for longer than the interval. */
  predicate Trusted(timers: map<string, int>, u: string, interval: int, now: int) { u in timers ==> now - timers[u] <= interval }

  function NewKeeper(uid: string, info: KeeperInfo, now: int): Keeper { Keeper(uid, true, now, None, None, info.priority) }

  function WithNewKeepers(keepers: map<string, Keeper>, current: map<string, KeeperInfo>, now: int): map<string, Keeper> {
    map k | k in keepers.Keys + current.Keys :: if k in keepers then keepers[k] else NewKeeper(k, current[k], now)
  }

  function KeeperAfter(k: Keeper, current: map<string, KeeperInfo>, healthy: bool, now: int): Keeper {
    var told := if k.uid in current then k.(canBeMaster := current[k.uid].canBeMaster, canBeSync := current[k.uid].canBeSync, priority := current[k.uid].priority) else k;
    told.(healthy := healthy, lastHealthy := if healthy then now else k.lastHealthy)
  }

  /** Keepers heard for the first time are added, and every keeper takes over its report and the health found. */
  ghost predicate KeepersAfter(before: map<string, Keeper>, current: map<string, KeeperInfo>, now: int, next: map<string, Keeper>) {
    && next.Keys == before.Keys + current.Keys
    && forall k :: k in next ==> next[k] == KeeperAfter(WithNewKeepers(before, current, now)[k], current, next[k].healthy, now)
  }

  /** The report about `db`, if its keeper sent a fresh one about that very database. */
  function ReportOn(db: Db, current: map<string, KeeperInfo>): Option<PgState> {
    if db.spec.keeper in current && current[db.spec.keeper].pg.Some? && current[db.spec.keeper].pg.value.uid == db.uid
    then current[db.spec.keeper].pg else None
  }

  predicate DbFailing(db: Db, current: map<string, KeeperInfo>) { ReportOn(db, current).None? || !ReportOn(db, current).value.healthy }

  function FailingDbs(cd: ClusterData, current: map<string, KeeperInfo>): set<string> {
    set d | d in cd.dbs && DbFailing(cd.dbs[d], current)
  }

  /** The status of a database after its report; in-sync standbys count only from the report just read. */
  function StatusAfter(db: Db, current: map<string, KeeperInfo>, healthy: bool): DbStatus {
    var s := db.status.(reportedSync := {}, healthy := healthy);
    match ReportOn(db, current)
    case None => s
    case Some(pg) =>
      if pg.healthy then
        s.(generation := pg.generation, systemId := pg.systemId, timeline := pg.timeline, xlog := pg.xlog,
           history := pg.history, reportedSync := pg.sync, olderWal := pg.olderWal)
      else s.(generation := pg.generation)
  }

  /** What a report changes in the status of its database, field by field. */
  lemma StatusTable(db: Db, current: map<string, KeeperInfo>, healthy: bool)
    ensures var s, k := StatusAfter(db, current, healthy), db.spec.keeper;
            var told := k in current && current[k].pg.Some? && current[k].pg.value.uid == db.uid;
            && s.healthy == healthy && s.syncStandbys == db.status.syncStandbys && s.orphans == db.status.orphans
            && s.generation == (if told then current[k].pg.value.generation else db.status.generation)
            && (if told && current[k].pg.value.healthy then
                  var pg := current[k].pg.value;
                  && s.reportedSync == pg.sync && s.systemId == pg.systemId && s.timeline == pg.timeline && s.xlog == pg.xlog
                  && s.history == pg.history && s.olderWal == pg.olderWal
                else
                  && s.reportedSync == {} && s.systemId == db.status.systemId && s.timeline == db.status.timeline && s.xlog == db.status.xlog
                  && s.history == db.status.history && s.olderWal == db.status.olderWal)
  {
  }

  /** What a report changes in the record of its keeper; a healthy keeper's time is renewed. */
  lemma KeeperTable(before: map<string, Keeper>, current: map<string, KeeperInfo>, now: int, next: map<string, Keeper>, k: string)
    requires KeepersAfter(before, current, now, next) && forall x :: x in before ==> before[x].uid == x
    ensures k in next <==> k in before || k in current
    ensures k in next ==>
              && next[k].uid == k
              && (next[k].healthy ==> next[k].lastHealthy == now)
              && (!next[k].healthy ==> next[k].lastHealthy == if k in before then before[k].lastHealthy else now)
              && (k in current ==>
                    next[k].canBeMaster == current[k].canBeMaster && next[k].canBeSync == current[k].canBeSync && next[k].priority == current[k].priority)
              && (k !in current ==>
                    next[k].canBeMaster == before[k].canBeMaster && next[k].canBeSync == before[k].canBeSync && next[k].priority == before[k].priority)
  {
  }

  /** Standbys are taken as in sync only together with the generation of the same report. */
  lemma SyncComesWithGeneration(db: Db, current: map<string, KeeperInfo>, healthy: bool)
    requires StatusAfter(db, current, healthy).reportedSync != {}
    ensures ReportOn(db, current).Some? && ReportOn(db, current).value.uid == db.uid
    ensures StatusAfter(db, current, healthy).generation == ReportOn(db, current).value.generation
    ensures StatusAfter(db, current, healthy).reportedSync == ReportOn(db, current).value.sync
  {
  }

  /** The document after the reports `current` have been merged: nothing but statuses changes, and new keepers appear. */
  ghost predicate Merged(cd: ClusterData, current: map<string, KeeperInfo>, next: ClusterData) {
    && next == cd.(keepers := next.keepers, dbs := next.dbs)
    && cd.keepers.Keys <= next.keepers.Keys <= cd.keepers.Keys + current.Keys
    && (forall k :: k in next.keepers ==> next.keepers[k].uid == k)
    && next.dbs.Keys == cd.dbs.Keys
    && forall d :: d in cd.dbs ==> next.dbs[d] == cd.dbs[d].(status := StatusAfter(cd.dbs[d], current, next.dbs[d].status.healthy))
  }

  /** A keeper counts as healthy when it is trusted and no operator has declared it failed. */
  ghost predicate Judged(keepers: map<string, Keeper>, timers: map<string, int>, forced: set<string>, interval: int, now: int) {
    forall k :: k in keepers ==> (keepers[k].healthy <==> Trusted(timers, k, interval, now) && k !in forced)
  }

  // -------------------------------------------------------------- hysteresis

  /** One check of a leadership tenure: the keepers of the document, and those of them that were not heard. */
  datatype Round = Round(now: int, known: set<string>, silent: set<string>)

  predicate Heard(r: Round, k: string) { k in r.known && k !in r.silent }

  /** The error timers after `n` rounds of a tenure, which starts with none. */
  ghost function TimersAfter(rounds: seq<Round>, n: nat): map<string, int>
    requires n <= |rounds|
    decreases n
  {
    if n == 0 then map[]
    else NextTimers(TimersAfter(rounds, n - 1), rounds[n - 1].known, rounds[n - 1].silent, rounds[n - 1].now)
  }

  /** `k` was missed in round `start`, for the first time since it was last heard, and has not been heard up to round `i`. */
  ghost predicate SilentSince(rounds: seq<Round>, start: nat, i: nat, k: string) {
    && start <= i < |rounds|
    && k in rounds[start].silent
    && (forall j :: start <= j <= i ==> !Heard(rounds[j], k))
    && (forall j :: 0 <= j < start && k in rounds[j].silent ==> HeardBetween(rounds, j, start, k))
  }

  ghost predicate HeardBetween(rounds: seq<Round>, a: nat, b: nat, k: string)
    requires b <= |rounds|
  {
    exists l :: a < l < b && Heard(rounds[l], k)
  }

  ghost predicate WellFormed(rounds: seq<Round>) { forall i :: 0 <= i < |rounds| ==> rounds[i].silent <= rounds[i].known }

  /** A timer is the time of the round in which the current silence of its keeper began. */
  lemma {:induction false} TimerIsStartOfSilence(rounds: seq<Round>, i: nat, k: string)
    requires WellFormed(rounds) && i < |rounds|
    ensures k in TimersAfter(rounds, i + 1) ==>
              exists start: nat :: SilentSince(rounds, start, i, k) && TimersAfter(rounds, i + 1)[k] == rounds[start].now
    ensures k !in TimersAfter(rounds, i + 1) ==> forall start: nat :: !SilentSince(rounds, start, i, k)
    ensures k !in TimersAfter(rounds, i + 1) ==> forall j :: 0 <= j <= i && k in rounds[j].silent ==> HeardBetween(rounds, j, i + 1, k)
  {
    var before := TimersAfter(rounds, i);
    if i > 0 {
      TimerIsStartOfSilence(rounds, i - 1, k);
    }
    if Heard(rounds[i], k) {
      forall j | 0 <= j <= i && k in rounds[j].silent
        ensures HeardBetween(rounds, j, i + 1, k)
      {
        assert j != i;
      }
    } else if k in before {
      var start: nat :| SilentSince(rounds, start, i - 1, k) && before[k] == rounds[start].now;
      assert SilentSince(rounds, start, i, k);
    } else if k in rounds[i].silent {
      assert SilentSince(rounds, i, i, k);
    } else {
      QuietRound(rounds, i, k);
    }
  }

  /** A round that does not know the keeper changes nothing for it. */
  lemma QuietRound(rounds: seq<Round>, i: nat, k: string)
    requires i < |rounds| && k !in rounds[i].silent && !Heard(rounds[i], k)
    requires forall j :: 0 <= j < i && k in rounds[j].silent ==> HeardBetween(rounds, j, i, k)
    ensures forall start: nat :: !SilentSince(rounds, start, i, k)
    ensures forall j :: 0 <= j <= i && k in rounds[j].silent ==> HeardBetween(rounds, j, i + 1, k)
  {
    forall j | 0 <= j <= i && k in rounds[j].silent
      ensures HeardBetween(rounds, j, i + 1, k)
      ensures !SilentSince(rounds, j, i, k)
    {
      assert HeardBetween(rounds, j, i, k);
      var l :| j < l < i && Heard(rounds[l], k);
    }
  }

  /** The current silence of `k` has taken longer than the interval. */
  ghost predicate TooLong(rounds: seq<Round>, i: nat, k: string, interval: int)
    requires i < |rounds|
  {
    exists start: nat :: SilentSince(rounds, start, i, k) && rounds[i].now - rounds[start].now > interval
  }

  lemma OneStart(rounds: seq<Round>, a: nat, b: nat, i: nat, k: string)
    requires SilentSince(rounds, a, i, k) && SilentSince(rounds, b, i, k)
    ensures a == b
  {
    assert a < b ==> HeardBetween(rounds, a, b, k);
    assert b < a ==> HeardBetween(rounds, b, a, k);
  }

  /**
   * Hysteresis, both ways: at any round of a tenure a keeper is distrusted if and
   * only if it has been missed and not heard since for longer than the interval.
   */
  lemma DistrustedIffSilentTooLong(rounds: seq<Round>, i: nat, k: string, interval: int)
    requires WellFormed(rounds) && i < |rounds|
    ensures !Trusted(TimersAfter(rounds, i + 1), k, interval, rounds[i].now) <==> TooLong(rounds, i, k, interval)
  {
    TimerIsStartOfSilence(rounds, i, k);
    if k in TimersAfter(rounds, i + 1) {
      var start: nat :| SilentSince(rounds, start, i, k) && TimersAfter(rounds, i + 1)[k] == rounds[start].now;
      if TooLong(rounds, i, k, interval) {
        var other: nat :| SilentSince(rounds, other, i, k) && rounds[i].now - rounds[other].now > interval;
        OneStart(rounds, start, other, i, k);
      }
    }
  }

  /** The same, counting rounds from one. */
  lemma TrustedIffNotTooLong(rounds: seq<Round>, n: nat, k: string, interval: int)
    requires WellFormed(rounds) && 0 < n <= |rounds|
    ensures Trusted(TimersAfter(rounds, n), k, interval, rounds[n - 1].now) <==> !TooLong(rounds, n - 1, k, interval)
  {
    DistrustedIffSilentTooLong(rounds, n - 1, k, interval);
  }
}
