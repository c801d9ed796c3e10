/**
 * Tenures of a leading sentinel: the consecutive checks it makes between gaining
 * and losing leadership, and what they add up to.  `Sentinels.Sentinel.Lead`
 * makes such checks.
 */
module Tenures {
  import opened Cluster
  import opened Options
  import opened Reconcile
  import opened Selection
  import Health

  /** Since when keepers have been silent, and databases failing. */
  datatype Errors = Errors(keepers: map<string, int>, dbs: map<string, int>)

  const NO_ERRORS := Errors(map[], map[])

  /** One check: what it read, how its timers moved, and what it computed. */
  datatype Turn = Turn(
    now: int,
    cd: ClusterData,                             // the document it read
    current: map<string, Health.KeeperInfo>,     // the reports it took as fresh
    forced: set<string>,                         // keepers an operator declared failed
    errorsBefore: Errors,
    errors: Errors,
    backoffBefore: map<string, int>,
    backoff: map<string, int>,                   // since when a succession has been put off
    reported: ClusterData,                       // the document with the reports merged
    env: Env,
    result: Option<ClusterData>,                 // the document it computed
    written: bool                                // whether its compare-and-swap went through
  )

  /** Since when the succession of `m` is put off, if it is put off now. */
  function DeferredSince(backoff: map<string, int>, m: string, now: int): int { if m in backoff then backoff[m] else now }

  /** The master has failed, a candidate is allowed to succeed it, and no operator asked for the master to stay. */
  ghost predicate Replaceable(cd: ClusterData, env: Env) {
    && cd.phase == Normal && !cd.pause.Active(env.now)
    && cd.master in cd.dbs
    && var live, m := Live(cd, env.now), cd.dbs[cd.master];
       && live.Consistent()
       && !MasterOk(live, env, m)
       && cd.manualSwitch != Some(m.spec.keeper)
       && exists d :: d in Candidates(live, env, m) && (SyncElection(live, m) ==> d in Electable(m))
  }

  /** A failed master is succeeded, unless the succession is put off and has not been for a whole fail interval. */
  ghost predicate Succeeds(cd: ClusterData, env: Env, before: map<string, int>, after: map<string, int>, next: ClusterData) {
    Replaceable(cd, env) && next.master == cd.master ==>
      && cd.master in after
      && after[cd.master] == DeferredSince(before, cd.master, env.now)
      && env.now - after[cd.master] < cd.spec.failInterval
  }

  /** The start of a deferral is forgotten as soon as a successor is chosen. */
  predicate Forgets(cd: ClusterData, after: map<string, int>, next: ClusterData) {
    cd.phase == Normal && next.master != cd.master ==> cd.master !in after
  }

  /** No database's health has changed. */
  predicate SameHealth(cd: ClusterData, reported: ClusterData) {
    forall d :: d in cd.dbs && d in reported.dbs ==> reported.dbs[d].status.healthy == cd.dbs[d].status.healthy
  }

  /** A database counts as healthy when it is trusted and its keeper is healthy. */
  ghost predicate DbsJudged(cd: ClusterData, errors: map<string, int>, now: int, reported: ClusterData) {
    forall d :: d in cd.dbs && d in reported.dbs ==>
      (reported.dbs[d].status.healthy <==>
         Health.Trusted(errors, d, cd.spec.failInterval, now) && cd.dbs[d].spec.keeper in reported.keepers && reported.keepers[cd.dbs[d].spec.keeper].healthy)
  }

  /**
   * How the reports are merged.  The first check of a tenure believes nothing and
   * starts with no timers; later checks judge keepers and databases by how long
   * they have been silent or failing.
   */
  ghost predicate Merges(now: int, cd: ClusterData, current: map<string, Health.KeeperInfo>, forced: set<string>, first: bool,
                         errorsBefore: Errors, errors: Errors, backoff: map<string, int>, reported: ClusterData) {
    && Health.Merged(cd, current, reported)
    && if first then
         current == map[] && errors == NO_ERRORS && backoff == map[] && reported.keepers == cd.keepers && SameHealth(cd, reported)
       else
         && Health.KeepersAfter(cd.keepers, current, now, reported.keepers)
         && errors.keepers == Health.NextTimers(errorsBefore.keepers, reported.keepers.Keys, reported.keepers.Keys - current.Keys, now)
         && Health.Judged(reported.keepers, errors.keepers, forced, cd.spec.failInterval, now)
         && errors.dbs == Health.NextTimers(errorsBefore.dbs, cd.dbs.Keys, Health.FailingDbs(cd, current), now)
         && DbsJudged(cd, errors.dbs, now, reported)
  }

  ghost predicate Took(t: Turn, first: bool) {
    && Merges(t.now, t.cd, t.current, t.forced, first, t.errorsBefore, t.errors, t.backoffBefore, t.reported)
    && t.env.now == t.now
    && (t.result.Some? ==> Succeeds(t.reported, t.env, t.backoffBefore, t.backoff, t.result.value) && Forgets(t.reported, t.backoff, t.result.value))
    && (t.result.None? ==> t.reported.phase == Initializing)
  }

  lemma IsTurn(t: Turn, first: bool)
    requires Merges(t.now, t.cd, t.current, t.forced, first, t.errorsBefore, t.errors, t.backoffBefore, t.reported)
    requires t.env.now == t.now
    requires t.result.Some? ==> Succeeds(t.reported, t.env, t.backoffBefore, t.backoff, t.result.value) && Forgets(t.reported, t.backoff, t.result.value)
    requires t.result.None? ==> t.reported.phase == Initializing
    ensures Took(t, first)
  {
  }

  ghost predicate IsTenure(turns: seq<Turn>) {
    && (forall i :: 0 <= i < |turns| ==> TookAt(turns, i))
    && forall i :: 0 < i < |turns| ==> Follows(turns, i)
  }

  ghost predicate TookAt(turns: seq<Turn>, i: nat)
    requires i < |turns|
  {
    Took(turns[i], i == 0)
  }

  /** The timers carry over from the check before. */
  ghost predicate Follows(turns: seq<Turn>, i: nat)
    requires 0 < i < |turns|
  {
    turns[i].errorsBefore == turns[i - 1].errors && turns[i].backoffBefore == turns[i - 1].backoff
  }

  lemma Extends(turns: seq<Turn>, turn: Turn)
    requires IsTenure(turns) && Took(turn, turns == [])
    requires turns != [] ==> turn.errorsBefore == turns[|turns| - 1].errors && turn.backoffBefore == turns[|turns| - 1].backoff
    ensures IsTenure(turns + [turn])
  {
    var longer := turns + [turn];
    forall i | 0 <= i < |longer|
      ensures TookAt(longer, i)
      ensures 0 < i ==> Follows(longer, i)
    {
      if i < |turns| {
        assert TookAt(turns, i);
        assert 0 < i ==> Follows(turns, i);
      }
    }
  }

  // ------------------------------------------------------ succession in time

  /** Check `i` of the tenure finds `m` a failed master with an allowed successor, under fail interval `window`. */
  ghost predicate FindsFailed(turns: seq<Turn>, i: nat, m: string, window: int)
    requires i < |turns|
  {
    var cd := turns[i].reported;
    cd.master == m && cd.spec.failInterval == window && Replaceable(cd, turns[i].env)
  }

  /** Check `i` chooses a successor of `m`. */
  ghost predicate Chooses(turns: seq<Turn>, i: nat, m: string)
    requires i < |turns|
  {
    turns[i].result.Some? && turns[i].result.value.master != m
  }

  /** Check `i` replaces `m`: it chooses a successor, and its document is written. */
  ghost predicate Replaces(turns: seq<Turn>, i: nat, m: string)
    requires i < |turns|
  {
    Chooses(turns, i, m) && turns[i].written
  }

  /** Check `i` chooses a successor of `m`, but somebody else has written in between. */
  ghost predicate LosesWrite(turns: seq<Turn>, i: nat, m: string)
    requires i < |turns|
  {
    Chooses(turns, i, m) && !turns[i].written
  }

  /** Check `i` finds `m` failed and leaves it master. */
  ghost predicate Defers(turns: seq<Turn>, i: nat, m: string, window: int)
    requires i < |turns|
  {
    FindsFailed(turns, i, m, window) && !Chooses(turns, i, m)
  }

  ghost predicate AllDefer(turns: seq<Turn>, a: nat, b: nat, m: string, window: int) {
    a <= b < |turns| && forall i: nat :: a <= i <= b ==> Defers(turns, i, m, window)
  }

  /** After check `i` the succession of `m` is on record as put off since `start`, less than the window ago. */
  ghost predicate OnRecord(turns: seq<Turn>, i: nat, m: string, window: int, start: int)
    requires i < |turns|
  {
    m in turns[i].backoff && turns[i].backoff[m] == start && turns[i].now - start < window
  }

  function StartAt(turns: seq<Turn>, i: nat, m: string): int
    requires i < |turns|
  {
    DeferredSince(turns[i].backoffBefore, m, turns[i].now)
  }

  lemma OneDeferral(turns: seq<Turn>, i: nat, m: string, window: int)
    requires IsTenure(turns) && i < |turns| && Defers(turns, i, m, window)
    ensures OnRecord(turns, i, m, window, StartAt(turns, i, m))
  {
    assert TookAt(turns, i);
  }

  lemma StartCarriesOver(turns: seq<Turn>, i: nat, m: string, window: int, start: int)
    requires IsTenure(turns) && 0 < i < |turns| && OnRecord(turns, i - 1, m, window, start)
    ensures StartAt(turns, i, m) == start
  {
    assert Follows(turns, i);
  }

  /** Consecutive checks that find `m` failed and leave it master all count from the same start. */
  lemma {:induction false} DeferralsCountFromTheStart(turns: seq<Turn>, a: nat, b: nat, m: string, window: int)
    requires IsTenure(turns) && AllDefer(turns, a, b, m, window)
    ensures OnRecord(turns, b, m, window, StartAt(turns, a, m))
  {
    assert Defers(turns, b, m, window);
    OneDeferral(turns, b, m, window);
    if a < b {
      DeferralsCountFromTheStart(turns, a, b - 1, m, window);
      StartCarriesOver(turns, b, m, window, StartAt(turns, a, m));
    }
  }

  /** Checks `a` to `b` all find `m` failed. */
  ghost predicate AllFindFailed(turns: seq<Turn>, a: nat, b: nat, m: string, window: int) {
    a <= b < |turns| && forall i: nat :: a <= i <= b ==> FindsFailed(turns, i, m, window)
  }

  /** Of consecutive checks that find `m` failed, one chooses a successor when the fail interval has passed since the first deferral. */
  lemma ChosenInTime(turns: seq<Turn>, a: nat, b: nat, m: string, window: int)
    requires IsTenure(turns) && AllFindFailed(turns, a, b, m, window)
    requires turns[b].now >= StartAt(turns, a, m) + window
    ensures exists i: nat :: a <= i <= b && Chooses(turns, i, m)
  {
    if AllDefer(turns, a, b, m, window) {
      DeferralsCountFromTheStart(turns, a, b, m, window);
    } else {
      var i: nat :| a <= i <= b && !Defers(turns, i, m, window);
      assert FindsFailed(turns, i, m, window);
    }
  }

  /**
   * A failed master is replaced in time: of consecutive checks that all find it
   * failed and an allowed successor at hand, and lose no write of a successor,
   * one replaces it at the latest when the fail interval has passed since the
   * succession was first put off.
   */
  lemma ReplacedInTime(turns: seq<Turn>, a: nat, b: nat, m: string, window: int)
    requires IsTenure(turns) && AllFindFailed(turns, a, b, m, window)
    requires forall i: nat :: a <= i <= b ==> !LosesWrite(turns, i, m)
    requires turns[b].now >= StartAt(turns, a, m) + window
    ensures exists i: nat :: a <= i <= b && Replaces(turns, i, m)
  {
    ChosenInTime(turns, a, b, m, window);
    var i: nat :| a <= i <= b && Chooses(turns, i, m);
    assert !LosesWrite(turns, i, m);
    assert Replaces(turns, i, m);
  }

  /** A lost write starts the deferral anew: the choice has made the sentinel forget when it began. */
  lemma LostWriteRestarts(turns: seq<Turn>, i: nat, m: string, window: int)
    requires IsTenure(turns) && i + 1 < |turns| && FindsFailed(turns, i, m, window) && LosesWrite(turns, i, m)
    ensures StartAt(turns, i + 1, m) == turns[i + 1].now
  {
    assert TookAt(turns, i);
    ChoiceForgets(turns, i, m, window);
    assert Follows(turns, i + 1);
  }

  lemma ChoiceForgets(turns: seq<Turn>, i: nat, m: string, window: int)
    requires i < |turns| && TookAt(turns, i) && FindsFailed(turns, i, m, window) && Chooses(turns, i, m)
    ensures m !in turns[i].backoff
  {
  }

  /** So after a lost write the master is replaced at the latest one fail interval after the next check, unless a write is lost again. */
  lemma ReplacedAfterLostWrite(turns: seq<Turn>, i: nat, b: nat, m: string, window: int)
    requires IsTenure(turns) && i < b && AllFindFailed(turns, i, b, m, window) && LosesWrite(turns, i, m)
    requires forall j: nat :: i < j <= b ==> !LosesWrite(turns, j, m)
    requires turns[b].now >= turns[i + 1].now + window
    ensures exists j: nat :: i < j <= b && Replaces(turns, j, m)
  {
    assert FindsFailed(turns, i, m, window);
    LostWriteRestarts(turns, i, m, window);
    ReplacedInTime(turns, i + 1, b, m, window);
  }

  // --------------------------------------------------------------- hysteresis

  /** A check as seen by the keepers' error timers. */
  ghost function RoundOf(t: Turn): Health.Round {
    Health.Round(t.now, t.reported.keepers.Keys, t.reported.keepers.Keys - t.current.Keys)
  }

  /** The checks of a tenure after the first. */
  ghost function RoundsOf(turns: seq<Turn>): seq<Health.Round>
    requires |turns| > 0
  {
    seq(|turns| - 1, i requires 0 <= i < |turns| - 1 => RoundOf(turns[i + 1]))
  }

  ghost predicate Continues(t: Turn) {
    && t.errors.keepers == Health.NextTimers(t.errorsBefore.keepers, t.reported.keepers.Keys, t.reported.keepers.Keys - t.current.Keys, t.now)
    && Health.Judged(t.reported.keepers, t.errors.keepers, t.forced, t.cd.spec.failInterval, t.now)
  }

  lemma LaterContinues(turns: seq<Turn>, i: nat)
    requires IsTenure(turns) && 0 < i < |turns|
    ensures Continues(turns[i]) && turns[i].errorsBefore == turns[i - 1].errors
  {
    assert TookAt(turns, i);
    assert Follows(turns, i);
  }

  /** A check knows the keepers of the document and those it has heard. */
  lemma KnownOrHeard(turns: seq<Turn>, i: nat)
    requires IsTenure(turns) && 0 < i < |turns|
    ensures turns[i].reported.keepers.Keys == turns[i].cd.keepers.Keys + turns[i].current.Keys
  {
    assert TookAt(turns, i);
  }

  lemma FirstStarts(turns: seq<Turn>)
    requires IsTenure(turns) && |turns| > 0
    ensures turns[0].errors == NO_ERRORS
  {
    assert TookAt(turns, 0);
  }

  lemma OneMoreRound(turns: seq<Turn>, i: nat)
    requires 0 < i < |turns| && Continues(turns[i]) && turns[i].errorsBefore.keepers == Health.TimersAfter(RoundsOf(turns), i - 1)
    ensures turns[i].errors.keepers == Health.TimersAfter(RoundsOf(turns), i)
  {
    assert RoundsOf(turns)[i - 1] == RoundOf(turns[i]);
  }

  lemma {:induction false} TimersCarryOver(turns: seq<Turn>, i: nat)
    requires IsTenure(turns) && i < |turns|
    ensures turns[i].errors.keepers == Health.TimersAfter(RoundsOf(turns), i)
  {
    if i == 0 {
      FirstStarts(turns);
    } else {
      TimersCarryOver(turns, i - 1);
      LaterContinues(turns, i);
      OneMoreRound(turns, i);
    }
  }

  lemma RoundsAreWellFormed(turns: seq<Turn>)
    requires |turns| > 0
    ensures Health.WellFormed(RoundsOf(turns))
  {
  }

  lemma JudgedByRounds(turns: seq<Turn>, i: nat, k: string)
    requires 0 < i < |turns| && k in turns[i].reported.keepers
    requires Continues(turns[i]) && turns[i].errors.keepers == Health.TimersAfter(RoundsOf(turns), i)
    ensures turns[i].reported.keepers[k].healthy
            <==> k !in turns[i].forced
                 && Health.Trusted(Health.TimersAfter(RoundsOf(turns), i), k, turns[i].cd.spec.failInterval, RoundsOf(turns)[i - 1].now)
  {
  }

  /**
   * At every check of a tenure but the first, a keeper counts as healthy if and
   * only if no operator declared it failed and it has not been missed, without
   * being heard since, for longer than the fail interval.
   */
  lemma UnhealthyIffSilentTooLong(turns: seq<Turn>, i: nat, k: string)
    requires IsTenure(turns) && 0 < i < |turns| && k in turns[i].reported.keepers
    ensures turns[i].reported.keepers[k].healthy
            <==> k !in turns[i].forced && !Health.TooLong(RoundsOf(turns), i - 1, k, turns[i].cd.spec.failInterval)
  {
    LaterContinues(turns, i);
    TimersCarryOver(turns, i);
    JudgedByRounds(turns, i, k);
    RoundsAreWellFormed(turns);
    Health.TrustedIffNotTooLong(RoundsOf(turns), i, k, turns[i].cd.spec.failInterval);
  }

  /** A check as seen by the databases' error timers. */
  ghost function DbRoundOf(t: Turn): Health.Round { Health.Round(t.now, t.cd.dbs.Keys, Health.FailingDbs(t.cd, t.current)) }

  ghost function DbRoundsOf(turns: seq<Turn>): seq<Health.Round>
    requires |turns| > 0
  {
    seq(|turns| - 1, i requires 0 <= i < |turns| - 1 => DbRoundOf(turns[i + 1]))
  }

  /** Every check takes over the reports it believes, and after the first also the keepers'. */
  lemma ReportsAreMerged(turns: seq<Turn>, i: nat)
    requires IsTenure(turns) && i < |turns|
    ensures Health.Merged(turns[i].cd, turns[i].current, turns[i].reported)
    ensures i == 0 ==> turns[i].reported.keepers == turns[i].cd.keepers && SameHealth(turns[i].cd, turns[i].reported)
    ensures i > 0 ==> Health.KeepersAfter(turns[i].cd.keepers, turns[i].current, turns[i].now, turns[i].reported.keepers)
  {
    assert TookAt(turns, i);
  }

  lemma LaterJudgesDbs(turns: seq<Turn>, i: nat)
    requires IsTenure(turns) && 0 < i < |turns|
    ensures var t := turns[i];
            && t.errors.dbs == Health.NextTimers(t.errorsBefore.dbs, t.cd.dbs.Keys, Health.FailingDbs(t.cd, t.current), t.now)
            && DbsJudged(t.cd, t.errors.dbs, t.now, t.reported) && t.reported.dbs.Keys == t.cd.dbs.Keys
            && t.errorsBefore == turns[i - 1].errors
  {
    assert TookAt(turns, i);
    assert Follows(turns, i);
  }

  lemma {:induction false} DbTimersCarryOver(turns: seq<Turn>, i: nat)
    requires IsTenure(turns) && i < |turns|
    ensures turns[i].errors.dbs == Health.TimersAfter(DbRoundsOf(turns), i)
  {
    if i == 0 {
      FirstStarts(turns);
    } else {
      DbTimersCarryOver(turns, i - 1);
      LaterJudgesDbs(turns, i);
      assert DbRoundsOf(turns)[i - 1] == DbRoundOf(turns[i]);
    }
  }

  lemma DbRoundsAreWellFormed(turns: seq<Turn>)
    requires |turns| > 0
    ensures Health.WellFormed(DbRoundsOf(turns))
  {
  }

  lemma DbJudgedByRounds(turns: seq<Turn>, i: nat, d: string)
    requires 0 < i < |turns| && d in turns[i].cd.dbs && d in turns[i].reported.dbs
    requires DbsJudged(turns[i].cd, turns[i].errors.dbs, turns[i].now, turns[i].reported)
    requires turns[i].errors.dbs == Health.TimersAfter(DbRoundsOf(turns), i)
    ensures turns[i].reported.dbs[d].status.healthy <==>
              && turns[i].cd.dbs[d].spec.keeper in turns[i].reported.keepers && turns[i].reported.keepers[turns[i].cd.dbs[d].spec.keeper].healthy
              && Health.Trusted(Health.TimersAfter(DbRoundsOf(turns), i), d, turns[i].cd.spec.failInterval, DbRoundsOf(turns)[i - 1].now)
  {
  }

  /** The health of a database goes by the timers of all rounds so far. */
  lemma DbTrustedByRounds(turns: seq<Turn>, i: nat, d: string)
    requires IsTenure(turns) && 0 < i < |turns| && d in turns[i].cd.dbs && d in turns[i].reported.dbs
    ensures turns[i].reported.dbs[d].status.healthy <==>
              && turns[i].cd.dbs[d].spec.keeper in turns[i].reported.keepers && turns[i].reported.keepers[turns[i].cd.dbs[d].spec.keeper].healthy
              && Health.Trusted(Health.TimersAfter(DbRoundsOf(turns), i), d, turns[i].cd.spec.failInterval, DbRoundsOf(turns)[i - 1].now)
  {
    LaterJudgesDbs(turns, i);
    DbTimersCarryOver(turns, i);
    DbJudgedByRounds(turns, i, d);
  }

  /**
   * At every check of a tenure but the first, a database counts as healthy if and
   * only if its keeper does and it has not been failing, without a healthy report
   * since, for longer than the fail interval.
   */
  lemma DbUnhealthyIffFailingTooLong(turns: seq<Turn>, i: nat, d: string)
    requires IsTenure(turns) && 0 < i < |turns| && d in turns[i].cd.dbs && d in turns[i].reported.dbs
    ensures turns[i].reported.dbs[d].status.healthy <==>
              && turns[i].cd.dbs[d].spec.keeper in turns[i].reported.keepers && turns[i].reported.keepers[turns[i].cd.dbs[d].spec.keeper].healthy
              && !Health.TooLong(DbRoundsOf(turns), i - 1, d, turns[i].cd.spec.failInterval)
  {
    DbTrustedByRounds(turns, i, d);
    DbRoundsAreWellFormed(turns);
    Health.TrustedIffNotTooLong(DbRoundsOf(turns), i, d, turns[i].cd.spec.failInterval);
  }
}
