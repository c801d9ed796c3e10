/**
 * Classification of databases and the ordered list of failover candidates.
 *
 * The predicates and functions say what the sentinel decides about one
 * database; the methods walk the document's maps, in any order, as the code
 * does.
 */
module Selection {
  import opened Cluster
  import opened Options
  import opened Strings
  import Timeline

  const WAL_SEGMENT_SIZE: nat := 16 * 1024 * 1024

  datatype DbType = PrimaryLine | ReplicaLine
  datatype Validity = Valid | Invalid | Unknown
  datatype Status = Good | Failed | Converging
  datatype Convergence = StillConverging | Converged | ConvergenceFailed

  /** What a sentinel remembers between passes, as far as selection reads it. */
  datatype Env = Env(
    now: int,
    convergenceTimers: map<string, int>,
    stalled: set<string>   // databases whose WAL position has not moved for too many checks
  )

  function TypeOf(db: Db): DbType {
    if db.spec.role == Master || db.spec.follow == External then PrimaryLine else ReplicaLine
  }

  function ConvergenceOf(env: Env, db: Db, timeout: int): Convergence {
    if db.status.generation == db.generation then Converged
    else if timeout != 0 && db.uid in env.convergenceTimers && env.now - env.convergenceTimers[db.uid] > timeout then
      ConvergenceFailed
    else StillConverging
  }

  function ValidityOf(cd: ClusterData, db: Db): Validity {
    if db.status.generation == NO_GENERATION then Unknown
    else if cd.master !in cd.dbs then Unknown
    else
      var m := cd.dbs[cd.master].status;
      if db.status.systemId != "" && db.status.systemId != m.systemId then Invalid
      else if Timeline.Detect(m.timeline, m.history, db.status.timeline, db.status.history, db.status.xlog).different then Invalid
      else Valid
  }

  function StatusOf(cd: ClusterData, env: Env, db: Db): Status
    requires db.spec.keeper in cd.keepers
  {
    if !cd.keepers[db.spec.keeper].healthy then Failed
    else
      var timeout := if db.generation == INITIAL_GENERATION && db.spec.initMode == InitResync
                     then cd.spec.syncTimeout else cd.spec.convergenceTimeout;
      match ConvergenceOf(env, db, timeout)
      case ConvergenceFailed => Failed
      case StillConverging => Converging
      case Converged => if db.status.healthy then Good else Failed
  }

  /** `db` is valid, of the wanted type and in the given state. */
  predicate Classified(cd: ClusterData, env: Env, db: Db, want: DbType, status: Status)
    requires db.spec.keeper in cd.keepers
  {
    ValidityOf(cd, db) == Valid && TypeOf(db) == want && StatusOf(cd, env, db) == status
  }

  function ByStatus(cd: ClusterData, env: Env, want: DbType, status: Status): set<string>
    requires cd.Consistent()
  {
    set d | d in cd.dbs && Classified(cd, env, cd.dbs[d], want, status)
  }

  function Lag(master: Db, db: Db): nat {
    if master.status.xlog > db.status.xlog then master.status.xlog - db.status.xlog else 0
  }

  /** On the master's timeline and, with asynchronous replication, close enough behind it. */
  predicate Near(cd: ClusterData, master: Db, db: Db) {
    && db.status.timeline == master.status.timeline
    && (cd.spec.SyncRepl() || Lag(master, db) <= cd.spec.maxStandbyLag)
  }

  predicate IsBestStandby(cd: ClusterData, env: Env, master: Db, db: Db)
    requires db.spec.keeper in cd.keepers
  {
    Classified(cd, env, db, ReplicaLine, Good) && Near(cd, master, db)
  }

  /** `db` may replace `master`. */
  predicate IsCandidate(cd: ClusterData, env: Env, master: Db, db: Db)
    requires db.spec.keeper in cd.keepers
  {
    || (IsBestStandby(cd, env, master, db) && cd.keepers[db.spec.keeper].canBeMaster != Some(false))
    || (Classified(cd, env, db, PrimaryLine, Good) && Near(cd, master, db) && db.uid != master.uid)
  }

  function Priority(cd: ClusterData, db: Db): int {
    if db.spec.keeper in cd.keepers then cd.keepers[db.spec.keeper].priority else 0
  }

  predicate XLogLess(a: Db, b: Db) { a.status.xlog < b.status.xlog }

  /** Candidate order: WAL position ascending, then priority descending, then UID. */
  predicate CandidateLess(cd: ClusterData, a: Db, b: Db) {
    if a.status.xlog != b.status.xlog then a.status.xlog < b.status.xlog
    else if Priority(cd, a) != Priority(cd, b) then Priority(cd, a) > Priority(cd, b)
    else StringLess(a.uid, b.uid)
  }

  // ------------------------------------------------------------------ sorting

  ghost predicate StrictOrder(less: (Db, Db) -> bool) {
    && (forall a, b :: less(a, b) ==> !less(b, a))
    && (forall a, b, c :: !less(b, a) && !less(c, b) ==> !less(c, a))
  }

  ghost predicate Ordered(a: seq<Db>, less: (Db, Db) -> bool) {
    forall i, j :: 0 <= i < j < |a| ==> !less(a[j], a[i])
  }

  method Sort(a: seq<Db>, less: (Db, Db) -> bool) returns (r: seq<Db>)
    requires StrictOrder(less)
    ensures multiset(r) == multiset(a)
    ensures Ordered(r, less)
  {
    r := [];
    for i := 0 to |a|
      invariant multiset(r) == multiset(a[..i])
      invariant Ordered(r, less)
    {
      r := Insert(r, a[i], less);
      assert a[..i + 1] == a[..i] + [a[i]];
    }
    assert a[..|a|] == a;
  }

  method Insert(a: seq<Db>, x: Db, less: (Db, Db) -> bool) returns (r: seq<Db>)
    requires StrictOrder(less) && Ordered(a, less)
    ensures multiset(r) == multiset(a) + multiset{x}
    ensures Ordered(r, less)
  {
    var k := |a|;
    while k > 0 && less(x, a[k - 1])
      invariant 0 <= k <= |a|
      invariant forall j :: k <= j < |a| ==> less(x, a[j])
    {
      k := k - 1;
    }
    r := a[..k] + [x] + a[k..];
    assert a == a[..k] + a[k..];
    InsertKeepsOrder(a, x, k, less);
  }

  lemma InsertKeepsOrder(a: seq<Db>, x: Db, k: nat, less: (Db, Db) -> bool)
    requires StrictOrder(less) && Ordered(a, less) && k <= |a|
    requires forall j :: k <= j < |a| ==> less(x, a[j])
    requires k > 0 ==> !less(x, a[k - 1])
    ensures Ordered(a[..k] + [x] + a[k..], less)
  {
  }

  // ---------------------------------------------------------------- the code

  method ValidDbsByStatus(cd: ClusterData, env: Env, want: DbType) returns (good: set<string>, failed: set<string>, converging: set<string>)
    requires cd.Consistent()
    ensures good == ByStatus(cd, env, want, Good)
    ensures failed == ByStatus(cd, env, want, Failed)
    ensures converging == ByStatus(cd, env, want, Converging)
  {
    good, failed, converging := {}, {}, {};
    var todo := cd.dbs.Keys;
    while todo != {}
      invariant todo <= cd.dbs.Keys
      invariant forall d :: d in good <==> d in ByStatus(cd, env, want, Good) && d !in todo
      invariant forall d :: d in failed <==> d in ByStatus(cd, env, want, Failed) && d !in todo
      invariant forall d :: d in converging <==> d in ByStatus(cd, env, want, Converging) && d !in todo
    {
      var d :| d in todo;
      todo := todo - {d};
      var db := cd.dbs[d];
      if ValidityOf(cd, db) == Valid && TypeOf(db) == want {
        match StatusOf(cd, env, db)
        case Good => good := good + {d};
        case Failed => failed := failed + {d};
        case Converging => converging := converging + {d};
      }
    }
  }

  ghost function Entries(cd: ClusterData, uids: set<string>): set<Db> {
    set d | d in uids && d in cd.dbs :: cd.dbs[d]
  }

  /** `r` lists the databases filed under `uids`, each once. */
  ghost predicate Enumerates(cd: ClusterData, r: seq<Db>, uids: set<string>) {
    multiset(r) == multiset(Entries(cd, uids))
  }

  ghost function BestStandbys(cd: ClusterData, env: Env, master: Db): set<string>
    requires cd.Consistent()
  {
    set d | d in cd.dbs && IsBestStandby(cd, env, master, cd.dbs[d])
  }

  ghost function Candidates(cd: ClusterData, env: Env, master: Db): set<string>
    requires cd.Consistent()
  {
    set d | d in cd.dbs && IsCandidate(cd, env, master, cd.dbs[d])
  }

  lemma EnumerateOne(cd: ClusterData, r: seq<Db>, uids: set<string>, d: string)
    requires cd.Consistent() && d in cd.dbs && d !in uids
    requires Enumerates(cd, r, uids)
    ensures Enumerates(cd, r + [cd.dbs[d]], uids + {d})
  {
  }

  lemma EnumeratedAre(cd: ClusterData, r: seq<Db>, uids: set<string>)
    requires cd.Consistent() && Enumerates(cd, r, uids)
    ensures forall db :: db in r <==> db.uid in uids && db.uid in cd.dbs && cd.dbs[db.uid] == db
  {
    forall db
      ensures db in r <==> db.uid in uids && db.uid in cd.dbs && cd.dbs[db.uid] == db
    {
      assert db in r <==> db in multiset(r);
      if db.uid in uids && db.uid in cd.dbs && cd.dbs[db.uid] == db {
        assert db in Entries(cd, uids);
      }
    }
  }

  lemma XLogOrder()
    ensures StrictOrder(XLogLess)
  {
  }

  method FindBestStandbys(cd: ClusterData, env: Env, master: Db) returns (r: seq<Db>)
    requires cd.Consistent()
    ensures Enumerates(cd, r, BestStandbys(cd, env, master))
    ensures Ordered(r, XLogLess)
    ensures forall i, j :: 0 <= i < j < |r| ==> r[i].status.xlog <= r[j].status.xlog
  {
    var goodStandbys, _, _ := ValidDbsByStatus(cd, env, ReplicaLine);
    r := [];
    var todo := goodStandbys;
    ghost var done: set<string> := {};
    while todo != {}
      invariant todo <= goodStandbys
      invariant forall d :: d in done <==> d in goodStandbys && d !in todo && Near(cd, master, cd.dbs[d])
      invariant Enumerates(cd, r, done)
    {
      var d :| d in todo;
      var db := cd.dbs[d];
      if db.status.timeline == master.status.timeline && (cd.spec.SyncRepl() || Lag(master, db) <= cd.spec.maxStandbyLag) {
        EnumerateOne(cd, r, done, d);
        r := r + [db];
        done := done + {d};
      }
      todo := todo - {d};
    }
    assert done == BestStandbys(cd, env, master);
    XLogOrder();
    r := Sort(r, XLogLess);
  }

  lemma CandidateOrder(cd: ClusterData)
    ensures StrictOrder((a, b) => CandidateLess(cd, a, b))
  {
    forall a: Db, b: Db
      ensures CandidateLess(cd, a, b) ==> !CandidateLess(cd, b, a)
    {
      StringOrderTotal(a.uid, b.uid);
    }
    forall a: Db, b: Db, c: Db | !CandidateLess(cd, b, a) && !CandidateLess(cd, c, b)
      ensures !CandidateLess(cd, c, a)
    {
      CandidateOrderTransitive(cd, a, b, c);
    }
  }

  lemma CandidateOrderTransitive(cd: ClusterData, a: Db, b: Db, c: Db)
    requires !CandidateLess(cd, b, a) && !CandidateLess(cd, c, b)
    ensures !CandidateLess(cd, c, a)
  {
    StringOrderTotal(a.uid, b.uid);
    StringOrderTotal(b.uid, c.uid);
    StringOrderTotal(a.uid, c.uid);
    if StringLess(a.uid, b.uid) && StringLess(b.uid, c.uid) {
      StringOrderTransitive(a.uid, b.uid, c.uid);
    }
  }

  /** The candidate list: exactly the candidates, in candidate order. */
  ghost predicate IsCandidateList(cd: ClusterData, env: Env, master: Db, r: seq<Db>)
    requires cd.Consistent()
  {
    && Enumerates(cd, r, Candidates(cd, env, master))
    && Ordered(r, (a, b) => CandidateLess(cd, a, b))
  }

  method FindBestNewMasters(cd: ClusterData, env: Env, master: Db) returns (r: seq<Db>)
    requires cd.Consistent()
    ensures IsCandidateList(cd, env, master, r)
    ensures forall i, j :: 0 <= i < j < |r| ==> Precedes(cd, r[i], r[j])
  {
    var best := FindBestStandbys(cd, env, master);
    EnumeratedAre(cd, best, BestStandbys(cd, env, master));
    ghost var done: set<string>;
    r, done := StandbyCandidates(cd, env, master, best);
    r, done := AddPreviousMasters(cd, env, master, r, done);
    assert done == Candidates(cd, env, master);
    CandidateOrder(cd);
    r := Sort(r, (a, b) => CandidateLess(cd, a, b));
    forall i, j | 0 <= i < j < |r|
      ensures Precedes(cd, r[i], r[j])
    {
      ListedInOrder(cd, env, master, r, i, j);
    }
  }

  /** `a` has less WAL than `b`, or as much and a keeper of higher priority, or one of the same priority and the smaller UID. */
  predicate Precedes(cd: ClusterData, a: Db, b: Db) {
    && a.spec.keeper in cd.keepers && b.spec.keeper in cd.keepers
    && var p, q := cd.keepers[a.spec.keeper].priority, cd.keepers[b.spec.keeper].priority;
       || a.status.xlog < b.status.xlog
       || (a.status.xlog == b.status.xlog && p > q)
       || (a.status.xlog == b.status.xlog && p == q && StringLess(a.uid, b.uid))
  }

  /** The candidate that is not behind another in candidate order precedes it. */
  lemma NotBehindPrecedes(cd: ClusterData, a: Db, b: Db)
    requires cd.Consistent() && a.uid in cd.dbs && cd.dbs[a.uid] == a && b.uid in cd.dbs && cd.dbs[b.uid] == b
    requires a != b && !CandidateLess(cd, b, a)
    ensures Precedes(cd, a, b)
  {
    StringOrderTotal(a.uid, b.uid);
  }

  /** Every candidate of the list precedes those after it. */
  lemma ListedInOrder(cd: ClusterData, env: Env, master: Db, r: seq<Db>, i: nat, j: nat)
    requires cd.Consistent() && IsCandidateList(cd, env, master, r) && i < j < |r|
    ensures Precedes(cd, r[i], r[j])
  {
    EnumeratedAre(cd, r, Candidates(cd, env, master));
    EnumeratedOnce(cd, r, Candidates(cd, env, master), j);
    var less := (a, b) => CandidateLess(cd, a, b);
    assert r[i] in r && r[j] in r && !less(r[j], r[i]);
    assert r[i] == r[..j][i];
    NotBehindPrecedes(cd, r[i], r[j]);
  }

  /** Who may replace the master, field by field. */
  predicate MayReplace(cd: ClusterData, d: string) {
    && d in cd.dbs && cd.master in cd.dbs && d != cd.master && cd.dbs[d].spec.keeper in cd.keepers
    && var m, db, k := cd.dbs[cd.master].status, cd.dbs[d], cd.keepers[cd.dbs[d].spec.keeper];
       && k.healthy && db.status.healthy
       && db.status.generation == db.generation != NO_GENERATION
       && (db.status.systemId == "" || db.status.systemId == m.systemId)
       && !Timeline.Detect(m.timeline, m.history, db.status.timeline, db.status.history, db.status.xlog).different
       && db.status.timeline == m.timeline
       && ((cd.spec.syncRepl && cd.spec.role == Master) || m.xlog <= db.status.xlog + cd.spec.maxStandbyLag)
       && (db.spec.role == Standby && db.spec.follow != External ==> k.canBeMaster != Some(false))
  }

  lemma CandidatesMayReplace(cd: ClusterData, env: Env, d: string)
    requires cd.Consistent() && cd.master in cd.dbs
    requires cd.dbs[cd.master].spec.role == Master || cd.dbs[cd.master].spec.follow == External
    ensures d in Candidates(cd, env, cd.dbs[cd.master]) <==> MayReplace(cd, d)
  {
  }

  /** A database has reached its generation, or has had longer to do so than it is given. */
  predicate Reached(db: Db) { db.status.generation == db.generation }

  predicate Overdue(cd: ClusterData, env: Env, db: Db) {
    var limit := if db.generation == 1 && db.spec.initMode == InitResync then cd.spec.syncTimeout else cd.spec.convergenceTimeout;
    !Reached(db) && limit != 0 && db.uid in env.convergenceTimers && env.now - env.convergenceTimers[db.uid] > limit
  }

  /** When a database counts as good, failed or converging, field by field. */
  lemma StatusTable(cd: ClusterData, env: Env, db: Db)
    requires db.spec.keeper in cd.keepers
    ensures var healthy := cd.keepers[db.spec.keeper].healthy;
            && (StatusOf(cd, env, db) == Good <==> healthy && Reached(db) && db.status.healthy)
            && (StatusOf(cd, env, db) == Failed <==> !healthy || Overdue(cd, env, db) || (Reached(db) && !db.status.healthy))
            && (StatusOf(cd, env, db) == Converging <==> healthy && !Reached(db) && !Overdue(cd, env, db))
  {
  }

  /** When a database counts as valid or invalid. */
  lemma ValidityTable(cd: ClusterData, db: Db)
    requires cd.master in cd.dbs
    ensures var m := cd.dbs[cd.master].status;
            var foreign := (db.status.systemId != "" && db.status.systemId != m.systemId)
                        || Timeline.Detect(m.timeline, m.history, db.status.timeline, db.status.history, db.status.xlog).different;
            && (ValidityOf(cd, db) == Invalid <==> db.status.generation != 0 && foreign)
            && (ValidityOf(cd, db) == Valid <==> db.status.generation != 0 && !foreign)
  {
  }

  lemma EnumeratedOnce(cd: ClusterData, r: seq<Db>, uids: set<string>, i: nat)
    requires cd.Consistent() && Enumerates(cd, r, uids) && i < |r|
    ensures r[i] !in r[..i]
  {
    assert r == r[..i] + [r[i]] + r[i + 1..];
    assert multiset(r)[r[i]] >= multiset(r[..i])[r[i]] + 1;
    assert multiset(Entries(cd, uids))[r[i]] <= 1;
  }

  method StandbyCandidates(cd: ClusterData, env: Env, master: Db, best: seq<Db>) returns (r: seq<Db>, ghost done: set<string>)
    requires cd.Consistent()
    requires Enumerates(cd, best, BestStandbys(cd, env, master))
    ensures Enumerates(cd, r, done)
    ensures forall d :: d in done <==> d in BestStandbys(cd, env, master) && cd.keepers[cd.dbs[d].spec.keeper].canBeMaster != Some(false)
  {
    EnumeratedAre(cd, best, BestStandbys(cd, env, master));
    r, done := [], {};
    for i := 0 to |best|
      invariant Enumerates(cd, r, done)
      invariant forall d :: d in done <==> d in cd.dbs && cd.dbs[d] in best[..i] && cd.keepers[cd.dbs[d].spec.keeper].canBeMaster != Some(false)
    {
      var db := best[i];
      assert best[..i + 1] == best[..i] + [db];
      if !(db.spec.keeper in cd.keepers && cd.keepers[db.spec.keeper].canBeMaster == Some(false)) {
        EnumeratedOnce(cd, best, BestStandbys(cd, env, master), i);
        EnumerateOne(cd, r, done, db.uid);
        r := r + [db];
        done := done + {db.uid};
      }
    }
    assert best[..|best|] == best;
  }

  method AddPreviousMasters(cd: ClusterData, env: Env, master: Db, r0: seq<Db>, ghost done0: set<string>) returns (r: seq<Db>, ghost done: set<string>)
    requires cd.Consistent()
    requires Enumerates(cd, r0, done0)
    requires forall d :: d in done0 ==> d in cd.dbs && TypeOf(cd.dbs[d]) == ReplicaLine
    ensures Enumerates(cd, r, done)
    ensures forall d :: d in done <==> d in done0 || (d in cd.dbs && Classified(cd, env, cd.dbs[d], PrimaryLine, Good) && Near(cd, master, cd.dbs[d]) && d != master.uid)
  {
    r, done := r0, done0;
    var validMasters, _, _ := ValidDbsByStatus(cd, env, PrimaryLine);
    var todo := validMasters;
    while todo != {}
      invariant todo <= validMasters
      invariant Enumerates(cd, r, done)
      invariant forall d :: d in done <==> d in done0 || (d in validMasters && d !in todo && Near(cd, master, cd.dbs[d]) && d != master.uid)
    {
      var d :| d in todo;
      var db := cd.dbs[d];
      if db.uid != master.uid && db.status.timeline == master.status.timeline
         && (cd.spec.SyncRepl() || Lag(master, db) <= cd.spec.maxStandbyLag) {
        EnumerateOne(cd, r, done, d);
        r := r + [db];
        done := done + {d};
      }
      todo := todo - {d};
    }
  }

  // -------------------------------------------------------------- properties

  /** Two ordered arrangements of the same elements start with the same one. */
  lemma SameFirst(a: seq<Db>, b: seq<Db>, less: (Db, Db) -> bool)
    requires a != [] && b != [] && Ordered(a, less) && Ordered(b, less)
    requires multiset(a) == multiset(b)
    requires less(a[0], b[0]) || less(b[0], a[0]) || a[0] == b[0]
    ensures a[0] == b[0]
  {
    assert a[0] in multiset(b) && b[0] in multiset(a);
    var i :| 0 <= i < |b| && b[i] == a[0];
    var j :| 0 <= j < |a| && a[j] == b[0];
    assert i > 0 ==> !less(a[0], b[0]);
    assert j > 0 ==> !less(b[0], a[0]);
  }

  lemma RestOf(a: seq<Db>)
    requires a != []
    ensures a == [a[0]] + a[1..]
    ensures multiset(a) == multiset{a[0]} + multiset(a[1..])
  {
  }

  lemma {:induction false} OrderedListUnique(a: seq<Db>, b: seq<Db>, less: (Db, Db) -> bool)
    requires Ordered(a, less) && Ordered(b, less)
    requires multiset(a) == multiset(b)
    requires forall x, y :: x in a && y in a && x != y ==> less(x, y) || less(y, x)
    ensures a == b
  {
    assert |a| == |b| by {
      assert |multiset(a)| == |a| && |multiset(b)| == |b|;
    }
    if a != [] {
      assert b[0] in multiset(a);
      SameFirst(a, b, less);
      RestOf(a);
      RestOf(b);
      assert multiset(a[1..]) == multiset(a) - multiset{a[0]} == multiset(b[1..]);
      OrderedListUnique(a[1..], b[1..], less);
    }
  }

  /**
   * The candidate list does not depend on the order in which Go walks the maps,
   * nor on how its unstable sorts break ties: there is only one.
   */
  lemma CandidateListUnique(cd: ClusterData, env: Env, master: Db, a: seq<Db>, b: seq<Db>)
    requires cd.Consistent()
    requires IsCandidateList(cd, env, master, a) && IsCandidateList(cd, env, master, b)
    ensures a == b
  {
    var less := (x, y) => CandidateLess(cd, x, y);
    EnumeratedAre(cd, a, Candidates(cd, env, master));
    forall x, y | x in a && y in a && x != y
      ensures less(x, y) || less(y, x)
    {
      StringOrderTotal(x.uid, y.uid);
    }
    OrderedListUnique(a, b, less);
  }

  /**
   * Every listed candidate is a database of the document other than a
   * primary-line master, valid, good, on the master's timeline and, with
   * asynchronous replication, within the maximum lag.
   */
  lemma CandidatesAreFit(cd: ClusterData, env: Env, master: Db, r: seq<Db>, db: Db)
    requires cd.Consistent()
    requires IsCandidateList(cd, env, master, r) && db in r
    ensures db.uid in cd.dbs && cd.dbs[db.uid] == db
    ensures ValidityOf(cd, db) == Valid && StatusOf(cd, env, db) == Good
    ensures db.status.timeline == master.status.timeline
    ensures !cd.spec.SyncRepl() ==> master.status.xlog <= db.status.xlog + cd.spec.maxStandbyLag
    ensures master.uid in cd.dbs && cd.dbs[master.uid].spec.role == Master ==> db.uid != master.uid
  {
    EnumeratedAre(cd, r, Candidates(cd, env, master));
  }
}
