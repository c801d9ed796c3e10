/**
 * No acknowledged commit is lost by automatic failovers.
 *
 * The world is the document as far as failover safety goes, one keeper and
 * PostgreSQL instance per database, and every report ever published.  A step is
 * one pass of a sentinel, one action of a keeper, or one action of PostgreSQL;
 * runs interleave them arbitrarily.
 */
module Durability {
  import SyncStandbys

  // ---------------------------------------------------------------- document

  /**
   * A database record: `names` is what its keeper is to configure as
   * synchronous_standby_names, `required` the database UIDs among them, `known`
   * the standbys known to be in sync, `primaryLine` its type.
   */
  datatype Record = Record(gen: nat, names: set<string>, required: set<string>, known: set<string>, primaryLine: bool) {
    function Electable(): set<string> { known * required }
  }

  datatype Doc = Doc(master: string, dbs: map<string, Record>)

  /** The generation only rises, and rises when the configured names change. */
  predicate Ages(a: Record, b: Record) { a.gen <= b.gen && (a.gen == b.gen ==> a.names == b.names && a.required == b.required) }

  /** What any pass does to a database it does not elect. */
  predicate Bystander(a: Record, b: Record) {
    && Ages(a, b)
    && b.known == a.known
    && b.primaryLine == a.primaryLine
    && (a.primaryLine ==> b.names == a.names)
  }

  ghost predicate OthersAge(d: Doc, next: Doc) {
    && (forall u :: u in next.dbs ==> next.dbs[u].required <= next.dbs[u].names)
    && (forall u :: u in next.dbs && u !in d.dbs ==> next.dbs[u].known == {} && !next.dbs[u].primaryLine && next.dbs[u].gen > 0)
    && forall u :: u in next.dbs && u in d.dbs && u != d.master && u != next.master ==> Bystander(d.dbs[u], next.dbs[u])
  }

  function Replicas(d: Doc): set<string> { set u | u in d.dbs && !d.dbs[u].primaryLine }

  /** A pass that keeps the master, having read `sync` as its report of in-sync standbys. */
  ghost predicate KeepsMaster(d: Doc, sync: set<string>, next: Doc) {
    && d.master in d.dbs && next.master == d.master && next.master in next.dbs
    && OthersAge(d, next)
    && var a, b := d.dbs[d.master], next.dbs[d.master];
       && Ages(a, b)
       && b.primaryLine == a.primaryLine
       && b.required <= a.required + Replicas(d)
       && b.Electable() <= a.required
       && b.Electable() <= a.Electable() + sync
  }

  /** A pass that replaces the master by an electable standby. */
  ghost predicate Elects(d: Doc, next: Doc) {
    && d.master in d.dbs && d.master in next.dbs && next.master in d.dbs && next.master in next.dbs
    && next.master in d.dbs[d.master].Electable() && next.master != d.master
    && OthersAge(d, next)
    && Bystander(d.dbs[d.master], next.dbs[d.master])
    && var a, b := d.dbs[next.master], next.dbs[next.master];
       && a.gen < b.gen
       && b.required == SyncStandbys.HandedOver(d.dbs[d.master].required, d.master, next.master)
       && b.known == a.known
       && b.primaryLine
  }

  // ------------------------------------------------------------------- world

  datatype Snapshot = Snapshot(gen: nat, names: set<string>, primaryLine: bool)

  datatype Names = Unknown | Known(names: set<string>)

  /** One database's keeper and PostgreSQL instance. */
  datatype Node = Node(
    // keeper
    snap: Snapshot,         // what it last read
    settled: bool,          // this pass has dealt with the parameters
    cur: Names,             // the names of the last successful reload or start
    local: nat,             // the generation it recorded
    pending: nat,           // the generation of the report being assembled
    // PostgreSQL
    file: set<string>,      // names in postgresql.conf
    cfg: set<string>,       // names in effect
    primary: bool,
    upstream: string,
    log: seq<int>,
    acked: nat              // how much of the log has been acknowledged to clients
  ) {
    function Acked(): seq<int>
      requires acked <= |log|
    {
      log[..acked]
    }
  }

  datatype Report = Report(uid: string, gen: nat, sync: set<string>)

  /**
   * `lineage` are the masters since replication became synchronous, `past` the
   * databases that were meant to be primaries before.
   */
  datatype World = World(doc: Doc, nodes: map<string, Node>, reports: set<Report>, lineage: seq<string>, past: set<string>)

  datatype Outcome = Loaded | WrittenOnly | NotWritten

  datatype Step =
    // sentinel
    | Pass(sync: set<string>, next: Doc)
    | Fail(next: Doc)
    // keeper
    | Create(u: string, log: seq<int>)
    | Restart(u: string)
    | Read(u: string)
    | Reload(u: string, outcome: Outcome)
    | Skip(u: string)
    | Save(u: string)
    | Promote(u: string)
    | Follow(u: string, upstream: string)
    | Begin(u: string)
    | Publish(u: string, sync: set<string>)
    // PostgreSQL
    | Sighup(u: string)
    | Write(u: string, c: int)
    | Receive(u: string, n: nat)
    | Ack(u: string, n: nat)

  /** `y` streams from `u`. */
  predicate Streams(w: World, u: string, y: string) { y in w.nodes && !w.nodes[y].primary && w.nodes[y].upstream == u }

  /** `y` has received the first `n` entries of `u`'s log while streaming from it. */
  predicate Confirms(w: World, u: string, y: string, n: nat)
    requires u in w.nodes && n <= |w.nodes[u].log|
  {
    Streams(w, u, y) && w.nodes[u].log[..n] <= w.nodes[y].log
  }

  /** UIDs are never reused. */
  ghost predicate Fresh(w: World, next: Doc) { forall u :: u in next.dbs && u !in w.doc.dbs ==> u !in w.nodes && u !in w.past }

  ghost predicate Enabled(w: World, s: Step) {
    match s
    case Pass(sync, next) =>
      && KeepsMaster(w.doc, sync, next) && Fresh(w, next)
      && (sync != {} ==> exists r :: r in w.reports && r.uid == w.doc.master && r.gen == w.doc.dbs[w.doc.master].gen && sync <= r.sync)
    case Fail(next) => Elects(w.doc, next) && Fresh(w, next)
    case Create(u, log) => u in w.doc.dbs && u !in w.nodes
    case Restart(u) => u in w.nodes
    case Read(u) => u in w.nodes && u in w.doc.dbs
    case Reload(u, _) => u in w.nodes
    case Skip(u) => u in w.nodes && w.nodes[u].cur == Known(w.nodes[u].snap.names)
    case Save(u) => u in w.nodes && w.nodes[u].settled
    case Promote(u) => u in w.nodes && !w.nodes[u].primary && w.nodes[u].snap.primaryLine
    case Follow(u, _) => u in w.nodes && !w.nodes[u].primary
    case Begin(u) => u in w.nodes
    case Publish(u, sync) =>
      // PostgreSQL calls a standby "sync" only on a primary, and only if it is configured and streaming
      && u in w.nodes
      && forall y :: y in sync ==> w.nodes[u].primary && y in w.nodes[u].cfg && Streams(w, u, y)
    case Sighup(u) => u in w.nodes
    case Write(u, _) => u in w.nodes && w.nodes[u].primary
    case Receive(u, n) =>
      && u in w.nodes && !w.nodes[u].primary && w.nodes[u].upstream in w.nodes
      && var p := w.nodes[w.nodes[u].upstream];
         |w.nodes[u].log| <= n <= |p.log| && w.nodes[u].log <= p.log
    case Ack(u, n) =>
      // a commit is acknowledged only when every configured name has it
      && u in w.nodes && w.nodes[u].primary && w.nodes[u].acked <= n <= |w.nodes[u].log|
      && forall y :: y in w.nodes[u].cfg ==> Confirms(w, u, y, n)
  }

  function Set(w: World, u: string, n: Node): World { w.(nodes := w.nodes[u := n]) }

  ghost function Apply(w: World, s: Step): World
    requires Enabled(w, s)
  {
    match s
    case Pass(_, next) => w.(doc := next)
    case Fail(next) => w.(doc := next, lineage := w.lineage + [next.master])
    case Create(u, log) => Set(w, u, Node(Snapshot(0, {}, false), false, Unknown, 0, 0, {}, {}, false, "", log, 0))
    case Restart(u) => Set(w, u, w.nodes[u].(settled := false, cur := Unknown, pending := 0))
    case Read(u) =>
      var r := w.doc.dbs[u];
      Set(w, u, w.nodes[u].(snap := Snapshot(r.gen, r.names, r.primaryLine), settled := false))
    case Reload(u, outcome) =>
      var n := w.nodes[u];
      match outcome {
        case Loaded => Set(w, u, n.(file := n.snap.names, cfg := n.snap.names, cur := Known(n.snap.names), settled := true))
        case WrittenOnly => Set(w, u, n.(file := n.snap.names, settled := true))
        case NotWritten => Set(w, u, n.(settled := true))
      }
    case Skip(u) => Set(w, u, w.nodes[u].(settled := true))
    case Save(u) => Set(w, u, w.nodes[u].(local := w.nodes[u].snap.gen))
    case Promote(u) => Set(w, u, w.nodes[u].(primary := true, acked := |w.nodes[u].log|))
    case Follow(u, p) => Set(w, u, w.nodes[u].(upstream := p))
    case Begin(u) => Set(w, u, w.nodes[u].(pending := w.nodes[u].local))
    case Publish(u, sync) => w.(reports := w.reports + {Report(u, w.nodes[u].pending, sync)})
    case Sighup(u) => Set(w, u, w.nodes[u].(cfg := w.nodes[u].file))
    case Write(u, c) => Set(w, u, w.nodes[u].(log := w.nodes[u].log + [c]))
    case Receive(u, n) => Set(w, u, w.nodes[u].(log := w.nodes[w.nodes[u].upstream].log[..n]))
    case Ack(u, n) => Set(w, u, w.nodes[u].(acked := n))
  }

  /** A keeper records a generation only once its names are in the configuration file. */
  predicate Careful(w: World, s: Step) {
    s.Save? && s.u in w.nodes ==> w.nodes[s.u].file == w.nodes[s.u].snap.names
  }

  /** A standby is reported in sync only when it has everything acknowledged so far. */
  predicate CaughtUp(w: World, s: Step) {
    s.Publish? && s.u in w.nodes ==>
      w.nodes[s.u].acked <= |w.nodes[s.u].log| && forall y :: y in s.sync ==> Confirms(w, s.u, y, w.nodes[s.u].acked)
  }

  /** The keeper of `u` has recorded the generation the document is at. */
  predicate Converged(w: World, u: string) { u in w.nodes && u in w.doc.dbs && w.nodes[u].local == w.doc.dbs[u].gen }

  function SyncPart(r: Record): SyncStandbys.SyncRecord { SyncStandbys.SyncRecord(r.required, r.known, r.names - r.required) }

  /** The sync section makes `b` of the master's record `a` when the master's report lists `sync`. */
  ghost predicate SectionedBy(w: World, a: Record, sync: set<string>, inp: SyncStandbys.Inputs, out: SyncStandbys.SyncRecord, b: Record) {
    && inp.Valid() && inp.present <= w.doc.dbs.Keys && w.doc.master !in inp.good
    && (forall u :: u in inp.good ==> Converged(w, u) && !w.doc.dbs[u].primaryLine)
    && SyncStandbys.Reconciled(SyncPart(a), sync, inp, out)
    && b == Record(b.gen, out.required + out.external, out.required, out.known, a.primaryLine)
    && Advances(a, b)
  }

  ghost predicate Sectioned(w: World, a: Record, sync: set<string>, b: Record) {
    exists inp, out :: SectionedBy(w, a, sync, inp, out, b)
  }

  /** The other databases keep their records, but for the generation; new ones start at the first. */
  ghost predicate OthersStay(d: Doc, next: Doc) {
    forall u :: u in next.dbs && u != d.master ==>
      if u in d.dbs then next.dbs[u] == d.dbs[u].(gen := next.dbs[u].gen) && Advances(d.dbs[u], next.dbs[u])
      else next.dbs[u] == Record(1, {}, {}, {}, false)
  }

  /** The generation rises by one when the names change; it may when something else in the spec does. */
  predicate Advances(a: Record, b: Record) { b.gen == a.gen + 1 || (b.gen == a.gen && b.names == a.names) }

  /**
   * The steps of the code itself, which are fewer than the ones the argument
   * allows: a pass acts on a report of the current generation, moves the
   * master's record by the sync section and creates databases at the first
   * generation; a new instance is a copy of the master; an elected database has
   * converged.
   */
  ghost predicate Genuine(w: World, s: Step) {
    var m := w.doc.master;
    match s
    case Pass(sync, next) =>
      && m in w.doc.dbs && m in next.dbs
      && Report(m, w.doc.dbs[m].gen, sync) in w.reports
      && Sectioned(w, w.doc.dbs[m], sync, next.dbs[m])
      && OthersStay(w.doc, next)
    case Fail(next) => Converged(w, next.master)
    case Create(u, log) => m in w.nodes && log == w.nodes[m].log
    case _ => true
  }

  // --------------------------------------------------------------- invariant

  ghost predicate DocOk(w: World) {
    && |w.lineage| > 0 && w.doc.master == w.lineage[|w.lineage| - 1]
    && (forall i, j :: 0 <= i < j < |w.lineage| ==> w.lineage[i] != w.lineage[j])
    && (forall u :: u in w.lineage ==> u in w.nodes && u !in w.past)
    && w.doc.master in w.doc.dbs && w.doc.dbs[w.doc.master].required !! w.past
    && forall u :: u in w.doc.dbs ==>
         && w.doc.dbs[u].required <= w.doc.dbs[u].names
         && (w.doc.dbs[u].primaryLine <==> u in w.lineage || u in w.past)
         && (!w.doc.dbs[u].primaryLine ==> w.doc.dbs[u].known == {})
  }

  /** The keeper of `u` runs behind the document, and its records and reports behind it. */
  ghost predicate Recorded(w: World, u: string)
    requires u in w.nodes
  {
    var n := w.nodes[u];
    && n.acked <= |n.log|
    && n.pending <= n.local <= n.snap.gen
    && (0 < n.local == n.snap.gen ==> n.file == n.snap.names)
    && (forall r :: r in w.reports && r.uid == u ==> r.gen <= n.local)
    && (u in w.doc.dbs ==>
          var r := w.doc.dbs[u];
          n.snap.gen <= r.gen && (0 < n.snap.gen == r.gen ==> n.snap.names == r.names))
  }

  ghost predicate KeeperOk(w: World, u: string)
    requires u in w.nodes
  {
    Recorded(w, u) && (w.nodes[u].primary || w.nodes[u].snap.primaryLine ==> u in w.lineage || u in w.past)
  }

  ghost predicate KeepersOk(w: World) {
    && (forall u :: u in w.nodes ==> KeeperOk(w, u))
    && (forall r :: r in w.reports ==> r.uid in w.nodes)
    && forall u :: u in w.doc.dbs ==> w.doc.dbs[u].gen > 0
  }

  /** `y` is configured on `u` now and, whatever the keeper of `u` does next, stays so. */
  predicate Pinned(w: World, u: string, y: string)
    requires u in w.nodes
  {
    && y in w.nodes[u].cfg && y in w.nodes[u].file && y in w.nodes[u].snap.names
    && (u in w.doc.dbs ==> y in w.doc.dbs[u].names)
  }

  /** `y` holds everything `u` has acknowledged. */
  predicate Holds(w: World, u: string, y: string) {
    u in w.nodes && y in w.nodes && w.nodes[u].acked <= |w.nodes[u].log| && w.nodes[u].Acked() <= w.nodes[y].log
  }

  /** `y` may safely replace the master. */
  predicate SafeStandby(w: World, y: string) {
    var m := w.doc.master;
    && m in w.nodes && w.nodes[m].primary
    && y in w.nodes && !w.nodes[y].primary && y !in w.lineage && y !in w.past
    && Pinned(w, m, y) && Holds(w, m, y)
  }

  /** A past master waits for its successor, which holds all it acknowledged. */
  ghost predicate SucceededBy(w: World, m: string, n: string) {
    && m in w.nodes && n in w.nodes && w.nodes[m].primary
    && Pinned(w, m, n) && Holds(w, m, n)
    && (w.nodes[n].primary ==> w.nodes[n].acked <= |w.nodes[n].log| && w.nodes[m].Acked() <= w.nodes[n].Acked())
  }

  ghost predicate LineageOk(w: World) {
    forall i :: 0 <= i < |w.lineage| - 1 ==> SucceededBy(w, w.lineage[i], w.lineage[i + 1])
  }

  ghost predicate ElectableOk(w: World)
    requires w.doc.master in w.doc.dbs
  {
    forall y :: y in w.doc.dbs[w.doc.master].Electable() ==> SafeStandby(w, y)
  }

  /** A report the sentinel could still act on. */
  predicate Current(w: World, r: Report) {
    w.doc.master in w.doc.dbs && r in w.reports && r.uid == w.doc.master && r.gen == w.doc.dbs[w.doc.master].gen
  }

  ghost predicate ReportsOk(w: World)
    requires w.doc.master in w.doc.dbs
  {
    forall r, y :: Current(w, r) && y in r.sync && y in w.doc.dbs[w.doc.master].required ==> SafeStandby(w, y)
  }

  ghost predicate Inv(w: World) { DocOk(w) && KeepersOk(w) && LineageOk(w) && ElectableOk(w) && ReportsOk(w) }

  // ------------------------------------------------- what every step preserves

  lemma ConfigKeepsKeepers(w: World, u: string, n: Node)
    requires Inv(w) && u in w.nodes && KeeperOk(Set(w, u, n), u)
    ensures KeepersOk(Set(w, u, n))
  {
    var v := Set(w, u, n);
    forall x | x in v.nodes
      ensures KeeperOk(v, x)
    {
      assert KeeperOk(w, x);
    }
  }

  /** An action that leaves the log, the acknowledged part and the role of `u` alone. */
  lemma ConfigKeepsInv(w: World, u: string, n: Node)
    requires Inv(w) && u in w.nodes
    requires n.primary == w.nodes[u].primary && n.log == w.nodes[u].log && n.acked == w.nodes[u].acked
    requires forall y :: Pinned(w, u, y) ==> Pinned(Set(w, u, n), u, y)
    requires KeeperOk(Set(w, u, n), u)
    ensures Inv(Set(w, u, n))
  {
    var v := Set(w, u, n);
    ConfigKeepsKeepers(w, u, n);
    forall i | 0 <= i < |v.lineage| - 1
      ensures SucceededBy(v, v.lineage[i], v.lineage[i + 1])
    {
      assert SucceededBy(w, w.lineage[i], w.lineage[i + 1]);
    }
    forall y | SafeStandby(w, y)
      ensures SafeStandby(v, y)
    {
    }
  }

  lemma RecordingKeepsInv(w: World, s: Step)
    requires Inv(w) && Enabled(w, s) && Careful(w, s)
    requires s.Restart? || s.Skip? || s.Save? || s.Follow? || s.Begin?
    ensures Inv(Apply(w, s))
  {
    assert KeeperOk(w, s.u);
    ConfigKeepsInv(w, s.u, Apply(w, s).nodes[s.u]);
  }

  lemma ReloadKeepsInv(w: World, u: string, outcome: Outcome)
    requires Inv(w) && Enabled(w, Reload(u, outcome))
    ensures Inv(Apply(w, Reload(u, outcome)))
  {
    assert KeeperOk(w, u);
    ConfigKeepsInv(w, u, Apply(w, Reload(u, outcome)).nodes[u]);
  }

  lemma SighupKeepsInv(w: World, u: string)
    requires Inv(w) && Enabled(w, Sighup(u))
    ensures Inv(Apply(w, Sighup(u)))
  {
    assert KeeperOk(w, u);
    ConfigKeepsInv(w, u, Apply(w, Sighup(u)).nodes[u]);
  }

  lemma ReadKeepsInv(w: World, u: string)
    requires Inv(w) && Enabled(w, Read(u))
    ensures Inv(Apply(w, Read(u)))
  {
    assert KeeperOk(w, u);
    ConfigKeepsInv(w, u, Apply(w, Read(u)).nodes[u]);
  }

  lemma GrowthKeepsInv(w: World, u: string, log: seq<int>)
    requires Inv(w) && u in w.nodes && w.nodes[u].log <= log
    ensures Inv(Set(w, u, w.nodes[u].(log := log)))
  {
    var v := Set(w, u, w.nodes[u].(log := log));
    forall x | x in v.nodes
      ensures KeeperOk(v, x)
    {
      assert KeeperOk(w, x) && KeeperOk(w, u);
    }
    forall i | 0 <= i < |v.lineage| - 1
      ensures SucceededBy(v, v.lineage[i], v.lineage[i + 1])
    {
      assert SucceededBy(w, w.lineage[i], w.lineage[i + 1]);
      GrowthKeepsHolding(w, u, log, w.lineage[i], w.lineage[i + 1]);
    }
    forall y | SafeStandby(w, y)
      ensures SafeStandby(v, y)
    {
      GrowthKeepsHolding(w, u, log, w.doc.master, y);
    }
  }

  lemma GrowthKeepsHolding(w: World, u: string, log: seq<int>, x: string, y: string)
    requires u in w.nodes && w.nodes[u].log <= log && Holds(w, x, y)
    ensures var v := Set(w, u, w.nodes[u].(log := log));
            Holds(v, x, y) && v.nodes[x].Acked() == w.nodes[x].Acked()
            && (w.nodes[y].acked <= |w.nodes[y].log| ==> v.nodes[y].Acked() == w.nodes[y].Acked())
  {
  }

  lemma AckKeepsKeepers(w: World, u: string, n: nat)
    requires Inv(w) && Enabled(w, Ack(u, n))
    ensures KeepersOk(Apply(w, Ack(u, n)))
  {
    var v := Apply(w, Ack(u, n));
    forall x | x in v.nodes
      ensures KeeperOk(v, x)
    {
      assert KeeperOk(w, x);
    }
  }

  lemma AckKeepsLineage(w: World, u: string, n: nat)
    requires Inv(w) && Enabled(w, Ack(u, n))
    ensures LineageOk(Apply(w, Ack(u, n)))
  {
    var v := Apply(w, Ack(u, n));
    forall i | 0 <= i < |v.lineage| - 1
      ensures SucceededBy(v, v.lineage[i], v.lineage[i + 1])
    {
      assert SucceededBy(w, w.lineage[i], w.lineage[i + 1]);
      assert w.lineage[i] == u ==> Confirms(w, u, w.lineage[i + 1], n);
      assert w.nodes[u].Acked() <= v.nodes[u].Acked();
    }
  }

  /** A past master acknowledges nothing once its successor has been promoted. */
  lemma AckKeepsInv(w: World, u: string, n: nat)
    requires Inv(w) && Enabled(w, Ack(u, n))
    ensures Inv(Apply(w, Ack(u, n)))
  {
    var v := Apply(w, Ack(u, n));
    AckKeepsKeepers(w, u, n);
    AckKeepsLineage(w, u, n);
    forall y | SafeStandby(w, y)
      ensures SafeStandby(v, y)
    {
      assert w.doc.master == u ==> Confirms(w, u, y, n);
    }
  }

  lemma NotPrimaryIsLast(w: World, u: string)
    requires Inv(w) && u in w.lineage && !w.nodes[u].primary
    ensures u == w.doc.master
  {
    var i :| 0 <= i < |w.lineage| && w.lineage[i] == u;
    assert i < |w.lineage| - 1 ==> SucceededBy(w, w.lineage[i], w.lineage[i + 1]);
  }

  /** Only the last of the lineage, or an instance from before, is still to be promoted. */
  lemma PromotedIsLast(w: World, u: string)
    requires Inv(w) && Enabled(w, Promote(u))
    ensures u in w.past || u == w.doc.master
  {
    assert KeeperOk(w, u);
    if u in w.lineage {
      NotPrimaryIsLast(w, u);
    }
  }

  lemma PromoteKeepsLineage(w: World, u: string)
    requires Inv(w) && Enabled(w, Promote(u)) && (u in w.past || u == w.doc.master)
    ensures LineageOk(Apply(w, Promote(u)))
  {
    var v := Apply(w, Promote(u));
    forall i | 0 <= i < |v.lineage| - 1
      ensures SucceededBy(v, v.lineage[i], v.lineage[i + 1])
    {
      assert SucceededBy(w, w.lineage[i], w.lineage[i + 1]);
      assert v.lineage[i] != u;
      assert v.nodes[u].Acked() == w.nodes[u].log;
    }
  }

  lemma PromoteKeepsInv(w: World, u: string)
    requires Inv(w) && Enabled(w, Promote(u))
    ensures Inv(Apply(w, Promote(u)))
  {
    var v := Apply(w, Promote(u));
    PromotedIsLast(w, u);
    PromoteKeepsLineage(w, u);
    forall x | x in v.nodes
      ensures KeeperOk(v, x)
    {
      assert KeeperOk(w, x);
    }
    forall y | SafeStandby(w, y)
      ensures SafeStandby(v, y)
    {
      assert u != w.doc.master;
    }
  }

  /** Only the last of the lineage may still stream from another instance. */
  lemma StreamingIsNoMaster(w: World, y: string)
    requires Inv(w) && w.doc.master in w.nodes && w.nodes[w.doc.master].primary
    requires y in w.nodes && !w.nodes[y].primary
    ensures y !in w.lineage
  {
    if y in w.lineage {
      NotPrimaryIsLast(w, y);
    }
  }

  lemma PublishKeepsInv(w: World, u: string, sync: set<string>)
    requires Inv(w) && Enabled(w, Publish(u, sync)) && CaughtUp(w, Publish(u, sync))
    ensures Inv(Apply(w, Publish(u, sync)))
  {
    var v := Apply(w, Publish(u, sync));
    var published := Report(u, w.nodes[u].pending, sync);
    assert KeeperOk(w, u);
    forall x | x in v.nodes
      ensures KeeperOk(v, x)
    {
      assert KeeperOk(w, x);
    }
    forall i | 0 <= i < |v.lineage| - 1
      ensures SucceededBy(v, v.lineage[i], v.lineage[i + 1])
    {
      assert SucceededBy(w, w.lineage[i], w.lineage[i + 1]);
    }
    forall y | SafeStandby(w, y)
      ensures SafeStandby(v, y)
    {
    }
    if Current(v, published) {
      forall y | y in sync && y in w.doc.dbs[u].required
        ensures SafeStandby(v, y)
      {
        assert Confirms(w, u, y, w.nodes[u].acked);
        StreamingIsNoMaster(w, y);
      }
    }
    forall r, y | Current(v, r) && y in r.sync && y in v.doc.dbs[v.doc.master].required
      ensures SafeStandby(v, y)
    {
      assert r != published ==> Current(w, r);
    }
  }

  lemma CreateKeepsInv(w: World, u: string, log: seq<int>)
    requires Inv(w) && Enabled(w, Create(u, log))
    ensures Inv(Apply(w, Create(u, log)))
  {
    var v := Apply(w, Create(u, log));
    forall x | x in v.nodes
      ensures KeeperOk(v, x)
    {
      assert x != u ==> KeeperOk(w, x);
    }
    forall i | 0 <= i < |v.lineage| - 1
      ensures SucceededBy(v, v.lineage[i], v.lineage[i + 1])
    {
      assert SucceededBy(w, w.lineage[i], w.lineage[i + 1]);
    }
    forall y | SafeStandby(w, y)
      ensures SafeStandby(v, y)
    {
    }
  }

  lemma DocStepKeepsKeepers(w: World, next: Doc)
    requires KeepersOk(w) && Fresh(w, next) && OthersAge(w.doc, next)
    requires forall u :: u in next.dbs && u in w.doc.dbs ==> Ages(w.doc.dbs[u], next.dbs[u])
    ensures KeepersOk(w.(doc := next))
  {
  }

  lemma DocStepKeepsLineage(w: World, next: Doc)
    requires Inv(w) && Fresh(w, next)
    requires forall u :: u in next.dbs && u in w.doc.dbs && u != w.doc.master && w.doc.dbs[u].primaryLine ==> next.dbs[u].names == w.doc.dbs[u].names
    ensures LineageOk(w.(doc := next))
  {
  }

  /** A safe standby that the document still requires stays safe. */
  lemma StaysSafe(w: World, next: Doc, y: string)
    requires SafeStandby(w, y) && next.master == w.doc.master
    requires next.master in next.dbs ==> y in next.dbs[next.master].names
    ensures SafeStandby(w.(doc := next), y)
  {
  }

  lemma PassKeepsInv(w: World, sync: set<string>, next: Doc)
    requires Inv(w) && Enabled(w, Pass(sync, next))
    ensures Inv(Apply(w, Pass(sync, next)))
  {
    var v := Apply(w, Pass(sync, next));
    var m := w.doc.master;
    DocStepKeepsKeepers(w, next);
    DocStepKeepsLineage(w, next);
    forall y | y in next.dbs[m].Electable()
      ensures SafeStandby(v, y)
    {
      if y !in w.doc.dbs[m].Electable() {
        var r :| r in w.reports && r.uid == m && r.gen == w.doc.dbs[m].gen && sync <= r.sync;
        assert Current(w, r);
      }
      StaysSafe(w, next, y);
    }
    forall r, y | Current(v, r) && y in r.sync && y in next.dbs[m].required
      ensures SafeStandby(v, y)
    {
      assert KeeperOk(w, m);
      assert Current(w, r);
      StaysSafe(w, next, y);
    }
  }

  /** A document with some databases gone and nothing else changed is one a pass may write. */
  lemma FewerIsEnabled(w: World, next: Doc)
    requires Inv(w) && next.master == w.doc.master && next.master in next.dbs
    requires forall u :: u in next.dbs ==> u in w.doc.dbs && next.dbs[u] == w.doc.dbs[u]
    ensures Enabled(w, Pass({}, next))
  {
  }

  lemma FailKeepsLineage(w: World, next: Doc)
    requires Inv(w) && Enabled(w, Fail(next))
    ensures LineageOk(Apply(w, Fail(next)))
  {
  }

  lemma FailKeepsKeepers(w: World, next: Doc)
    requires Inv(w) && Enabled(w, Fail(next))
    ensures KeepersOk(Apply(w, Fail(next)))
  {
  }

  lemma FailKeepsInv(w: World, next: Doc)
    requires Inv(w) && Enabled(w, Fail(next))
    ensures Inv(Apply(w, Fail(next)))
  {
    var n := next.master;
    assert SafeStandby(w, n);
    FailKeepsKeepers(w, next);
    FailKeepsLineage(w, next);
    assert next.dbs[n].Electable() == {};
    assert KeeperOk(w, n);
    assert forall r :: !Current(Apply(w, Fail(next)), r);
  }

  lemma StepKeepsInv(w: World, s: Step)
    requires Inv(w) && Enabled(w, s) && Careful(w, s) && CaughtUp(w, s)
    ensures Inv(Apply(w, s))
  {
    match s
    case Pass(sync, next) => PassKeepsInv(w, sync, next);
    case Fail(next) => FailKeepsInv(w, next);
    case Create(u, log) => CreateKeepsInv(w, u, log);
    case Read(u) => ReadKeepsInv(w, u);
    case Promote(u) => PromoteKeepsInv(w, u);
    case Publish(u, sync) => PublishKeepsInv(w, u, sync);
    case Write(u, c) => GrowthKeepsInv(w, u, w.nodes[u].log + [c]);
    case Receive(u, n) => GrowthKeepsInv(w, u, w.nodes[w.nodes[u].upstream].log[..n]);
    case Ack(u, n) => AckKeepsInv(w, u, n);
    case Reload(u, outcome) => ReloadKeepsInv(w, u, outcome);
    case Sighup(u) => SighupKeepsInv(w, u);
    case _ => RecordingKeepsInv(w, s);
  }

  // -------------------------------------------------------------------- runs

  /** What is demanded of the steps of a run, beside being enabled. */
  datatype Rules = Rules(careful: bool, caughtUp: bool, genuine: bool)

  ghost predicate Obeys(w: World, s: Step, rules: Rules) {
    && (rules.careful ==> Careful(w, s))
    && (rules.caughtUp ==> CaughtUp(w, s))
    && (rules.genuine ==> Genuine(w, s))
  }

  /** The steps lead from `w` to `v` by the rules. */
  ghost predicate Leads(w: World, steps: seq<Step>, v: World, rules: Rules)
    decreases |steps|
  {
    if steps == [] then v == w
    else Enabled(w, steps[0]) && Obeys(w, steps[0], rules) && Leads(Apply(w, steps[0]), steps[1..], v, rules)
  }

  /**
   * Synchronous replication has just been switched on: there has been one master
   * since, no standby may be elected yet, and no report the sentinel could act
   * on lists a required one.
   */
  ghost predicate Init(w: World) {
    && w.lineage == [w.doc.master]
    && DocOk(w) && KeepersOk(w)
    && w.doc.dbs[w.doc.master].Electable() == {}
    && forall r :: Current(w, r) ==> r.sync !! w.doc.dbs[w.doc.master].required
  }

  lemma InitIsInv(w: World)
    requires Init(w)
    ensures Inv(w)
  {
  }

  /** A newborn cluster: one database, on its own. */
  ghost function Birth(m: string, log: seq<int>): World {
    World(Doc(m, map[m := Record(1, {}, {}, {}, true)]),
          map[m := Node(Snapshot(1, {}, true), true, Unknown, 0, 0, {}, {}, true, "", log, |log|)], {}, [m], {})
  }

  lemma BirthIsInit(m: string, log: seq<int>)
    ensures Init(Birth(m, log))
  {
  }

  lemma {:induction false} InvAlongRun(w: World, steps: seq<Step>, v: World, rules: Rules)
    requires Inv(w) && Leads(w, steps, v, rules) && rules.careful && rules.caughtUp
    ensures Inv(v)
    decreases |steps|
  {
    if steps != [] {
      StepKeepsInv(w, steps[0]);
      InvAlongRun(Apply(w, steps[0]), steps[1..], v, rules);
    }
  }

  lemma {:induction false} AckedChain(w: World, i: nat, j: nat)
    requires Inv(w) && i <= j < |w.lineage| && w.nodes[w.lineage[j]].primary
    ensures w.nodes[w.lineage[i]].acked <= |w.nodes[w.lineage[i]].log|
    ensures w.nodes[w.lineage[j]].acked <= |w.nodes[w.lineage[j]].log|
    ensures w.nodes[w.lineage[i]].Acked() <= w.nodes[w.lineage[j]].Acked()
  {
    assert KeeperOk(w, w.lineage[i]) && KeeperOk(w, w.lineage[j]);
    if i < j {
      assert SucceededBy(w, w.lineage[j - 1], w.lineage[j]);
      AckedChain(w, i, j - 1);
    }
  }

  lemma MasterHoldsAll(w: World, i: nat)
    requires Inv(w) && i < |w.lineage|
    ensures Holds(w, w.lineage[i], w.doc.master)
  {
    var k := |w.lineage| - 1;
    assert KeeperOk(w, w.lineage[i]) && KeeperOk(w, w.doc.master);
    if w.nodes[w.doc.master].primary {
      AckedChain(w, i, k);
    } else if i < k {
      assert SucceededBy(w, w.lineage[k - 1], w.lineage[k]);
      AckedChain(w, i, k - 1);
    }
  }

  /**
   * No lost commit: after any run of sentinel, keeper and PostgreSQL steps with
   * synchronous replication and automatic failovers only, in which keepers are
   * careful and reported standbys caught up, the elected master holds every
   * commit that any master ever acknowledged, including commits a replaced
   * master acknowledged after its replacement had been elected.
   */
  lemma NoLostCommit(w: World, steps: seq<Step>, v: World, rules: Rules, m: string)
    requires Init(w) && Leads(w, steps, v, rules) && rules.careful && rules.caughtUp
    requires m in v.lineage
    ensures Holds(v, m, v.doc.master)
  {
    InvAlongRun(w, steps, v, rules);
    var i :| 0 <= i < |v.lineage| && v.lineage[i] == m;
    MasterHoldsAll(v, i);
  }

  // ---------------------------------------------- when reloads never fail

  ghost predicate InStep(w: World) {
    forall u :: u in w.nodes ==>
      && (w.nodes[u].cur.Known? ==> w.nodes[u].file == w.nodes[u].cur.names)
      && (w.nodes[u].settled ==> w.nodes[u].file == w.nodes[u].snap.names)
  }

  predicate ReloadSucceeds(s: Step) { s.Reload? ==> s.outcome == Loaded }

  lemma StepKeepsInStep(w: World, s: Step)
    requires InStep(w) && Enabled(w, s) && ReloadSucceeds(s)
    ensures InStep(Apply(w, s)) && Careful(w, s)
  {
  }

  lemma {:induction false} ReloadsMakeCareful(w: World, steps: seq<Step>, v: World, rules: Rules)
    requires InStep(w) && Leads(w, steps, v, rules)
    requires forall s :: s in steps ==> ReloadSucceeds(s)
    ensures Leads(w, steps, v, rules.(careful := true))
    decreases |steps|
  {
    if steps != [] {
      assert steps[0] in steps && ReloadSucceeds(steps[0]);
      StepKeepsInStep(w, steps[0]);
      assert forall s :: s in steps[1..] ==> s in steps;
      ReloadsMakeCareful(Apply(w, steps[0]), steps[1..], v, rules);
    }
  }

  /** As long as every reload of PostgreSQL's configuration succeeds, nothing is lost. */
  lemma NoLostCommitWhenReloadsSucceed(w: World, steps: seq<Step>, v: World, rules: Rules, m: string)
    requires Init(w) && InStep(w) && Leads(w, steps, v, rules) && rules.caughtUp
    requires forall s :: s in steps ==> ReloadSucceeds(s)
    requires m in v.lineage
    ensures Holds(v, m, v.doc.master)
  {
    ReloadsMakeCareful(w, steps, v, rules);
    NoLostCommit(w, steps, v, rules.(careful := true), m);
  }

  // ------------------------------------------- before replication is synchronous

  /** An instance that is a primary, or whose keeper takes it for one, is one in the document too, as long as it is there. */
  ghost predicate RoleOk(w: World, u: string)
    requires u in w.nodes
  {
    u in w.doc.dbs && (w.nodes[u].primary || w.nodes[u].snap.primaryLine) ==> w.doc.dbs[u].primaryLine
  }

  /** What holds whether replication is synchronous or not. */
  ghost predicate Tracked(w: World) {
    && (forall u :: u in w.nodes ==> Recorded(w, u) && RoleOk(w, u))
    && (forall r :: r in w.reports ==> r.uid in w.nodes)
    && forall u :: u in w.doc.dbs ==> w.doc.dbs[u].gen > 0
  }

  /** Steps of a keeper or of PostgreSQL. */
  predicate IsLocal(s: Step) { !s.Pass? && !s.Fail? }

  lemma ActorStaysTracked(w: World, s: Step)
    requires Tracked(w) && IsLocal(s) && Enabled(w, s) && Careful(w, s) && !s.Create? && !s.Publish?
    ensures s.u in w.nodes && Apply(w, s) == Set(w, s.u, Apply(w, s).nodes[s.u])
    ensures Recorded(Apply(w, s), s.u) && RoleOk(Apply(w, s), s.u)
  {
    assert Recorded(w, s.u) && RoleOk(w, s.u);
  }

  lemma LocalKeepsTracked(w: World, s: Step)
    requires Tracked(w) && IsLocal(s) && Enabled(w, s) && Careful(w, s)
    ensures Tracked(Apply(w, s)) && Apply(w, s).doc == w.doc && Apply(w, s).nodes.Keys <= w.nodes.Keys + w.doc.dbs.Keys
    ensures w.nodes.Keys <= Apply(w, s).nodes.Keys
  {
    var v := Apply(w, s);
    if !s.Create? && !s.Publish? {
      ActorStaysTracked(w, s);
    }
    forall u | u in v.nodes
      ensures Recorded(v, u) && RoleOk(v, u)
    {
      assert u in w.nodes ==> Recorded(w, u) && RoleOk(w, u);
    }
  }

  /** However the document changes, as long as generations count and primaries stay primaries. */
  lemma DocKeepsTracked(w: World, next: Doc)
    requires Tracked(w)
    requires forall u :: u in next.dbs ==> next.dbs[u].gen > 0 && (u in w.nodes ==> u in w.doc.dbs)
    requires forall u :: u in next.dbs && u in w.doc.dbs ==> Ages(w.doc.dbs[u], next.dbs[u]) && (w.doc.dbs[u].primaryLine ==> next.dbs[u].primaryLine)
    ensures Tracked(w.(doc := next))
  {
    var v := w.(doc := next);
    forall u | u in v.nodes
      ensures Recorded(v, u) && RoleOk(v, u)
    {
      assert Recorded(w, u) && RoleOk(w, u);
    }
  }

  /** The instances other than the master's that are, or may become, primaries. */
  ghost function Others(w: World): set<string> {
    (set u | u in w.nodes && (w.nodes[u].primary || w.nodes[u].snap.primaryLine)) + (set u | u in w.doc.dbs && w.doc.dbs[u].primaryLine) - {w.doc.master}
  }

  /** The world from which a new lineage is counted. */
  ghost function Anchored(w: World): World { w.(lineage := [w.doc.master], past := Others(w)) }

  /**
   * Replication may be taken as synchronous from here: the master's instance
   * exists, no standby may be elected yet, those required are replicas, and the
   * master has not reported the document's generation.
   */
  lemma AnchoredIsInit(w: World)
    requires Tracked(w) && w.doc.master in w.doc.dbs && w.doc.master in w.nodes
    requires forall u :: u in w.doc.dbs ==> w.doc.dbs[u].required <= w.doc.dbs[u].names && (!w.doc.dbs[u].primaryLine ==> w.doc.dbs[u].known == {})
    requires var m := w.doc.dbs[w.doc.master];
             && m.primaryLine && m.Electable() == {} && m.required !! Others(w)
             && (m.required == {} || forall r :: !Current(w, r))
    ensures Init(Anchored(w))
  {
    var v := Anchored(w);
    forall u | u in v.nodes
      ensures KeeperOk(v, u)
    {
      assert Recorded(w, u) && RoleOk(w, u);
    }
    forall u | u in v.doc.dbs
      ensures v.doc.dbs[u].primaryLine <==> u in v.lineage || u in v.past
    {
      assert u in w.nodes ==> RoleOk(w, u);
    }
    assert forall r :: Current(v, r) <==> Current(w, r);
  }

  // -------------------------------------------------------- reaching a world

  ghost predicate Reaches(w: World, v: World, rules: Rules) { exists steps :: Leads(w, steps, v, rules) }

  lemma {:induction false} LeadsOn(w: World, steps: seq<Step>, v: World, s: Step, rules: Rules)
    requires Leads(w, steps, v, rules) && Enabled(v, s) && Obeys(v, s, rules)
    ensures Leads(w, steps + [s], Apply(v, s), rules)
    decreases |steps|
  {
    if steps == [] {
      assert ([s])[1..] == [];
    } else {
      LeadsOn(Apply(w, steps[0]), steps[1..], v, s, rules);
      assert (steps + [s])[1..] == steps[1..] + [s];
    }
  }

  lemma ReachesOn(w: World, v: World, s: Step, rules: Rules)
    requires Reaches(w, v, rules) && Enabled(v, s) && Obeys(v, s, rules)
    ensures Reaches(w, Apply(v, s), rules)
  {
    var steps :| Leads(w, steps, v, rules);
    LeadsOn(w, steps, v, s, rules);
  }
}
