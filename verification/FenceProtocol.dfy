/**
 * Fence safety: in every interleaving of sentinels and proxies, all writable
 * routes lead to the same database, and the fence opens for a new master only
 * when nobody routes to the old one.
 */
module FenceProtocol {
  import opened Cluster
  import opened Fencing

  /** The parts of the document the protocol is about. */
  datatype Doc = Doc(fence: Fence, master: string)

  /** A proxy: where it routes, and what is left of the check it is in. */
  datatype Proxy = Proxy(route: string, todo: seq<Action>)

  /** A sentinel between its reads and its write. */
  datatype Sentinel = Idle | HasDoc(doc: Doc) | HasInfos(doc: Doc, infos: map<string, nat>)

  /** `last` is the master the fence was last opened for. */
  datatype World = World(
    doc: Doc,
    last: string,
    proxies: map<string, Proxy>,
    infos: map<string, nat>,
    sentinels: map<string, Sentinel>
  )

  datatype Step =
    | Join(p: string)                                             // a proxy starts
    | Read(p: string, snap: Snapshot, resolves: bool, reportOk: bool)
    | Act(p: string)                                              // the next action of a check
    | Abort(p: string)                                            // a check times out: routes are cleared
    | Drop(p: string)                                             // a check fails otherwise: routes stay
    | ReadDoc(s: string)
    | ReadInfos(s: string, seen: map<string, nat>)
    | Keep(s: string)                                             // write of a pass that keeps the master
    | Elect(s: string, master: string)                            // write of a pass that replaces it
    | GiveUp(s: string)

  /** The proxy neither routes nor is about to. */
  ghost predicate Quiet(x: Proxy) {
    x.route == NO_UID && forall a :: a in x.todo && a.Route? ==> a.destination == NO_UID
  }

  function SentinelOf(w: World, s: string): Sentinel { if s in w.sentinels then w.sentinels[s] else Idle }

  ghost predicate Enabled(w: World, e: Step) {
    match e
    case Join(p) => p !in w.proxies
    case Read(p, snap, _, _) =>
      && p in w.proxies && w.proxies[p].todo == []
      && (snap.Usable? ==> snap.fence == w.doc.fence)
    case Act(p) => p in w.proxies && w.proxies[p].todo != []
    case Abort(p) => p in w.proxies
    case Drop(p) => p in w.proxies
    case ReadDoc(s) => true
    case ReadInfos(s, seen) => SentinelOf(w, s).HasDoc? && forall p :: p in seen ==> p in w.infos && seen[p] == w.infos[p]
    case Keep(s) => SentinelOf(w, s).HasInfos? && SentinelOf(w, s).doc == w.doc && w.doc.master != NO_UID
    case Elect(s, master) => SentinelOf(w, s).HasInfos? && SentinelOf(w, s).doc == w.doc && master != NO_UID
    case GiveUp(s) => true
  }

  function SetProxy(w: World, p: string, x: Proxy): World { w.(proxies := w.proxies[p := x]) }

  function SetSentinel(w: World, s: string, x: Sentinel): World { w.(sentinels := w.sentinels[s := x]) }

  function Moved(w: World, s: string, doc: Doc): World {
    SetSentinel(w.(doc := doc, last := if doc.fence.master == NO_UID then w.last else doc.fence.master), s, Idle)
  }

  function After(x: Proxy): Proxy
    requires x.todo != []
  {
    var rest := x.todo[1..];
    match x.todo[0]
    case Clear => Proxy(NO_UID, rest)
    case Route(d) => Proxy(d, rest)
    case Report(_) => Proxy(x.route, rest)
  }

  function Acted(w: World, p: string): World
    requires p in w.proxies && w.proxies[p].todo != []
  {
    var x := w.proxies[p];
    SetProxy(w, p, After(x)).(infos := if x.todo[0].Report? then w.infos[p := x.todo[0].generation] else w.infos)
  }

  ghost function Apply(w: World, e: Step): World
    requires Enabled(w, e)
  {
    match e
    case Join(p) => SetProxy(w, p, Proxy(NO_UID, []))
    case Read(p, snap, resolves, reportOk) => SetProxy(w, p, w.proxies[p].(todo := Script(p, snap, resolves, reportOk)))
    case Act(p) => Acted(w, p)
    case Abort(p) => SetProxy(w, p, Proxy(NO_UID, []))
    case Drop(p) => SetProxy(w, p, w.proxies[p].(todo := []))
    case ReadDoc(s) => SetSentinel(w, s, HasDoc(w.doc))
    case ReadInfos(s, seen) => SetSentinel(w, s, HasInfos(SentinelOf(w, s).doc, seen))
    case Keep(s) => Moved(w, s, w.doc.(fence := NextFence(w.doc.fence, w.doc.master, SentinelOf(w, s).infos)))
    case Elect(s, master) => Moved(w, s, Doc(ClosedFence(w.doc.fence), master))
    case GiveUp(s) => SetSentinel(w, s, Idle)
  }

  /** A proxy the sentinel does not count has closed its connections and has no check under way that could open them. */
  ghost predicate Accounted(w: World, e: Step) {
    e.ReadInfos? ==> forall p :: p in w.proxies && !Quiet(w.proxies[p]) ==> p in e.seen
  }

  // --------------------------------------------------------------- invariant

  /** What may be left of a check. */
  ghost predicate Shape(x: Proxy) {
    || x.todo == []
    || x.todo == [Clear]
    || (|x.todo| == 2 && x.todo[0] == Clear && x.todo[1].Report?)
    || (|x.todo| == 1 && x.todo[0].Report? && x.route == NO_UID)
    || (|x.todo| == 2 && x.todo[0].Report? && x.todo[1].Route?)
    || (|x.todo| == 1 && x.todo[0].Route?)
  }

  ghost predicate ProxyOk(w: World, p: string)
    requires p in w.proxies
  {
    var x := w.proxies[p];
    && Shape(x)
    && x.route in {NO_UID, w.last}
    && (forall a :: a in x.todo && a.Route? ==> a.destination in {NO_UID, w.last})
    && (forall a :: a in x.todo && a.Report? ==> a.generation <= w.doc.fence.generation)
    && (|x.todo| == 2 && x.todo[0].Report? && x.todo[0].generation == w.doc.fence.generation ==> w.doc.fence.master != NO_UID)
    && (w.doc.fence.master == NO_UID && p in w.infos && w.infos[p] == w.doc.fence.generation ==> Quiet(x))
  }

  /** A sentinel that may open the fence finds no proxy routing. */
  ghost predicate SentinelOk(w: World, x: Sentinel) {
    && (x.HasDoc? || x.HasInfos? ==> x.doc.fence.generation <= w.doc.fence.generation)
    && (x.HasInfos? && x.doc.fence == w.doc.fence && w.doc.fence.master == NO_UID
        && (forall p :: p in x.infos ==> x.infos[p] == w.doc.fence.generation)
        ==> forall p :: p in w.proxies ==> Quiet(w.proxies[p]))
  }

  ghost predicate Inv(w: World) {
    && w.doc.fence.master in {NO_UID, w.last}
    && (forall p :: p in w.infos ==> w.infos[p] <= w.doc.fence.generation)
    && (forall p :: p in w.proxies ==> ProxyOk(w, p))
    && (forall s :: s in w.sentinels ==> SentinelOk(w, w.sentinels[s]))
  }

  // ------------------------------------------------- what every step preserves

  /** A proxy's step that keeps a quiet proxy quiet while the fence is closed. */
  lemma ProxyStepKeepsInv(w: World, p: string, x: Proxy)
    requires Inv(w)
    requires ProxyOk(SetProxy(w, p, x), p)
    requires p in w.proxies ==> (w.doc.fence.master == NO_UID && Quiet(w.proxies[p]) ==> Quiet(x))
    requires p !in w.proxies ==> Quiet(x)
    ensures Inv(SetProxy(w, p, x))
  {
  }

  lemma JoinKeepsInv(w: World, p: string)
    requires Inv(w) && Enabled(w, Join(p))
    ensures Inv(Apply(w, Join(p)))
  {
  }

  lemma ReadKeepsInv(w: World, p: string, snap: Snapshot, resolves: bool, reportOk: bool)
    requires Inv(w) && Enabled(w, Read(p, snap, resolves, reportOk))
    ensures Inv(Apply(w, Read(p, snap, resolves, reportOk)))
  {
    assert ProxyOk(w, p);
    ProxyStepKeepsInv(w, p, w.proxies[p].(todo := Script(p, snap, resolves, reportOk)));
  }

  lemma StopKeepsInv(w: World, p: string, e: Step)
    requires Inv(w) && Enabled(w, e) && (e == Abort(p) || e == Drop(p))
    ensures Inv(Apply(w, e))
  {
    assert ProxyOk(w, p);
    ProxyStepKeepsInv(w, p, Apply(w, e).proxies[p]);
  }

  lemma ClearOrRouteKeepsInv(w: World, p: string)
    requires Inv(w) && Enabled(w, Act(p)) && !w.proxies[p].todo[0].Report?
    ensures Inv(Apply(w, Act(p)))
  {
    assert ProxyOk(w, p);
    assert w.proxies[p].todo[0] in w.proxies[p].todo;
    ProxyStepKeepsInv(w, p, Apply(w, Act(p)).proxies[p]);
  }

  /** A proxy that reports a closed fence has stopped routing. */
  lemma ReportKeepsInv(w: World, p: string)
    requires Inv(w) && Enabled(w, Act(p)) && w.proxies[p].todo[0].Report?
    ensures Inv(Apply(w, Act(p)))
  {
  }

  lemma SentinelStepKeepsInv(w: World, s: string, x: Sentinel)
    requires Inv(w) && SentinelOk(w, x)
    ensures Inv(SetSentinel(w, s, x))
  {
  }

  lemma ReadInfosKeepsInv(w: World, s: string, seen: map<string, nat>)
    requires Inv(w) && Enabled(w, ReadInfos(s, seen)) && Accounted(w, ReadInfos(s, seen))
    ensures Inv(Apply(w, ReadInfos(s, seen)))
  {
  }

  lemma KeepKeepsInv(w: World, s: string)
    requires Inv(w) && Enabled(w, Keep(s))
    ensures Inv(Apply(w, Keep(s)))
  {
  }

  lemma ElectKeepsInv(w: World, s: string, master: string)
    requires Inv(w) && Enabled(w, Elect(s, master))
    ensures Inv(Apply(w, Elect(s, master)))
  {
  }

  lemma StepKeepsInv(w: World, e: Step)
    requires Inv(w) && Enabled(w, e) && Accounted(w, e)
    ensures Inv(Apply(w, e))
  {
    match e
    case Join(p) => JoinKeepsInv(w, p);
    case Read(p, snap, resolves, reportOk) => ReadKeepsInv(w, p, snap, resolves, reportOk);
    case Act(p) => if w.proxies[p].todo[0].Report? { ReportKeepsInv(w, p); } else { ClearOrRouteKeepsInv(w, p); }
    case Abort(p) => StopKeepsInv(w, p, e);
    case Drop(p) => StopKeepsInv(w, p, e);
    case ReadDoc(s) => SentinelStepKeepsInv(w, s, HasDoc(w.doc));
    case ReadInfos(s, seen) => ReadInfosKeepsInv(w, s, seen);
    case Keep(s) => KeepKeepsInv(w, s);
    case Elect(s, master) => ElectKeepsInv(w, s, master);
    case GiveUp(s) => SentinelStepKeepsInv(w, s, Idle);
  }

  // -------------------------------------------------------------------- runs

  ghost predicate Leads(w: World, steps: seq<Step>, v: World, accounted: bool)
    decreases |steps|
  {
    if steps == [] then v == w
    else
      && Enabled(w, steps[0]) && (accounted ==> Accounted(w, steps[0]))
      && Leads(Apply(w, steps[0]), steps[1..], v, accounted)
  }

  /** No proxy and no sentinel is running yet, and the fence is closed. */
  function Start(master: string): World { World(Doc(Fence(NO_UID, {}, 0), master), NO_UID, map[], map[], map[]) }

  lemma {:induction false} InvAlongRun(w: World, steps: seq<Step>, v: World)
    requires Inv(w) && Leads(w, steps, v, true)
    ensures Inv(v)
    decreases |steps|
  {
    if steps != [] {
      StepKeepsInv(w, steps[0]);
      InvAlongRun(Apply(w, steps[0]), steps[1..], v);
    }
  }

  /** At every moment all proxies that route, route to the same database: the one the fence was last opened for. */
  lemma OneDestination(master: string, steps: seq<Step>, v: World, p: string, q: string)
    requires Leads(Start(master), steps, v, true)
    requires p in v.proxies && q in v.proxies && v.proxies[p].route != NO_UID && v.proxies[q].route != NO_UID
    ensures v.proxies[p].route == v.proxies[q].route == v.last
    ensures v.doc.fence.master in {NO_UID, v.last}
  {
    InvAlongRun(Start(master), steps, v);
    assert ProxyOk(v, p) && ProxyOk(v, q);
  }

  /** The fence opens for a master only when no proxy routes anywhere or is about to. */
  lemma OpensOnlyWhenQuiet(master: string, steps: seq<Step>, v: World, s: string)
    requires Leads(Start(master), steps, v, true) && Enabled(v, Keep(s))
    requires v.doc.fence.master == NO_UID && Apply(v, Keep(s)).doc.fence.master != NO_UID
    ensures forall p :: p in v.proxies ==> Quiet(v.proxies[p])
  {
    InvAlongRun(Start(master), steps, v);
    assert SentinelOk(v, v.sentinels[s]);
  }

  // ------------------------------------ and when a proxy is not accounted for

  ghost predicate Reaches(w: World, v: World) { exists steps :: Leads(w, steps, v, false) }

  lemma {:induction false} LeadsOn(w: World, steps: seq<Step>, v: World, e: Step)
    requires Leads(w, steps, v, false) && Enabled(v, e)
    ensures Leads(w, steps + [e], Apply(v, e), false)
    decreases |steps|
  {
    if steps == [] {
      assert ([e])[1..] == [];
    } else {
      LeadsOn(Apply(w, steps[0]), steps[1..], v, e);
      assert (steps + [e])[1..] == steps[1..] + [e];
    }
  }

  lemma ReachesOn(w: World, v: World, e: Step)
    requires Reaches(w, v) && Enabled(v, e)
    ensures Reaches(w, Apply(v, e))
  {
    var steps :| Leads(w, steps, v, false);
    LeadsOn(w, steps, v, e);
  }

  const P := "p"
  const Q := "q"
  const S := "s"
  const RESTING := Proxy(NO_UID, [])

  function Stage(doc: Doc, last: string, proxies: map<string, Proxy>, infos: map<string, nat>, s: Sentinel): World {
    World(doc, last, proxies, infos, map[S := s])
  }

  function Scene(doc: Doc, last: string, p: Proxy, q: Proxy, infos: map<string, nat>, s: Sentinel): World {
    Stage(doc, last, map[P := p, Q := q], infos, s)
  }

  /** What a proxy's next action does to its info. */
  function Told(infos: map<string, nat>, p: string, x: Proxy): map<string, nat>
    requires x.todo != []
  {
    if x.todo[0].Report? then infos[p := x.todo[0].generation] else infos
  }

  lemma SetFirst(p: Proxy, q: Proxy, r: Proxy)
    ensures map[P := p, Q := q][P := r] == map[P := r, Q := q]
    ensures map[P := p, Q := q][Q := r] == map[P := p, Q := r]
  {
    assert P[0] != Q[0];
  }

  lemma ActP(w: World, doc: Doc, last: string, p: Proxy, q: Proxy, infos: map<string, nat>)
    requires Reaches(w, Scene(doc, last, p, q, infos, Idle)) && p.todo != []
    ensures Reaches(w, Scene(doc, last, After(p), q, Told(infos, P, p), Idle))
  {
    ReachesOn(w, Scene(doc, last, p, q, infos, Idle), Act(P));
    SetFirst(p, q, After(p));
  }

  lemma ActQ(w: World, doc: Doc, last: string, p: Proxy, q: Proxy, infos: map<string, nat>)
    requires Reaches(w, Scene(doc, last, p, q, infos, Idle)) && q.todo != []
    ensures Reaches(w, Scene(doc, last, p, After(q), Told(infos, Q, q), Idle))
  {
    ReachesOn(w, Scene(doc, last, p, q, infos, Idle), Act(Q));
    SetFirst(p, q, After(q));
  }

  lemma BeginP(w: World, doc: Doc, last: string, q: Proxy, infos: map<string, nat>)
    requires Reaches(w, Scene(doc, last, RESTING, q, infos, Idle))
    ensures Reaches(w, Scene(doc, last, Proxy(NO_UID, Script(P, Usable(doc.fence, true), true, true)), q, infos, Idle))
  {
    ReachesOn(w, Scene(doc, last, RESTING, q, infos, Idle), Read(P, Usable(doc.fence, true), true, true));
    SetFirst(RESTING, q, Proxy(NO_UID, Script(P, Usable(doc.fence, true), true, true)));
  }

  lemma BeginQ(w: World, doc: Doc, last: string, p: Proxy, infos: map<string, nat>)
    requires Reaches(w, Scene(doc, last, p, RESTING, infos, Idle))
    ensures Reaches(w, Scene(doc, last, p, Proxy(NO_UID, Script(Q, Usable(doc.fence, true), true, true)), infos, Idle))
  {
    ReachesOn(w, Scene(doc, last, p, RESTING, infos, Idle), Read(Q, Usable(doc.fence, true), true, true));
    SetFirst(p, RESTING, Proxy(NO_UID, Script(Q, Usable(doc.fence, true), true, true)));
  }

  /** The sentinel reads the document, then the proxies' infos. */
  lemma Prepare(w: World, doc: Doc, last: string, proxies: map<string, Proxy>, infos: map<string, nat>, seen: map<string, nat>)
    requires Reaches(w, Stage(doc, last, proxies, infos, Idle))
    requires forall x :: x in seen ==> x in infos && seen[x] == infos[x]
    ensures Reaches(w, Stage(doc, last, proxies, infos, HasInfos(doc, seen)))
  {
    var v := Stage(doc, last, proxies, infos, Idle);
    var v1 := Stage(doc, last, proxies, infos, HasDoc(doc));
    ReachesOn(w, v, ReadDoc(S));
    Returns(v, HasDoc(doc));
    assert SentinelOf(v1, S) == HasDoc(doc);
    ReachesOn(w, v1, ReadInfos(S, seen));
    Returns(v1, HasInfos(doc, seen));
  }

  /** The sentinel has moved on and nothing else has changed. */
  lemma Returns(v: World, s: Sentinel)
    requires v.sentinels.Keys <= {S}
    ensures SetSentinel(v, S, s) == v.(sentinels := map[S := s])
  {
    assert v.sentinels[S := s] == map[S := s];
  }

  /** The sentinel's write goes through. */
  lemma Moves(w: World, doc: Doc, last: string, proxies: map<string, Proxy>, infos: map<string, nat>, seen: map<string, nat>)
    requires Reaches(w, Stage(doc, last, proxies, infos, HasInfos(doc, seen))) && doc.master != NO_UID
    ensures var f := NextFence(doc.fence, doc.master, seen);
            Reaches(w, Stage(doc.(fence := f), if f.master == NO_UID then last else f.master, proxies, infos, Idle))
  {
    var v := Stage(doc, last, proxies, infos, HasInfos(doc, seen));
    assert SentinelOf(v, S) == HasInfos(doc, seen);
    ReachesOn(w, v, Keep(S));
    Returns(v, Idle);
  }

  /** The fence is opened for database a before any proxy is there. */
  lemma FirstOpening()
    ensures Reaches(Start("a"), Stage(Doc(Fence("a", {}, 1), "a"), "a", map[], map[], Idle))
  {
    var w := Start("a");
    assert Leads(w, [], w, false);
    ReachesOn(w, w, GiveUp(S));
    Returns(w, Idle);
    Prepare(w, w.doc, NO_UID, map[], map[], map[]);
    Moves(w, w.doc, NO_UID, map[], map[], map[]);
  }

  /** Two proxies join. */
  lemma Joining(w: World, d: Doc)
    requires Reaches(w, Stage(d, "a", map[], map[], Idle))
    ensures Reaches(w, Scene(d, "a", RESTING, RESTING, map[], Idle))
  {
    var v := Stage(d, "a", map[], map[], Idle);
    ReachesOn(w, v, Join(P));
    var v1 := Apply(v, Join(P));
    assert P[0] != Q[0];
    ReachesOn(w, v1, Join(Q));
    assert Apply(v1, Join(Q)).proxies == map[P := RESTING, Q := RESTING];
  }

  const BOTH: map<string, nat> := map[][P := 1][Q := 1]

  /** They report the open fence, and are not enabled yet. */
  lemma Reporting(w: World, d: Doc)
    requires d == Doc(Fence("a", {}, 1), "a")
    requires Reaches(w, Scene(d, "a", RESTING, RESTING, map[], Idle))
    ensures Reaches(w, Scene(d, "a", RESTING, RESTING, BOTH, Idle))
  {
    var x := Proxy(NO_UID, [Report(1), Route(NO_UID)]);
    assert After(x) == Proxy(NO_UID, [Route(NO_UID)]) && After(After(x)) == RESTING;
    BeginP(w, d, "a", RESTING, map[]);
    ActP(w, d, "a", x, RESTING, map[]);
    ActP(w, d, "a", After(x), RESTING, map[][P := 1]);
    BeginQ(w, d, "a", RESTING, map[][P := 1]);
    ActQ(w, d, "a", RESTING, x, map[][P := 1]);
    ActQ(w, d, "a", RESTING, After(x), BOTH);
  }

  /** The fence is open for database a, and both proxies are enabled. */
  lemma Enabling()
    ensures Reaches(Start("a"), Scene(Doc(Fence("a", {P, Q}, 2), "a"), "a", RESTING, RESTING, BOTH, Idle))
  {
    var w, d := Start("a"), Doc(Fence("a", {}, 1), "a");
    FirstOpening();
    Joining(w, d);
    Reporting(w, d);
    Prepare(w, d, "a", map[P := RESTING, Q := RESTING], BOTH, BOTH);
    Moves(w, d, "a", map[P := RESTING, Q := RESTING], BOTH, BOTH);
    assert BOTH.Keys == {P, Q};
  }

  const LATE := Proxy(NO_UID, [Report(2), Route("a")])

  /** Proxy p is slow in its check while a sentinel closes the fence. */
  lemma SlowCheck(w: World, d: Doc)
    requires d == Doc(Fence("a", {P, Q}, 2), "a") && Reaches(w, Scene(d, "a", RESTING, RESTING, BOTH, Idle))
    ensures Reaches(w, Scene(Doc(Fence(NO_UID, {P, Q}, 3), "b"), "a", LATE, RESTING, BOTH, Idle))
  {
    BeginP(w, d, "a", RESTING, BOTH);
    Prepare(w, d, "a", map[P := LATE, Q := RESTING], BOTH, BOTH);
    var v := Scene(d, "a", LATE, RESTING, BOTH, HasInfos(d, BOTH));
    assert SentinelOf(v, S) == HasInfos(d, BOTH);
    ReachesOn(w, v, Elect(S, "b"));
    Returns(v, Idle);
  }

  /** The other proxy sees the fence closed. */
  lemma OtherReports(w: World, d: Doc)
    requires d == Doc(Fence(NO_UID, {P, Q}, 3), "b")
    requires Reaches(w, Scene(d, "a", LATE, RESTING, BOTH, Idle))
    ensures Reaches(w, Scene(d, "a", LATE, RESTING, BOTH[Q := 3], Idle))
  {
    var x := Proxy(NO_UID, [Clear, Report(3)]);
    assert After(x) == Proxy(NO_UID, [Report(3)]) && After(After(x)) == RESTING;
    BeginQ(w, d, "a", LATE, BOTH);
    ActQ(w, d, "a", LATE, x, BOTH);
    ActQ(w, d, "a", LATE, After(x), BOTH);
  }

  /** The sentinel no longer counts p among the active proxies and opens the fence for b. */
  lemma OpensTooEarly(w: World, d: Doc)
    requires d == Doc(Fence(NO_UID, {P, Q}, 3), "b")
    requires Reaches(w, Scene(d, "a", LATE, RESTING, BOTH[Q := 3], Idle))
    ensures Reaches(w, Scene(Doc(Fence("b", {P, Q}, 4), "b"), "b", LATE, RESTING, BOTH[Q := 3], Idle))
  {
    var seen: map<string, nat> := map[Q := 3];
    Prepare(w, d, "a", map[P := LATE, Q := RESTING], BOTH[Q := 3], seen);
    Moves(w, d, "a", map[P := LATE, Q := RESTING], BOTH[Q := 3], seen);
  }

  /** Both proxies go on. */
  lemma BothRoute(w: World, d: Doc, infos: map<string, nat>)
    requires d == Doc(Fence("b", {P, Q}, 4), "b")
    requires Reaches(w, Scene(d, "b", LATE, RESTING, infos, Idle))
    ensures Reaches(w, Scene(d, "b", Proxy("a", []), Proxy("b", []), infos[Q := 4][P := 2], Idle))
  {
    var x := Proxy(NO_UID, [Report(4), Route("b")]);
    assert After(x) == Proxy(NO_UID, [Route("b")]) && After(After(x)) == Proxy("b", []);
    assert After(LATE) == Proxy(NO_UID, [Route("a")]) && After(After(LATE)) == Proxy("a", []);
    BeginQ(w, d, "b", LATE, infos);
    ActQ(w, d, "b", LATE, x, infos);
    ActQ(w, d, "b", LATE, After(x), infos[Q := 4]);
    ActP(w, d, "b", LATE, Proxy("b", []), infos[Q := 4]);
    ActP(w, d, "b", After(LATE), Proxy("b", []), infos[Q := 4][P := 2]);
  }

  /**
   * The condition on proxies that are not counted cannot be reduced to "has no
   * open route": a check still under way with an old snapshot is enough to route
   * to the old master next to the new one, in a run from the very start.
   */
  lemma SlowCheckCanSplit() returns (v: World)
    ensures Reaches(Start("a"), v)
    ensures P in v.proxies && Q in v.proxies && v.proxies[P].route == "a" && v.proxies[Q].route == "b"
  {
    var w := Start("a");
    Enabling();
    SlowCheck(w, Doc(Fence("a", {P, Q}, 2), "a"));
    OtherReports(w, Doc(Fence(NO_UID, {P, Q}, 3), "b"));
    OpensTooEarly(w, Doc(Fence(NO_UID, {P, Q}, 3), "b"));
    BothRoute(w, Doc(Fence("b", {P, Q}, 4), "b"), BOTH[Q := 3]);
    v := Scene(Doc(Fence("b", {P, Q}, 4), "b"), "b", Proxy("a", []), Proxy("b", []), BOTH[Q := 3][Q := 4][P := 2], Idle);
  }
}
