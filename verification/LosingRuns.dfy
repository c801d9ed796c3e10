/**
 * Runs of the code in which an acknowledged commit is lost: the two conditions
 * of `Durability.NoLostCommit` cannot be dropped.
 *
 * Both runs start from a newborn cluster, and every step is `Genuine`.  A `Stage`
 * is the world with the master M and two standbys A and B.
 */
module LosingRuns {
  import opened Durability
  import SyncStandbys

  const M := "m"
  const A := "a"
  const B := "b"

  datatype Stage = Stage(r: Record, x: Record, m: Node, a: Node, b: Node, reports: set<Report>)

  function Trio(r: Record, x: Record): Doc { Doc(M, map[M := r, A := x, B := x]) }

  function Scene(s: Stage): World { World(Trio(s.r, s.x), map[M := s.m, A := s.a, B := s.b], s.reports, [M], {}) }

  function Replica(gen: nat): Record { Record(gen, {}, {}, {}, false) }

  /** A standby of M whose keeper has recorded generation `gen`. */
  function Standby(gen: nat): Node { Node(Snapshot(gen, {}, false), true, Known({}), gen, 0, {}, {}, false, M, [], 0) }

  // ------------------------------------------------------------ single steps

  lemma SeenM(s: Stage, n: Node)
    ensures Set(Scene(s), M, n) == Scene(s.(m := n))
  {
  }

  lemma SeenA(s: Stage, n: Node)
    ensures Set(Scene(s), A, n) == Scene(s.(a := n))
  {
  }

  lemma SeenB(s: Stage, n: Node)
    ensures Set(Scene(s), B, n) == Scene(s.(b := n))
  {
  }

  lemma MasterActs(w: World, s: Stage, step: Step, n: Node, rules: Rules)
    requires Reaches(w, Scene(s), rules) && Enabled(Scene(s), step) && Obeys(Scene(s), step, rules)
    requires Apply(Scene(s), step) == Set(Scene(s), M, n)
    ensures Reaches(w, Scene(s.(m := n)), rules)
  {
    ReachesOn(w, Scene(s), step, rules);
    SeenM(s, n);
  }

  lemma AActs(w: World, s: Stage, step: Step, n: Node, rules: Rules)
    requires Reaches(w, Scene(s), rules) && Enabled(Scene(s), step) && Obeys(Scene(s), step, rules)
    requires Apply(Scene(s), step) == Set(Scene(s), A, n)
    ensures Reaches(w, Scene(s.(a := n)), rules)
  {
    ReachesOn(w, Scene(s), step, rules);
    SeenA(s, n);
  }

  lemma BActs(w: World, s: Stage, step: Step, n: Node, rules: Rules)
    requires Reaches(w, Scene(s), rules) && Enabled(Scene(s), step) && Obeys(Scene(s), step, rules)
    requires Apply(Scene(s), step) == Set(Scene(s), B, n)
    ensures Reaches(w, Scene(s.(b := n)), rules)
  {
    ReachesOn(w, Scene(s), step, rules);
    SeenB(s, n);
  }

  // ------------------------------------------------------------ keeper passes

  /** A pass of the master's keeper: it reads, deals with the parameters and records the generation. */
  lemma MasterRecords(w: World, s: Stage, end: Step, n: Node, rules: Rules)
    requires Reaches(w, Scene(s), rules)
    requires var read := s.m.(snap := Snapshot(s.r.gen, s.r.names, s.r.primaryLine), settled := false);
             || (end == Reload(M, Loaded) && n == read.(file := s.r.names, cfg := s.r.names, cur := Known(s.r.names), settled := true))
             || (end == Reload(M, WrittenOnly) && n == read.(file := s.r.names, settled := true))
             || (end == Skip(M) && s.m.cur == Known(s.r.names) && n == read.(settled := true))
    requires rules.careful ==> n.file == s.r.names
    ensures Reaches(w, Scene(s.(m := n.(local := s.r.gen))), rules)
  {
    var read := s.m.(snap := Snapshot(s.r.gen, s.r.names, s.r.primaryLine), settled := false);
    MasterActs(w, s, Read(M), read, rules);
    MasterActs(w, s.(m := read), end, n, rules);
    MasterActs(w, s.(m := n), Save(M), n.(local := s.r.gen), rules);
  }

  /** The master's keeper reports, with what PostgreSQL then lists as in sync. */
  lemma MasterReports(w: World, s: Stage, sync: set<string>, rules: Rules)
    requires Reaches(w, Scene(s), rules) && s.m.primary && sync <= s.m.cfg && sync <= {A, B}
    requires Streams(Scene(s), M, A) && Streams(Scene(s), M, B)
    requires rules.caughtUp ==> s.m.acked == 0
    ensures Reaches(w, Scene(s.(m := s.m.(pending := s.m.local), reports := s.reports + {Report(M, s.m.local, sync)})), rules)
  {
    var n := s.m.(pending := s.m.local);
    MasterActs(w, s, Begin(M), n, rules);
    var t := s.(m := n);
    assert rules.caughtUp ==> n.log[..0] == [];
    ReachesOn(w, Scene(t), Publish(M, sync), rules);
    assert Apply(Scene(t), Publish(M, sync)) == Scene(t.(reports := s.reports + {Report(M, s.m.local, sync)}));
  }

  /** Both standbys' keepers record the generation the document is at. */
  lemma StandbysRecord(w: World, s: Stage, gen: nat, rules: Rules)
    requires Reaches(w, Scene(s), rules) && s.a == s.b == Standby(gen) && s.x == Replica(gen + 1)
    ensures Reaches(w, Scene(s.(a := Standby(gen + 1), b := Standby(gen + 1))), rules)
  {
    var read := Standby(gen).(snap := Snapshot(gen + 1, {}, false), settled := false);
    AActs(w, s, Read(A), read, rules);
    AActs(w, s.(a := read), Reload(A, Loaded), read.(settled := true), rules);
    AActs(w, s.(a := read.(settled := true)), Save(A), Standby(gen + 1), rules);
    var t := s.(a := Standby(gen + 1));
    BActs(w, t, Read(B), read, rules);
    BActs(w, t.(b := read), Reload(B, Loaded), read.(settled := true), rules);
    BActs(w, t.(b := read.(settled := true)), Save(B), Standby(gen + 1), rules);
  }

  // ---------------------------------------------------------- sentinel passes

  /** The inputs of the sync section when `good` of the two standbys are good. */
  function Given(good: set<string>, best: seq<string>, min: nat, max: nat): SyncStandbys.Inputs {
    SyncStandbys.Inputs({M, A, B}, good, best, {}, min, max)
  }

  /** A pass that moves the master's record by the sync section, on a report of the current generation. */
  lemma SectionPass(w: World, s: Stage, sync: set<string>, inp: SyncStandbys.Inputs, out: SyncStandbys.SyncRecord, next: Record, y: Record, rules: Rules)
    requires Reaches(w, Scene(s), rules) && Report(M, s.r.gen, sync) in s.reports && s.r.primaryLine
    requires inp.Valid() && inp.present == {M, A, B} && inp.good <= {A, B} && !s.x.primaryLine && s.x.required <= s.x.names
    requires s.a.local == s.x.gen && s.b.local == s.x.gen
    requires SyncStandbys.Reconciled(SyncPart(s.r), sync, inp, out)
    requires next == Record(next.gen, out.required + out.external, out.required, out.known, true) && Advances(s.r, next) && Ages(s.r, next)
    requires y == s.x.(gen := y.gen) && Advances(s.x, y)
    ensures Reaches(w, Scene(s.(r := next, x := y)), rules)
  {
    SyncStandbys.ElectableWasRequired(SyncPart(s.r), sync, inp, out);
    SyncStandbys.RequiredComesFrom(SyncPart(s.r), sync, inp, out);
    SectionIsEnabled(s, sync, next, y);
    SectionIsGenuine(s, sync, inp, out, next, y);
    ReachesOn(w, Scene(s), Pass(sync, Trio(next, y)), rules);
  }

  lemma SectionIsEnabled(s: Stage, sync: set<string>, next: Record, y: Record)
    requires Report(M, s.r.gen, sync) in s.reports && s.r.primaryLine && next.primaryLine && !s.x.primaryLine && s.x.required <= s.x.names
    requires next.required <= s.r.required + {A, B}
    requires next.required <= next.names && next.Electable() <= s.r.required && next.Electable() <= s.r.Electable() + sync
    requires Ages(s.r, next) && y == s.x.(gen := y.gen) && Advances(s.x, y)
    ensures Enabled(Scene(s), Pass(sync, Trio(next, y)))
  {
    assert KeepsMaster(Scene(s).doc, sync, Trio(next, y));
  }

  lemma SectionIsGenuine(s: Stage, sync: set<string>, inp: SyncStandbys.Inputs, out: SyncStandbys.SyncRecord, next: Record, y: Record)
    requires Report(M, s.r.gen, sync) in s.reports && s.r.primaryLine
    requires inp.Valid() && inp.present == {M, A, B} && inp.good <= {A, B} && !s.x.primaryLine
    requires s.a.local == s.x.gen && s.b.local == s.x.gen
    requires SyncStandbys.Reconciled(SyncPart(s.r), sync, inp, out)
    requires next == Record(next.gen, out.required + out.external, out.required, out.known, true) && Advances(s.r, next)
    requires y == s.x.(gen := y.gen) && Advances(s.x, y)
    ensures Genuine(Scene(s), Pass(sync, Trio(next, y)))
  {
    GoodAreConverged(s, inp);
    assert SectionedBy(Scene(s), s.r, sync, inp, out, next);
    ReplicasStay(s, next, y);
  }

  lemma GoodAreConverged(s: Stage, inp: SyncStandbys.Inputs)
    requires inp.present == {M, A, B} && inp.good <= {A, B} && !s.x.primaryLine && s.a.local == s.x.gen && s.b.local == s.x.gen
    ensures inp.present <= Scene(s).doc.dbs.Keys && M !in inp.good
    ensures forall u :: u in inp.good ==> Converged(Scene(s), u) && !Scene(s).doc.dbs[u].primaryLine
  {
  }

  lemma ReplicasStay(s: Stage, next: Record, y: Record)
    requires y == s.x.(gen := y.gen) && Advances(s.x, y)
    ensures OthersStay(Scene(s).doc, Trio(next, y))
  {
  }

  lemma OneAddition(x: string, have: set<string>, room: int)
    ensures SyncStandbys.Additions([x], have, {}, room) == if room > 0 && x !in have then {x} else {}
  {
    assert [x][1..] == [];
  }

  lemma TwoAdditions(have: set<string>, room: int)
    ensures SyncStandbys.Additions([A, B], have, {}, room)
         == if room <= 0 then {}
            else if A in have then SyncStandbys.Additions([B], have, {}, room)
            else SyncStandbys.Additions([B], have + {A}, {}, room - 1) + {A}
  {
    assert [A, B][1..] == [B];
  }

  /** The best standbys are added to an empty set, up to the maximum. */
  lemma AddsFirst(external: set<string>, min: nat, max: nat)
    requires min <= 1 <= max <= 2
    ensures var added := if max == 1 then {A} else {A, B};
            SyncStandbys.Reconciled(SyncStandbys.SyncRecord({}, {}, external), {}, Given({A, B}, [A, B], min, max), SyncStandbys.SyncRecord(added, {}, {}))
  {
    var inp := Given({A, B}, [A, B], min, max);
    var added := if max == 1 then {A} else {A, B};
    TwoAdditions({}, max);
    OneAddition(B, {} + {A}, max - 1);
    assert SyncStandbys.Base({}, inp) == added;
    assert SyncStandbys.RecomputedBy({}, inp, {}, {}, added);
  }

  /** Once every required standby is reported, they are all known, and stay. */
  lemma AllKnown(required: set<string>, known: set<string>, min: nat, max: nat)
    requires known <= required <= {A, B} && |required| == max && min <= 1 <= max
    ensures SyncStandbys.Reconciled(SyncStandbys.SyncRecord(required, known, {}), required, Given({A, B}, [A, B], min, max),
                                    SyncStandbys.SyncRecord(required, required, {}))
  {
    var inp := Given({A, B}, [A, B], min, max);
    assert SyncStandbys.Acknowledged(SyncStandbys.SyncRecord(required, known, {}), required) == required;
    assert SyncStandbys.Healthy(required, inp) == required;
    assert SyncStandbys.Base(required, inp) == required;
    assert SyncStandbys.RecomputedBy(required, inp, required, {}, required);
  }

  lemma Sizes()
    ensures |{A}| == 1 && |{A, B}| == 2
  {
    assert {A, B} - {A} == {B};
  }

  /** B is not good any more, and goes. */
  lemma DropsB()
    ensures SyncStandbys.Reconciled(SyncStandbys.SyncRecord({A, B}, {A, B}, {}), {A, B}, Given({A}, [A], 1, 2), SyncStandbys.SyncRecord({A}, {A}, {}))
  {
    Sizes();
    var inp := Given({A}, [A], 1, 2);
    OneAddition(A, {A}, 1);
    assert SyncStandbys.Healthy({A, B}, inp) == {A};
    assert SyncStandbys.Base({A}, inp) == {A};
    assert SyncStandbys.RecomputedBy({A, B}, inp, {A}, {}, {A});
    assert {A, B} * {A} == {A};
  }

  /** B is good again, and is added. */
  lemma AddsB()
    ensures SyncStandbys.Reconciled(SyncStandbys.SyncRecord({A}, {A}, {}), {A}, Given({A, B}, [A, B], 1, 2), SyncStandbys.SyncRecord({A, B}, {A}, {}))
  {
    Sizes();
    var inp := Given({A, B}, [A, B], 1, 2);
    TwoAdditions({A}, 1);
    OneAddition(B, {A}, 1);
    assert SyncStandbys.Healthy({A}, inp) == {A};
    assert SyncStandbys.Base({A}, inp) == {A, B};
    assert SyncStandbys.RecomputedBy({A}, inp, {A}, {}, {A, B});
  }

  // ----------------------------------------------------------------- assembly

  /** Without standbys, a positive minimum asks for the one that blocks. */
  function Blocking(min: nat): set<string> { if min > 0 then {SyncStandbys.FAKE_STANDBY} else {} }

  /** The first master's keeper records and reports its first generation. */
  lemma Reported(w: World, n: Node, rules: Rules)
    requires w == Birth(M, []) && n == w.nodes[M].(local := 1, pending := 1)
    ensures Reaches(w, Set(w, M, n).(reports := {Report(M, 1, {})}), rules)
  {
    assert Leads(w, [], w, rules);
    var n1 := w.nodes[M].(local := 1);
    ReachesOn(w, w, Save(M), rules);
    ReachesOn(w, Set(w, M, n1), Begin(M), rules);
    Again(w, M, n1, n);
    assert n.log[..0] == [];
    ReachesOn(w, Set(w, M, n), Publish(M, {}), rules);
    assert {} + {Report(M, 1, {})} == {Report(M, 1, {})};
  }

  /** The standbys appear in the document. */
  lemma Announced(w: World, min: nat, rules: Rules) returns (v: World)
    requires w == Birth(M, []) && min <= 1
    ensures Reaches(w, v, rules)
    ensures v == World(Trio(Record(2, Blocking(min), {}, {}, true), Replica(1)), map[M := w.nodes[M].(local := 1, pending := 1)], {Report(M, 1, {})}, [M], {})
  {
    var n := w.nodes[M].(local := 1, pending := 1);
    Reported(w, n, rules);
    var u := Set(w, M, n).(reports := {Report(M, 1, {})});
    var next := Trio(Record(2, Blocking(min), {}, {}, true), Replica(1));
    FirstPassIsGenuine(u, min, next);
    FirstPassIsEnabled(u, min, next);
    ReachesOn(w, u, Pass({}, next), rules);
    v := World(next, map[M := n], {Report(M, 1, {})}, [M], {});
    OnlyNode(w, n);
  }

  lemma OnlyNode(w: World, n: Node)
    requires w == Birth(M, [])
    ensures Set(w, M, n).nodes == map[M := n]
  {
  }

  lemma FirstPassIsEnabled(v: World, min: nat, next: Doc)
    requires v.doc == Birth(M, []).doc && v.nodes.Keys == {M} && v.past == {}
    requires next == Trio(Record(2, Blocking(min), {}, {}, true), Replica(1))
    ensures Enabled(v, Pass({}, next))
  {
    assert KeepsMaster(v.doc, {}, next);
  }

  lemma FirstPassIsGenuine(v: World, min: nat, next: Doc)
    requires v.doc == Birth(M, []).doc && v.reports == {Report(M, 1, {})} && min <= 1
    requires next == Trio(Record(2, Blocking(min), {}, {}, true), Replica(1))
    ensures Genuine(v, Pass({}, next))
  {
    var inp := SyncStandbys.Inputs({M}, {}, [], {}, min, 2);
    var out := SyncStandbys.SyncRecord({}, {}, Blocking(min));
    assert SyncStandbys.Base({}, inp) == {};
    assert SyncStandbys.RecomputedBy({}, inp, {}, {}, {});
    assert SyncStandbys.Reconciled(SyncStandbys.SyncRecord({}, {}, {}), {}, inp, out);
    assert SectionedBy(v, v.doc.dbs[M], {}, inp, out, next.dbs[M]);
  }

  /** A standby is created as a copy of the master, follows it and records its first generation. */
  lemma Joins(w: World, v: World, u: string, rules: Rules)
    requires Reaches(w, v, rules) && u in v.doc.dbs && u !in v.nodes && v.doc.dbs[u] == Replica(1)
    requires v.doc.master == M && M in v.nodes && v.nodes[M].log == []
    ensures Reaches(w, Set(v, u, Standby(1)), rules)
  {
    ReachesOn(w, v, Create(u, []), rules);
    var n := Node(Snapshot(0, {}, false), false, Unknown, 0, 0, {}, {}, false, "", [], 0);
    Follows(w, v, u, n, rules);
  }

  lemma Follows(w: World, v: World, u: string, n: Node, rules: Rules)
    requires n == Node(Snapshot(0, {}, false), false, Unknown, 0, 0, {}, {}, false, "", [], 0)
    requires Reaches(w, Set(v, u, n), rules) && u in v.doc.dbs && v.doc.dbs[u] == Replica(1)
    ensures Reaches(w, Set(v, u, Standby(1)), rules)
  {
    ReachesOn(w, Set(v, u, n), Follow(u, M), rules);
    Again(v, u, n, n.(upstream := M));
    var n1 := n.(upstream := M, snap := Snapshot(1, {}, false));
    ReachesOn(w, Set(v, u, n.(upstream := M)), Read(u), rules);
    Again(v, u, n.(upstream := M), n1);
    var n2 := n1.(cur := Known({}), settled := true);
    ReachesOn(w, Set(v, u, n1), Reload(u, Loaded), rules);
    Again(v, u, n1, n2);
    ReachesOn(w, Set(v, u, n2), Save(u), rules);
    Again(v, u, n2, Standby(1));
  }

  lemma Again(v: World, u: string, n: Node, o: Node)
    ensures Set(Set(v, u, n), u, o) == Set(v, u, o)
  {
  }

  /** The stage both runs go on from: the master at generation 2, its standbys at generation 1, nothing synchronous yet. */
  function Ready(min: nat): Stage {
    Stage(Record(2, Blocking(min), {}, {}, true), Replica(1),
          Node(Snapshot(2, Blocking(min), true), true, Known(Blocking(min)), 2, 2, Blocking(min), Blocking(min), true, "", [], 0),
          Standby(1), Standby(1), {Report(M, 1, {}), Report(M, 2, {})})
  }

  lemma Assembled(min: nat, rules: Rules)
    requires min <= 1
    ensures Reaches(Birth(M, []), Scene(Ready(min)), rules)
  {
    var w := Birth(M, []);
    var v := Announced(w, min, rules);
    Joins(w, v, A, rules);
    Joins(w, Set(v, A, Standby(1)), B, rules);
    var end := Ready(min);
    var s := end.(m := w.nodes[M].(local := 1, pending := 1), reports := {Report(M, 1, {})});
    assert Set(Set(v, A, Standby(1)), B, Standby(1)) == Scene(s);
    MasterRecords(w, s, Reload(M, Loaded), end.m.(local := 1, pending := 1), rules);
    var t := s.(m := end.m.(pending := 1));
    MasterReports(w, t, {}, rules);
    assert s.reports + {Report(M, 2, {})} == end.reports;
    assert t.(m := t.m.(pending := 2), reports := end.reports) == end;
  }

  // ------------------------------------------------------- the end of both runs

  /** The standby `u` is elected although the master has acknowledged a commit that it lacks. */
  lemma Loses(w: World, s: Stage, u: string, rules: Rules) returns (v: World)
    requires Reaches(w, Scene(s), rules) && u in {A, B} && s.r.primaryLine && s.x == Replica(2) && s.a.local == s.b.local == 2
    requires u in s.r.required && u in s.r.known && s.r.required <= s.r.names && M !in s.r.required
    requires s.m.acked == 1 && s.m.log == [7] && (if u == A then s.a else s.b).log == []
    ensures Reaches(w, v, rules) && M in v.lineage && !Holds(v, M, v.doc.master)
  {
    var standbys := SyncStandbys.HandedOver(s.r.required, M, u);
    var elected := Record(3, standbys, standbys, {}, true);
    var next := Doc(u, Trio(s.r, s.x).dbs[u := elected]);
    ElectionIsEnabled(s, u, standbys, next);
    ReachesOn(w, Scene(s), Fail(next), rules);
    v := Scene(s).(doc := next, lineage := [M] + [u]);
    assert v.lineage[0] == M;
    assert v.nodes[M].Acked() == [7];
  }

  lemma ElectionIsEnabled(s: Stage, u: string, standbys: set<string>, next: Doc)
    requires u in {A, B} && s.r.primaryLine && s.x == Replica(2) && s.a.local == s.b.local == 2
    requires u in s.r.required && u in s.r.known && s.r.required <= s.r.names
    requires standbys == SyncStandbys.HandedOver(s.r.required, M, u)
    requires next == Doc(u, Trio(s.r, s.x).dbs[u := Record(3, standbys, standbys, {}, true)])
    ensures Enabled(Scene(s), Fail(next)) && Converged(Scene(s), u)
  {
    assert Elects(Scene(s).doc, next);
  }

  // -------------------------------------------------------- a failed reload

  const RELOADING := Rules(false, true, true)

  /** The stage with `names` required and `known` of them known, the master's keeper having recorded generation `gen`. */
  function Serving(gen: nat, names: set<string>, known: set<string>, file: set<string>, reports: set<Report>): Stage {
    Stage(Record(gen, names, names, known, true), Replica(2),
          Node(Snapshot(gen, names, true), true, Known({A, B}), gen, gen, file, {A, B}, true, "", [], 0),
          Standby(2), Standby(2), reports)
  }

  const REPORTS3 := {Report(M, 1, {}), Report(M, 2, {})} + {Report(M, 3, {A, B})}
  const REPORTS4 := REPORTS3 + {Report(M, 4, {A})}
  const REPORTS5 := REPORTS4 + {Report(M, 5, {A, B})}

  /** Both standbys become required, are configured, reported and known. */
  lemma BothServe()
    ensures Reaches(Birth(M, []), Scene(Serving(3, {A, B}, {A, B}, {A, B}, REPORTS3)), RELOADING)
  {
    var w := Birth(M, []);
    Assembled(1, RELOADING);
    var s := Ready(1);
    AddsFirst(Blocking(1), 1, 2);
    var r := Record(3, {A, B}, {A, B}, {}, true);
    SectionPass(w, s, {}, Given({A, B}, [A, B], 1, 2), SyncStandbys.SyncRecord({A, B}, {}, {}), r, Replica(2), RELOADING);
    var s1 := s.(r := r, x := Replica(2));
    StandbysRecord(w, s1, 1, RELOADING);
    var s2 := s1.(a := Standby(2), b := Standby(2));
    var n := Serving(3, {A, B}, {}, {A, B}, REPORTS3).m;
    MasterRecords(w, s2, Reload(M, Loaded), n.(local := 2, pending := 2), RELOADING);
    MasterReports(w, s2.(m := n.(pending := 2)), {A, B}, RELOADING);
    var s3 := Serving(3, {A, B}, {}, {A, B}, REPORTS3);
    assert s2.(m := n, reports := REPORTS3) == s3;
    KnownNow(w, s3);
  }

  /** Both are reported, so both are known. */
  lemma KnownNow(w: World, s: Stage)
    requires Reaches(w, Scene(s), RELOADING) && s.r.names == s.r.required == {A, B} && s.r.known <= {A, B} && s.r.primaryLine
    requires Report(M, s.r.gen, {A, B}) in s.reports && s.x == Replica(2) && s.a.local == s.b.local == 2
    ensures Reaches(w, Scene(s.(r := s.r.(known := {A, B}))), RELOADING)
  {
    Sizes();
    AllKnown({A, B}, s.r.known, 1, 2);
    assert SyncPart(s.r) == SyncStandbys.SyncRecord({A, B}, s.r.known, {});
    SectionPass(w, s, {A, B}, Given({A, B}, [A, B], 1, 2), SyncStandbys.SyncRecord({A, B}, {A, B}, {}), s.r.(known := {A, B}), s.x, RELOADING);
  }

  /** B is dropped; the reload that should drop it fails after the file is written, and the generation is recorded. */
  lemma ReloadFails(w: World)
    requires Reaches(w, Scene(Serving(3, {A, B}, {A, B}, {A, B}, REPORTS3)), RELOADING)
    ensures Reaches(w, Scene(Serving(4, {A}, {A}, {A}, REPORTS4)), RELOADING)
  {
    var s := Serving(3, {A, B}, {A, B}, {A, B}, REPORTS3);
    DropsB();
    assert SyncPart(s.r) == SyncStandbys.SyncRecord({A, B}, {A, B}, {});
    var r := Record(4, {A}, {A}, {A}, true);
    SectionPass(w, s, {A, B}, Given({A}, [A], 1, 2), SyncStandbys.SyncRecord({A}, {A}, {}), r, s.x, RELOADING);
    var n := Serving(4, {A}, {A}, {A}, REPORTS4).m;
    MasterRecords(w, s.(r := r), Reload(M, WrittenOnly), n.(local := 3, pending := 3), RELOADING);
    MasterReports(w, s.(r := r, m := n.(pending := 3)), {A}, RELOADING);
    assert s.(r := r, m := n, reports := REPORTS4) == Serving(4, {A}, {A}, {A}, REPORTS4);
  }

  /** B is required again; the names in effect never changed, so the keeper skips the reload and leaves the stale file. */
  lemma ReloadIsSkipped(w: World)
    requires Reaches(w, Scene(Serving(4, {A}, {A}, {A}, REPORTS4)), RELOADING)
    ensures Reaches(w, Scene(Serving(5, {A, B}, {A, B}, {A}, REPORTS5)), RELOADING)
  {
    var s := Serving(4, {A}, {A}, {A}, REPORTS4);
    AddsB();
    assert SyncPart(s.r) == SyncStandbys.SyncRecord({A}, {A}, {});
    var r := Record(5, {A, B}, {A, B}, {A}, true);
    SectionPass(w, s, {A}, Given({A, B}, [A, B], 1, 2), SyncStandbys.SyncRecord({A, B}, {A}, {}), r, s.x, RELOADING);
    var n := Serving(5, {A, B}, {A}, {A}, REPORTS5).m;
    MasterRecords(w, s.(r := r), Skip(M), n.(local := 4, pending := 4), RELOADING);
    MasterReports(w, s.(r := r, m := n.(pending := 4)), {A, B}, RELOADING);
    var t := Serving(5, {A, B}, {A}, {A}, REPORTS5);
    assert s.(r := r, m := n, reports := REPORTS5) == t;
    KnownNow(w, t);
  }

  /** A SIGHUP from outside makes the stale file count, and a transaction is written. */
  lemma StaleFileLoaded(w: World, s: Stage)
    requires Reaches(w, Scene(s), RELOADING) && s.m.primary && s.m.file == {A} && s.m.log == []
    ensures Reaches(w, Scene(s.(m := s.m.(cfg := {A}, log := [7]))), RELOADING)
  {
    var n := s.m.(cfg := {A});
    MasterActs(w, s, Sighup(M), n, RELOADING);
    assert n.log + [7] == [7];
    MasterActs(w, s.(m := n), Write(M, 7), n.(log := [7]), RELOADING);
  }

  lemma AReceives(w: World, s: Stage)
    requires Reaches(w, Scene(s), RELOADING) && s.m.log == [7] && s.a == Standby(2)
    ensures Reaches(w, Scene(s.(a := s.a.(log := [7]))), RELOADING)
  {
    assert s.m.log[..1] == [7];
    AActs(w, s, Receive(A, 1), s.a.(log := [7]), RELOADING);
  }

  /** A alone confirms the commit. */
  lemma CommitsWithoutB(w: World, s: Stage)
    requires Reaches(w, Scene(s), RELOADING) && s.m.primary && s.m.log == [7] && s.m.acked == 0 && s.m.cfg == {A}
    requires s.a == Standby(2).(log := [7])
    ensures Reaches(w, Scene(s.(m := s.m.(acked := 1))), RELOADING)
  {
    assert s.m.log[..1] == [7];
    MasterActs(w, s, Ack(M, 1), s.m.(acked := 1), RELOADING);
  }

  /**
   * `Careful` cannot be dropped.  After a failed reload the keeper skips a later
   * one that would restore the names in effect, and leaves the stale
   * configuration file behind; if that file is loaded from outside, an
   * acknowledged commit can miss the elected standby.
   */
  lemma FailedReloadCanLose() returns (v: World)
    ensures Init(Birth(M, [])) && InStep(Birth(M, []))
    ensures Reaches(Birth(M, []), v, Rules(false, true, true)) && M in v.lineage && !Holds(v, M, v.doc.master)
  {
    var w := Birth(M, []);
    BirthIsInit(M, []);
    BothServe();
    ReloadFails(w);
    ReloadIsSkipped(w);
    var s := Serving(5, {A, B}, {A, B}, {A}, REPORTS5);
    StaleFileLoaded(w, s);
    var s1 := s.(m := s.m.(cfg := {A}, log := [7]));
    AReceives(w, s1);
    var s2 := s1.(a := s.a.(log := [7]));
    CommitsWithoutB(w, s2);
    v := Loses(w, s2.(m := s2.m.(acked := 1)), B, RELOADING);
  }

  // ------------------------------------------- a standby reported in sync too soon

  const LAGGING := Rules(true, false, true)

  /** Before any standby is required, the master acknowledges a commit on its own; no standby has received it. */
  lemma CommitsAlone(w: World, s: Stage)
    requires w == Birth(M, []) && s == Ready(0)
    ensures Reaches(w, Scene(s.(m := s.m.(log := [7], acked := 1))), LAGGING)
  {
    Assembled(0, LAGGING);
    assert s.m.log + [7] == [7];
    MasterActs(w, s, Write(M, 7), s.m.(log := [7]), LAGGING);
    MasterActs(w, s.(m := s.m.(log := [7])), Ack(M, 1), s.m.(log := [7], acked := 1), LAGGING);
  }

  /** A becomes required and is configured, while it still lacks the commit. */
  lemma ARequired(w: World, s: Stage, n: Node)
    requires w == Birth(M, []) && s == Ready(0)
    requires n == Node(Snapshot(3, {A}, true), true, Known({A}), 3, 2, {A}, {A}, true, "", [7], 1)
    ensures Reaches(w, Scene(s.(r := Record(3, {A}, {A}, {}, true), x := Replica(2), m := n, a := Standby(2), b := Standby(2))), LAGGING)
  {
    CommitsAlone(w, s);
    var s1 := s.(m := s.m.(log := [7], acked := 1));
    AddsFirst({}, 0, 1);
    var r := Record(3, {A}, {A}, {}, true);
    SectionPass(w, s1, {}, Given({A, B}, [A, B], 0, 1), SyncStandbys.SyncRecord({A}, {}, {}), r, Replica(2), LAGGING);
    var s2 := s1.(r := r, x := Replica(2));
    StandbysRecord(w, s2, 1, LAGGING);
    MasterRecords(w, s2.(a := Standby(2), b := Standby(2)), Reload(M, Loaded), n.(local := 2), LAGGING);
  }

  /**
   * `CaughtUp` cannot be dropped.  A standby that has just been configured as
   * synchronous is listed as such while it still lacks a commit that was
   * acknowledged without it; if it is elected then, the commit is lost, however
   * careful the keepers are.
   */
  lemma LaggingReportCanLose() returns (v: World)
    ensures Init(Birth(M, [])) && InStep(Birth(M, []))
    ensures Reaches(Birth(M, []), v, Rules(true, false, true)) && M in v.lineage && !Holds(v, M, v.doc.master)
  {
    var w, s := Birth(M, []), Ready(0);
    BirthIsInit(M, []);
    var n := Node(Snapshot(3, {A}, true), true, Known({A}), 3, 2, {A}, {A}, true, "", [7], 1);
    ARequired(w, s, n);
    var r := Record(3, {A}, {A}, {}, true);
    var s1 := s.(r := r, x := Replica(2), m := n, a := Standby(2), b := Standby(2));
    MasterReports(w, s1, {A}, LAGGING);
    var s2 := s1.(m := n.(pending := 3), reports := s.reports + {Report(M, 3, {A})});
    Sizes();
    AllKnown({A}, {}, 0, 1);
    assert SyncPart(r) == SyncStandbys.SyncRecord({A}, {}, {});
    SectionPass(w, s2, {A}, Given({A, B}, [A, B], 0, 1), SyncStandbys.SyncRecord({A}, {A}, {}), r.(known := {A}), s2.x, LAGGING);
    v := Loses(w, s2.(r := r.(known := {A})), A, LAGGING);
  }
}
