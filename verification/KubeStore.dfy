/**
 * Compare-and-swap of the cluster document in a Kubernetes object.
 *
 * The API server offers reads and updates conditional on the object's resource
 * version; the store builds a compare-and-swap of the document on them.  Other
 * writers act at any moment: they touch the object, or write the document.
 */
module KubeStore {
  import opened Options

  /** The object: its resource version and the document under its key, if any. */
  datatype Object = Absent | Present(version: nat, doc: Option<string>)

  function DocOf(o: Object): Option<string> { if o.Present? then o.doc else None }

  const PUT_RETRIES: nat := 5
  const MUTATE_RETRIES: nat := 3

  datatype PutResult = PutOk | KeyModified | Failed

  /** What a writer remembers between its read and its write. */
  datatype Ticket = NoTicket | CreateTicket | UpdateTicket(version: nat)

  /** The read: the document must be the expected one. */
  function Examine(o: Object, previous: Option<string>): Ticket {
    if DocOf(o) != previous then NoTicket
    else if o.Present? then UpdateTicket(o.version)
    else CreateTicket
  }

  /** The write goes through only if the object is still the one that was read. */
  predicate Admits(o: Object, t: Ticket) {
    match t
    case NoTicket => false
    case CreateTicket => o.Absent?
    case UpdateTicket(v) => o.Present? && o.version == v
  }

  /** An edit of somebody else. */
  datatype Edit = Touch | Write(doc: string)

  /** Nobody writes the document. */
  predicate OnlyTouches(edits: seq<Edit>) { forall e :: e in edits ==> e == Touch }

  /** Others at most touch the object, and there is an attempt during which they do nothing. */
  predicate Undisturbed(plan: seq<seq<Edit>>) {
    && (forall i :: 0 <= i < |plan| ==> OnlyTouches(plan[i]))
    && exists i :: 0 <= i < |plan| && plan[i] == []
  }

  /** Every document the object has held, oldest first; entries repeat when the object is only touched. */
  class ApiServer {
    var stored: Object
    var clock: nat                          // resource versions are never reused
    ghost var history: seq<Option<string>>
    ghost var swapped: set<nat>             // the entries of `history` that compare-and-swaps wrote

    ghost predicate Valid()
      reads this
    {
      && (stored.Present? ==> stored.version < clock)
      && |history| > 0 && history[|history| - 1] == DocOf(stored)
    }

    constructor ()
      ensures Valid() && stored == Absent
    {
      stored, clock, history, swapped := Absent, 0, [None], {};
    }

    method Store(doc: Option<string>)
      requires Valid()
      modifies this`stored, this`clock, this`history
      ensures Valid() && stored == Present(old(clock), doc) && clock == old(clock) + 1
      ensures history == old(history) + [doc]
    {
      stored := Present(clock, doc);
      clock := clock + 1;
      history := history + [doc];
    }

    method Others(edits: seq<Edit>)
      requires Valid()
      modifies this`stored, this`clock, this`history
      ensures Valid() && old(clock) <= clock
      ensures stored == old(stored) || (stored.Present? && stored.version >= old(clock))
      ensures old(history) <= history
      ensures edits == [] ==> stored == old(stored) && clock == old(clock) && history == old(history)
      ensures OnlyTouches(edits) ==> DocOf(stored) == old(DocOf(stored)) && (old(stored).Present? ==> stored.Present?)
    {
      for i := 0 to |edits|
        invariant Valid() && old(clock) <= clock
        invariant i == 0 ==> stored == old(stored) && clock == old(clock) && history == old(history)
        invariant OnlyTouches(edits) ==> DocOf(stored) == old(DocOf(stored)) && (old(stored).Present? ==> stored.Present?)
        invariant stored == old(stored) || (stored.Present? && stored.version >= old(clock))
        invariant old(history) <= history
      {
        assert edits[i] in edits;
        match edits[i]
        case Touch => Store(DocOf(stored));
        case Write(doc) => Store(Some(doc));
      }
    }

    /**
     * Compare-and-swap.  `plan[i]` is what others do between the read and the
     * write of the i-th attempt.  A put succeeds only at an instant when the
     * document was the expected one, and replaces exactly that.  It fails as
     * modified at once when the document is another one, and goes through if
     * nobody writes the document and some attempt is left alone.
     */
    method AtomicPut(previous: Option<string>, value: string, plan: seq<seq<Edit>>) returns (r: PutResult)
      requires Valid() && |plan| == PUT_RETRIES
      modifies this
      ensures Valid() && old(history) <= history
      ensures r == PutOk ==> |history| > |old(history)| && history[|history| - 1] == Some(value) && history[|history| - 2] == previous
      ensures swapped == if r == PutOk then old(swapped) + {|history| - 1} else old(swapped)
      ensures r == KeyModified ==> exists i :: |old(history)| - 1 <= i < |history| && history[i] != previous
      ensures old(DocOf(stored)) != previous ==> r == KeyModified && stored == old(stored) && history == old(history)
      ensures old(DocOf(stored)) == previous && plan[0] == [] ==> r == PutOk && history == old(history) + [Some(value)]
      ensures old(DocOf(stored)) == previous && old(stored).Present? && Undisturbed(plan) ==> r == PutOk
    {
      var attempt := 0;
      while attempt < PUT_RETRIES
        invariant attempt <= PUT_RETRIES && Valid() && old(history) <= history && swapped == old(swapped)
        invariant attempt == 0 ==> stored == old(stored) && history == old(history)
        invariant old(DocOf(stored)) != previous || plan[0] == [] ==> attempt == 0
        invariant old(DocOf(stored)) == previous && old(stored).Present? && Undisturbed(plan) ==>
                    DocOf(stored) == previous && stored.Present? && forall i :: 0 <= i < attempt ==> plan[i] != []
      {
        var ticket := Examine(stored, previous);
        if ticket == NoTicket {
          assert history[|history| - 1] != previous;
          return KeyModified;
        }
        ghost var read := stored;
        Others(plan[attempt]);
        if Admits(stored, ticket) {
          assert stored == read;
          Store(Some(value));
          swapped := swapped + {|history| - 1};
          return PutOk;
        }
        if ticket == CreateTicket {
          return Failed;
        }
        attempt := attempt + 1;
      }
      return Failed;
    }

    /**
     * Reads the document, applies `mutate` and swaps it in, trying again when
     * somebody else was faster.  On success the new document is `mutate` of the
     * very document it replaced: nobody's update is lost.  It does succeed if
     * there is a document that `mutate` accepts and nobody disturbs the first try.
     */
    method MutateClusterData(mutate: string -> Option<string>, plan: seq<(seq<Edit>, seq<seq<Edit>>)>) returns (r: PutResult)
      requires Valid() && |plan| == MUTATE_RETRIES && forall i :: 0 <= i < |plan| ==> |plan[i].1| == PUT_RETRIES
      modifies this
      ensures Valid() && old(history) <= history
      ensures swapped == if r == PutOk then old(swapped) + {|history| - 1} else old(swapped)
      ensures r == PutOk ==>
                && |history| > |old(history)|
                && history[|history| - 2].Some?
                && history[|history| - 1].Some?
                && mutate(history[|history| - 2].value) == history[|history| - 1]
      ensures old(DocOf(stored)).Some? && mutate(old(DocOf(stored)).value).Some? && OnlyTouches(plan[0].0) && Undisturbed(plan[0].1)
              ==> r == PutOk && history[|history| - 2] == old(DocOf(stored))
      ensures old(DocOf(stored)).None? || mutate(old(DocOf(stored)).value).None? ==> r == Failed
    {
      for i := 0 to MUTATE_RETRIES
        invariant Valid() && old(history) <= history && swapped == old(swapped)
        invariant i == 0 ==> stored == old(stored)
        invariant i > 0 ==> old(DocOf(stored)).Some? && mutate(old(DocOf(stored)).value).Some? && !(OnlyTouches(plan[0].0) && Undisturbed(plan[0].1))
      {
        var cd := DocOf(stored);
        if cd.None? {
          return Failed;
        }
        Others(plan[i].0);
        var next := mutate(cd.value);
        if next.None? {
          return Failed;
        }
        r := AtomicPut(cd, next.value, plan[i].1);
        if r != KeyModified {
          return;
        }
      }
      return Failed;
    }
  }

  // ---------------------------------------------------- all writers together

  type Mutation = string -> Option<string>

  /** A caller of `MutateClusterData`: between attempts, holding the document it read, or holding a ticket for it. */
  datatype Client =
    | Idle
    | Wants(op: Mutation)
    | HasRead(op: Mutation, cd: string)
    | HasTicket(op: Mutation, cd: string, ticket: Ticket)

  /** `log` lists the mutations that succeeded, in the order of their writes. */
  datatype World = World(stored: Object, clock: nat, clients: map<string, Client>, log: seq<Mutation>)

  datatype Action =
    | Begin(c: string, op: Mutation)
    | Fetch(c: string)
    | Check(c: string)
    | Commit(c: string)
    | GiveUp(c: string)
    | Relabel

  ghost predicate Enabled(w: World, a: Action) {
    match a
    case Begin(c, op) => c in w.clients ==> w.clients[c].Idle?
    case Fetch(c) => c in w.clients && w.clients[c].Wants? && DocOf(w.stored).Some?
    case Check(c) => c in w.clients && w.clients[c].HasRead?
    case Commit(c) => c in w.clients && w.clients[c].HasTicket? && w.clients[c].op(w.clients[c].cd).Some?
    case GiveUp(c) => c in w.clients
    case Relabel => w.stored.Present?
  }

  function Turn(w: World, c: string, x: Client): World { w.(clients := w.clients[c := x]) }

  ghost function Apply(w: World, a: Action): World
    requires Enabled(w, a)
  {
    match a
    case Begin(c, op) => Turn(w, c, Wants(op))
    case Fetch(c) => Turn(w, c, HasRead(w.clients[c].op, DocOf(w.stored).value))
    case Check(c) =>
      var x := w.clients[c];
      var t := Examine(w.stored, Some(x.cd));
      Turn(w, c, if t == NoTicket then Wants(x.op) else HasTicket(x.op, x.cd, t))
    case Commit(c) =>
      var x := w.clients[c];
      if Admits(w.stored, x.ticket) then
        Turn(w, c, Idle).(stored := Present(w.clock, x.op(x.cd)), clock := w.clock + 1, log := w.log + [x.op])
      else Turn(w, c, HasRead(x.op, x.cd))
    case GiveUp(c) => Turn(w, c, Idle)
    case Relabel => w.(stored := Present(w.clock, w.stored.doc), clock := w.clock + 1)
  }

  ghost predicate Leads(w: World, actions: seq<Action>, v: World)
    decreases |actions|
  {
    if actions == [] then v == w
    else Enabled(w, actions[0]) && Leads(Apply(w, actions[0]), actions[1..], v)
  }

  /** The mutations one after the other, with nobody in between. */
  ghost function Replay(doc: Option<string>, log: seq<Mutation>): Option<string> {
    if log == [] then doc
    else
      var before := Replay(doc, log[..|log| - 1]);
      if before.None? then None else log[|log| - 1](before.value)
  }

  /** An admitted ticket means the document is the one the ticket was issued for. */
  ghost predicate Honest(w: World, x: Client) {
    x.HasTicket? ==>
      && x.ticket.UpdateTicket?
      && x.ticket.version < w.clock
      && (Admits(w.stored, x.ticket) ==> DocOf(w.stored) == Some(x.cd))
  }

  ghost predicate Inv(w: World, first: Option<string>) {
    && (w.stored.Present? ==> w.stored.version < w.clock)
    && (forall c :: c in w.clients ==> Honest(w, w.clients[c]))
    && DocOf(w.stored) == Replay(first, w.log)
  }

  lemma ActionKeepsInv(w: World, a: Action, first: Option<string>)
    requires Inv(w, first) && Enabled(w, a)
    ensures Inv(Apply(w, a), first)
  {
  }

  lemma {:induction false} InvAlongRun(w: World, actions: seq<Action>, v: World, first: Option<string>)
    requires Inv(w, first) && Leads(w, actions, v)
    ensures Inv(v, first)
    decreases |actions|
  {
    if actions != [] {
      ActionKeepsInv(w, actions[0], first);
      InvAlongRun(Apply(w, actions[0]), actions[1..], v, first);
    }
  }

  function Start(doc: Option<string>): World { World(Present(0, doc), 1, map[], []) }

  /**
   * For every interleaving of any number of writers, the document is what the
   * successful mutations make of the first document when run one after the
   * other: no update is lost and none is applied to a stale document.
   */
  lemma NoLostUpdate(first: Option<string>, actions: seq<Action>, v: World)
    requires Leads(Start(first), actions, v)
    ensures DocOf(v.stored) == Replay(first, v.log)
  {
    InvAlongRun(Start(first), actions, v, first);
  }
}
