/**
 * Advancing managed logical slots on a standby: a planner queues operations, a
 * worker carries them out one at a time, and a change of role resets both.
 */
module LogicalSlots {
  import opened Options
  import Matchers

  datatype Wanted = Wanted(name: string, database: string, plugin: string)

  datatype Slot = Slot(name: string, database: string, plugin: string, confirmed: nat)

  /** A planned advance; `confirmed` is where the slot stood when it was planned. */
  datatype Operation = Operation(name: string, database: string, desired: nat, replay: nat, target: nat, confirmed: nat) {
    /** It moves the slot forward, but neither past the master's slot nor past what has been replayed. */
    predicate Sensible() { confirmed < target && target <= desired && target <= replay }
  }

  function Key(name: string, database: string): string { name + "@" + database }

  function KeyOf(op: Operation): string { Key(op.name, op.database) }

  /** Slot names hold no "@", so the key tells slots and databases apart. */
  lemma {:induction false} KeyInjective(n1: string, d1: string, n2: string, d2: string)
    requires '@' !in n1 && '@' !in n2 && Key(n1, d1) == Key(n2, d2)
    ensures n1 == n2 && d1 == d2
  {
    var k := Key(n1, d1);
    assert k[|n1|] == '@' && k[|n2|] == '@';
    assert forall i :: 0 <= i < |n1| ==> k[i] == n1[i] && k[i] in n1;
    assert forall i :: 0 <= i < |n2| ==> k[i] == n2[i] && k[i] in n2;
    assert |n1| == |n2|;
    assert k[..|n1|] == n1 && k[..|n2|] == n2;
    assert k[|n1| + 1..] == d1 && k[|n2| + 1..] == d2;
  }

  function Target(desired: nat, replay: nat, confirmed: nat): Option<nat> {
    if desired == 0 || replay == 0 then None
    else
      var target := if replay <= desired then replay else desired;
      if target <= confirmed then None else Some(target)
  }

  /** The wanted slot is not ignored, exists as wanted and stands behind both the master's slot and what has been replayed. */
  ghost predicate Behind(w: Wanted, matchers: seq<Matchers.Matcher>, current: map<string, Slot>, master: map<string, nat>, replay: nat) {
    && !Matchers.LogicalIgnored(matchers, w.name, w.database, w.plugin)
    && w.name in master && w.name in current
    && current[w.name].database == w.database && current[w.name].plugin == w.plugin
    && current[w.name].confirmed < master[w.name] && current[w.name].confirmed < replay
  }

  /** `op` takes the wanted slot as far as master and replay allow. */
  ghost predicate Advances(op: Operation, w: Wanted, matchers: seq<Matchers.Matcher>, current: map<string, Slot>, master: map<string, nat>, replay: nat)
    requires Behind(w, matchers, current, master, replay)
  {
    && op.name == w.name && op.database == w.database
    && op.desired == master[w.name] && op.replay == replay && op.confirmed == current[w.name].confirmed
    && op.Sensible() && (op.target == op.desired || op.target == op.replay)
  }

  ghost predicate Planned(op: Operation, wanted: seq<Wanted>, matchers: seq<Matchers.Matcher>, current: map<string, Slot>, master: map<string, nat>, replay: nat) {
    exists w :: w in wanted && Behind(w, matchers, current, master, replay) && Advances(op, w, matchers, current, master, replay)
  }

  /** Plans an advance for every managed slot that is behind, and for no other. */
  method Plan(wanted: seq<Wanted>, matchers: seq<Matchers.Matcher>, current: map<string, Slot>, master: map<string, nat>, replay: nat) returns (ops: seq<Operation>)
    ensures forall op :: op in ops <==> Planned(op, wanted, matchers, current, master, replay)
  {
    ops := [];
    for i := 0 to |wanted|
      invariant forall op :: op in ops <==> Planned(op, wanted[..i], matchers, current, master, replay)
    {
      ghost var before := ops;
      var w := wanted[i];
      ghost var planned: Option<Operation> := None;
      var skipped := Matchers.IsIgnoredLogicalSlot(matchers, w.name, w.database, w.plugin);
      if !skipped && w.name in master && w.name in current {
        var slot := current[w.name];
        skipped := Matchers.IsIgnoredLogicalSlot(matchers, w.name, slot.database, slot.plugin);
        if !skipped && slot.database == w.database && slot.plugin == w.plugin {
          var target := Target(master[w.name], replay, slot.confirmed);
          if target.Some? {
            var op := Operation(w.name, w.database, master[w.name], replay, target.value, slot.confirmed);
            ops := ops + [op];
            planned := Some(op);
          }
        }
      }
      OneMorePlanned(wanted, i, matchers, current, master, replay, planned);
      assert forall op :: op in ops <==> op in before || planned == Some(op);
    }
    assert wanted[..|wanted|] == wanted;
  }

  lemma OneMorePlanned(wanted: seq<Wanted>, i: nat, matchers: seq<Matchers.Matcher>, current: map<string, Slot>, master: map<string, nat>, replay: nat, planned: Option<Operation>)
    requires i < |wanted|
    requires planned.Some? <==> Behind(wanted[i], matchers, current, master, replay)
    requires planned.Some? ==> Advances(planned.value, wanted[i], matchers, current, master, replay)
    ensures forall op :: Planned(op, wanted[..i + 1], matchers, current, master, replay)
                         <==> Planned(op, wanted[..i], matchers, current, master, replay) || planned == Some(op)
  {
    assert wanted[..i + 1] == wanted[..i] + [wanted[i]];
    forall op
      ensures Planned(op, wanted[..i + 1], matchers, current, master, replay)
              <==> Planned(op, wanted[..i], matchers, current, master, replay) || planned == Some(op)
    {
      if Planned(op, wanted[..i + 1], matchers, current, master, replay) {
        var w :| w in wanted[..i + 1] && Behind(w, matchers, current, master, replay) && Advances(op, w, matchers, current, master, replay);
        assert w in wanted[..i] || w == wanted[i];
      }
      if Planned(op, wanted[..i], matchers, current, master, replay) {
        var w :| w in wanted[..i] && Behind(w, matchers, current, master, replay) && Advances(op, w, matchers, current, master, replay);
        assert w in wanted[..i + 1];
      }
      if planned == Some(op) {
        assert wanted[i] in wanted[..i + 1];
      }
    }
  }

  /** What happened, as far as the worker is concerned. */
  datatype Event = Tried(key: string, target: nat, at: int, ok: bool) | Cleared

  datatype Flight = Grounded | Flying(key: string, op: Operation, at: int)

  /** The failure at `log[i]` still counts: there has been no reset since. */
  ghost predicate Counts(log: seq<Event>, i: int, key: string) {
    && 0 <= i < |log| && log[i].Tried? && log[i].key == key && !log[i].ok
    && forall j :: i < j < |log| ==> log[j].Tried?
  }

  ghost predicate Queued(pending: map<string, Operation>) {
    forall k :: k in pending ==> pending[k].Sensible() && KeyOf(pending[k]) == k
  }

  predicate MayTry(retryAfter: map<string, int>, key: string, now: int) { key in retryAfter ==> now >= retryAfter[key] }

  /** After a failure that counts, its key is barred until the delay has passed; nothing barred is under way. */
  ghost predicate Spaced(log: seq<Event>, retryAfter: map<string, int>, flight: Flight, clock: int, delay: nat) {
    forall i, key :: Counts(log, i, key) ==>
      || clock >= log[i].at + delay
      || (!MayTry(retryAfter, key, log[i].at + delay - 1) && !(flight.Flying? && flight.key == key))
  }

  lemma ResetSpaces(log: seq<Event>, flight: Flight, clock: int, delay: nat)
    ensures Spaced(log + [Cleared], map[], flight, clock, delay)
  {
    var after := log + [Cleared];
    assert after[|log|] == Cleared;
    assert forall i, key :: !Counts(after, i, key);
  }

  lemma FinishSpaces(log: seq<Event>, retryAfter: map<string, int>, flight: Flight, clock: int, delay: nat, ok: bool)
    requires Spaced(log, retryAfter, flight, clock, delay) && flight.Flying?
    ensures var retry := if ok then retryAfter - {flight.key} else retryAfter[flight.key := flight.at + delay];
            Spaced(log + [Tried(flight.key, flight.op.target, flight.at, ok)], retry, Grounded, clock, delay)
  {
    var after := log + [Tried(flight.key, flight.op.target, flight.at, ok)];
    forall i, key | Counts(after, i, key) && i < |log|
      ensures Counts(log, i, key)
    {
      assert forall j :: i < j < |log| ==> after[j] == log[j];
    }
  }

  ghost function Pruned(retryAfter: map<string, int>, now: int): map<string, int> {
    map k | k in retryAfter && now < retryAfter[k] :: retryAfter[k]
  }

  lemma PruneSpaces(log: seq<Event>, retryAfter: map<string, int>, flight: Flight, before: int, clock: int, now: int, delay: nat)
    requires Spaced(log, retryAfter, flight, before, delay) && before <= clock && now <= clock
    ensures Spaced(log, Pruned(retryAfter, now), flight, clock, delay)
  {
  }

  /** Every operation that may be tried is in the queue, or one that reaches at least as far is. */
  method Merge(before: map<string, Operation>, retryAfter: map<string, int>, ops: seq<Operation>, now: int)
    returns (pending: map<string, Operation>, queued: nat)
    requires Queued(before) && forall i :: 0 <= i < |ops| ==> ops[i].Sensible()
    ensures Queued(pending)
    ensures forall k :: k in before ==> k in pending && pending[k].target >= before[k].target
    ensures forall i :: 0 <= i < |ops| && MayTry(retryAfter, KeyOf(ops[i]), now)
              ==> KeyOf(ops[i]) in pending && pending[KeyOf(ops[i])].target >= ops[i].target
    ensures forall k :: k in pending && (k !in before || pending[k] != before[k]) ==> pending[k] in ops && MayTry(retryAfter, k, now)
  {
    pending, queued := before, 0;
    for i := 0 to |ops|
      invariant Queued(pending)
      invariant forall k :: k in before ==> k in pending && pending[k].target >= before[k].target
      invariant forall j :: 0 <= j < i && MayTry(retryAfter, KeyOf(ops[j]), now)
                  ==> KeyOf(ops[j]) in pending && pending[KeyOf(ops[j])].target >= ops[j].target
      invariant forall k :: k in pending && (k !in before || pending[k] != before[k]) ==> pending[k] in ops && MayTry(retryAfter, k, now)
    {
      var op := ops[i];
      var key := KeyOf(op);
      if MayTry(retryAfter, key, now) && !(key in pending && pending[key].target >= op.target) {
        pending := pending[key := op];
        queued := queued + 1;
      }
    }
  }

  class AdvanceQueue {
    const delay: nat
    var pending: map<string, Operation>
    var retryAfter: map<string, int>
    var flight: Flight                  // what the worker is carrying out, and when it picked it
    ghost var clock: int                // the latest time any of them has looked at
    ghost var log: seq<Event>

    ghost predicate Valid()
      reads this
    {
      && Queued(pending)
      && (flight.Flying? ==> flight.op.Sensible() && KeyOf(flight.op) == flight.key)
      && Spaced(log, retryAfter, flight, clock, delay)
    }

    constructor (delay: nat)
      ensures Valid() && this.delay == delay && pending == map[] && retryAfter == map[] && flight == Grounded && log == []
    {
      this.delay := delay;
      pending := map[];
      retryAfter := map[];
      flight := Grounded;
      clock := 0;
      log := [];
    }

    method Prune(now: int)
      modifies this`retryAfter
      ensures retryAfter == Pruned(old(retryAfter), now)
    {
      var todo := retryAfter.Keys;
      while todo != {}
        invariant todo <= old(retryAfter).Keys
        invariant forall k :: k in retryAfter <==> k in old(retryAfter) && (k in todo || now < old(retryAfter)[k])
        invariant forall k :: k in retryAfter ==> retryAfter[k] == old(retryAfter)[k]
      {
        var k :| k in todo;
        todo := todo - {k};
        if now >= retryAfter[k] {
          retryAfter := retryAfter - {k};
        }
      }
    }

    /** Queues operations; one already queued is only replaced by one that reaches further. */
    method Enqueue(ops: seq<Operation>, now: int) returns (queued: nat)
      requires Valid() && forall i :: 0 <= i < |ops| ==> ops[i].Sensible()
      modifies this`pending, this`retryAfter, this`clock
      ensures Valid() && clock >= old(clock)
      ensures forall k :: k in old(pending) ==> k in pending && pending[k].target >= old(pending)[k].target
      ensures forall i :: 0 <= i < |ops| && MayTry(retryAfter, KeyOf(ops[i]), now)
                ==> KeyOf(ops[i]) in pending && pending[KeyOf(ops[i])].target >= ops[i].target
      ensures forall k :: k in pending && (k !in old(pending) || pending[k] != old(pending)[k]) ==> pending[k] in ops && MayTry(retryAfter, k, now)
    {
      ghost var before := clock;
      clock := if now > clock then now else clock;
      PruneSpaces(log, retryAfter, flight, before, clock, now, delay);
      Prune(now);
      pending, queued := Merge(pending, retryAfter, ops, now);
    }

    method Reset()
      requires Valid()
      modifies this`pending, this`retryAfter, this`log
      ensures Valid() && pending == map[] && retryAfter == map[] && log == old(log) + [Cleared]
    {
      ResetSpaces(log, flight, clock, delay);
      pending := map[];
      retryAfter := map[];
      log := log + [Cleared];
    }

    /** The worker picks any operation whose time has come and takes it off the queue. */
    method Select(now: int)
      requires Valid() && flight == Grounded && now >= clock
      modifies this`pending, this`retryAfter, this`flight, this`clock
      ensures Valid() && clock == now
      ensures flight.Grounded? ==> pending == old(pending) && forall k :: k in pending ==> !MayTry(retryAfter, k, now)
      ensures flight.Flying? ==>
                && flight.key in old(pending) && flight.op == old(pending)[flight.key] && flight.at == now
                && pending == old(pending) - {flight.key}
                && forall i :: Counts(log, i, flight.key) ==> now >= log[i].at + delay
    {
      PruneSpaces(log, retryAfter, flight, clock, now, now, delay);
      clock := now;
      Prune(now);
      var todo := pending.Keys;
      while todo != {}
        invariant todo <= pending.Keys
        invariant forall k :: k in pending && k !in todo ==> !MayTry(retryAfter, k, now)
      {
        var k :| k in todo;
        todo := todo - {k};
        if MayTry(retryAfter, k, now) {
          flight := Flying(k, pending[k], now);
          pending := pending - {k};
          return;
        }
      }
    }

    /** The outcome is recorded; a failure is stamped with the time the operation was picked. */
    method Finish(ok: bool)
      requires Valid() && flight.Flying?
      modifies this`retryAfter, this`flight, this`log
      ensures Valid() && flight == Grounded
      ensures log == old(log) + [Tried(old(flight.key), old(flight.op.target), old(flight.at), ok)]
    {
      FinishSpaces(log, retryAfter, flight, clock, delay, ok);
      if ok {
        retryAfter := retryAfter - {flight.key};
      } else {
        retryAfter := retryAfter[flight.key := flight.at + delay];
      }
      log := log + [Tried(flight.key, flight.op.target, flight.at, ok)];
      flight := Grounded;
    }
  }
}
