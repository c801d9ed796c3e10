/**
 * The destination set of the TCP proxy: which backends it has, the channel that
 * closes the connections to each, and the round-robin order.
 */
module TcpProxies {
  import opened Arithmetic
  import opened Options

  /** A close channel; closing one twice is a fault. */
  type Channel = nat

  datatype Picked = Picked(key: string, channel: Channel)

  ghost predicate Distinct(s: seq<string>) { forall i, j :: 0 <= i < j < |s| ==> s[i] != s[j] }

  /** The addresses of a request in order, with gaps and repetitions left out. */
  ghost function Wanted(addrs: seq<Option<string>>): seq<string> {
    if addrs == [] then []
    else
      var front, last := Wanted(addrs[..|addrs| - 1]), addrs[|addrs| - 1];
      if last.Some? && last.value !in front then front + [last.value] else front
  }

  /** `c` belonged to a destination that is gone. */
  ghost predicate Dropped(before: map<string, Channel>, after: map<string, Channel>, c: Channel) {
    exists k :: k in before && k !in after && before[k] == c
  }

  class Proxy {
    var destinations: map<string, Channel>
    var order: seq<string>
    var next: nat
    var stopped: bool
    var channels: Channel          // the next channel to be made
    ghost var closed: set<Channel>

    ghost predicate Valid()
      reads this
    {
      && Distinct(order)
      && (forall k :: k in order <==> k in destinations)
      && (if order == [] then next == 0 else next < |order|)
      && (forall k :: k in destinations ==> destinations[k] < channels && destinations[k] !in closed)
      && (forall j, k :: j in destinations && k in destinations && destinations[j] == destinations[k] ==> j == k)
      && (forall c :: c in closed ==> c < channels)
    }

    constructor ()
      ensures Valid() && destinations == map[] && !stopped && closed == {}
    {
      destinations, order, next, stopped, channels, closed := map[], [], 0, false, 0, {};
    }

    method Close(c: Channel)
      requires c !in closed
      modifies this`closed
      ensures closed == old(closed) + {c}
    {
      closed := closed + {c};
    }

    /** The destinations and the order a request asks for; retained destinations keep their channel. */
    method Build(addrs: seq<Option<string>>) returns (dests: map<string, Channel>, keys: seq<string>)
      requires Valid()
      modifies this`channels
      ensures channels >= old(channels)
      ensures Distinct(keys) && keys == Wanted(addrs)
      ensures forall k :: k in keys <==> k in dests
      ensures forall k :: k in dests ==> if k in destinations then dests[k] == destinations[k] else old(channels) <= dests[k] < channels
      ensures forall j, k :: j in dests && k in dests && dests[j] == dests[k] ==> j == k
    {
      dests, keys := map[], [];
      for i := 0 to |addrs|
        invariant channels >= old(channels)
        invariant Distinct(keys) && keys == Wanted(addrs[..i])
        invariant forall k :: k in keys <==> k in dests
        invariant forall k :: k in dests ==> if k in destinations then dests[k] == destinations[k] else old(channels) <= dests[k] < channels
        invariant forall j, k :: j in dests && k in dests && dests[j] == dests[k] ==> j == k
      {
        assert addrs[..i + 1][..i] == addrs[..i];
        if addrs[i].Some? && addrs[i].value !in dests {
          var key := addrs[i].value;
          if key in destinations {
            dests := dests[key := destinations[key]];
          } else {
            dests := dests[key := channels];
            channels := channels + 1;
          }
          keys := keys + [key];
        }
      }
      assert addrs[..|addrs|] == addrs;
    }

    /** Closes the channels of the destinations that are going away. */
    method CloseRemoved(dests: map<string, Channel>)
      requires forall k :: k in destinations ==> destinations[k] !in closed
      requires forall j, k :: j in destinations && k in destinations && destinations[j] == destinations[k] ==> j == k
      modifies this`closed
      ensures forall c :: c in closed <==> c in old(closed) || Dropped(destinations, dests, c)
    {
      var todo := destinations.Keys;
      while todo != {}
        invariant todo <= destinations.Keys
        invariant forall c :: c in closed <==> c in old(closed) || exists k :: k in destinations && k !in todo && k !in dests && destinations[k] == c
      {
        var k :| k in todo;
        todo := todo - {k};
        if k !in dests {
          Close(destinations[k]);
        }
      }
    }

    /**
     * Changes the destination set.  Removed destinations have their channel
     * closed, each once; retained ones keep theirs, open; and a request for the
     * same destinations in the same order changes nothing.
     */
    method SetDestinations(addrs: seq<Option<string>>)
      requires Valid()
      modifies this
      ensures Valid() && stopped == old(stopped)
      ensures order == Wanted(addrs)
      ensures forall k :: k in destinations && k in old(destinations) ==> destinations[k] == old(destinations)[k]
      ensures forall k :: k in destinations && k !in old(destinations) ==> destinations[k] >= old(channels)
      ensures forall c :: c in closed <==> c in old(closed) || Dropped(old(destinations), destinations, c)
      ensures order == old(order) ==> destinations == old(destinations) && next == old(next)
    {
      var dests, keys := Build(addrs);
      if order == keys {
        return;
      }
      CloseRemoved(dests);
      destinations := dests;
      order := keys;
      next := if |order| == 0 then 0 else next % |order|;
    }

    /** Stops the proxy; only the first call does anything. */
    method Stop()
      requires Valid()
      modifies this
      ensures Valid() && stopped
      ensures old(stopped) ==> destinations == old(destinations) && closed == old(closed)
      ensures !old(stopped) ==>
                && destinations == map[]
                && forall c :: c in closed <==> c in old(closed) || Dropped(old(destinations), map[], c)
    {
      if stopped {
        return;
      }
      stopped := true;
      CloseRemoved(map[]);
      destinations, order, next := map[], [], 0;
    }

    /** The destination of a new connection: the next one in turn. */
    method Destination() returns (d: Option<Picked>)
      requires Valid()
      modifies this`next
      ensures Valid()
      ensures d.None? <==> order == []
      ensures d.Some? ==>
                && d.value.key == order[old(next)] && d.value.channel == destinations[d.value.key] && d.value.channel !in closed
                && next == Succ(old(next), |order|)
    {
      if |order| == 0 {
        return None;
      }
      assert next % |order| == next;
      var key := order[next % |order|];
      assert key in order;
      SuccIsModulo(next, |order|);
      next := (next + 1) % |order|;
      return Some(Picked(key, destinations[key]));
    }

    /** `k` connections in a row, with no change of destinations: everybody gets an equal share. */
    method Serve(k: nat) returns (picks: seq<string>)
      requires Valid() && order != []
      modifies this`next
      ensures Valid() && |picks| == k
      ensures forall d :: 0 <= d < |order| ==> Occurrences(picks, order[d]) == Turns(|order|, old(next), d, k)
      ensures forall d :: 0 <= d < |order| ==>
                Occurrences(picks, order[d]) == k / |order| || (Occurrences(picks, order[d]) == k / |order| + 1 && k % |order| != 0)
    {
      picks := [];
      for i := 0 to k
        invariant Valid() && |picks| == i
        invariant next == Advance(|order|, old(next), i)
        invariant forall d :: 0 <= d < |order| ==> Occurrences(picks, order[d]) == Turns(|order|, old(next), d, i)
      {
        ghost var at := next;
        var p := Destination();
        AdvanceStep(|order|, old(next), i);
        forall d | 0 <= d < |order|
          ensures Occurrences(picks + [p.value.key], order[d]) == Turns(|order|, old(next), d, i + 1)
        {
          assert (picks + [p.value.key])[..i] == picks;
          TurnsStep(|order|, old(next), d, i);
          assert order[d] == order[at] <==> d == at;
        }
        picks := picks + [p.value.key];
      }
      forall d | 0 <= d < |order|
        ensures Turns(|order|, old(next), d, k) == k / |order| || (Turns(|order|, old(next), d, k) == k / |order| + 1 && k % |order| != 0)
      {
        FairShare(|order|, old(next), d, k);
      }
    }
  }

  // ---------------------------------------------------------------- fairness

  function Succ(c: nat, n: nat): nat { if c + 1 < n then c + 1 else 0 }

  lemma SuccIsModulo(c: nat, n: nat)
    requires c < n
    ensures (c + 1) % n == Succ(c, n)
  {
  }

  ghost function Occurrences(s: seq<string>, x: string): nat {
    if s == [] then 0 else Occurrences(s[..|s| - 1], x) + if s[|s| - 1] == x then 1 else 0
  }

  /** The turn after `k` picks. */
  ghost function Advance(n: nat, c: nat, k: nat): nat
    decreases k
  {
    if k == 0 then c else Advance(n, Succ(c, n), k - 1)
  }

  /** How often position `d` comes up in `k` picks that start at position `c`. */
  ghost function Turns(n: nat, c: nat, d: nat, k: nat): nat
    decreases k
  {
    if k == 0 then 0 else (if c == d then 1 else 0) + Turns(n, Succ(c, n), d, k - 1)
  }

  lemma {:induction false} AdvanceStep(n: nat, c: nat, k: nat)
    requires c < n
    ensures Advance(n, c, k) < n && Advance(n, c, k + 1) == Succ(Advance(n, c, k), n)
    decreases k
  {
    if k > 0 {
      AdvanceStep(n, Succ(c, n), k - 1);
    }
  }

  lemma {:induction false} TurnsStep(n: nat, c: nat, d: nat, k: nat)
    requires c < n && d < n
    ensures Turns(n, c, d, k + 1) == Turns(n, c, d, k) + if Advance(n, c, k) == d then 1 else 0
    decreases k
  {
    if k > 0 {
      TurnsStep(n, Succ(c, n), d, k - 1);
    }
  }

  /** Within one round every position comes up at most once, and at its distance from the start. */
  lemma {:induction false} OneRound(n: nat, c: nat, d: nat, k: nat)
    requires c < n && d < n && k <= n
    ensures Turns(n, c, d, k) == if (if d >= c then d - c else d - c + n) < k then 1 else 0
    ensures Advance(n, c, k) == if c + k < n then c + k else c + k - n
    decreases k
  {
    if k > 0 {
      OneRound(n, c, d, k - 1);
      TurnsStep(n, c, d, k - 1);
      AdvanceStep(n, c, k - 1);
    }
  }

  lemma {:induction false} TurnsSplit(n: nat, c: nat, d: nat, a: nat, b: nat)
    requires c < n
    ensures Turns(n, c, d, a + b) == Turns(n, c, d, a) + Turns(n, Advance(n, c, a), d, b)
    decreases a
  {
    if a > 0 {
      TurnsSplit(n, Succ(c, n), d, a - 1, b);
    }
  }

  lemma OneRoundLess(k: nat, n: nat)
    requires 0 < n <= k
    ensures k / n == (k - n) / n + 1 && k % n == (k - n) % n
  {
    var q, r := (k - n) / n, (k - n) % n;
    assert k - n == n * q + r;
    Distribute(n, q, 1);
    QuotientUnique(k, n, q + 1, r);
    assert k == n * (k / n) + k % n;
  }

  /** Every position gets the integral share of the picks, or one more when they do not divide evenly. */
  lemma {:induction false} FairShare(n: nat, c: nat, d: nat, k: nat)
    requires c < n && d < n
    ensures Turns(n, c, d, k) == k / n || (Turns(n, c, d, k) == k / n + 1 && k % n != 0)
    decreases k
  {
    if k < n {
      OneRound(n, c, d, k);
      QuotientUnique(k, n, 0, k);
    } else {
      TurnsSplit(n, c, d, n, k - n);
      OneRound(n, c, d, n);
      FairShare(n, c, d, k - n);
      OneRoundLess(k, n);
    }
  }
}
