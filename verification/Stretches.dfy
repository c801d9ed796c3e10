/**
 * Timers: what is remembered of a series of marks is the value that holds now,
 * and since when it has held without a break.
 */
module Stretches {
  import opened Options

  /** A mark says nothing, that a value holds, that it holds from now on, or that none does. */
  datatype Mark<T> = Silent | Is(value: T) | Anew(value: T) | Cleared

  datatype Memo<T> = Memo(value: T, since: int)

  function Next<T(==)>(memo: Option<Memo<T>>, mark: Mark<T>, now: int): Option<Memo<T>> {
    match mark
    case Silent => memo
    case Is(v) => if memo.Some? && memo.value.value == v then memo else Some(Memo(v, now))
    case Anew(v) => Some(Memo(v, now))
    case Cleared => None
  }

  /** `memos` are remembered before and after each of the marks. */
  ghost predicate Remembered<T>(marks: seq<Mark<T>>, times: seq<int>, memos: seq<Option<Memo<T>>>) {
    && |times| == |marks| && |memos| == |marks| + 1 && memos[0] == None
    && forall i :: 0 <= i < |marks| ==> memos[i + 1] == Next(memos[i], marks[i], times[i])
  }

  predicate Says<T(==)>(mark: Mark<T>, v: T) { mark == Is(v) || mark == Anew(v) }

  predicate Breaks<T(==)>(mark: Mark<T>, v: T) { mark == Cleared || mark.Anew? || (mark.Is? && mark.value != v) }

  ghost predicate BrokenBetween<T>(marks: seq<Mark<T>>, a: int, b: int, v: T) {
    exists l :: a < l < b && 0 <= l < |marks| && Breaks(marks[l], v)
  }

  /** `v` has held since mark `a` up to mark `n`, and not from earlier on. */
  ghost predicate HeldSince<T>(marks: seq<Mark<T>>, a: nat, n: nat, v: T) {
    && a < n <= |marks|
    && Says(marks[a], v)
    && !BrokenBetween(marks, a, n, v)
    && (marks[a].Anew? || forall j :: 0 <= j < a && Says(marks[j], v) ==> BrokenBetween(marks, j, a, v))
  }

  /** It has held since time `t`. */
  ghost predicate HeldFrom<T>(marks: seq<Mark<T>>, times: seq<int>, n: nat, v: T, t: int) {
    exists a: nat :: a < |times| && HeldSince(marks, a, n, v) && times[a] == t
  }

  /** Nothing holds: whatever was said has been broken since. */
  ghost predicate NothingHolds<T(!new)>(marks: seq<Mark<T>>, n: nat)
    requires n <= |marks|
  {
    forall v, j :: 0 <= j < n && Says(marks[j], v) ==> BrokenBetween(marks, j, n, v)
  }

  lemma NotLater<T>(marks: seq<Mark<T>>, a: nat, b: nat, n: nat, v: T, w: T)
    requires HeldSince(marks, a, n, v) && HeldSince(marks, b, n, w)
    ensures b <= a && (a == b ==> v == w)
  {
    assert a < b && v == w && !marks[b].Anew? ==> BrokenBetween(marks, a, b, v);
    assert a < b ==> BrokenBetween(marks, a, n, v);
  }

  lemma OneHolds<T>(marks: seq<Mark<T>>, a: nat, b: nat, n: nat, v: T, w: T)
    requires HeldSince(marks, a, n, v) && HeldSince(marks, b, n, w)
    ensures a == b && v == w
  {
    NotLater(marks, a, b, n, v, w);
    NotLater(marks, b, a, n, w, v);
  }

  /** What is remembered is the value that holds, and since when; nothing is if none holds. */
  lemma {:induction false} MemoIsStretch<T(!new)>(marks: seq<Mark<T>>, times: seq<int>, memos: seq<Option<Memo<T>>>, n: nat)
    requires Remembered(marks, times, memos) && n <= |marks|
    ensures memos[n].Some? ==> exists a: nat :: HeldSince(marks, a, n, memos[n].value.value) && times[a] == memos[n].value.since
    ensures memos[n].None? ==> NothingHolds(marks, n)
  {
    if n > 0 {
      MemoIsStretch(marks, times, memos, n - 1);
      assert memos[n - 1 + 1] == Next(memos[n - 1], marks[n - 1], times[n - 1]);
      OneMoreMark(marks, times, memos[n - 1], n - 1);
    }
  }

  lemma OneMoreMark<T(!new)>(marks: seq<Mark<T>>, times: seq<int>, memo: Option<Memo<T>>, n: nat)
    requires n < |marks| == |times|
    requires memo.Some? ==> exists a: nat :: HeldSince(marks, a, n, memo.value.value) && times[a] == memo.value.since
    requires memo.None? ==> NothingHolds(marks, n)
    ensures var next := Next(memo, marks[n], times[n]);
            && (next.Some? ==> exists a: nat :: HeldSince(marks, a, n + 1, next.value.value) && times[a] == next.value.since)
            && (next.None? ==> NothingHolds(marks, n + 1))
  {
    var next := Next(memo, marks[n], times[n]);
    if marks[n] == Cleared {
      forall v, j | 0 <= j < n + 1 && Says(marks[j], v)
        ensures BrokenBetween(marks, j, n + 1, v)
      {
        assert Breaks(marks[n], v);
      }
    } else if next.None? {
      WiderBreaks(marks, n);
    } else if memo == next && !marks[n].Anew? {
      var a: nat :| HeldSince(marks, a, n, memo.value.value) && times[a] == memo.value.since;
      assert HeldSince(marks, a, n + 1, next.value.value);
    } else {
      StartsAt(marks, memo, n);
    }
  }

  lemma WiderBreaks<T(!new)>(marks: seq<Mark<T>>, n: nat)
    requires n < |marks| && marks[n] == Silent && NothingHolds(marks, n)
    ensures NothingHolds(marks, n + 1)
  {
    forall v, j | 0 <= j < n + 1 && Says(marks[j], v)
      ensures BrokenBetween(marks, j, n + 1, v)
    {
      assert BrokenBetween(marks, j, n, v);
    }
  }

  /** A mark that says something else than what holds starts a stretch. */
  lemma StartsAt<T(!new)>(marks: seq<Mark<T>>, memo: Option<Memo<T>>, n: nat)
    requires n < |marks| && (marks[n].Is? || marks[n].Anew?)
    requires memo.Some? ==> exists a: nat :: HeldSince(marks, a, n, memo.value.value)
    requires memo.None? ==> NothingHolds(marks, n)
    requires memo.Some? && marks[n].Is? ==> memo.value.value != marks[n].value
    ensures HeldSince(marks, n, n + 1, marks[n].value)
  {
    var v := marks[n].value;
    if marks[n].Is? && memo.Some? {
      var a: nat :| HeldSince(marks, a, n, memo.value.value);
      forall j | 0 <= j < n && Says(marks[j], v)
        ensures BrokenBetween(marks, j, n, v)
      {
        assert a < j ==> Breaks(marks[j], memo.value.value);
        assert Breaks(marks[a], v);
      }
    }
  }

  /** So a value is remembered with a time exactly when it has held since then. */
  lemma MemoIff<T(!new)>(marks: seq<Mark<T>>, times: seq<int>, memos: seq<Option<Memo<T>>>, n: nat, v: T, t: int)
    requires Remembered(marks, times, memos) && n <= |marks|
    ensures memos[n] == Some(Memo(v, t)) <==> HeldFrom(marks, times, n, v, t)
  {
    MemoIsStretch(marks, times, memos, n);
    if HeldFrom(marks, times, n, v, t) {
      var a: nat :| HeldSince(marks, a, n, v) && times[a] == t;
      assert memos[n].None? ==> BrokenBetween(marks, a, n, v);
      var b: nat :| HeldSince(marks, b, n, memos[n].value.value) && times[b] == memos[n].value.since;
      OneHolds(marks, a, b, n, v, memos[n].value.value);
    }
  }
}
