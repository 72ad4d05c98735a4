/**
 * TimerManager and its timers. Time is in nanoseconds. A timer may be cancelled by another thread at any moment, so
 * every read of a timer's flag comes after an arbitrary amount of interference.
 */
module Timers {
  import opened Options

  class Timer {
    var expiration: int
    const interval: int
    const repeats: bool
    var on: bool
    ghost const first: int             // the expiration it was registered with

    constructor (expiration: int, interval: int)
      ensures this.expiration == first == expiration && this.interval == interval && repeats == (interval > 0) && !on
    {
      this.expiration := expiration;
      this.interval := interval;
      repeats := interval > 0;
      on := false;
      first := expiration;
    }

    method Enable(on: bool)
      modifies this`on
      ensures this.on == on
    {
      this.on := on;
    }

    /** Move on to the next deadline, counted from the last one and not from now. */
    method Repeat()
      modifies this`expiration
      ensures expiration == old(expiration) + interval
    {
      expiration := expiration + interval;
    }
  }

  // ---------- the simple specification of one timer ----------

  /** Deadline number k of a timer. */
  ghost function Deadline(t: Timer, k: nat): int {
    t.first + k * t.interval
  }

  /** The first k deadlines of a timer. */
  ghost function Deadlines(t: Timer, k: nat): (r: seq<int>)
    ensures |r| == k
  {
    if k == 0 then [] else Deadlines(t, k - 1) + [Deadline(t, k - 1)]
  }

  lemma {:induction false} DeadlinesAt(t: Timer, n: nat, k: nat)
    requires k < n
    ensures Deadlines(t, n)[k] == t.first + k * t.interval
  {
    if k < n - 1 {
      DeadlinesAt(t, n - 1, k);
    }
  }

  /** A callback pushed on the task queue: for which deadline, and the time the check had read. */
  datatype Due = Due(timer: Timer, deadline: int, at: int)

  /** The deadlines for which the callback of a timer has been pushed, in order. */
  ghost function Log(tasks: seq<Due>, t: Timer): seq<int> {
    if tasks == [] then [] else
      var last := tasks[|tasks| - 1];
      Log(tasks[..|tasks| - 1], t) + if last.timer == t then [last.deadline] else []
  }

  /** The pushes follow the specification: the k-th one is for the k-th deadline, and a one-shot has at most one. */
  ghost predicate Faithful(t: Timer, log: seq<int>) {
    log == Deadlines(t, |log|) && (!t.repeats ==> |log| <= 1)
  }

  /** A timer of the set stands at the deadline after those pushed; a one-shot has not been pushed. */
  ghost predicate Waiting(t: Timer, log: seq<int>, time: int) {
    Faithful(t, log) && (!t.repeats ==> log == []) && time == Deadline(t, |log|)
  }

  lemma FiredIsFaithful(t: Timer, log: seq<int>, time: int)
    requires Waiting(t, log, time)
    ensures Faithful(t, log + [time])
    ensures t.repeats ==> Waiting(t, log + [time], time + t.interval)
  {
    assert |log + [time]| == |log| + 1;
    assert (|log| + 1) * t.interval == |log| * t.interval + t.interval;
  }

  // ---------- the ordered set ----------

  /** An element of the set: the expiration at the time of insertion, and the timer. */
  datatype Entry = Entry(time: int, timer: Timer)

  /** The entry for the deadline after this one. */
  ghost function Following(e: Entry): Entry {
    Entry(e.time + e.timer.interval, e.timer)
  }

  ghost predicate Ordered(es: seq<Entry>) {
    forall i, j | 0 <= i < j < |es| :: es[i].time <= es[j].time
  }

  ghost predicate Distinct(es: seq<Entry>) {
    forall i, j | 0 <= i < j < |es| :: es[i].timer != es[j].timer
  }

  /** The second set holds the entries of the first and these, each as often. */
  ghost predicate Adds(before: seq<Entry>, es: seq<Entry>, after: seq<Entry>) {
    multiset(after) == multiset(before) + multiset(es)
  }

  /** A place for an entry in the set; entries with equal times may be in either order. */
  predicate Fits(es: seq<Entry>, time: int, k: nat) {
    && k <= |es|
    && (forall i | 0 <= i < k :: es[i].time <= time)
    && (forall i | k <= i < |es| :: time <= es[i].time)
  }

  function InsertAt(es: seq<Entry>, e: Entry, k: nat): seq<Entry>
    requires k <= |es|
  {
    es[..k] + [e] + es[k..]
  }

  lemma InsertKeeps(es: seq<Entry>, e: Entry, k: nat)
    requires Ordered(es) && Distinct(es) && Fits(es, e.time, k)
    requires forall x | x in es :: x.timer != e.timer
    ensures var r := InsertAt(es, e, k);
      && Ordered(r) && Distinct(r)
      && Adds(es, [e], r)
      && r[0].time == if es == [] || e.time < es[0].time then e.time else es[0].time
  {
    InsertOrdered(es, e, k);
    InsertDistinct(es, e, k);
    assert es == es[..k] + es[k..];
    hide Ordered, Distinct;
  }

  lemma InsertOrdered(es: seq<Entry>, e: Entry, k: nat)
    requires Ordered(es) && Fits(es, e.time, k)
    ensures Ordered(InsertAt(es, e, k))
  {
  }

  lemma InsertDistinct(es: seq<Entry>, e: Entry, k: nat)
    requires Distinct(es) && k <= |es| && forall x | x in es :: x.timer != e.timer
    ensures Distinct(InsertAt(es, e, k))
  {
  }

  /** The entries of the set and the expired ones are those of different timers. */
  ghost predicate Apart(es: seq<Entry>, expired: seq<Entry>) {
    Ordered(es) && Distinct(es) && Distinct(expired) && forall e, x | e in es && x in expired :: e.timer != x.timer
  }

  lemma ApartTimers(es: seq<Entry>, e: Entry, rest: seq<Entry>)
    requires Apart(es, [e] + rest)
    ensures Ordered(es)
    ensures Apart(es, rest) && forall x | x in es || x in rest :: x.timer != e.timer
  {
    var all := [e] + rest;
    assert all[0] == e && forall i | 0 <= i < |rest| :: rest[i] == all[i + 1];
  }

  lemma ApartInsert(es: seq<Entry>, e: Entry, rest: seq<Entry>, time: int, k: nat)
    requires Apart(es, [e] + rest) && Fits(es, time, k)
    ensures var r := InsertAt(es, Entry(time, e.timer), k);
      && Apart(r, rest)
      && Adds(es, [Entry(time, e.timer)], r)
      && forall x | x in r :: x in es || x == Entry(time, e.timer)
  {
    hide InsertAt;
    ApartTimers(es, e, rest);
    InsertKeeps(es, Entry(time, e.timer), k);
    InsertMembers(es, Entry(time, e.timer), k);
    assert rest == ([e] + rest)[1..];
  }

  lemma InsertMembers(es: seq<Entry>, e: Entry, k: nat)
    requires k <= |es|
    ensures forall x | x in InsertAt(es, e, k) :: x in es || x == e
  {
  }

  lemma ApartAlone(es: seq<Entry>)
    requires Apart(es, [])
    ensures Ordered(es) && Distinct(es)
  {
  }

  lemma SplitApart(es: seq<Entry>, k: nat)
    requires Ordered(es) && Distinct(es) && k <= |es|
    ensures Apart(es[k..], es[..k])
  {
  }

  /** How many entries expire no later than `now`: the position of upper_bound. */
  function UpperBound(es: seq<Entry>, now: int): (k: nat)
    requires Ordered(es)
    ensures k <= |es|
    ensures forall i | 0 <= i < k :: es[i].time <= now
    ensures forall i | k <= i < |es| :: now < es[i].time
  {
    if es == [] || now < es[0].time then 0 else
      assert Ordered(es[1..]);
      1 + UpperBound(es[1..], now)
  }

  // ---------- what one check does ----------

  /** The callbacks pushed for the expired entries, given what the check read of each flag. */
  ghost function Pushes(es: seq<Entry>, read: seq<bool>, now: int): seq<Due>
    requires |es| == |read|
  {
    if es == [] then [] else
      var i := |es| - 1;
      Pushes(es[..i], read[..i], now) + if read[i] then [Due(es[i].timer, es[i].time, now)] else []
  }

  /** The entry put back if the flag was read as on and the timer repeats. */
  ghost function Repeated(e: Entry, read: bool): seq<Entry> {
    if read && e.timer.repeats then [Following(e)] else []
  }

  /** The entries put back for the timers that repeat. */
  ghost function Again(es: seq<Entry>, read: seq<bool>): seq<Entry>
    requires |es| == |read|
  {
    if es == [] then [] else
      var i := |es| - 1;
      Again(es[..i], read[..i]) + Repeated(es[i], read[i])
  }

  lemma PushesNone(es: seq<Entry>, read: seq<bool>, now: int)
    requires |es| == |read| == 0
    ensures Pushes(es, read, now) == [] && Again(es, read) == []
  {
  }

  lemma {:induction false} PushesMore(es: seq<Entry>, read: seq<bool>, now: int, i: nat, b: bool)
    requires |read| == i < |es|
    ensures Pushes(es[..i + 1], read + [b], now)
         == Pushes(es[..i], read, now) + if b then [Due(es[i].timer, es[i].time, now)] else []
  {
    assert es[..i + 1][..i] == es[..i] && (read + [b])[..i] == read;
  }

  lemma {:induction false} AgainMore(es: seq<Entry>, read: seq<bool>, i: nat, b: bool)
    requires |read| == i < |es|
    ensures Again(es[..i + 1], read + [b]) == Again(es[..i], read) + Repeated(es[i], b)
  {
    assert es[..i + 1][..i] == es[..i] && (read + [b])[..i] == read;
  }

  lemma AgainAdds(a: seq<Entry>, es: seq<Entry>, read: seq<bool>, i: nat, b: bool, was: seq<Entry>, now: seq<Entry>)
    requires |read| == i < |es| && Adds(a, Again(es[..i], read), was)
    requires Adds(was, Repeated(es[i], b), now)
    ensures Adds(a, Again(es[..i + 1], read + [b]), now)
  {
    hide Again;
    AgainMore(es, read, i, b);
  }

  /** A check pushes in the order of the deadlines, none of them early. */
  lemma {:induction false} PushedInOrder(es: seq<Entry>, read: seq<bool>, now: int)
    requires |es| == |read| && Ordered(es) && forall e | e in es :: e.time <= now
    ensures var ps := Pushes(es, read, now);
      && (forall d | d in ps :: d.deadline <= d.at && Entry(d.deadline, d.timer) in es)
      && (forall i, j | 0 <= i < j < |ps| :: ps[i].deadline <= ps[j].deadline)
  {
    if es != [] {
      var i := |es| - 1;
      PushedInOrder(es[..i], read[..i], now);
    }
  }

  lemma {:induction false} LogMore(tasks: seq<Due>, more: seq<Due>, t: Timer)
    ensures Log(tasks + more, t) == Log(tasks, t) + Log(more, t)
  {
    if more == [] {
      assert tasks + more == tasks;
    } else {
      var i := |more| - 1;
      assert (tasks + more)[..|tasks| + i] == tasks + more[..i];
      LogMore(tasks, more[..i], t);
    }
  }

  /** A check pushes each expired timer that it reads as on once, and no other timer. */
  lemma {:induction false} PushedLog(es: seq<Entry>, read: seq<bool>, now: int, t: Timer)
    requires |es| == |read| && Distinct(es)
    ensures (forall e | e in es :: e.timer != t) ==> Log(Pushes(es, read, now), t) == []
    ensures forall j | 0 <= j < |es| && es[j].timer == t ::
              Log(Pushes(es, read, now), t) == if read[j] then [es[j].time] else []
  {
    if es != [] {
      var i := |es| - 1;
      var before := Pushes(es[..i], read[..i], now);
      PushedLog(es[..i], read[..i], now, t);
      LogMore(before, if read[i] then [Due(es[i].timer, es[i].time, now)] else [], t);
      assert Log([Due(es[i].timer, es[i].time, now)], t) == if es[i].timer == t then [es[i].time] else [] by {
        assert [Due(es[i].timer, es[i].time, now)][..0] == [];
      }
      forall j | 0 <= j < |es| && es[j].timer == t
        ensures Log(Pushes(es, read, now), t) == if read[j] then [es[j].time] else []
      {
        if j < i {
          assert es[..i][j] == es[j] && es[i].timer != t;
        } else {
          assert forall x | 0 <= x < i :: es[..i][x].timer != es[i].timer;
        }
      }
    }
  }

  lemma {:induction false} AgainFrom(es: seq<Entry>, read: seq<bool>, e: Entry)
    requires |es| == |read|
    ensures e in Again(es, read)
       <==> exists j :: 0 <= j < |es| && read[j] && es[j].timer.repeats && e == Following(es[j])
  {
    if es != [] {
      var i := |es| - 1;
      AgainFrom(es[..i], read[..i], e);
    }
  }

  /** The set and the pushes so far agree with the specification of every timer ever registered. */
  ghost predicate Agrees(all: set<Timer>, timers: seq<Entry>, tasks: seq<Due>) {
    && Ordered(timers) && Distinct(timers)
    && (forall e | e in timers :: e.timer in all && Waiting(e.timer, Log(tasks, e.timer), e.time))
    && (forall t | t in all :: Faithful(t, Log(tasks, t)))
    && (forall d | d in tasks :: d.timer in all && d.deadline <= d.at)
  }

  /** Every entry whose timer is on has its flag. */
  ghost predicate Marked(es: seq<Entry>, on: set<Timer>, flags: seq<bool>) {
    |flags| == |es| && forall j | 0 <= j < |es| && es[j].timer in on :: flags[j]
  }

  /** The second loop finds on only what the first loop found on. */
  ghost predicate Within(again: seq<bool>, read: seq<bool>) {
    |again| <= |read| && forall j | 0 <= j < |again| && again[j] :: read[j]
  }

  lemma WithinMore(es: seq<Entry>, i: nat, on: set<Timer>, again: seq<bool>, read: seq<bool>, b: bool)
    requires |again| == i < |es| && Marked(es, on, read) && Within(again, read) && (b ==> es[i].timer in on)
    ensures Within(again + [b], read)
  {
  }

  lemma MarkedMore(es: seq<Entry>, i: nat, before: set<Timer>, flags: seq<bool>, on: set<Timer>, b: bool)
    requires i < |es| && Marked(es[..i], before, flags) && on <= before && (es[i].timer in on ==> b)
    ensures Marked(es[..i + 1], on, flags + [b])
  {
  }

  /** Every entry that has its flag has a timer that is on. */
  ghost predicate Marks(flags: seq<bool>, es: seq<Entry>, on: set<Timer>) {
    |flags| == |es| && forall j | 0 <= j < |flags| && flags[j] :: es[j].timer in on
  }

  /** What a check leaves in the set: the later entries, and those put back. */
  ghost predicate Checked(timers: seq<Entry>, k: nat, again: seq<bool>, after: seq<Entry>)
    requires |again| == k <= |timers|
  {
    Ordered(after) && Distinct(after) && Adds(timers[k..], Again(timers[..k], again), after)
  }

  lemma CheckedFaithful(all: set<Timer>, timers: seq<Entry>, tasks: seq<Due>, now: int, read: seq<bool>, t: Timer)
    requires Agrees(all, timers, tasks) && t in all
    requires |read| == UpperBound(timers, now)
    ensures Faithful(t, Log(tasks + Pushes(timers[..|read|], read, now), t))
  {
    var es := timers[..|read|];
    LogMore(tasks, Pushes(es, read, now), t);
    PushedLog(es, read, now, t);
    if j :| 0 <= j < |es| && es[j].timer == t {
      assert es[j] in timers;
      FiredIsFaithful(t, Log(tasks, t), es[j].time);
    }
  }

  lemma LaterWaiting(all: set<Timer>, timers: seq<Entry>, tasks: seq<Due>, now: int, read: seq<bool>, i: nat)
    requires Agrees(all, timers, tasks)
    requires |read| == UpperBound(timers, now) <= i < |timers|
    ensures Waiting(timers[i].timer, Log(tasks + Pushes(timers[..|read|], read, now), timers[i].timer), timers[i].time)
  {
    hide Waiting, Log, Pushes, Ordered;
    var es, t := timers[..|read|], timers[i].timer;
    forall x | x in es ensures x.timer != t {
      var j :| 0 <= j < |read| && timers[j] == x;
    }
    LogMore(tasks, Pushes(es, read, now), t);
    PushedLog(es, read, now, t);
    assert Log(tasks, t) + [] == Log(tasks, t);
    assert timers[i] in timers;
  }

  lemma AgainWaiting(all: set<Timer>, timers: seq<Entry>, tasks: seq<Due>, now: int, read: seq<bool>, j: nat)
    requires Agrees(all, timers, tasks)
    requires j < |read| == UpperBound(timers, now) && read[j] && timers[j].timer.repeats
    ensures var t := timers[j].timer;
      Waiting(t, Log(tasks + Pushes(timers[..|read|], read, now), t), timers[j].time + t.interval)
  {
    hide Waiting, Log, Pushes;
    var es, t := timers[..|read|], timers[j].timer;
    LogMore(tasks, Pushes(es, read, now), t);
    PushedLog(es, read, now, t);
    assert es[j].timer == t && timers[j] in timers;
    FiredIsFaithful(t, Log(tasks, t), es[j].time);
  }

  lemma CheckedWaiting(all: set<Timer>, timers: seq<Entry>, tasks: seq<Due>, now: int, read: seq<bool>,
      again: seq<bool>, after: seq<Entry>, e: Entry)
    requires Agrees(all, timers, tasks)
    requires |read| == |again| == UpperBound(timers, now)
    requires Within(again, read)
    requires Checked(timers, |read|, again, after) && e in after
    ensures e.timer in all && Waiting(e.timer, Log(tasks + Pushes(timers[..|read|], read, now), e.timer), e.time)
  {
    hide Waiting, Log, Pushes, Ordered, Distinct, Again;
    var es, rest := timers[..|read|], timers[|read|..];
    assert e in multiset(after);
    if e in rest {
      var i :| |read| <= i < |timers| && timers[i] == e;
      LaterWaiting(all, timers, tasks, now, read, i);
    } else {
      assert e in Again(es, again);
      AgainFrom(es, again, e);
      var j :| 0 <= j < |es| && again[j] && es[j].timer.repeats && e == Following(es[j]);
      assert es[j] == timers[j];
      AgainWaiting(all, timers, tasks, now, read, j);
    }
  }

  lemma CheckKeeps(all: set<Timer>, timers: seq<Entry>, tasks: seq<Due>, now: int, read: seq<bool>, again: seq<bool>,
      after: seq<Entry>)
    requires Agrees(all, timers, tasks)
    requires |read| == |again| == UpperBound(timers, now)
    requires Within(again, read)
    requires Checked(timers, |read|, again, after)
    ensures Agrees(all, after, tasks + Pushes(timers[..|read|], read, now))
  {
    var es := timers[..|read|];
    forall t | t in all ensures Faithful(t, Log(tasks + Pushes(es, read, now), t)) {
      CheckedFaithful(all, timers, tasks, now, read, t);
    }
    forall e | e in after
      ensures e.timer in all && Waiting(e.timer, Log(tasks + Pushes(es, read, now), e.timer), e.time) {
      CheckedWaiting(all, timers, tasks, now, read, again, after, e);
    }
    PushedInOrder(es, read, now);
    forall d | d in Pushes(es, read, now) ensures d.timer in all && d.deadline <= d.at {
      assert Entry(d.deadline, d.timer) in timers;
    }
  }

  lemma RegisterKeeps(all: set<Timer>, timers: seq<Entry>, tasks: seq<Due>, t: Timer, k: nat)
    requires Agrees(all, timers, tasks) && t !in all && (t.repeats <==> t.interval > 0) && Fits(timers, t.first, k)
    ensures var after := InsertAt(timers, Entry(t.first, t), k);
      && Agrees(all + {t}, after, tasks)
      && Adds(timers, [Entry(t.first, t)], after)
      && (forall e | e in after :: e in timers || e == Entry(t.first, t))
      && after[0].time == if timers == [] || t.first < timers[0].time then t.first else timers[0].time
  {
    InsertMembers(timers, Entry(t.first, t), k);
    hide InsertAt, Log, Fits;
    NeverPushed(tasks, t);
    InsertKeeps(timers, Entry(t.first, t), k);
  }

  lemma {:induction false} NeverPushed(tasks: seq<Due>, t: Timer)
    requires forall d | d in tasks :: d.timer != t
    ensures Log(tasks, t) == []
  {
    if tasks != [] {
      NeverPushed(tasks[..|tasks| - 1], t);
    }
  }

  /** What a check means for one entry, whatever is cancelled meanwhile: an expired timer that is still on at its
      end has been pushed once, and if it repeats stands at its next deadline. */
  lemma ExpiredAndOn(timers: seq<Entry>, tasks: seq<Due>, now: int, read: seq<bool>, again: seq<bool>,
      after: seq<Entry>, on: set<Timer>, e: Entry)
    requires Ordered(timers) && Distinct(timers) && |read| == |again| == UpperBound(timers, now)
    requires Marked(timers[..|read|], on, again) && Within(again, read) && Checked(timers, |read|, again, after)
    requires e in timers && e.time <= now && e.timer in on
    ensures Log(tasks + Pushes(timers[..|read|], read, now), e.timer) == Log(tasks, e.timer) + [e.time]
    ensures e.timer.repeats ==> Entry(e.time + e.timer.interval, e.timer) in after
  {
    hide Log, Pushes, Again, Adds, Ordered;
    var es := timers[..|read|];
    var j :| 0 <= j < |timers| && timers[j] == e;
    assert j < |read| && es[j] == e && again[j] && read[j];
    LogMore(tasks, Pushes(es, read, now), e.timer);
    PushedLog(es, read, now, e.timer);
    if e.timer.repeats {
      AgainFrom(es, again, Following(e));
      AddedIn(timers[|read|..], Again(es, again), after, Following(e));
    }
  }

  lemma AddedIn(before: seq<Entry>, es: seq<Entry>, after: seq<Entry>, e: Entry)
    requires Adds(before, es, after) && (e in es || e in before)
    ensures e in after
  {
    assert e in multiset(before) + multiset(es);
    assert e in multiset(after);
  }

  /** And what the set holds after a check: an entry that was there and is later, or the next deadline of one that was
      there, had expired, repeats and was on. */
  lemma OnlyLaterOrRepeated(timers: seq<Entry>, now: int, again: seq<bool>, after: seq<Entry>, on: set<Timer>, e: Entry)
    requires Ordered(timers) && |again| == UpperBound(timers, now) && Checked(timers, |again|, again, after)
    requires forall j | 0 <= j < |again| && again[j] :: timers[j].timer in on
    requires e in after && !(e in timers && now < e.time)
    ensures e.timer.repeats && e.timer in on
    ensures Entry(e.time - e.timer.interval, e.timer) in timers && e.time - e.timer.interval <= now
  {
    LaterUntouched(timers, now, again, after, e);
    var j :| 0 <= j < |again| && again[j] && timers[j].timer.repeats && e == Following(timers[j]);
    assert timers[j] == Entry(e.time - e.timer.interval, e.timer);
  }

  lemma EachEntry(timers: seq<Entry>, tasks: seq<Due>, now: int, read: seq<bool>, again: seq<bool>, after: seq<Entry>,
      before: set<Timer>, on: set<Timer>)
    requires Ordered(timers) && Distinct(timers) && |read| == |again| == UpperBound(timers, now)
    requires Marks(read, timers[..|read|], before) && Within(again, read)
    requires Marked(timers[..|read|], on, again) && Checked(timers, |read|, again, after)
    ensures forall e | e in timers && e.time <= now && e.timer in on ::
              && Log(tasks + Pushes(timers[..|read|], read, now), e.timer) == Log(tasks, e.timer) + [e.time]
              && (e.timer.repeats ==> Entry(e.time + e.timer.interval, e.timer) in after)
    ensures forall e | e in timers && now < e.time :: e in after
    ensures forall e | e in after && !(e in timers && now < e.time) ::
              && e.timer.repeats && e.timer in before
              && Entry(e.time - e.timer.interval, e.timer) in timers && e.time - e.timer.interval <= now
  {
    WithinMarks(timers, read, again, before);
    hide Log, Pushes, Again, Adds, Ordered, Distinct, Marks, Marked, Within, Checked, Following;
    forall e | e in timers && e.time <= now && e.timer in on
      ensures Log(tasks + Pushes(timers[..|read|], read, now), e.timer) == Log(tasks, e.timer) + [e.time]
      ensures e.timer.repeats ==> Entry(e.time + e.timer.interval, e.timer) in after
    {
      ExpiredAndOn(timers, tasks, now, read, again, after, on, e);
    }
    forall e | e in timers && now < e.time ensures e in after {
      LaterUntouched(timers, now, again, after, e);
    }
    forall e | e in after && !(e in timers && now < e.time)
      ensures e.timer.repeats && e.timer in before
      ensures Entry(e.time - e.timer.interval, e.timer) in timers && e.time - e.timer.interval <= now
    {
      OnlyLaterOrRepeated(timers, now, again, after, before, e);
    }
  }

  lemma WithinMarks(timers: seq<Entry>, read: seq<bool>, again: seq<bool>, on: set<Timer>)
    requires |again| == |read| <= |timers| && Marks(read, timers[..|read|], on) && Within(again, read)
    ensures forall j | 0 <= j < |again| && again[j] :: timers[j].timer in on
  {
  }

  /** Whatever has happened so far: push number k of a timer was for first + k * interval, and not early. */
  lemma PushNumber(all: set<Timer>, timers: seq<Entry>, tasks: seq<Due>, t: Timer, k: nat)
    requires Agrees(all, timers, tasks) && t in all && k < |Log(tasks, t)|
    ensures Log(tasks, t)[k] == t.first + k * t.interval && (!t.repeats ==> k == 0)
    ensures exists i :: 0 <= i < |tasks| && tasks[i].timer == t
                        && tasks[i].deadline == t.first + k * t.interval <= tasks[i].at
  {
    var log := Log(tasks, t);
    assert Faithful(t, log);
    DeadlinesAt(t, |log|, k);
    LogFrom(tasks, t, k);
  }

  lemma {:induction false} LogFrom(tasks: seq<Due>, t: Timer, k: nat)
    requires k < |Log(tasks, t)|
    ensures exists i :: 0 <= i < |tasks| && tasks[i].timer == t && tasks[i].deadline == Log(tasks, t)[k]
  {
    var n := |tasks| - 1;
    var before := Log(tasks[..n], t);
    if k < |before| {
      LogFrom(tasks[..n], t, k);
      var i :| 0 <= i < n && tasks[..n][i].timer == t && tasks[..n][i].deadline == before[k];
      assert tasks[i].timer == t;
    } else {
      assert tasks[n].timer == t;
    }
  }

  /** A check pushes nothing for a timer cancelled before it began, nor for one that is not due. */
  lemma NotPushed(timers: seq<Entry>, tasks: seq<Due>, now: int, read: seq<bool>, t: Timer)
    requires Ordered(timers) && Distinct(timers) && |read| == UpperBound(timers, now)
    requires forall j | 0 <= j < |read| && timers[j].timer == t :: !read[j]
    ensures Log(tasks + Pushes(timers[..|read|], read, now), t) == Log(tasks, t)
  {
    var es := timers[..|read|];
    LogMore(tasks, Pushes(es, read, now), t);
    PushedLog(es, read, now, t);
    if e :| e in es && e.timer == t {
      var j :| 0 <= j < |es| && es[j] == e;
      assert !read[j];
    }
    assert Log(tasks, t) + [] == Log(tasks, t);
  }

  /** A check that marks no cancelled timer pushes nothing for any of them. */
  lemma CancelledNotPushed(timers: seq<Entry>, tasks: seq<Due>, now: int, read: seq<bool>, on: set<Timer>, t: Timer)
    requires Ordered(timers) && Distinct(timers) && |read| == UpperBound(timers, now)
    requires Marks(read, timers[..|read|], on) && t !in on
    ensures Log(tasks + Pushes(timers[..|read|], read, now), t) == Log(tasks, t)
  {
    hide Log, Pushes, Ordered, Distinct;
    forall j | 0 <= j < |read| && timers[j].timer == t ensures !read[j] {
      assert timers[..|read|][j] == timers[j];
    }
    NotPushed(timers, tasks, now, read, t);
  }

  /** A check leaves every later entry where it is, and anything else in the set is a repeat of an expired one. */
  lemma LaterUntouched(timers: seq<Entry>, now: int, again: seq<bool>, after: seq<Entry>, e: Entry)
    requires Ordered(timers) && |again| == UpperBound(timers, now) && Checked(timers, |again|, again, after)
    ensures e in timers && now < e.time ==> e in after
    ensures e in after && !(e in timers && now < e.time) ==>
      exists j :: 0 <= j < |again| && again[j] && timers[j].timer.repeats
        && e == Following(timers[j])
  {
    hide Again, Distinct;
    var k := |again|;
    var es, rest := timers[..k], timers[k..];
    AgainFrom(es, again, e);
    assert e in after <==> e in multiset(after);
    assert e in multiset(after) <==> e in rest || e in Again(es, again);
    if e in timers && now < e.time {
      var i :| 0 <= i < |timers| && timers[i] == e;
      assert rest[i - k] == e;
    }
    if e in after && e in Again(es, again) {
      var j :| 0 <= j < |es| && again[j] && es[j].timer.repeats && e == Following(es[j]);
      assert timers[j] == es[j];
    }
  }

  /** What a caller keeps of a timer; the timer may be gone. */
  datatype TimerId = TimerId(id: nat, timer: Option<Timer>)

  /** An operation on the manager. */
  datatype Op =
    | Register(timestamp: int, interval: int, now: int)
    | Check(now: int, later: int)
    | Cancel(id: TimerId)

  class TimerManager {
    var timers: seq<Entry>         // timers_
    var active: seq<Entry>         // active_timers_
    var armed: Option<int>         // the deadline the timerfd is set for
    var tasks: seq<Due>            // every callback pushed on the task queue so far
    ghost var all: set<Timer>      // every timer ever registered
    ghost var late: bool           // the last arming came at or after the deadline it armed for

    constructor ()
      ensures Valid() && timers == [] && tasks == [] && all == {} && !late && armed == None
    {
      timers, active, armed, tasks, all, late := [], [], None, [], {}, false;
    }

    /** A non-empty set has the timerfd set for its earliest expiration if and only if the last arming was in time. */
    ghost predicate Armed()
      reads this
    {
      timers != [] ==> armed == if late then None else Some(timers[0].time)
    }

    /** The entries stand for registered timers, under their expirations. */
    ghost predicate Current(es: seq<Entry>)
      reads this`all, all`expiration
    {
      forall e | e in es :: e.timer in all && e.time == e.timer.expiration
    }

    lemma CurrentSplit(es: seq<Entry>, k: nat)
      requires Current(es) && k <= |es|
      ensures Current(es[..k]) && Current(es[k..])
      ensures forall e | e in es[..k] :: e.timer in all
    {
    }

    ghost predicate Valid()
      reads this, all
    {
      Agrees(all, timers, tasks) && Current(timers) && Armed() && active == []
    }

    /** The timers not cancelled yet. */
    ghost function On(): set<Timer>
      reads this`all, all`on
    {
      set t | t in all && t.on
    }

    /** Other threads run: any timer may be cancelled. */
    method Interference()
      modifies all`on
      ensures On() <= old(On())
    {
    }

    /** Read a flag, at a moment when anything may have been cancelled. */
    method IsOn(timer: Timer) returns (on: bool)
      requires timer in all
      modifies all`on
      ensures On() <= old(On()) && on == (timer in On())
    {
      Interference();
      on := timer.on;
    }

    /** A deadline that has passed gives a zero value, which disarms the timerfd. */
    method ResetTimerFd(timer: Timer, now: int)
      modifies this`armed, this`late
      ensures late == (timer.expiration <= now)
      ensures armed == if late then None else Some(timer.expiration)
    {
      armed := if now < timer.expiration then Some(timer.expiration) else None;
      late := timer.expiration <= now;
    }

    /** The place among entries with the same time is left open. */
    method Insert(timer: Timer) returns (resetInstantly: bool, ghost k: nat)
      requires Ordered(timers)
      modifies this`timers
      ensures Fits(old(timers), timer.expiration, k)
      ensures timers == InsertAt(old(timers), Entry(timer.expiration, timer), k)
      ensures resetInstantly == (old(timers) == [] || timer.expiration < old(timers)[0].time)
    {
      resetInstantly := |timers| == 0 || timer.expiration < timers[0].time;
      var e := Entry(timer.expiration, timer);
      assert Fits(timers, e.time, UpperBound(timers, e.time));
      var i: nat :| i <= |timers| && Fits(timers, e.time, i);
      k := i;
      timers := timers[..i] + [e] + timers[i..];
    }

    /** The timerfd is set only for a new earliest expiration; otherwise it stays as it is. */
    method RegisterTimer(timestamp: int, interval: int, now: int) returns (timer: Timer)
      requires Valid()
      modifies this`timers, this`armed, this`late, this`all
      ensures Valid() && fresh(timer) && all == old(all) + {timer}
      ensures timer.on && timer.first == timestamp && timer.interval == interval && Log(tasks, timer) == []
      ensures Adds(old(timers), [Entry(timestamp, timer)], timers)
      ensures late == if old(timers) == [] || timestamp < old(timers)[0].time then timestamp <= now else old(late)
    {
      hide Waiting, Faithful, Log, Distinct, InsertAt, Fits;
      timer := new Timer(timestamp, interval);
      NeverPushed(tasks, timer);
      var resetInstantly, k := Insert(timer);
      RegisterKeeps(all, old(timers), tasks, timer, k);
      hide Agrees;
      all := all + {timer};
      if resetInstantly {
        ResetTimerFd(timer, now);
      }
      timer.Enable(true);
    }

    /** Push the expired callbacks; another thread may cancel between any two reads. */
    method PushExpired(now: int) returns (ghost read: seq<bool>)
      requires forall e | e in active :: e.timer in all
      modifies this`tasks, all`on
      ensures |read| == |active|
      ensures tasks == old(tasks) + Pushes(active, read, now)
      ensures On() <= old(On())
      ensures Marked(active, On(), read) && Marks(read, active, old(On()))
    {
      hide Pushes, On;
      read := [];
      PushesNone(active[..0], [], now);
      for i := 0 to |active|
        invariant |read| == i
        invariant tasks == old(tasks) + Pushes(active[..i], read, now)
        invariant forall e | e in active :: e.timer in all
        invariant On() <= old(On())
        invariant Marked(active[..i], On(), read) && Marks(read, active[..i], old(On()))
      {
        ghost var before := On();
        var timer := active[i].timer;
        assert active[i] in active;
        var on := IsOn(timer);
        PushesMore(active, read, now, i, on);
        MarkedMore(active, i, before, read, On(), on);
        assert old(tasks) + Pushes(active[..i], read, now) + [] == tasks;
        if on {
          tasks := tasks + [Due(timer, active[i].time, now)];
        }
        read := read + [on];
      }
      assert active[..|active|] == active;
    }

    lemma CurrentTail(e: Entry, rest: seq<Entry>)
      requires Current([e] + rest)
      ensures Current(rest) && e.timer in all && e.timer.expiration == e.time
    {
      var es := [e] + rest;
      assert e == es[0] && forall i | 0 <= i < |rest| :: rest[i] == es[i + 1];
    }

    lemma CurrentWith(es: seq<Entry>, e: Entry, after: seq<Entry>)
      requires Current(es) && e.timer in all && e.time == e.timer.expiration
      requires forall x | x in after :: x in es || x == e
      ensures Current(after)
    {
    }

    /** Put a timer back, under its next deadline. */
    method PutBack(timer: Timer, ghost e: Entry, ghost rest: seq<Entry>)
      requires e.timer == timer && Apart(timers, [e] + rest) && Current(timers) && Current([e] + rest)
      modifies this`timers, timer`expiration
      ensures Apart(timers, rest) && Current(timers) && Current(rest)
      ensures Adds(old(timers), [Entry(e.time + timer.interval, timer)], timers)
    {
      CurrentTail(e, rest);
      hide Apart, InsertAt, Fits, Adds;
      ApartTimers(timers, e, rest);
      timer.Repeat();
      assert Current(timers) && Current(rest);
      hide Current;
      ghost var es := timers;
      var _, k := Insert(timer);
      ApartInsert(es, e, rest, timer.expiration, k);
      CurrentWith(es, Entry(timer.expiration, timer), timers);
    }

    /** One turn of the second loop, with a fresh read of the flag. */
    method Turn(i: nat) returns (ghost again: bool)
      requires i < |active| && Apart(timers, active[i..]) && Current(timers) && Current(active[i..])
      modifies this`timers, all`on, active[i].timer`expiration
      ensures Apart(timers, active[i + 1..]) && Current(timers) && Current(active[i + 1..])
      ensures On() <= old(On()) && (active[i].timer in On() ==> again) && (again ==> active[i].timer in old(On()))
      ensures Adds(old(timers), Repeated(active[i], again), timers)
    {
      hide Apart, On;
      var e := active[i];
      ghost var rest := active[i + 1..];
      assert e in active[i..] && active[i..] == [e] + rest;
      assert forall x | x in rest :: x in active[i..];
      ApartTimers(timers, e, rest);
      var on := IsOn(e.timer);
      again := on;
      if on && e.timer.repeats {
        PutBack(e.timer, e, rest);
      }
    }

    lemma CurrentHead(es: seq<Entry>, i: nat)
      requires i < |es| && Current(es[i..])
      ensures es[i].timer in all
    {
      assert es[i] == es[i..][0];
    }

    /** The second loop; whoever is on now was on when the first loop read its flag. */
    method PutBackAll(ghost read: seq<bool>) returns (ghost again: seq<bool>)
      requires Apart(timers, active) && Current(timers) && Current(active)
      requires Marked(active, On(), read)
      modifies this`timers, all`on, all`expiration
      ensures Apart(timers, []) && Current(timers)
      ensures |again| == |active| && Adds(old(timers), Again(active, again), timers)
      ensures On() <= old(On())
      ensures Marked(active, On(), again) && Within(again, read)
    {
      again := [];
      assert active[0..] == active && active[..|active|] == active && active[|active|..] == [] && active[..0] == [];
      hide Again, Apart, On, Current, Marked, Within, Adds, Repeated;
      for i := 0 to |active|
        invariant |again| == i
        invariant Apart(timers, active[i..]) && Current(timers) && Current(active[i..])
        invariant Adds(old(timers), Again(active[..i], again), timers)
        invariant On() <= old(On())
        invariant Marked(active[..i], On(), again) && Within(again, read)
      {
        ghost var before, was := On(), timers;
        CurrentHead(active, i);
        var on := Turn(i);
        MarkedMore(active, i, before, again, On(), on);
        WithinMore(active, i, old(On()), again, read, on);
        AgainAdds(old(timers), active, again, i, on, was, timers);
        again := again + [on];
      }
    }

    lemma CurrentAt(e: Entry)
      requires e in timers && Current(timers)
      ensures e.timer in all && e.timer.expiration == e.time
    {
    }

    /** Put the repeating timers back and set the timerfd for the earliest expiration; the clock reads `now`. */
    method ResetTimer(ghost read: seq<bool>, now: int) returns (ghost again: seq<bool>)
      requires Apart(timers, active) && Current(timers) && Current(active)
      requires Marked(active, On(), read)
      modifies this`timers, this`active, this`armed, this`late, all`on, all`expiration
      ensures Ordered(timers) && Distinct(timers) && Current(timers) && active == [] && Armed()
      ensures |again| == |old(active)| && Adds(old(timers), Again(old(active), again), timers)
      ensures On() <= old(On())
      ensures Marked(old(active), On(), again) && Within(again, read)
      ensures timers != [] ==> late == (timers[0].time <= now)
    {
      hide Apart, Ordered, Distinct, Adds, Again, On, Marked, Within, Current;
      again := PutBackAll(read);
      active := [];
      ApartAlone(timers);
      if |timers| != 0 {
        CurrentAt(timers[0]);
        ResetTimerFd(timers[0].timer, now);
      }
    }

    /** One check: the clock reads `now` at the split and `later` when the timerfd is set again. */
    method TriggerTimer(now: int, later: int) returns (ghost read: seq<bool>, ghost again: seq<bool>)
      requires Valid()
      modifies this`timers, this`active, this`armed, this`late, this`tasks, all`on, all`expiration
      ensures Valid()
      ensures |read| == |again| == UpperBound(old(timers), now)
      ensures On() <= old(On())
      ensures Marked(old(timers)[..|read|], On(), again) && Marks(read, old(timers)[..|read|], old(On()))
      ensures Within(again, read)
      ensures tasks == old(tasks) + Pushes(old(timers)[..|read|], read, now)
      ensures Checked(old(timers), |read|, again, timers)
      ensures timers != [] ==> late == (timers[0].time <= later)
      ensures forall t | t in all && t !in old(On()) :: Log(tasks, t) == Log(old(tasks), t)
      ensures forall e | e in old(timers) && e.time <= now && e.timer in On() ::
        && Log(tasks, e.timer) == Log(old(tasks), e.timer) + [e.time]
        && (e.timer.repeats ==> Entry(e.time + e.timer.interval, e.timer) in timers)
      ensures forall e | e in old(timers) && now < e.time :: e in timers
      ensures forall e | e in timers && !(e in old(timers) && now < e.time) ::
        && e.timer.repeats && e.timer in old(On())
        && Entry(e.time - e.timer.interval, e.timer) in old(timers) && e.time - e.timer.interval <= now
    {
      hide Waiting, Faithful, Log, Pushes, Again, Ordered, Distinct, On, Marked, Marks, Within;
      var end := UpperBound(timers, now);
      SplitApart(timers, end);
      CurrentSplit(timers, end);
      hide Current, Apart, Agrees, Adds, Armed;
      active := active + timers[..end];
      timers := timers[end..];
      ghost var es := active;
      assert es == old(timers)[..end];
      read := PushExpired(now);
      again := ResetTimer(read, later);
      CheckKeeps(all, old(timers), old(tasks), now, read, again, timers);
      forall t | t in all && t !in old(On()) ensures Log(tasks, t) == Log(old(tasks), t) {
        CancelledNotPushed(old(timers), old(tasks), now, read, old(On()), t);
      }
      EachEntry(old(timers), old(tasks), now, read, again, timers, old(On()), On());
    }

    /** Cancelling only clears the flag; the entry stays in the set until it expires. An id of zero, or one whose timer
        is gone, is refused. */
    method UnregisterEvent(id: TimerId)
      requires Valid() && (id.timer.Some? ==> id.timer.value in all)
      modifies all`on
      ensures Valid() && On() == old(On()) - if id.id != 0 && id.timer.Some? then {id.timer.value} else {}
    {
      if id.id == 0 {
        return;
      } else if id.timer.None? {
        return;
      }
      id.timer.value.Enable(false);
    }

    /** Any sequence of operations, with other threads cancelling during each check: a timer cancelled before it stays
        cancelled, and nothing more is ever pushed for it. */
    method Run(ops: seq<Op>)
      requires Valid()
      requires forall op | op in ops && op.Cancel? && op.id.timer.Some? :: op.id.timer.value in all
      modifies this, all
      ensures Valid() && old(all) <= all
      ensures forall t | t in old(all) && t !in old(On()) :: t !in On() && Log(tasks, t) == Log(old(tasks), t)
    {
      hide Agrees, Armed, Current, Log;
      for i := 0 to |ops|
        invariant Valid() && old(all) <= all && fresh(all - old(all))
        invariant forall t | t in old(all) && t !in old(On()) :: t !in On() && Log(tasks, t) == Log(old(tasks), t)
      {
        assert ops[i] in ops;
        match ops[i]
        case Register(timestamp, interval, now) => var _ := RegisterTimer(timestamp, interval, now);
        case Check(now, later) => var _, _ := TriggerTimer(now, later);
        case Cancel(id) => UnregisterEvent(id);
      }
    }
  }

  /** A deadline that has passed when it is registered leaves a non-empty set with the timerfd disarmed. */
  method PastDeadlineDisarms(deadline: int, now: int, next: int, interval: int) returns (m: TimerManager)
    requires deadline <= now < next
    ensures m.Valid() && |m.timers| == 2 && m.timers[1].time == next && m.armed == None
  {
    m := new TimerManager();
    var a := m.RegisterTimer(deadline, interval, now);
    assert multiset(m.timers) == multiset{Entry(deadline, a)};
    assert |m.timers| == |multiset(m.timers)| && m.timers[0] in multiset(m.timers);
    var b := m.RegisterTimer(next, interval, now);
    assert |m.timers| == |multiset(m.timers)|;
    assert Entry(next, b) in multiset(m.timers);
  }
}
