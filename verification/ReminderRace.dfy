/** ProcessReminderBatch looks for the day's reminder and inserts one in the same transaction
    (internal/service/checkin.go:247-391), but transactions of several processors do not see each other's
    rows before they commit.  Here the work and the commit of n processors are separate steps;
    the counters in Redis are shared at once. */
module ReminderRace {
  import opened CheckInReminder

  /** A processor has no transaction open, or has rows to commit. */
  datatype Slot = Idle | Open(rows: seq<Task>)

  datatype Race = Race(base: State, slots: seq<Slot>)

  datatype Move = Works(p: nat, b: Batch) | Ends(p: nat, commits: bool)

  /** Batches run on the day they are for. */
  predicate Enabled(s: Race, m: Move) {
    match m
    case Works(p, b) => p < |s.slots| && s.slots[p].Idle? && OnItsDay(b)
    case Ends(p, _) => p < |s.slots| && s.slots[p].Open?
  }

  /** The rows a batch wants to commit: none if a turn failed. */
  ghost function Wanted(s: State, b: Batch): seq<Task> {
    var p := After(s, b, |b.users|);
    Progresses(s, b, |b.users|);
    if p.alive then p.seen.tasks[|s.tasks|..] else []
  }

  ghost function Apply(s: Race, m: Move): Race
    requires Enabled(s, m)
  {
    match m
    case Works(p, b) =>
      Race(State(s.base.tasks, After(s.base, b, |b.users|).seen.counters), s.slots[p := Open(Wanted(s.base, b))])
    case Ends(p, commits) =>
      Race(if commits then s.base.(tasks := s.base.tasks + s.slots[p].rows) else s.base, s.slots[p := Idle])
  }

  ghost predicate Possible(s: Race, ms: seq<Move>)
    decreases |ms|
  {
    ms == [] || (Enabled(s, ms[0]) && Possible(Apply(s, ms[0]), ms[1..]))
  }

  ghost function Outcome(s: Race, ms: seq<Move>): Race
    requires Possible(s, ms)
    decreases |ms|
  {
    if ms == [] then s else Outcome(Apply(s, ms[0]), ms[1..])
  }

  /** With nothing in between, work and end are the batch. */
  lemma AloneIsBatch(s: Race, p: nat, b: Batch)
    requires Enabled(s, Works(p, b))
    ensures Apply(Apply(s, Works(p, b)), Ends(p, b.commits)).base == Processed(s.base, b).0
  {
    Progresses(s.base, b, |b.users|);
    var q := After(s.base, b, |b.users|);
    assert s.base.tasks + q.seen.tasks[|s.base.tasks|..] == q.seen.tasks;
    assert s.base.tasks + [] == s.base.tasks;
  }

  // ----- rows of one user and day -----

  predicate IsOf(t: Task, u: nat, day: int) {
    t.user == u && t.at / DAY == day
  }

  function OnDay(tasks: seq<Task>, u: nat, day: int): nat {
    if tasks == [] then 0
    else OnDay(tasks[..|tasks| - 1], u, day) + (if IsOf(tasks[|tasks| - 1], u, day) then 1 else 0)
  }

  lemma {:induction false} OnDayConcat(tasks: seq<Task>, more: seq<Task>, u: nat, day: int)
    ensures OnDay(tasks + more, u, day) == OnDay(tasks, u, day) + OnDay(more, u, day)
  {
    if more == [] {
      assert tasks + more == tasks;
    } else {
      var k := |more| - 1;
      OnDayConcat(tasks, more[..k], u, day);
      assert (tasks + more)[..|tasks| + k] == tasks + more[..k];
    }
  }

  lemma {:induction false} SomeOnDay(tasks: seq<Task>, u: nat, day: int) returns (i: nat)
    requires OnDay(tasks, u, day) > 0
    ensures i < |tasks| && IsOf(tasks[i], u, day)
  {
    var k := |tasks| - 1;
    if IsOf(tasks[k], u, day) {
      i := k;
    } else {
      i := SomeOnDay(tasks[..k], u, day);
    }
  }

  lemma {:induction false} NoneOnDay(tasks: seq<Task>, u: nat, day: int)
    requires forall i :: 0 <= i < |tasks| ==> !IsOf(tasks[i], u, day)
    ensures OnDay(tasks, u, day) == 0
  {
    if tasks != [] {
      NoneOnDay(tasks[..|tasks| - 1], u, day);
    }
  }

  /** On its day, a batch's query finds the user's reminder exactly if there is one of that day. */
  lemma TodayIsOnDay(tasks: seq<Task>, b: Batch, u: nat)
    requires OnItsDay(b)
    ensures HasToday(tasks, u, b.date) <==> OnDay(tasks, u, b.now / DAY) > 0
  {
    if OnDay(tasks, u, b.now / DAY) > 0 {
      var i := SomeOnDay(tasks, u, b.now / DAY);
      assert IsToday(tasks[i], u, b.date);
    } else if HasToday(tasks, u, b.date) {
      var i :| 0 <= i < |tasks| && IsToday(tasks[i], u, b.date);
      OnDayAt(tasks, i, u, b.now / DAY);
    }
  }

  lemma {:induction false} OnDayAt(tasks: seq<Task>, i: int, u: nat, day: int)
    requires 0 <= i < |tasks| && IsOf(tasks[i], u, day)
    ensures OnDay(tasks, u, day) > 0
  {
    var k := |tasks| - 1;
    if i < k {
      OnDayAt(tasks[..k], i, u, day);
    }
  }

  /** A batch adds at most one row of a user and day to what it sees, and none if there is one. */
  lemma {:induction false} WorkAddsOne(s: State, b: Batch, n: nat, u: nat, day: int)
    requires n <= |b.users| && OnItsDay(b)
    ensures var z := After(s, b, n).seen.tasks;
            && OnDay(s.tasks, u, day) <= OnDay(z, u, day) <= OnDay(s.tasks, u, day) + 1
            && (OnDay(s.tasks, u, day) > 0 ==> OnDay(z, u, day) == OnDay(s.tasks, u, day))
  {
    if n > 0 {
      WorkAddsOne(s, b, n - 1, u, day);
      var p := After(s, b, n - 1);
      var v := b.users[n - 1];
      if p.alive && TurnOf(p.seen, b, v, n - 1) == Write {
        TodayIsOnDay(p.seen.tasks, b, v);
        var t := Task(v, b.now, b.month);
        assert (p.seen.tasks + [t])[..|p.seen.tasks|] == p.seen.tasks;
      }
    }
  }

  lemma WantedRows(s: State, b: Batch, u: nat, day: int)
    requires OnItsDay(b)
    ensures OnDay(Wanted(s, b), u, day) <= 1 && (OnDay(s.tasks, u, day) > 0 ==> OnDay(Wanted(s, b), u, day) == 0)
  {
    var p := After(s, b, |b.users|);
    Progresses(s, b, |b.users|);
    WorkAddsOne(s, b, |b.users|, u, day);
    OnDayConcat(s.tasks, p.seen.tasks[|s.tasks|..], u, day);
    assert s.tasks + p.seen.tasks[|s.tasks|..] == p.seen.tasks;
  }

  // ----- at most n -----

  function RowsIn(x: Slot, u: nat, day: int): nat {
    if x.Open? then OnDay(x.rows, u, day) else 0
  }

  function Waiting(slots: seq<Slot>, u: nat, day: int): nat {
    if slots == [] then 0 else RowsIn(slots[0], u, day) + Waiting(slots[1..], u, day)
  }

  predicate OneEach(slots: seq<Slot>, u: nat, day: int) {
    forall p :: 0 <= p < |slots| ==> RowsIn(slots[p], u, day) <= 1
  }

  lemma {:induction false} WaitingUpdate(slots: seq<Slot>, p: nat, x: Slot, u: nat, day: int)
    requires p < |slots|
    ensures Waiting(slots[p := x], u, day) == Waiting(slots, u, day) - RowsIn(slots[p], u, day) + RowsIn(x, u, day)
  {
    if p > 0 {
      assert slots[p := x][1..] == slots[1..][p - 1 := x];
      WaitingUpdate(slots[1..], p - 1, x, u, day);
    } else {
      assert slots[p := x][1..] == slots[1..];
    }
  }

  lemma {:induction false} WaitingAtMostAll(slots: seq<Slot>, u: nat, day: int)
    requires OneEach(slots, u, day)
    ensures Waiting(slots, u, day) <= |slots|
  {
    if slots != [] {
      assert forall p :: 0 <= p < |slots| - 1 ==> slots[1..][p] == slots[p + 1];
      WaitingAtMostAll(slots[1..], u, day);
    }
  }

  ghost predicate Bounded(s: Race, u: nat, day: int) {
    OnDay(s.base.tasks, u, day) + Waiting(s.slots, u, day) <= |s.slots| && OneEach(s.slots, u, day)
  }

  lemma WorkKeepsBound(s: Race, p: nat, b: Batch, u: nat, day: int)
    requires Enabled(s, Works(p, b)) && Bounded(s, u, day)
    ensures Bounded(Apply(s, Works(p, b)), u, day)
  {
    var x := Open(Wanted(s.base, b));
    WantedRows(s.base, b, u, day);
    WaitingUpdate(s.slots, p, x, u, day);
    WaitingAtMostAll(s.slots[p := x], u, day);
  }

  lemma EndKeepsBound(s: Race, p: nat, commits: bool, u: nat, day: int)
    requires Enabled(s, Ends(p, commits)) && Bounded(s, u, day)
    ensures Bounded(Apply(s, Ends(p, commits)), u, day)
  {
    OnDayConcat(s.base.tasks, s.slots[p].rows, u, day);
    WaitingUpdate(s.slots, p, Idle, u, day);
  }

  lemma {:induction false} StaysBounded(s: Race, ms: seq<Move>, u: nat, day: int)
    requires Possible(s, ms) && Bounded(s, u, day)
    ensures Bounded(Outcome(s, ms), u, day) && |Outcome(s, ms).slots| == |s.slots|
    decreases |ms|
  {
    if ms != [] {
      match ms[0] {
        case Works(p, b) => WorkKeepsBound(s, p, b, u, day);
        case Ends(p, commits) => EndKeepsBound(s, p, commits, u, day);
      }
      StaysBounded(Apply(s, ms[0]), ms[1..], u, day);
    }
  }

  /** Processors at rest, on tables with at most one reminder of the user and day. */
  predicate Resting(s: Race, u: nat, day: int) {
    OnDay(s.base.tasks, u, day) <= 1 && |s.slots| > 0 && forall p :: 0 <= p < |s.slots| ==> s.slots[p].Idle?
  }

  lemma {:induction false} NobodyWaits(slots: seq<Slot>, u: nat, day: int)
    requires forall p :: 0 <= p < |slots| ==> slots[p].Idle?
    ensures Waiting(slots, u, day) == 0
  {
    if slots != [] {
      NobodyWaits(slots[1..], u, day);
    }
  }

  /** Main result: with n processors at work at once, a user gets at most n reminders a day. */
  lemma RemindersAtMostProcessors(s: Race, ms: seq<Move>, u: nat, day: int)
    requires Resting(s, u, day) && Possible(s, ms)
    ensures OnDay(Outcome(s, ms).base.tasks, u, day) <= |s.slots|
  {
    NobodyWaits(s.slots, u, day);
    StaysBounded(s, ms, u, day);
  }

  // ----- once, if and only if there is one processor -----

  ghost predicate AlwaysOnce(s: Race, u: nat, day: int) {
    forall ms :: Possible(s, ms) ==> OnDay(Outcome(s, ms).base.tasks, u, day) <= 1
  }

  lemma MoveFirst(s: Race, m: Move, z: Race, rest: seq<Move>)
    requires Enabled(s, m) && z == Apply(s, m) && Possible(z, rest)
    ensures Possible(s, [m] + rest) && Outcome(s, [m] + rest) == Outcome(z, rest)
  {
    assert ([m] + rest)[1..] == rest;
  }

  /** A batch for one user who has no reminder and room for two. */
  ghost predicate Remindable(s: State, b: Batch, u: nat) {
    && b.users == [u] && OnItsDay(b) && SteadyMonth(b) && u in b.valid && u !in b.broken
    && !HasToday(s.tasks, u, b.date) && Count(s, MonthKey(u, b.month)) + 1 < MONTHLY_LIMIT
  }

  lemma OneRow(s: State, b: Batch, u: nat)
    requires b.users == [u] && SteadyMonth(b) && u in b.valid && u !in b.broken
    requires !HasToday(s.tasks, u, b.date) && Count(s, MonthKey(u, b.month)) < MONTHLY_LIMIT
    ensures Wanted(s, b) == [Task(u, b.now, b.month)]
    ensures After(s, b, 1).seen == CheckInReminder.Written(s, b, u)
  {
    assert After(s, b, 0) == Progress(s, 0, true);
    assert After(s, b, 1) == Progress(CheckInReminder.Written(s, b, u), 1, true);
  }

  /** Two processors look before either commits. */
  lemma TwoRemind(s: Race, b: Batch, u: nat) returns (ms: seq<Move>)
    requires Resting(s, u, b.now / DAY) && |s.slots| >= 2 && Remindable(s.base, b, u)
    ensures Possible(s, ms) && OnDay(Outcome(s, ms).base.tasks, u, b.now / DAY) >= 2
  {
    var day := b.now / DAY;
    var row := [Task(u, b.now, b.month)];
    var m1, m2, m3, m4 := Works(0, b), Works(1, b), Ends(0, true), Ends(1, true);
    OneRow(s.base, b, u);
    var s1 := Apply(s, m1);
    OneRow(s1.base, b, u);
    var s2 := Apply(s1, m2);
    assert s2.slots[0] == Open(row) && s2.slots[1] == Open(row) && s2.base.tasks == s.base.tasks;
    var s3 := Apply(s2, m3);
    var s4 := Apply(s3, m4);
    OnDayConcat(s.base.tasks, row, u, day);
    OnDayConcat(s.base.tasks + row, row, u, day);
    assert row[..0] == [] && OnDay(row, u, day) == 1;
    assert Possible(s4, []) && Outcome(s4, []) == s4;
    MoveFirst(s3, m4, s4, []);
    MoveFirst(s2, m3, s3, [m4] + []);
    MoveFirst(s1, m2, s2, [m3] + ([m4] + []));
    MoveFirst(s, m1, s1, [m2] + ([m3] + ([m4] + [])));
    ms := [m1] + ([m2] + ([m3] + ([m4] + [])));
  }

  /** Main result: a user who can be reminded gets at most one reminder a day in every run exactly if there is
      one processor. */
  lemma OnceIffOneProcessor(s: Race, b: Batch, u: nat)
    requires Resting(s, u, b.now / DAY) && Remindable(s.base, b, u)
    ensures AlwaysOnce(s, u, b.now / DAY) <==> |s.slots| == 1
  {
    if |s.slots| == 1 {
      forall ms: seq<Move> | Possible(s, ms)
        ensures OnDay(Outcome(s, ms).base.tasks, u, b.now / DAY) <= 1
      {
        RemindersAtMostProcessors(s, ms, u, b.now / DAY);
      }
    } else {
      var ms := TwoRemind(s, b, u);
    }
  }
}
