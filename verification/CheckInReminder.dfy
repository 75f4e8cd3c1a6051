/** Reminder batches (internal/service/checkin.go:201-414, internal/cache/checkin.go:137-176).

    Instants count from an epoch at midnight UTC.  The task rows are written in one transaction;
    the monthly counters live in Redis and survive its rollback. */
module CheckInReminder {

  const DAY := 86_400_000_000_000
  const MONTHLY_LIMIT := 5

  /** `month` is the month of `at`, as the key of the counter names it. */
  datatype Task = Task(user: nat, at: int, month: int)

  datatype MonthKey = MonthKey(user: nat, month: int)

  datatype State = State(tasks: seq<Task>, counters: map<MonthKey, nat>)

  /** What a batch is run with: its users and the midnight of its date, the clock at its start and the month
      of that, the users the first query returns (active, with check-ins enabled), those whose task
      cannot be built or inserted, and whether the commit succeeds.  The limit check reads the
      clock anew: from turn `rolls` on it may see `laterMonth`. */
  datatype Batch = Batch(users: seq<nat>, date: int, now: int, month: int, valid: set<nat>, broken: set<nat>,
                         commits: bool, rolls: nat, laterMonth: int)

  /** The month the limit check of turn i reads. */
  function CheckedMonth(b: Batch, i: nat): int {
    if i < b.rolls then b.month else b.laterMonth
  }

  /** The month does not turn while the batch runs. */
  predicate SteadyMonth(b: Batch) {
    b.laterMonth == b.month || b.rolls >= |b.users|
  }

  /** A reminder of user u that the day's query finds. */
  predicate IsToday(t: Task, u: nat, date: int) {
    t.user == u && date <= t.at < date + DAY
  }

  predicate HasToday(tasks: seq<Task>, u: nat, date: int) {
    exists i :: 0 <= i < |tasks| && IsToday(tasks[i], u, date)
  }

  function Count(s: State, k: MonthKey): nat {
    if k in s.counters then s.counters[k] else 0
  }

  datatype Turn = Skip | Write | Fail

  /** What the loop body does for one user. */
  ghost function TurnOf(s: State, b: Batch, u: nat, i: nat): Turn {
    if u !in b.valid || HasToday(s.tasks, u, b.date) || Count(s, MonthKey(u, CheckedMonth(b, i))) >= MONTHLY_LIMIT
    then Skip
    else if u in b.broken then Fail
    else Write
  }

  function Written(s: State, b: Batch, u: nat): State {
    var k := MonthKey(u, b.month);
    State(s.tasks + [Task(u, b.now, b.month)], s.counters[k := Count(s, k) + 1])
  }

  /** What the transaction has done after the first n users: the state it sees, the tasks it has
      created, and whether it goes on. */
  datatype Progress = Progress(seen: State, created: nat, alive: bool)

  ghost function After(s: State, b: Batch, n: nat): Progress
    requires n <= |b.users|
  {
    if n == 0 then Progress(s, 0, true)
    else
      var p := After(s, b, n - 1);
      var u := b.users[n - 1];
      if !p.alive then p
      else match TurnOf(p.seen, b, u, n - 1)
        case Skip => p
        case Fail => p.(alive := false)
        case Write => Progress(Written(p.seen, b, u), p.created + 1, true)
  }

  /** The state after the batch and the count it returns. */
  ghost function Processed(s: State, b: Batch): (State, nat) {
    var p := After(s, b, |b.users|);
    if p.alive && b.commits then (p.seen, p.created) else (State(s.tasks, p.seen.counters), 0)
  }

  ghost function Run(s: State, bs: seq<Batch>): State
    decreases |bs|
  {
    if bs == [] then s else Run(Processed(s, bs[0]).0, bs[1..])
  }

  const START := State([], map[])

  // ----- the service -----

  class ReminderService {
    var tasks: seq<Task>
    var counters: map<MonthKey, nat>

    function Tables(): State
      reads this
    {
      State(tasks, counters)
    }

    method FindsToday(u: nat, date: int) returns (found: bool)
      ensures found <==> HasToday(tasks, u, date)
    {
      for i := 0 to |tasks|
        invariant forall j :: 0 <= j < i ==> !IsToday(tasks[j], u, date)
      {
        if IsToday(tasks[i], u, date) {
          return true;
        }
      }
      return false;
    }

    method CheckMonthlyReminderLimit(u: nat, month: int) returns (allowed: bool)
      ensures allowed <==> Count(Tables(), MonthKey(u, month)) < MONTHLY_LIMIT
    {
      var count := if MonthKey(u, month) in counters then counters[MonthKey(u, month)] else 0;
      allowed := count < MONTHLY_LIMIT;
    }

    method IncrementMonthlyReminderCount(u: nat, month: int)
      modifies this`counters
      ensures counters == old(counters)[MonthKey(u, month) := Count(old(Tables()), MonthKey(u, month)) + 1]
    {
      var k := MonthKey(u, month);
      counters := counters[k := (if k in counters then counters[k] else 0) + 1];
    }

    method ProcessReminderBatch(b: Batch) returns (createdCount: nat)
      modifies this
      ensures (Tables(), createdCount) == Processed(old(Tables()), b)
    {
      createdCount := 0;
      var committed := tasks;
      var failed := false;
      for i := 0 to |b.users|
        invariant After(old(Tables()), b, i) == Progress(Tables(), createdCount, !failed)
      {
        var u := b.users[i];
        if failed || u !in b.valid {
          continue;
        }
        var existing := FindsToday(u, b.date);
        if existing {
          continue;
        }
        var allowed := CheckMonthlyReminderLimit(u, CheckedMonth(b, i));
        if !allowed {
          continue;
        }
        if u in b.broken {
          failed := true;
          continue;
        }
        tasks := tasks + [Task(u, b.now, b.month)];
        createdCount := createdCount + 1;
        IncrementMonthlyReminderCount(u, b.month);
      }
      if failed || !b.commits {
        tasks := committed;
        createdCount := 0;
      }
    }
  }

  // ----- the monthly cap -----

  /** Committed reminders of a user in a month. */
  function Sent(tasks: seq<Task>, k: MonthKey): nat {
    if tasks == [] then 0
    else
      var t := tasks[|tasks| - 1];
      Sent(tasks[..|tasks| - 1], k) + (if t.user == k.user && t.month == k.month then 1 else 0)
  }

  lemma SentAppend(tasks: seq<Task>, t: Task, k: MonthKey)
    ensures Sent(tasks + [t], k) == Sent(tasks, k) + (if t.user == k.user && t.month == k.month then 1 else 0)
  {
    assert (tasks + [t])[..|tasks|] == tasks;
  }

  predicate WithinCap(s: State, k: MonthKey) {
    Sent(s.tasks, k) <= Count(s, k) <= MONTHLY_LIMIT
  }

  /** While the transaction runs, the tasks it created are at the end, and their number is the count. */
  lemma {:induction false} Progresses(s: State, b: Batch, n: nat)
    requires n <= |b.users|
    ensures var p := After(s, b, n); s.tasks <= p.seen.tasks && |p.seen.tasks| == |s.tasks| + p.created
  {
    if n > 0 {
      Progresses(s, b, n - 1);
    }
  }

  /** The counters only rise, and stay between the rows and the limit. */
  lemma {:induction false} StaysWithinCap(s: State, b: Batch, n: nat, k: MonthKey)
    requires n <= |b.users| && WithinCap(s, k) && SteadyMonth(b)
    ensures var p := After(s, b, n); WithinCap(p.seen, k) && Count(s, k) <= Count(p.seen, k)
  {
    if n > 0 {
      StaysWithinCap(s, b, n - 1, k);
      SentAppend(After(s, b, n - 1).seen.tasks, Task(b.users[n - 1], b.now, b.month), k);
    }
  }

  /** Main result: the count a batch returns is the number of rows it left behind, none if it failed; and
      rows of a user and month <= counter <= five, even after a rollback. */
  lemma BatchCountsItsRows(s: State, b: Batch, k: MonthKey)
    ensures var (z, count) := Processed(s, b);
            && s.tasks <= z.tasks && |z.tasks| == |s.tasks| + count
            && (!After(s, b, |b.users|).alive || !b.commits ==> z.tasks == s.tasks)
            && (WithinCap(s, k) && SteadyMonth(b) ==> WithinCap(z, k) && Count(s, k) <= Count(z, k))
  {
    Progresses(s, b, |b.users|);
    if WithinCap(s, k) && SteadyMonth(b) {
      StaysWithinCap(s, b, |b.users|, k);
    }
  }

  lemma {:induction false} CapAlways(s: State, bs: seq<Batch>, k: MonthKey)
    requires WithinCap(s, k) && forall i :: 0 <= i < |bs| ==> SteadyMonth(bs[i])
    ensures WithinCap(Run(s, bs), k)
    decreases |bs|
  {
    if bs != [] {
      BatchCountsItsRows(s, bs[0], k);
      CapAlways(Processed(s, bs[0]).0, bs[1..], k);
    }
  }

  /** Main result: no user gets more than five reminders in a month, over any batches that do not run
      across the end of a month. */
  lemma FiveAMonth(bs: seq<Batch>, k: MonthKey)
    requires forall i :: 0 <= i < |bs| ==> SteadyMonth(bs[i])
    ensures Sent(Run(START, bs).tasks, k) <= MONTHLY_LIMIT
  {
    CapAlways(START, bs, k);
  }

  // ----- which batches write a row for a user -----

  /** As far as the tables go, turn i may write; another user's turn does not change that. */
  ghost predicate HasRoom(s: State, b: Batch, i: nat)
    requires i < |b.users|
  {
    var u := b.users[i];
    u in b.valid && !HasToday(s.tasks, u, b.date) && Count(s, MonthKey(u, CheckedMonth(b, i))) < MONTHLY_LIMIT
  }

  /** No turn fails, and the transaction commits. */
  ghost predicate Succeeds(s: State, b: Batch) {
    b.commits && forall i: nat :: i < |b.users| && HasRoom(s, b, i) ==> b.users[i] !in b.broken
  }

  /** One of the first n turns is the user's, finds room and can write. */
  ghost predicate TurnFor(s: State, b: Batch, u: nat, n: nat)
    requires n <= |b.users|
  {
    exists i: nat :: i < n && b.users[i] == u && u !in b.broken && HasRoom(s, b, i)
  }

  /** The user's rows. */
  function RowsOf(tasks: seq<Task>, u: nat): nat {
    if tasks == [] then 0
    else RowsOf(tasks[..|tasks| - 1], u) + (if tasks[|tasks| - 1].user == u then 1 else 0)
  }

  lemma RowsAppend(tasks: seq<Task>, t: Task, u: nat)
    ensures RowsOf(tasks + [t], u) == RowsOf(tasks, u) + (if t.user == u then 1 else 0)
  {
    assert (tasks + [t])[..|tasks|] == tasks;
  }

  lemma HasTodayAppend(tasks: seq<Task>, t: Task, u: nat, date: int)
    ensures HasToday(tasks + [t], u, date) <==> HasToday(tasks, u, date) || IsToday(t, u, date)
  {
    var z := tasks + [t];
    assert z[|tasks|] == t;
    assert forall i :: 0 <= i < |tasks| ==> z[i] == tasks[i];
  }

  /** What the transaction sees of user u. */
  ghost predicate SameFor(s: State, z: State, b: Batch, u: nat) {
    && (HasToday(z.tasks, u, b.date) <==> HasToday(s.tasks, u, b.date))
    && (forall m :: Count(z, MonthKey(u, m)) == Count(s, MonthKey(u, m)))
  }

  lemma WrittenForOther(s: State, b: Batch, v: nat, u: nat)
    requires u != v
    ensures SameFor(s, Written(s, b, v), b, u)
  {
    HasTodayAppend(s.tasks, Task(v, b.now, b.month), u, b.date);
  }

  /** New rows of u since the batch began, in all and in its month. */
  predicate NewRows(s: State, z: State, b: Batch, u: nat, n: nat) {
    && RowsOf(z.tasks, u) == RowsOf(s.tasks, u) + n
    && Sent(z.tasks, MonthKey(u, b.month)) == Sent(s.tasks, MonthKey(u, b.month)) + n
  }

  /** Until a turn writes for u, the transaction sees of u what was there before. */
  lemma {:induction false} UntouchedSoFar(s: State, b: Batch, n: nat, u: nat)
    requires n <= |b.users| && !TurnFor(s, b, u, n)
    ensures SameFor(s, After(s, b, n).seen, b, u) && NewRows(s, After(s, b, n).seen, b, u, 0)
  {
    if n > 0 {
      UntouchedSoFar(s, b, n - 1, u);
      var p := After(s, b, n - 1);
      var v := b.users[n - 1];
      if p.alive && TurnOf(p.seen, b, v, n - 1) == Write {
        assert v == u ==> HasRoom(s, b, n - 1);
        WrittenForOther(p.seen, b, v, u);
        RowsAppend(p.seen.tasks, Task(v, b.now, b.month), u);
        SentAppend(p.seen.tasks, Task(v, b.now, b.month), MonthKey(u, b.month));
      }
    }
  }

  /** A user whose task cannot be written is seen unchanged throughout. */
  lemma {:induction false} AliveIff(s: State, b: Batch, n: nat)
    requires n <= |b.users|
    ensures After(s, b, n).alive <==> forall i: nat :: i < n && HasRoom(s, b, i) ==> b.users[i] !in b.broken
  {
    if n > 0 {
      AliveIff(s, b, n - 1);
      if b.users[n - 1] in b.broken {
        UntouchedSoFar(s, b, n - 1, b.users[n - 1]);
      }
    }
  }

  /** The day's query finds u if it did before, or if a row of this batch is of the day. */
  ghost predicate TodayAfter(s: State, z: State, b: Batch, u: nat, n: nat) {
    HasToday(z.tasks, u, b.date) <==> HasToday(s.tasks, u, b.date) || (n > 0 && b.date <= b.now < b.date + DAY)
  }

  lemma WriteAddsRow(s: State, z: State, b: Batch, v: nat, u: nat, n: nat)
    requires NewRows(s, z, b, u, n)
    ensures NewRows(s, Written(z, b, v), b, u, if v == u then n + 1 else n)
  {
    RowsAppend(z.tasks, Task(v, b.now, b.month), u);
    SentAppend(z.tasks, Task(v, b.now, b.month), MonthKey(u, b.month));
  }

  lemma WriteAddsToday(s: State, z: State, b: Batch, v: nat, u: nat, n: nat)
    requires TodayAfter(s, z, b, u, n)
    ensures TodayAfter(s, Written(z, b, v), b, u, if v == u then n + 1 else n)
  {
    HasTodayAppend(z.tasks, Task(v, b.now, b.month), u, b.date);
  }

  lemma TurnForMore(s: State, b: Batch, u: nat, n: nat)
    requires n < |b.users|
    ensures TurnFor(s, b, u, n + 1)
            <==> TurnFor(s, b, u, n) || (b.users[n] == u && u !in b.broken && HasRoom(s, b, n))
  {
  }

  /** The first turn that finds room writes. */
  lemma FirstTurn(s: State, b: Batch, n: nat, u: nat)
    requires n < |b.users| && b.users[n] == u && !TurnFor(s, b, u, n)
    ensures TurnOf(After(s, b, n).seen, b, u, n) == Write <==> u !in b.broken && HasRoom(s, b, n)
  {
    UntouchedSoFar(s, b, n, u);
  }

  /** While it is alive, the transaction has rows for u exactly if a turn of u found room. */
  lemma {:induction false} RowsSoFarIff(s: State, b: Batch, n: nat, u: nat) returns (added: nat)
    requires n <= |b.users| && After(s, b, n).alive
    ensures NewRows(s, After(s, b, n).seen, b, u, added) && TodayAfter(s, After(s, b, n).seen, b, u, added)
    ensures added > 0 <==> TurnFor(s, b, u, n)
  {
    added := 0;
    if n > 0 {
      added := RowsSoFarIff(s, b, n - 1, u);
      var z := After(s, b, n - 1).seen;
      var v := b.users[n - 1];
      TurnForMore(s, b, u, n - 1);
      if v == u && !TurnFor(s, b, u, n - 1) {
        FirstTurn(s, b, n - 1, u);
      }
      if TurnOf(z, b, v, n - 1) == Write {
        WriteAddsRow(s, z, b, v, u, added);
        WriteAddsToday(s, z, b, v, u, added);
        added := if v == u then added + 1 else added;
      }
    }
  }

  /** Main result: a batch leaves rows for a user exactly if it succeeds and a turn of the user finds room in
      what was there before the batch. */
  lemma WritesIff(s: State, b: Batch, u: nat) returns (added: nat)
    ensures NewRows(s, Processed(s, b).0, b, u, added)
    ensures added > 0 <==> Succeeds(s, b) && TurnFor(s, b, u, |b.users|)
    ensures TodayAfter(s, Processed(s, b).0, b, u, added)
  {
    AliveIff(s, b, |b.users|);
    added := 0;
    if After(s, b, |b.users|).alive && b.commits {
      added := RowsSoFarIff(s, b, |b.users|, u);
    }
  }

  /** A row that the batch may write. */
  predicate RowOf(b: Batch, t: Task) {
    t.at == b.now && t.month == b.month && t.user in b.users && t.user in b.valid && t.user !in b.broken
  }

  lemma {:induction false} RowsSoFar(s: State, b: Batch, n: nat)
    requires n <= |b.users|
    ensures var z := After(s, b, n).seen;
            s.tasks <= z.tasks && forall i :: |s.tasks| <= i < |z.tasks| ==> RowOf(b, z.tasks[i])
  {
    if n > 0 {
      RowsSoFar(s, b, n - 1);
      var p := After(s, b, n - 1);
      var u := b.users[n - 1];
      if p.alive && TurnOf(p.seen, b, u, n - 1) == Write {
        assert After(s, b, n).seen.tasks == p.seen.tasks + [Task(u, b.now, b.month)];
      } else {
        assert After(s, b, n).seen == p.seen;
      }
    }
  }

  /** One counter and its rows, since the batch began. */
  predicate Level(s: State, z: State, b: Batch, k: MonthKey) {
    && Count(z, k) - Count(s, k) == Sent(z.tasks, k) - Sent(s.tasks, k)
    && Count(z, k) >= Count(s, k)
    && (k.month != b.month ==> Count(z, k) == Count(s, k))
  }

  lemma WriteKeepsLevel(s: State, z: State, b: Batch, u: nat, k: MonthKey)
    requires Level(s, z, b, k)
    ensures Level(s, Written(z, b, u), b, k)
  {
    SentAppend(z.tasks, Task(u, b.now, b.month), k);
  }

  /** While the transaction runs, each new row raises its own counter by one, and nothing else does. */
  lemma {:induction false} CountersSoFar(s: State, b: Batch, n: nat, k: MonthKey)
    requires n <= |b.users|
    ensures Level(s, After(s, b, n).seen, b, k)
  {
    if n > 0 {
      CountersSoFar(s, b, n - 1, k);
      WriteKeepsLevel(s, After(s, b, n - 1).seen, b, b.users[n - 1], k);
    }
  }

  /** Main result: a batch that succeeds raises each counter by just the rows it leaves, all of its own instant,
      month and users; one that fails leaves no row and may only raise counters of its month. */
  lemma CountersFollowRows(s: State, b: Batch, k: MonthKey)
    ensures var z := Processed(s, b).0;
            && s.tasks <= z.tasks && (forall i :: |s.tasks| <= i < |z.tasks| ==> RowOf(b, z.tasks[i]))
            && (k.month != b.month ==> Count(z, k) == Count(s, k))
            && (if Succeeds(s, b) then Count(z, k) - Count(s, k) == Sent(z.tasks, k) - Sent(s.tasks, k)
                else z.tasks == s.tasks && Count(z, k) >= Count(s, k))
  {
    AliveIff(s, b, |b.users|);
    RowsSoFar(s, b, |b.users|);
    CountersSoFar(s, b, |b.users|, k);
  }

  /** Main result: a user who has had five reminders in the batch's month is left with more exactly if the
      batch succeeds and a turn of the user whose limit check already reads the next month finds room there. */
  lemma SixthIffMonthTurned(s: State, b: Batch, u: nat)
    requires var k := MonthKey(u, b.month); Sent(s.tasks, k) == Count(s, k) == MONTHLY_LIMIT
    ensures Sent(Processed(s, b).0.tasks, MonthKey(u, b.month)) > MONTHLY_LIMIT
            <==> && Succeeds(s, b)
                 && u in b.valid && u !in b.broken && !HasToday(s.tasks, u, b.date)
                 && (exists i: nat :: b.rolls <= i < |b.users| && b.users[i] == u)
                 && Count(s, MonthKey(u, b.laterMonth)) < MONTHLY_LIMIT
  {
    var added := WritesIff(s, b, u);
    if TurnFor(s, b, u, |b.users|) {
      var i: nat :| i < |b.users| && b.users[i] == u && u !in b.broken && HasRoom(s, b, i);
      assert b.rolls <= i < |b.users|;
    }
    if i: nat :| b.rolls <= i < |b.users| && b.users[i] == u {
      assert CheckedMonth(b, i) == b.laterMonth;
      assert u in b.valid && !HasToday(s.tasks, u, b.date) && Count(s, MonthKey(u, b.laterMonth)) < MONTHLY_LIMIT
             ==> HasRoom(s, b, i);
    }
  }

  // ----- a run that goes over the limit -----

  /** The daily batch for user 1, started at the last instant of `date`. */
  function Daily(date: int, rolls: nat): Batch {
    Batch([1], date, date + DAY - 1, 0, {1}, {}, true, rolls, 1)
  }

  /** No row of the state is of `date` or later, user 1 has n rows this month and none next month. */
  ghost predicate SoFar(s: State, date: int, n: nat) {
    && (forall i :: 0 <= i < |s.tasks| ==> s.tasks[i].at < date)
    && Sent(s.tasks, MonthKey(1, 0)) == n && Count(s, MonthKey(1, 0)) == n && Count(s, MonthKey(1, 1)) == 0
  }

  lemma OneDay(s: State, date: int, n: nat, rolls: nat)
    requires SoFar(s, date, n) && (n < MONTHLY_LIMIT || rolls == 0)
    ensures SoFar(Processed(s, Daily(date, rolls)).0, date + DAY, n + 1)
  {
    var b := Daily(date, rolls);
    assert After(s, b, 0) == Progress(s, 0, true);
    assert TurnOf(s, b, 1, 0) == Write;
    assert After(s, b, 1) == Progress(Written(s, b, 1), 1, true);
    SentAppend(s.tasks, Task(1, date + DAY - 1, 0), MonthKey(1, 0));
  }

  lemma {:induction false} DaysFrom(s: State, date: int, n: nat) returns (bs: seq<Batch>)
    requires SoFar(s, date, n) && n <= MONTHLY_LIMIT && date % DAY == 0
    ensures |bs| == MONTHLY_LIMIT + 1 - n
    ensures forall i :: 0 <= i < |bs| ==> bs[i].users == [1] && bs[i].month == 0 && OnItsDay(bs[i])
    ensures forall i :: 0 <= i < |bs| - 1 ==> SteadyMonth(bs[i])
    ensures Sent(Run(s, bs).tasks, MonthKey(1, 0)) == MONTHLY_LIMIT + 1
    decreases MONTHLY_LIMIT - n
  {
    var rolls := if n < MONTHLY_LIMIT then 1 else 0;
    var b := Daily(date, rolls);
    OneDay(s, date, n, rolls);
    var z := Processed(s, b).0;
    var rest: seq<Batch> := [];
    if n < MONTHLY_LIMIT {
      rest := DaysFrom(z, date + DAY, n + 1);
    }
    bs := [b] + rest;
    assert bs[1..] == rest;
    assert Run(s, bs) == Run(z, rest);
  }

  /** A run from the beginning that leaves six rows of one user in one month: five daily batches, and a sixth
      that starts at the last instant of the month and checks the limit after midnight. */
  lemma SixInAMonth() returns (bs: seq<Batch>)
    ensures |bs| == 6 && forall i :: 0 <= i < 5 ==> SteadyMonth(bs[i])
    ensures forall i :: 0 <= i < 6 ==> bs[i].users == [1] && bs[i].month == 0 && OnItsDay(bs[i])
    ensures Sent(Run(START, bs).tasks, MonthKey(1, 0)) == 6
  {
    bs := DaysFrom(START, 0, 0);
  }

  // ----- one reminder a day -----

  /** The batch runs on the day it is for, counted in UTC. */
  predicate OnItsDay(b: Batch) {
    b.date % DAY == 0 && b.date <= b.now < b.date + DAY
  }

  /** No two reminders of a user on one UTC day. */
  predicate OncePerDay(tasks: seq<Task>) {
    forall i, k :: 0 <= i < k < |tasks| && tasks[i].user == tasks[k].user ==> tasks[i].at / DAY != tasks[k].at / DAY
  }

  lemma AnotherDay(tasks: seq<Task>, b: Batch, u: nat, i: nat)
    requires OnItsDay(b) && !HasToday(tasks, u, b.date) && i < |tasks| && tasks[i].user == u
    ensures tasks[i].at / DAY != b.now / DAY
  {
    assert !IsToday(tasks[i], u, b.date);
  }

  lemma WriteKeepsDays(s: State, b: Batch, u: nat)
    requires OnItsDay(b) && OncePerDay(s.tasks) && !HasToday(s.tasks, u, b.date)
    ensures OncePerDay(Written(s, b, u).tasks)
  {
    var z := Written(s, b, u).tasks;
    forall i, k | 0 <= i < k < |z| && z[i].user == z[k].user
      ensures z[i].at / DAY != z[k].at / DAY
    {
      if k == |s.tasks| {
        AnotherDay(s.tasks, b, u, i);
      }
    }
  }

  lemma {:induction false} BatchKeepsDays(s: State, b: Batch, n: nat)
    requires n <= |b.users| && OnItsDay(b) && OncePerDay(s.tasks)
    ensures OncePerDay(After(s, b, n).seen.tasks)
  {
    if n > 0 {
      BatchKeepsDays(s, b, n - 1);
      var p := After(s, b, n - 1);
      if p.alive && TurnOf(p.seen, b, b.users[n - 1], n - 1) == Write {
        WriteKeepsDays(p.seen, b, b.users[n - 1]);
      }
    }
  }

  /** Main result: over any repeated, overlapping or failing batches that run on their day, a user gets
      at most one reminder a day. */
  lemma {:induction false} OneReminderADay(s: State, bs: seq<Batch>)
    requires OncePerDay(s.tasks) && forall i :: 0 <= i < |bs| ==> OnItsDay(bs[i])
    ensures OncePerDay(Run(s, bs).tasks)
    decreases |bs|
  {
    if bs != [] {
      BatchKeepsDays(s, bs[0], |bs[0].users|);
      OneReminderADay(Processed(s, bs[0]).0, bs[1..]);
    }
  }

  /** Main result: after a batch that reminded a user, another one for the same date writes a second row exactly
      if the first did not run on the day it is for, and the second succeeds with a turn of the user that
      finds room under the limit. */
  lemma RepeatWritesAgainIff(s: State, b: Batch, again: Batch, u: nat)
    requires again.date == b.date && Succeeds(s, b) && TurnFor(s, b, u, |b.users|) && !HasToday(s.tasks, u, b.date)
    ensures var first := Processed(s, b).0;
            RowsOf(Processed(first, again).0.tasks, u) > RowsOf(first.tasks, u)
            <==> && !(b.date <= b.now < b.date + DAY)
                 && Succeeds(first, again) && u in again.valid && u !in again.broken
                 && exists i: nat :: && i < |again.users| && again.users[i] == u
                                     && Count(first, MonthKey(u, CheckedMonth(again, i))) < MONTHLY_LIMIT
  {
    var first := Processed(s, b).0;
    var written := WritesIff(s, b, u);
    var added := WritesIff(first, again, u);
    if TurnFor(first, again, u, |again.users|) {
      var i: nat :| i < |again.users| && again.users[i] == u && u !in again.broken && HasRoom(first, again, i);
    }
    if i: nat :| && i < |again.users| && again.users[i] == u
                 && Count(first, MonthKey(u, CheckedMonth(again, i))) < MONTHLY_LIMIT {
      assert u in again.valid && !HasToday(first.tasks, u, b.date) ==> HasRoom(first, again, i);
    }
  }
}
