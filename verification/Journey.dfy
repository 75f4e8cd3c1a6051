/** Journeys: the service calls on them, the two periodic scans and the two message handlers
    (internal/service/journey.go, internal/schedule/journey_scheduler.go,
    internal/queue/consumer.go:439-724).

    Instants and delays are nanoseconds.  A journey's id is its index in `rows`, a message's id
    its index in `sent`.  Every call is one step and reads the clock once.  Class
    `JourneyService` updates the tables step by step; the functions before it say what each
    call amounts to. */
module Journey {
  import opened Wrappers
  import opened ContactBook

  const SECOND := 1_000_000_000
  const MINUTE := 60 * SECOND
  const DAY := 24 * 60 * MINUTE

  /** From the expected return to the alert. */
  const GRACE := 10 * MINUTE
  const MIN_LEAD := 10 * MINUTE
  const WINDOW := 10 * MINUTE
  const UNIT_PRICE := 5

  datatype Status = Ongoing | Ended | TimedOut | Cancelled
  datatype Alert = Pending | Triggered | Failed

  datatype Row = Row(
    user: nat,
    expected: int,
    status: Status,
    alert: Alert,
    attempts: nat,
    triggeredAt: Option<int>,
    reminderAt: Option<int>,
    deleted: bool)

  /** A row of notification_tasks: one contact's alert, or the reminder to the traveller. */
  datatype Task = ContactAlert(journey: nat, contact: Contact, at: int) | SelfReminder(journey: nat, at: int)

  datatype Kind = Reminder | Timeout

  /** `due` is the instant the delay of a published message ends. */
  datatype Message = Message(kind: Kind, journey: nat, user: nat, due: int)

  /** A user's setting and contacts, and the available cents of the wallet (zero if there is none). */
  datatype Owner = Owner(autoNotify: bool, contacts: seq<Contact>, balance: int)

  /** The tables, the messages ever published, the message ids marked as handled, and the
      instants until which the two "scheduled" marks of a journey live. */
  datatype State = State(
    rows: seq<Row>,
    tasks: seq<Task>,
    sent: seq<Message>,
    handled: set<nat>,
    timeoutMarks: map<nat, int>,
    reminderMarks: map<nat, int>,
    owners: map<nat, Owner>)

  /** What a message handler returns: nil, the skip error for a marked message, or an error to retry. */
  datatype HandlerReply = Handled | Duplicate | Retry

  datatype Reply =
    | Fine
    | UserNotFound
    | JourneyNotFound
    | InvalidReturnTime
    | ReturnTimeTooClose
    | NotModifiable
    | AlreadyEnded

  // ----- shared pieces -----

  /** int(delay.Seconds()) seconds, for a delay that is not negative. */
  function WholeSeconds(delay: int): int {
    delay / SECOND * SECOND
  }

  /** GetByPublicIDAndJourneyID finds the journey.  Its raw SQL does not look at deleted_at. */
  predicate Mine(s: State, u: nat, j: nat) {
    j < |s.rows| && s.rows[j].user == u && u in s.owners
  }

  /** A row update by id: gorm leaves rows with a deleted_at alone. */
  function Write(s: State, j: nat, r: Row): State
    requires j < |s.rows|
  {
    if s.rows[j].deleted then s else s.(rows := s.rows[j := r])
  }

  /** The timeout message that a create or a reschedule leads to, and that the handler publishes. */
  function Announced(s: State, j: nat, now: int, publishes: bool): State
    requires j < |s.rows| && s.rows[j].user in s.owners
  {
    var r := s.rows[j];
    var delay := r.expected + GRACE - now;
    if publishes && s.owners[r.user].autoNotify && 0 < delay <= DAY
    then s.(sent := s.sent + [Message(Timeout, j, r.user, now + WholeSeconds(delay))])
    else s
  }

  // ----- the API calls -----

  function Fresh(u: nat, expected: int): Row {
    Row(u, expected, Ongoing, Pending, 0, None, None, false)
  }

  function Created(s: State, now: int, u: nat, expected: int, publishes: bool): (State, Reply) {
    if u !in s.owners then (s, UserNotFound)
    else if expected < now then (s, InvalidReturnTime)
    else if expected - now < MIN_LEAD then (s, ReturnTimeTooClose)
    else (Announced(s.(rows := s.rows + [Fresh(u, expected)]), |s.rows|, now, publishes), Fine)
  }

  /** `expected` is absent when only the title or the note changes. */
  function Rescheduled(s: State, now: int, u: nat, j: nat, expected: Option<int>, publishes: bool): (State, Reply) {
    if !Mine(s, u, j) then (s, JourneyNotFound)
    else if s.rows[j].status == Ended || s.rows[j].status == TimedOut then (s, NotModifiable)
    else if expected.Some? && expected.value - now < MIN_LEAD then (s, ReturnTimeTooClose)
    else if expected.None? then (s, Fine)
    else (Announced(Write(s, j, s.rows[j].(expected := expected.value)), j, now, publishes), Fine)
  }

  function Completed(s: State, u: nat, j: nat): (State, Reply) {
    if !Mine(s, u, j) then (s, JourneyNotFound)
    else if s.rows[j].status == Ended then (s, AlreadyEnded)
    else (Write(s, j, s.rows[j].(status := Ended)), Fine)
  }

  function CancelledBy(s: State, u: nat, j: nat): (State, Reply) {
    if !Mine(s, u, j) then (s, JourneyNotFound)
    else (Write(s, j, s.rows[j].(status := Cancelled, deleted := true)), Fine)
  }

  // ----- the processors -----

  function Reminded(s: State, now: int, j: nat): State
    requires j < |s.rows| && s.rows[j].user in s.owners
  {
    var r := s.rows[j];
    if r.status != Ongoing || r.reminderAt.Some? || s.owners[r.user].balance < UNIT_PRICE then s
    else Write(s.(tasks := s.tasks + [SelfReminder(j, now)]), j, r.(reminderAt := Some(now)))
  }

  function Alerts(j: nat, contacts: seq<Contact>, now: int): seq<Task> {
    seq(|contacts|, i requires 0 <= i < |contacts| => ContactAlert(j, contacts[i], now))
  }

  /** The write of ProcessTimeout, which does not look at the row again; `owner` is what it has read. */
  function TimedOutAs(s: State, now: int, j: nat, owner: Owner): State
    requires j < |s.rows|
  {
    var row := s.rows[j];
    if owner.balance < UNIT_PRICE * |owner.contacts|
    then Write(s, j, row.(status := TimedOut, alert := Failed, triggeredAt := Some(now)))
    else Write(s.(tasks := s.tasks + Alerts(j, NotifyList(owner.contacts), now)), j,
               row.(status := TimedOut, alert := Triggered, triggeredAt := Some(now), attempts := row.attempts + 1))
  }

  predicate IsDue(r: Row, now: int) {
    r.status == Ongoing && r.expected + GRACE <= now
  }

  function AfterTimeout(s: State, now: int, j: nat): State
    requires j < |s.rows| && s.rows[j].user in s.owners
  {
    if IsDue(s.rows[j], now) then TimedOutAs(s, now, j, s.owners[s.rows[j].user]) else s
  }

  /** One delivery of message n.  A journey that is not found is skipped, and that counts as handled. */
  function Delivered(s: State, now: int, n: nat): State
    requires n < |s.sent|
  {
    var m := s.sent[n];
    if n in s.handled then s
    else
      var z := if !Mine(s, m.user, m.journey) then s
               else if m.kind == Reminder then Reminded(s, now, m.journey)
               else AfterTimeout(s, now, m.journey);
      z.(handled := s.handled + {n})
  }

  // ----- the scans -----

  /** The journeys whose messages the broker refuses during a scan. */
  datatype Refusals = Refusals(reminders: set<nat>, timeouts: set<nat>)

  predicate IsMarked(marks: map<nat, int>, j: nat, now: int) {
    j in marks && now < marks[j]
  }

  /** What the query of CheckJourneyTimeouts selects. */
  predicate Approaching(r: Row, now: int) {
    r.status == Ongoing && !r.deleted && now <= r.expected <= now + WINDOW
  }

  /** What the query of CheckOverdueJourneys selects. */
  predicate Overdue(r: Row, now: int) {
    r.status == Ongoing && !r.deleted && r.expected < now - GRACE
  }

  function ReminderPosted(s: State, now: int, j: nat, refused: bool): State
    requires j < |s.rows|
  {
    var r := s.rows[j];
    if r.reminderAt.Some? || IsMarked(s.reminderMarks, j, now) || refused then s
    else s.(sent := s.sent + [Message(Reminder, j, r.user, now + WholeSeconds(r.expected - now))],
            reminderMarks := s.reminderMarks[j := now + DAY])
  }

  function TimeoutPosted(s: State, now: int, j: nat, refused: bool): State
    requires j < |s.rows|
  {
    var r := s.rows[j];
    if IsMarked(s.timeoutMarks, j, now) || refused then s
    else s.(sent := s.sent + [Message(Timeout, j, r.user, now + WholeSeconds(r.expected + GRACE - now))],
            timeoutMarks := s.timeoutMarks[j := now + DAY])
  }

  /** What one window scan does for journey j. */
  function Approached(s: State, now: int, no: Refusals, j: nat): State
    requires j < |s.rows|
  {
    if Approaching(s.rows[j], now) && s.rows[j].user in s.owners
    then TimeoutPosted(ReminderPosted(s, now, j, j in no.reminders), now, j, j in no.timeouts)
    else s
  }

  /** Journeys 0..n-1 of one window scan; nothing depends on the order. */
  function WindowScanned(s: State, now: int, no: Refusals, n: nat): (z: State)
    requires n <= |s.rows|
    ensures z.rows == s.rows && z.owners == s.owners
  {
    if n == 0 then s else Approached(WindowScanned(s, now, no, n - 1), now, no, n - 1)
  }

  function OverdueScanned(s: State, now: int, no: Refusals, n: nat): (z: State)
    requires n <= |s.rows|
    ensures z.rows == s.rows && z.owners == s.owners
  {
    if n == 0 then s
    else
      var z := OverdueScanned(s, now, no, n - 1);
      var j := n - 1;
      if Overdue(z.rows[j], now) && z.rows[j].user in z.owners && j !in no.timeouts
      then z.(sent := z.sent + [Message(Timeout, j, z.rows[j].user, now)])
      else z
  }

  // ----- runs -----

  datatype Act =
    | Create(user: nat, expected: int, publishes: bool)
    | Reschedule(user: nat, journey: nat, when: Option<int>, publishes: bool)
    | Complete(user: nat, journey: nat)
    | Cancel(user: nat, journey: nat)
    | ScanWindow(no: Refusals)
    | ScanOverdue(no: Refusals)
    | Deliver(n: nat)                    // a first or a repeated delivery
    | Forget(n: nat)                     // the mark of a handled message expires
    | ChangeOwner(user: nat, owner: Owner)  // registration, settings, contacts, payments

  datatype Event = Event(at: int, act: Act)

  /** A message is delivered after it was published and not before its delay is over. */
  predicate CanHappen(s: State, e: Event) {
    e.act.Deliver? ==> e.act.n < |s.sent| && s.sent[e.act.n].due <= e.at
  }

  function Step(s: State, e: Event): State
    requires CanHappen(s, e)
  {
    match e.act
    case Create(u, expected, publishes) => Created(s, e.at, u, expected, publishes).0
    case Reschedule(u, j, when, publishes) => Rescheduled(s, e.at, u, j, when, publishes).0
    case Complete(u, j) => Completed(s, u, j).0
    case Cancel(u, j) => CancelledBy(s, u, j).0
    case ScanWindow(no) => WindowScanned(s, e.at, no, |s.rows|)
    case ScanOverdue(no) => OverdueScanned(s, e.at, no, |s.rows|)
    case Deliver(n) => Delivered(s, e.at, n)
    case Forget(n) => s.(handled := s.handled - {n})
    case ChangeOwner(u, owner) => s.(owners := s.owners[u := owner])
  }

  /** The clock, at `now` before the first event, never goes back. */
  ghost predicate Valid(s: State, now: int, es: seq<Event>)
    decreases |es|
  {
    es == [] || (now <= es[0].at && CanHappen(s, es[0]) && Valid(Step(s, es[0]), es[0].at, es[1..]))
  }

  ghost function Run(s: State, now: int, es: seq<Event>): State
    requires Valid(s, now, es)
    decreases |es|
  {
    if es == [] then s else Run(Step(s, es[0]), es[0].at, es[1..])
  }

  const START := State([], [], [], {}, map[], map[], map[])

  // ----- the service -----

  class JourneyService {
    var rows: seq<Row>
    var tasks: seq<Task>
    var sent: seq<Message>
    var handled: set<nat>
    var timeoutMarks: map<nat, int>
    var reminderMarks: map<nat, int>
    var owners: map<nat, Owner>

    function Tables(): State
      reads this
    {
      State(rows, tasks, sent, handled, timeoutMarks, reminderMarks, owners)
    }

    method UpdateRow(j: nat, r: Row)
      requires j < |rows|
      modifies this`rows
      ensures Tables() == Write(old(Tables()), j, r)
    {
      if !rows[j].deleted {
        rows := rows[j := r];
      }
    }

    /** PublishJourneyTimeout and PublishJourneyReminder; `accepts` is the broker's answer. */
    method Publish(kind: Kind, j: nat, user: nat, now: int, delaySeconds: int, accepts: bool) returns (published: bool)
      modifies this`sent
      ensures published <==> accepts && delaySeconds * SECOND <= DAY
      ensures sent == if published then old(sent) + [Message(kind, j, user, now + delaySeconds * SECOND)] else old(sent)
    {
      if delaySeconds * SECOND > DAY {
        return false;
      }
      if accepts {
        sent := sent + [Message(kind, j, user, now + delaySeconds * SECOND)];
      }
      return accepts;
    }

    /** The end of CreateJourney and UpdateJourney, and of the HTTP handlers that call them. */
    method Announce(j: nat, now: int, publishes: bool)
      requires j < |rows| && rows[j].user in owners
      modifies this`sent
      ensures Tables() == Announced(old(Tables()), j, now, publishes)
    {
      var r := rows[j];
      if owners[r.user].autoNotify {
        var delayTime := r.expected + GRACE;
        if delayTime > now {
          var delay := delayTime - now;
          if delay <= DAY {
            var published := Publish(Timeout, j, r.user, now, delay / SECOND, publishes);
          }
        }
      }
    }

    method CreateJourney(now: int, u: nat, expected: int, publishes: bool) returns (reply: Reply)
      modifies this
      ensures (Tables(), reply) == Created(old(Tables()), now, u, expected, publishes)
    {
      if u !in owners {
        return UserNotFound;
      }
      if expected < now {
        return InvalidReturnTime;
      }
      if expected - now < MIN_LEAD {
        return ReturnTimeTooClose;
      }
      rows := rows + [Row(u, expected, Ongoing, Pending, 0, None, None, false)];
      Announce(|rows| - 1, now, publishes);
      return Fine;
    }

    method UpdateJourney(now: int, u: nat, j: nat, expected: Option<int>, publishes: bool) returns (reply: Reply)
      modifies this
      ensures (Tables(), reply) == Rescheduled(old(Tables()), now, u, j, expected, publishes)
    {
      if !Mine(Tables(), u, j) {
        return JourneyNotFound;
      }
      if rows[j].status == Ended || rows[j].status == TimedOut {
        return NotModifiable;
      }
      if expected.Some? && expected.value - now < MIN_LEAD {
        return ReturnTimeTooClose;
      }
      if expected.Some? {
        UpdateRow(j, rows[j].(expected := expected.value));
        Announce(j, now, publishes);
      }
      return Fine;
    }

    method CompleteJourney(u: nat, j: nat) returns (reply: Reply)
      modifies this
      ensures (Tables(), reply) == Completed(old(Tables()), u, j)
    {
      if !Mine(Tables(), u, j) {
        return JourneyNotFound;
      }
      if rows[j].status == Ended {
        return AlreadyEnded;
      }
      UpdateRow(j, rows[j].(status := Ended));
      return Fine;
    }

    method DeleteJourney(u: nat, j: nat) returns (reply: Reply)
      modifies this
      ensures (Tables(), reply) == CancelledBy(old(Tables()), u, j)
    {
      if !Mine(Tables(), u, j) {
        return JourneyNotFound;
      }
      UpdateRow(j, rows[j].(status := Cancelled, deleted := true));
      return Fine;
    }

    method ProcessReminder(now: int, j: nat)
      requires j < |rows| && rows[j].user in owners
      modifies this
      ensures Tables() == Reminded(old(Tables()), now, j)
    {
      if rows[j].status != Ongoing {
        return;
      }
      if rows[j].reminderAt.Some? {
        return;
      }
      if owners[rows[j].user].balance < UNIT_PRICE {
        return;
      }
      tasks := tasks + [SelfReminder(j, now)];
      UpdateRow(j, rows[j].(reminderAt := Some(now)));
    }

    method ProcessTimeout(now: int, j: nat)
      requires j < |rows| && rows[j].user in owners
      modifies this
      ensures Tables() == AfterTimeout(old(Tables()), now, j)
    {
      var row := rows[j];
      if row.status != Ongoing {
        return;
      }
      if now < row.expected + GRACE {
        return;
      }
      var owner := owners[row.user];
      var totalCost := UNIT_PRICE * |owner.contacts|;
      if owner.balance < totalCost {
        UpdateRow(j, row.(status := TimedOut, alert := Failed, triggeredAt := Some(now)));
        return;
      }
      UpdateRow(j, row.(status := TimedOut, alert := Triggered, triggeredAt := Some(now),
                        attempts := row.attempts + 1));
      var contacts := ByPriority(owner.contacts);
      if |contacts| > MAX_CONTACTS {
        contacts := contacts[..MAX_CONTACTS];
      }
      ghost var before := Tables();
      for i := 0 to |contacts|
        invariant tasks == before.tasks + Alerts(j, contacts[..i], now)
        invariant Tables() == before.(tasks := tasks)
      {
        assert contacts[..i + 1] == contacts[..i] + [contacts[i]];
        assert Alerts(j, contacts[..i + 1], now) == Alerts(j, contacts[..i], now) + [ContactAlert(j, contacts[i], now)];
        tasks := tasks + [ContactAlert(j, contacts[i], now)];
      }
      assert contacts[..|contacts|] == contacts;
    }

    /** The two message handlers: mark, process, keep the mark.  With `fails` the database refuses the
        processor, whose transaction is rolled back: the deferred clean-up removes the mark. */
    method HandleMessage(now: int, n: nat, fails: bool) returns (reply: HandlerReply)
      requires n < |sent|
      modifies this
      ensures Tables() == if fails then old(Tables()) else Delivered(old(Tables()), now, n)
      ensures reply == if n in old(handled) then Duplicate else if fails then Retry else Handled
    {
      if n in handled {
        return Duplicate;
      }
      var shouldCleanup := true;
      handled := handled + {n};
      reply := Retry;
      var m := sent[n];
      if !fails {
        if Mine(Tables(), m.user, m.journey) {
          if m.kind == Reminder {
            ProcessReminder(now, m.journey);
          } else {
            ProcessTimeout(now, m.journey);
          }
        }
        shouldCleanup := false;
        reply := Handled;
      }
      if shouldCleanup {
        handled := handled - {n};
        assert handled == old(handled);
      }
    }

    /** The goroutine for one journey that the query found. */
    method PublishFor(j: nat, now: int, no: Refusals)
      requires j < |rows| && Approaching(rows[j], now)
      modifies this
      ensures Tables() == Approached(old(Tables()), now, no, j)
    {
      var r := rows[j];
      var timeoutDelay := r.expected + GRACE - now;
      if timeoutDelay > DAY {
        return;
      }
      if r.user !in owners {
        return;
      }
      if r.reminderAt.None? && now < r.expected + GRACE && !IsMarked(reminderMarks, j, now) {
        var reminderDelay := r.expected - now;
        var published := Publish(Reminder, j, r.user, now, reminderDelay / SECOND, j !in no.reminders);
        if published {
          reminderMarks := reminderMarks[j := now + DAY];
        }
      }
      if IsMarked(timeoutMarks, j, now) {
        return;
      }
      var published := Publish(Timeout, j, r.user, now, timeoutDelay / SECOND, j !in no.timeouts);
      if published {
        timeoutMarks := timeoutMarks[j := now + DAY];
      }
    }

    method CheckJourneyTimeouts(now: int, no: Refusals)
      modifies this
      ensures Tables() == WindowScanned(old(Tables()), now, no, |old(rows)|)
    {
      for j := 0 to |rows|
        invariant |rows| == |old(rows)|
        invariant Tables() == WindowScanned(old(Tables()), now, no, j)
      {
        if Approaching(rows[j], now) {
          PublishFor(j, now, no);
        }
      }
    }

    method CheckOverdueJourneys(now: int, no: Refusals)
      modifies this
      ensures Tables() == OverdueScanned(old(Tables()), now, no, |old(rows)|)
    {
      for j := 0 to |rows|
        invariant |rows| == |old(rows)|
        invariant Tables() == OverdueScanned(old(Tables()), now, no, j)
      {
        var r := rows[j];
        if r.status == Ongoing && !r.deleted && r.expected < now - GRACE && r.user in owners {
          var published := Publish(Timeout, j, r.user, now, 0, j !in no.timeouts);
        }
      }
    }
  }
}
