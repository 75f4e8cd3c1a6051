/** When exactly each thing happens to a journey, and what each call answers, said of the rows, the
    messages, the marks and the owners alone. */
module JourneyCalls {
  import opened Wrappers
  import opened ContactBook
  import opened Journey
  import opened JourneySafety
  import opened JourneyTiming

  // ----- what one event does to one journey -----

  /** The event delivers a message that was not handled yet, about journey j and to its owner. */
  predicate Reaches(s: State, e: Event, j: nat, kind: Kind) {
    && e.act.Deliver? && e.act.n < |s.sent| && e.act.n !in s.handled
    && j < |s.rows|
    && var m := s.sent[e.act.n];
    && m.kind == kind && m.journey == j && m.user == s.rows[j].user && m.user in s.owners
  }

  /** The traveller is to be reminded: still out, not reminded yet, with five cents left. */
  predicate Reminds(s: State, e: Event, j: nat) {
    && Reaches(s, e, j, Kind.Reminder)
    && s.rows[j].status == Ongoing && s.rows[j].reminderAt == None && s.owners[s.rows[j].user].balance >= 5
  }

  /** The traveller is ten minutes late. */
  predicate Expires(s: State, e: Event, j: nat) {
    && Reaches(s, e, j, Kind.Timeout)
    && s.rows[j].status == Ongoing && e.at >= s.rows[j].expected + 600 * SECOND
  }

  predicate OwnCall(s: State, u: nat, j: nat) {
    j < |s.rows| && s.rows[j].user == u && u in s.owners
  }

  /** The owner sets a return at least ten minutes ahead, of a journey that is ongoing. */
  predicate Resets(s: State, e: Event, j: nat) {
    && e.act.Reschedule? && e.act.journey == j && OwnCall(s, e.act.user, j)
    && e.act.when.Some? && e.act.when.value >= e.at + 600 * SECOND && s.rows[j].status == Ongoing
  }

  /** The owner reports back, even late; a cancelled journey stays as it is. */
  predicate Reports(s: State, e: Event, j: nat) {
    && e.act.Complete? && e.act.journey == j && OwnCall(s, e.act.user, j)
    && s.rows[j].status in {Ongoing, Status.TimedOut}
  }

  predicate Withdraws(s: State, e: Event, j: nat) {
    e.act.Cancel? && e.act.journey == j && OwnCall(s, e.act.user, j)
  }

  lemma ReminderDoes(s: State, now: int, i: nat, j: nat)
    requires i < |s.rows| && j < |s.rows| && Story(Seen(s, i), i) && s.rows[i].user in s.owners
    ensures var z := Reminded(s, now, i); var v := Seen(s, j);
            && |z.rows| == |s.rows|
            && Seen(z, j) == if i == j && v.row.status == Ongoing && v.row.reminderAt == None
                                && s.owners[v.row.user].balance >= 5
                             then View(v.row.(reminderAt := Some(now)), v.alerts, v.reminders + 1) else v
  {
    ReminderAdds(s.tasks, i, now, j);
  }

  lemma TimeoutDoes(s: State, now: int, i: nat, j: nat)
    requires i < |s.rows| && j < |s.rows| && Story(Seen(s, i), i) && s.rows[i].user in s.owners
    ensures var z := AfterTimeout(s, now, i); var v := Seen(s, j);
            && |z.rows| == |s.rows|
            && if i == j && v.row.status == Ongoing && now >= v.row.expected + 600 * SECOND
               then TimesOut(v, j, now, s.owners[v.row.user], Seen(z, j)) else Seen(z, j) == v
  {
    if s.rows[i].status == Ongoing && now >= s.rows[i].expected + 600 * SECOND {
      WriteIsLawful(s, now, i, s.owners[s.rows[i].user], j);
    }
  }

  lemma DeliveryDoes(s: State, e: Event, j: nat)
    requires Inv(s) && CanHappen(s, e) && j < |s.rows| && e.act.Deliver?
    ensures j < |Step(s, e).rows|
    ensures var v, z := Seen(s, j), Seen(Step(s, e), j);
            if Reminds(s, e, j) then z == View(v.row.(reminderAt := Some(e.at)), v.alerts, v.reminders + 1)
            else if Expires(s, e, j) then TimesOut(v, j, e.at, s.owners[v.row.user], z)
            else z == v
  {
    var m := s.sent[e.act.n];
    var i := m.journey;
    assert Right(s, j) && Right(s, i);
    if e.act.n !in s.handled && i < |s.rows| && s.rows[i].user == m.user && m.user in s.owners {
      if m.kind == Kind.Reminder {
        ReminderDoes(s, e.at, i, j);
      } else {
        TimeoutDoes(s, e.at, i, j);
      }
    }
  }

  lemma RescheduleDoes(s: State, e: Event, j: nat)
    requires j < |s.rows| && Story(Seen(s, j), j) && e.act.Reschedule?
    ensures j < |Step(s, e).rows|
    ensures var v, z := Seen(s, j), Seen(Step(s, e), j);
            z == if Resets(s, e, j) then v.(row := v.row.(expected := e.act.when.value)) else v
  {
    RescheduleAnswers(s, e.at, e.act.user, e.act.journey, e.act.when, e.act.publishes);
  }

  lemma ClosingDoes(s: State, e: Event, j: nat)
    requires j < |s.rows| && Story(Seen(s, j), j) && (e.act.Complete? || e.act.Cancel?)
    ensures j < |Step(s, e).rows|
    ensures var v, z := Seen(s, j), Seen(Step(s, e), j);
            z == if Reports(s, e, j) then v.(row := v.row.(status := Ended))
                 else if Withdraws(s, e, j) then v.(row := v.row.(status := Cancelled, deleted := true))
                 else v
  {
    assert Step(s, e).tasks == s.tasks;
  }

  /** Main result: each of five things happens to a journey exactly under its own condition, and nothing
      else ever does: a reminder, the timeout, a new return, the report and the withdrawal. */
  lemma StepDoes(s: State, e: Event, j: nat)
    requires Inv(s) && CanHappen(s, e) && j < |s.rows|
    ensures j < |Step(s, e).rows|
    ensures var v, z := Seen(s, j), Seen(Step(s, e), j);
            if Reminds(s, e, j) then z == View(v.row.(reminderAt := Some(e.at)), v.alerts, v.reminders + 1)
            else if Expires(s, e, j) then TimesOut(v, j, e.at, s.owners[v.row.user], z)
            else if Resets(s, e, j) then z == v.(row := v.row.(expected := e.act.when.value))
            else if Reports(s, e, j) then z == v.(row := v.row.(status := Ended))
            else if Withdraws(s, e, j) then z == v.(row := v.row.(status := Cancelled, deleted := true))
            else z == v
  {
    assert Right(s, j);
    match e.act
    case Deliver(n) => DeliveryDoes(s, e, j);
    case ScanWindow(no) => WindowScanPosts(s, e.at, no, |s.rows|);
    case ScanOverdue(no) => OverdueScanPosts(s, e.at, no, |s.rows|);
    case Reschedule(_, _, _, _) => RescheduleDoes(s, e, j);
    case Complete(_, _) => ClosingDoes(s, e, j);
    case Cancel(_, _) => ClosingDoes(s, e, j);
    case Create(u, expected, publishes) => CreateAnswers(s, e.at, u, expected, publishes);
    case _ =>
  }

  /** Main result: at the timeout each of the first three contacts by priority gets one alert if the balance covers
      five cents for every contact; otherwise nobody does, and the row says so. */
  lemma ExpiryAlerts(s: State, e: Event, j: nat) returns (list: seq<Contact>, rest: seq<Contact>)
    requires Inv(s) && CanHappen(s, e) && Expires(s, e, j)
    ensures var all := s.owners[s.rows[j].user].contacts;
            && |list| == (if |all| < 3 then |all| else 3) && multiset(list + rest) == multiset(all)
            && forall i, k :: 0 <= i < k < |list + rest| ==> (list + rest)[i].priority <= (list + rest)[k].priority
    ensures j < |Step(s, e).rows| && Step(s, e).rows[j].status == Status.TimedOut
            && Step(s, e).rows[j].triggeredAt == Some(e.at)
    ensures var v, z := Seen(s, j), Seen(Step(s, e), j); var owner := s.owners[s.rows[j].user];
            if owner.balance >= 5 * |owner.contacts|
            then && z.row.alert == Triggered && z.row.attempts == v.row.attempts + 1
                 && v.alerts <= z.alerts && |z.alerts| == |v.alerts| + |list|
                 && forall i :: 0 <= i < |list| ==> z.alerts[|v.alerts| + i] == ContactAlert(j, list[i], e.at)
            else z.row.alert == Failed && z.row.attempts == v.row.attempts && z.alerts == v.alerts
  {
    var all := s.owners[s.rows[j].user].contacts;
    list := NotifyList(all);
    rest := NotifiesTheFirstThree(all);
    StepDoes(s, e, j);
  }

  lemma StepReminds(s: State, e: Event, j: nat)
    requires Inv(s) && CanHappen(s, e)
    ensures RemindersOf(Step(s, e).tasks, j) == RemindersOf(s.tasks, j) + (if Reminds(s, e, j) then 1 else 0)
  {
    if j < |s.rows| {
      StepDoes(s, e, j);
    } else {
      NoTasks(s.tasks, j);
      StepGrows(s, e);
      if j >= |Step(s, e).rows| {
        NoTasks(Step(s, e).tasks, j);
      }
    }
  }

  /** Some event before the k-th reminds the traveller. */
  ghost predicate RemindedBefore(s: State, now: int, es: seq<Event>, j: nat, k: nat)
    requires k <= |es| && Valid(s, now, es)
  {
    exists i: nat :: i < k && Reminds(At(s, now, es, i), es[i], j)
  }

  lemma {:induction false} RemindedSoFar(s: State, now: int, es: seq<Event>, j: nat, k: nat)
    requires k <= |es| && Valid(s, now, es) && Inv(s)
    ensures RemindersOf(At(s, now, es, k).tasks, j) >= RemindersOf(s.tasks, j)
    ensures RemindersOf(At(s, now, es, k).tasks, j) > RemindersOf(s.tasks, j) <==> RemindedBefore(s, now, es, j, k)
    decreases k
  {
    if k > 0 {
      RemindedSoFar(s, now, es, j, k - 1);
      Advance(s, now, es, k - 1);
      StepReminds(At(s, now, es, k - 1), es[k - 1], j);
      if RemindedBefore(s, now, es, j, k) {
        var i: nat :| i < k && Reminds(At(s, now, es, i), es[i], j);
        assert i < k - 1 ==> RemindedBefore(s, now, es, j, k - 1);
      }
    }
  }

  /** Main result: a traveller gets the one reminder exactly if, at some moment of the run, an unhandled reminder
      message about the journey is delivered while it is ongoing and the wallet holds five cents. */
  lemma RemindedIff(now: int, es: seq<Event>, j: nat)
    requires Valid(START, now, es)
    ensures RemindersOf(Run(START, now, es).tasks, j)
            == (if exists i: nat :: i < |es| && Reminds(At(START, now, es, i), es[i], j) then 1 else 0)
  {
    RemindedSoFar(START, now, es, j, |es|);
    RunIsLast(START, now, es);
    InvAlways(START, now, es);
    assert Right(Run(START, now, es), j);
    if j >= |Run(START, now, es).rows| {
      NoTasks(Run(START, now, es).tasks, j);
    }
  }

  // ----- what the calls answer -----

  /** The API's own timeout message for a row, within a day, in whole seconds and never late. */
  predicate PostsFor(s: State, z: State, r: Row, j: nat, now: int, publishes: bool)
    requires r.user in s.owners
  {
    var end := r.expected + 600 * SECOND;
    if publishes && s.owners[r.user].autoNotify && now < end <= now + 24 * 3600 * SECOND
    then && |z.sent| == |s.sent| + 1 && z.sent[..|s.sent|] == s.sent
         && var m := z.sent[|s.sent|];
         && m.kind == Kind.Timeout && m.journey == j && m.user == r.user
         && m.due <= end < m.due + SECOND && (m.due - now) % SECOND == 0
    else z.sent == s.sent
  }

  /** All but rows and published messages. */
  predicate SameElsewhere(s: State, z: State) {
    && z.tasks == s.tasks && z.handled == s.handled && z.owners == s.owners
    && z.timeoutMarks == s.timeoutMarks && z.reminderMarks == s.reminderMarks
  }

  /** Main result: a journey is created exactly if the user exists and the return is at least ten minutes ahead;
      the row is then a fresh one at the end, and a refused call changes nothing. */
  lemma CreateAnswers(s: State, now: int, u: nat, expected: int, publishes: bool)
    ensures var (z, reply) := Created(s, now, u, expected, publishes); var n := |s.rows|;
            && (reply == UserNotFound <==> u !in s.owners)
            && (reply == InvalidReturnTime <==> u in s.owners && expected < now)
            && (reply == ReturnTimeTooClose <==> u in s.owners && now <= expected < now + 600 * SECOND)
            && (reply == Fine <==> u in s.owners && expected >= now + 600 * SECOND)
            && (reply != Fine ==> z == s)
            && (reply == Fine ==>
                  && z.rows == s.rows + [Row(u, expected, Ongoing, Pending, 0, None, None, false)]
                  && PostsFor(s, z, z.rows[n], n, now, publishes) && SameElsewhere(s, z))
  {
  }

  /** A reschedule is refused exactly for a stranger, a journey that has ended or timed out, or a return too
      close; a cancelled row stays as it is, though its timeout is announced again. */
  lemma RescheduleAnswers(s: State, now: int, u: nat, j: nat, when: Option<int>, publishes: bool)
    ensures var (z, reply) := Rescheduled(s, now, u, j, when, publishes);
            && (reply == JourneyNotFound <==> !OwnCall(s, u, j))
            && (reply == NotModifiable <==> OwnCall(s, u, j) && s.rows[j].status in {Ended, Status.TimedOut})
            && (reply == ReturnTimeTooClose <==>
                  && OwnCall(s, u, j) && s.rows[j].status in {Ongoing, Cancelled}
                  && when.Some? && when.value < now + 600 * SECOND)
            && reply in {Fine, JourneyNotFound, NotModifiable, ReturnTimeTooClose}
            && (reply != Fine || when.None? ==> z == s)
            && (reply == Fine && when.Some? ==>
                  && z.rows == (if s.rows[j].deleted then s.rows
                                else s.rows[j := s.rows[j].(expected := when.value)])
                  && PostsFor(s, z, z.rows[j], j, now, publishes) && SameElsewhere(s, z))
  {
  }

  /** The two calls that close a journey. */
  lemma ClosingAnswers(s: State, u: nat, j: nat)
    ensures var (z, reply) := Completed(s, u, j);
            && (reply == JourneyNotFound <==> !OwnCall(s, u, j))
            && (reply == AlreadyEnded <==> OwnCall(s, u, j) && s.rows[j].status == Ended)
            && reply in {Fine, JourneyNotFound, AlreadyEnded}
            && SameElsewhere(s, z) && z.sent == s.sent
    ensures var (z, reply) := CancelledBy(s, u, j);
            && (reply == JourneyNotFound <==> !OwnCall(s, u, j))
            && reply in {Fine, JourneyNotFound}
            && SameElsewhere(s, z) && z.sent == s.sent
  {
  }

  // ----- what the scans publish -----

  /** The messages of a kind about journey j. */
  function Posts(sent: seq<Message>, kind: Kind, j: nat): nat {
    if sent == [] then 0
    else
      var m := sent[|sent| - 1];
      Posts(sent[..|sent| - 1], kind, j) + (if m.kind == kind && m.journey == j then 1 else 0)
  }

  lemma PostsAppend(sent: seq<Message>, m: Message, kind: Kind, j: nat)
    ensures Posts(sent + [m], kind, j) == Posts(sent, kind, j) + (if m.kind == kind && m.journey == j then 1 else 0)
  {
    assert (sent + [m])[..|sent|] == sent;
  }

  function MarksOf(s: State, kind: Kind): map<nat, int> {
    if kind == Kind.Reminder then s.reminderMarks else s.timeoutMarks
  }

  function MarkOf(s: State, kind: Kind, j: nat): Option<int> {
    if j in MarksOf(s, kind) then Some(MarksOf(s, kind)[j]) else None
  }

  /** The instant a message of this kind is for. */
  function Target(r: Row, kind: Kind): int {
    if kind == Kind.Reminder then r.expected else r.expected + 600 * SECOND
  }

  /** The window scan has a message of this kind to publish for journey j, and can. */
  predicate WindowPosts(s: State, now: int, no: Refusals, kind: Kind, j: nat) {
    && j < |s.rows|
    && var r := s.rows[j];
    && r.status == Ongoing && !r.deleted && now <= r.expected <= now + 600 * SECOND && r.user in s.owners
    && (MarkOf(s, kind, j).None? || MarkOf(s, kind, j).value <= now)
    && (kind == Kind.Reminder ==> r.reminderAt.None? && j !in no.reminders)
    && (kind == Kind.Timeout ==> j !in no.timeouts)
  }

  /** Row j is past its grace period, and the broker accepts. */
  predicate OverduePosts(s: State, now: int, no: Refusals, kind: Kind, j: nat) {
    && kind == Kind.Timeout && j < |s.rows| && j !in no.timeouts
    && var r := s.rows[j];
    r.status == Ongoing && !r.deleted && r.expected + 600 * SECOND < now && r.user in s.owners
  }

  /** What was just posted, and the mark it leaves. */
  predicate PostedOne(s: State, z: State, now: int, kind: Kind, j: nat) {
    Posts(z.sent, kind, j) == Posts(s.sent, kind, j) + 1 && MarkOf(z, kind, j) == Some(now + 24 * 3600 * SECOND)
  }

  predicate PostedNone(s: State, z: State, kind: Kind, j: nat) {
    Posts(z.sent, kind, j) == Posts(s.sent, kind, j) && MarkOf(z, kind, j) == MarkOf(s, kind, j)
  }

  lemma ReminderPosts(s: State, now: int, i: nat, refused: bool, kind: Kind, j: nat)
    requires i < |s.rows|
    ensures var z := ReminderPosted(s, now, i, refused); var mark := MarkOf(s, Kind.Reminder, i);
            if i == j && kind == Kind.Reminder && s.rows[i].reminderAt.None? && !refused
               && (mark.None? || mark.value <= now)
            then PostedOne(s, z, now, kind, j) else PostedNone(s, z, kind, j)
  {
    var z := ReminderPosted(s, now, i, refused);
    if s.rows[i].reminderAt.None? && !IsMarked(s.reminderMarks, i, now) && !refused {
      var m := Message(Kind.Reminder, i, s.rows[i].user, now + WholeSeconds(s.rows[i].expected - now));
      assert z.sent == s.sent + [m] && z.reminderMarks == s.reminderMarks[i := now + DAY];
      PostsAppend(s.sent, m, kind, j);
    } else {
      assert z == s;
    }
  }

  lemma TimeoutPosts(s: State, now: int, i: nat, refused: bool, kind: Kind, j: nat)
    requires i < |s.rows|
    ensures var z := TimeoutPosted(s, now, i, refused); var mark := MarkOf(s, Kind.Timeout, i);
            if i == j && kind == Kind.Timeout && !refused && (mark.None? || mark.value <= now)
            then PostedOne(s, z, now, kind, j) else PostedNone(s, z, kind, j)
  {
    var z := TimeoutPosted(s, now, i, refused);
    if !IsMarked(s.timeoutMarks, i, now) && !refused {
      var m := Message(Kind.Timeout, i, s.rows[i].user, now + WholeSeconds(s.rows[i].expected + GRACE - now));
      assert z.sent == s.sent + [m] && z.timeoutMarks == s.timeoutMarks[i := now + DAY];
      PostsAppend(s.sent, m, kind, j);
    } else {
      assert z == s;
    }
  }

  lemma Unseen(s: State, now: int, no: Refusals, i: nat, kind: Kind, j: nat)
    requires i < |s.rows| && !(Approaching(s.rows[i], now) && s.rows[i].user in s.owners)
    ensures Approached(s, now, no, i) == s && (i == j ==> !WindowPosts(s, now, no, kind, j))
  {
  }

  lemma SeenPostsIf(s: State, now: int, no: Refusals, i: nat, kind: Kind)
    requires i < |s.rows| && Approaching(s.rows[i], now) && s.rows[i].user in s.owners
    ensures var mark := MarkOf(s, kind, i);
            WindowPosts(s, now, no, kind, i)
            <==> (mark.None? || mark.value <= now)
                 && if kind == Kind.Reminder then s.rows[i].reminderAt.None? && i !in no.reminders
                    else i !in no.timeouts
  {
  }

  /** One journey's part of the scan. */
  lemma ApproachedPosts(s: State, now: int, no: Refusals, i: nat, kind: Kind, j: nat)
    requires i < |s.rows|
    ensures var z := Approached(s, now, no, i);
            if i == j && WindowPosts(s, now, no, kind, j)
            then PostedOne(s, z, now, kind, j) else PostedNone(s, z, kind, j)
  {
    if Approaching(s.rows[i], now) && s.rows[i].user in s.owners {
      var y := ReminderPosted(s, now, i, i in no.reminders);
      SeenPostsIf(s, now, no, i, kind);
      ReminderPosts(s, now, i, i in no.reminders, kind, j);
      TimeoutPosts(y, now, i, i in no.timeouts, kind, j);
      assert MarkOf(y, Kind.Timeout, i) == MarkOf(s, Kind.Timeout, i);
    } else {
      Unseen(s, now, no, i, kind, j);
    }
  }

  lemma SameToPost(s: State, y: State, now: int, no: Refusals, kind: Kind, j: nat)
    requires y.rows == s.rows && y.owners == s.owners && MarkOf(y, kind, j) == MarkOf(s, kind, j)
    ensures WindowPosts(y, now, no, kind, j) == WindowPosts(s, now, no, kind, j)
  {
  }

  /** One message of the kind, with its mark, or none. */
  predicate PostedIf(s: State, z: State, now: int, kind: Kind, j: nat, posts: bool) {
    if posts then PostedOne(s, z, now, kind, j) else PostedNone(s, z, kind, j)
  }

  /** The scan's turn for journey i, after its turns for earlier ones. */
  lemma ScanTurn(s: State, y: State, now: int, no: Refusals, i: nat, kind: Kind, j: nat)
    requires i < |s.rows| && y.rows == s.rows && y.owners == s.owners
    requires PostedIf(s, y, now, kind, j, j < i && WindowPosts(s, now, no, kind, j))
    ensures PostedIf(s, Approached(y, now, no, i), now, kind, j, j <= i && WindowPosts(s, now, no, kind, j))
  {
    ApproachedPosts(y, now, no, i, kind, j);
    if i == j {
      SameToPost(s, y, now, no, kind, j);
    }
  }

  lemma ScanUnrolls(s: State, now: int, no: Refusals, n: nat)
    requires n < |s.rows|
    ensures WindowScanned(s, now, no, n + 1) == Approached(WindowScanned(s, now, no, n), now, no, n)
  {
  }

  /** From the state y after i turns to the end. */
  lemma {:induction false} WindowScanCounts(s: State, y: State, now: int, no: Refusals, i: nat, kind: Kind, j: nat)
    requires i <= |s.rows| && y == WindowScanned(s, now, no, i)
    requires PostedIf(s, y, now, kind, j, j < i && WindowPosts(s, now, no, kind, j))
    ensures PostedIf(s, WindowScanned(s, now, no, |s.rows|), now, kind, j, WindowPosts(s, now, no, kind, j))
    decreases |s.rows| - i
  {
    if i < |s.rows| {
      ScanUnrolls(s, now, no, i);
      ScanTurn(s, y, now, no, i, kind, j);
      WindowScanCounts(s, Approached(y, now, no, i), now, no, i + 1, kind, j);
    }
  }

  /** A message that the scan has published: for the right instant, at most a second early, never late. */
  predicate AimedAt(s: State, now: int, m: Message) {
    && m.journey < |s.rows| && m.user == s.rows[m.journey].user
    && m.due <= Target(s.rows[m.journey], m.kind) < m.due + SECOND && (m.due - now) % SECOND == 0
  }

  lemma SecondsAreWhole(delay: int)
    ensures WholeSeconds(delay) <= delay < WholeSeconds(delay) + SECOND && WholeSeconds(delay) % SECOND == 0
  {
  }

  lemma ApproachedAims(s: State, now: int, no: Refusals, i: nat)
    requires i < |s.rows|
    ensures var z := Approached(s, now, no, i);
            s.sent <= z.sent && forall k :: |s.sent| <= k < |z.sent| ==> AimedAt(s, now, z.sent[k])
  {
    SecondsAreWhole(s.rows[i].expected - now);
    SecondsAreWhole(s.rows[i].expected + GRACE - now);
  }

  lemma {:induction false} WindowScanAims(s: State, now: int, no: Refusals, n: nat)
    requires n <= |s.rows|
    ensures var z := WindowScanned(s, now, no, n);
            s.sent <= z.sent && forall i :: |s.sent| <= i < |z.sent| ==> AimedAt(s, now, z.sent[i])
  {
    if n > 0 {
      WindowScanAims(s, now, no, n - 1);
      var y := WindowScanned(s, now, no, n - 1);
      ApproachedAims(y, now, no, n - 1);
      var z := WindowScanned(s, now, no, n);
      forall i | |s.sent| <= i < |z.sent|
        ensures AimedAt(s, now, z.sent[i])
      {
        assert i < |y.sent| ==> z.sent[i] == y.sent[i];
        assert i >= |y.sent| ==> AimedAt(y, now, z.sent[i]);
      }
    }
  }

  /** Main result: for each journey and each of the two kinds, a window scan publishes one message, and marks the
      journey for a day, exactly if the return is within ten minutes, the owner exists, no earlier mark is
      alive, the broker accepts and (for the reminder) none was sent; otherwise none, and no mark moves. */
  lemma WindowScanPublishesIff(s: State, now: int, no: Refusals, kind: Kind, j: nat)
    ensures var z := WindowScanned(s, now, no, |s.rows|); var posts := WindowPosts(s, now, no, kind, j);
            && Posts(z.sent, kind, j) == Posts(s.sent, kind, j) + (if posts then 1 else 0)
            && MarkOf(z, kind, j) == (if posts then Some(now + 24 * 3600 * SECOND) else MarkOf(s, kind, j))
            && s.sent <= z.sent && (forall i :: |s.sent| <= i < |z.sent| ==> AimedAt(s, now, z.sent[i]))
            && z.rows == s.rows && z.tasks == s.tasks && z.handled == s.handled
  {
    WindowScanCounts(s, s, now, no, 0, kind, j);
    WindowScanAims(s, now, no, |s.rows|);
    WindowScanPosts(s, now, no, |s.rows|);
  }

  /** One message of the kind, and no mark, or nothing. */
  predicate AddedIf(s: State, z: State, kind: Kind, j: nat, adds: bool) {
    && Posts(z.sent, kind, j) == Posts(s.sent, kind, j) + (if adds then 1 else 0)
    && MarkOf(z, kind, j) == MarkOf(s, kind, j)
  }

  /** The overdue scan's turn for journey i. */
  lemma OverdueTurn(s: State, now: int, no: Refusals, i: nat) returns (m: Message)
    requires i < |s.rows|
    ensures var y, z := OverdueScanned(s, now, no, i), OverdueScanned(s, now, no, i + 1);
            && m.kind == Kind.Timeout && m.journey == i
            && z == if OverduePosts(s, now, no, Kind.Timeout, i) then y.(sent := y.sent + [m]) else y
  {
    m := Message(Kind.Timeout, i, s.rows[i].user, now);
  }

  lemma AppendAdds(s: State, y: State, m: Message, kind: Kind, j: nat, before: bool)
    requires AddedIf(s, y, kind, j, before) && !(before && m.journey == j)
    ensures AddedIf(s, y.(sent := y.sent + [m]), kind, j, before || (m.kind == kind && m.journey == j))
  {
    PostsAppend(y.sent, m, kind, j);
  }

  lemma {:induction false} OverdueScanCounts(s: State, y: State, now: int, no: Refusals, i: nat, kind: Kind, j: nat)
    requires i <= |s.rows| && y == OverdueScanned(s, now, no, i)
    requires AddedIf(s, y, kind, j, j < i && OverduePosts(s, now, no, kind, j))
    ensures AddedIf(s, OverdueScanned(s, now, no, |s.rows|), kind, j, OverduePosts(s, now, no, kind, j))
    decreases |s.rows| - i
  {
    if i < |s.rows| {
      var m := OverdueTurn(s, now, no, i);
      if OverduePosts(s, now, no, Kind.Timeout, i) {
        AppendAdds(s, y, m, kind, j, j < i && OverduePosts(s, now, no, kind, j));
      }
      OverdueScanCounts(s, OverdueScanned(s, now, no, i + 1), now, no, i + 1, kind, j);
    }
  }

  lemma {:induction false} OverdueScanIsImmediate(s: State, now: int, no: Refusals, n: nat)
    requires n <= |s.rows|
    ensures var z := OverdueScanned(s, now, no, n);
            s.sent <= z.sent && forall i :: |s.sent| <= i < |z.sent| ==> z.sent[i].due == now
  {
    if n > 0 {
      OverdueScanIsImmediate(s, now, no, n - 1);
    }
  }

  /** Main result: an overdue scan publishes one message, due at once, for each journey past its grace period
      whose owner exists and for which the broker accepts, marked or not, and none for any other. */
  lemma OverdueScanPublishesIff(s: State, now: int, no: Refusals, kind: Kind, j: nat)
    ensures var z := OverdueScanned(s, now, no, |s.rows|);
            && Posts(z.sent, kind, j)
               == Posts(s.sent, kind, j) + (if OverduePosts(s, now, no, kind, j) then 1 else 0)
            && s.sent <= z.sent && (forall i :: |s.sent| <= i < |z.sent| ==> z.sent[i].due == now)
            && MarkOf(z, kind, j) == MarkOf(s, kind, j)
            && z.rows == s.rows && z.tasks == s.tasks && z.handled == s.handled
  {
    OverdueScanCounts(s, s, now, no, 0, kind, j);
    OverdueScanIsImmediate(s, now, no, |s.rows|);
    OverdueScanPosts(s, now, no, |s.rows|);
  }
}
