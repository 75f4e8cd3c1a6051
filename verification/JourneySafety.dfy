/** What every run of journeys keeps, whatever messages are stale, repeated or rescheduled. */
module JourneySafety {
  import opened Wrappers
  import opened ContactBook
  import opened Journey

  // ----- one journey's tasks -----

  /** The tasks that journey j's contacts were sent. */
  function AlertsOf(tasks: seq<Task>, j: nat): seq<Task> {
    if tasks == [] then []
    else
      var t := tasks[|tasks| - 1];
      AlertsOf(tasks[..|tasks| - 1], j) + (if t.ContactAlert? && t.journey == j then [t] else [])
  }

  /** How many reminders journey j's traveller was sent. */
  function RemindersOf(tasks: seq<Task>, j: nat): nat {
    if tasks == [] then 0
    else
      var t := tasks[|tasks| - 1];
      RemindersOf(tasks[..|tasks| - 1], j) + (if t.SelfReminder? && t.journey == j then 1 else 0)
  }

  lemma ReminderAdds(tasks: seq<Task>, i: nat, at: int, j: nat)
    ensures AlertsOf(tasks + [SelfReminder(i, at)], j) == AlertsOf(tasks, j)
    ensures RemindersOf(tasks + [SelfReminder(i, at)], j) == RemindersOf(tasks, j) + (if i == j then 1 else 0)
  {
    assert (tasks + [SelfReminder(i, at)])[..|tasks|] == tasks;
  }

  lemma AlertAdds(tasks: seq<Task>, i: nat, c: Contact, at: int, j: nat)
    ensures AlertsOf(tasks + [ContactAlert(i, c, at)], j)
            == AlertsOf(tasks, j) + (if i == j then [ContactAlert(i, c, at)] else [])
    ensures RemindersOf(tasks + [ContactAlert(i, c, at)], j) == RemindersOf(tasks, j)
  {
    assert (tasks + [ContactAlert(i, c, at)])[..|tasks|] == tasks;
  }

  lemma {:induction false} AlertsAdd(tasks: seq<Task>, i: nat, contacts: seq<Contact>, at: int, j: nat)
    ensures AlertsOf(tasks + Alerts(i, contacts, at), j)
            == AlertsOf(tasks, j) + (if i == j then Alerts(i, contacts, at) else [])
    ensures RemindersOf(tasks + Alerts(i, contacts, at), j) == RemindersOf(tasks, j)
  {
    if contacts == [] {
      assert tasks + Alerts(i, contacts, at) == tasks;
      assert AlertsOf(tasks, j) + Alerts(i, contacts, at) == AlertsOf(tasks, j);
    } else {
      var k := |contacts| - 1;
      var c := contacts[k];
      var before := Alerts(i, contacts[..k], at);
      AlertsAdd(tasks, i, contacts[..k], at, j);
      AlertAdds(tasks + before, i, c, at, j);
      assert Alerts(i, contacts, at) == before + [ContactAlert(i, c, at)];
      assert tasks + Alerts(i, contacts, at) == (tasks + before) + [ContactAlert(i, c, at)];
      assert AlertsOf(tasks, j) + Alerts(i, contacts, at) == (AlertsOf(tasks, j) + before) + [ContactAlert(i, c, at)];
    }
  }

  // ----- what one step may do to one journey -----

  function OwnerOf(s: State, j: nat): Owner
    requires j < |s.rows| && s.rows[j].user in s.owners
  {
    s.owners[s.rows[j].user]
  }

  /** All there is to know about one journey. */
  datatype View = View(row: Row, alerts: seq<Task>, reminders: nat)

  function Seen(s: State, j: nat): View
    requires j < |s.rows|
  {
    View(s.rows[j], AlertsOf(s.tasks, j), RemindersOf(s.tasks, j))
  }

  /** The step from Ongoing to TimedOut at instant `now`, for an owner at that time. */
  predicate TimesOut(v: View, j: nat, now: int, owner: Owner, z: View) {
    && v.row.status == Ongoing
    && now >= v.row.expected + GRACE
    && z.reminders == v.reminders
    && (if owner.balance < UNIT_PRICE * |owner.contacts| then
          z.alerts == v.alerts
          && z.row == v.row.(status := TimedOut, alert := Failed, triggeredAt := Some(now))
        else
          z.alerts == v.alerts + Alerts(j, NotifyList(owner.contacts), now)
          && z.row == v.row.(status := TimedOut, alert := Triggered, triggeredAt := Some(now),
                             attempts := v.row.attempts + 1))
  }

  /** The user's own changes: only the status, or the expected return while ongoing. */
  predicate Edited(v: View, now: int, z: View) {
    && z.alerts == v.alerts && z.reminders == v.reminders
    && (|| (v.row.status == Ongoing && z.row.expected >= now + MIN_LEAD && z.row == v.row.(expected := z.row.expected))
        || (v.row.status != Ended && z.row == v.row.(status := Ended))
        || z.row == v.row.(status := Cancelled, deleted := true))
  }

  predicate GetsReminder(v: View, now: int, z: View) {
    && v.row.status == Ongoing && v.row.reminderAt.None?
    && z == View(v.row.(reminderAt := Some(now)), v.alerts, v.reminders + 1)
  }

  /** The four things that can happen to a journey. */
  predicate Lawful(v: View, j: nat, now: int, owner: Owner, z: View) {
    || z == v
    || (!v.row.deleted && Edited(v, now, z))
    || GetsReminder(v, now, z)
    || TimesOut(v, j, now, owner, z)
  }

  // ----- the invariant of one journey -----

  /** Alerts to at most three contacts, in priority order, all written at `at`. */
  ghost predicate OneAlert(alerts: seq<Task>, j: nat, at: int) {
    exists contacts: seq<Contact> :: |contacts| <= MAX_CONTACTS && Ascending(contacts)
        && alerts == Alerts(j, contacts, at)
  }

  ghost predicate Story(v: View, j: nat) {
    && (v.row.deleted <==> v.row.status == Cancelled)
    && (v.row.status == Ongoing ==> v.row.alert == Pending)
    && (v.row.status == TimedOut ==> v.row.alert != Pending)
    && v.row.attempts == (if v.row.alert == Triggered then 1 else 0)
    && (v.row.alert == Pending <==> v.row.triggeredAt.None?)
    && (v.row.triggeredAt.Some? ==> v.row.triggeredAt.value >= v.row.expected + GRACE)
    && (v.row.alert == Triggered ==> OneAlert(v.alerts, j, v.row.triggeredAt.value))
    && (v.row.alert != Triggered ==> v.alerts == [])
    && v.reminders == (if v.row.reminderAt.Some? then 1 else 0)
  }

  lemma AlertIsShort(owner: Owner, j: nat, now: int)
    ensures OneAlert(Alerts(j, NotifyList(owner.contacts), now), j, now)
  {
    var rest := NotifiesTheFirstThree(owner.contacts);
    var list := NotifyList(owner.contacts);
    assert list == (list + rest)[..|list|];
  }

  lemma StoryKept(v: View, j: nat, now: int, owner: Owner, z: View)
    requires Story(v, j) && Lawful(v, j, now, owner, z)
    ensures Story(z, j)
  {
    if TimesOut(v, j, now, owner, z) {
      AlertIsShort(owner, j, now);
      assert [] + Alerts(j, NotifyList(owner.contacts), now) == Alerts(j, NotifyList(owner.contacts), now);
    }
  }

  // ----- every step is lawful -----

  ghost predicate Right(s: State, j: nat) {
    j < |s.rows| ==> s.rows[j].user in s.owners && Story(Seen(s, j), j)
  }

  predicate Belong(tasks: seq<Task>, n: nat) {
    forall t :: t in tasks ==> t.journey < n
  }

  predicate Below(ids: set<nat>, n: nat) {
    forall i :: i in ids ==> i < n
  }

  ghost predicate Inv(s: State) {
    (forall j: nat :: Right(s, j)) && Belong(s.tasks, |s.rows|) && Below(s.handled, |s.sent|)
  }

  lemma {:induction false} NoTasks(tasks: seq<Task>, j: nat)
    requires Belong(tasks, j)
    ensures AlertsOf(tasks, j) == [] && RemindersOf(tasks, j) == 0
  {
    if tasks != [] {
      NoTasks(tasks[..|tasks| - 1], j);
    }
  }

  /** Rows never vanish, messages are only added, and the scans and the publishing calls leave the tasks alone. */
  ghost predicate Grows(s: State, z: State) {
    && |s.rows| <= |z.rows| <= |s.rows| + 1
    && s.sent <= z.sent
    && s.tasks <= z.tasks
    && (forall u :: u in s.owners ==> u in z.owners)
  }

  lemma {:induction false} WindowScanPosts(s: State, now: int, no: Refusals, n: nat)
    requires n <= |s.rows|
    ensures var z := WindowScanned(s, now, no, n); s.sent <= z.sent && z.tasks == s.tasks && z.handled == s.handled
  {
    if n > 0 {
      WindowScanPosts(s, now, no, n - 1);
    }
  }

  lemma {:induction false} OverdueScanPosts(s: State, now: int, no: Refusals, n: nat)
    requires n <= |s.rows|
    ensures var z := OverdueScanned(s, now, no, n); s.sent <= z.sent && z.tasks == s.tasks && z.handled == s.handled
  {
    if n > 0 {
      OverdueScanPosts(s, now, no, n - 1);
    }
  }

  lemma ReminderGrows(s: State, now: int, i: nat)
    requires i < |s.rows| && s.rows[i].user in s.owners && Belong(s.tasks, |s.rows|)
    ensures var z := Reminded(s, now, i);
            Grows(s, z) && |z.rows| == |s.rows| && Belong(z.tasks, |z.rows|) && z.sent == s.sent
  {
  }

  lemma ReminderIsLawful(s: State, now: int, i: nat, j: nat)
    requires i < |s.rows| && j < |s.rows| && s.rows[i].user in s.owners && Story(Seen(s, i), i)
    ensures |Reminded(s, now, i).rows| == |s.rows|
    ensures Seen(Reminded(s, now, i), j) == Seen(s, j) || GetsReminder(Seen(s, j), now, Seen(Reminded(s, now, i), j))
  {
    ReminderAdds(s.tasks, i, now, j);
  }

  lemma AlertsBelong(i: nat, contacts: seq<Contact>, at: int, n: nat)
    requires i < n
    ensures Belong(Alerts(i, contacts, at), n)
  {
  }

  lemma TimeoutGrows(s: State, now: int, i: nat)
    requires i < |s.rows| && s.rows[i].user in s.owners && Belong(s.tasks, |s.rows|)
    ensures var z := AfterTimeout(s, now, i);
            Grows(s, z) && |z.rows| == |s.rows| && Belong(z.tasks, |z.rows|) && z.sent == s.sent
  {
    AlertsBelong(i, NotifyList(s.owners[s.rows[i].user].contacts), now, |s.rows|);
  }

  /** The write of a timeout, as journey i and as any other journey sees it. */
  lemma WriteIsLawful(s: State, now: int, i: nat, owner: Owner, j: nat)
    requires i < |s.rows| && j < |s.rows| && !s.rows[i].deleted && IsDue(s.rows[i], now)
    ensures var z := TimedOutAs(s, now, i, owner);
            && |z.rows| == |s.rows|
            && (j != i ==> Seen(z, j) == Seen(s, j))
            && (j == i ==> TimesOut(Seen(s, j), j, now, owner, Seen(z, j)))
  {
    AlertsAdd(s.tasks, i, NotifyList(owner.contacts), now, j);
    assert AlertsOf(s.tasks, j) + [] == AlertsOf(s.tasks, j);
  }

  lemma TimeoutIsLawful(s: State, now: int, i: nat, j: nat)
    requires i < |s.rows| && j < |s.rows| && s.rows[i].user in s.owners && Story(Seen(s, i), i)
    ensures |AfterTimeout(s, now, i).rows| == |s.rows|
    ensures var v, z := Seen(s, j), Seen(AfterTimeout(s, now, i), j);
            z == v || TimesOut(v, j, now, s.owners[s.rows[i].user], z)
  {
    if IsDue(s.rows[i], now) {
      WriteIsLawful(s, now, i, s.owners[s.rows[i].user], j);
    }
  }

  lemma DeliveryIsLawful(s: State, now: int, n: nat, j: nat)
    requires n < |s.sent| && j < |s.rows| && Right(s, s.sent[n].journey) && Right(s, j)
    ensures |Delivered(s, now, n).rows| == |s.rows|
    ensures Lawful(Seen(s, j), j, now, OwnerOf(s, j), Seen(Delivered(s, now, n), j))
  {
    var m := s.sent[n];
    if n !in s.handled && Mine(s, m.user, m.journey) {
      if m.kind == Reminder {
        ReminderIsLawful(s, now, m.journey, j);
      } else {
        TimeoutIsLawful(s, now, m.journey, j);
      }
    }
  }

  lemma DeliveryGrows(s: State, now: int, n: nat)
    requires Inv(s) && n < |s.sent|
    ensures var z := Delivered(s, now, n);
            Grows(s, z) && |z.rows| == |s.rows| && Belong(z.tasks, |z.rows|) && Below(z.handled, |z.sent|)
  {
    var m := s.sent[n];
    if n !in s.handled && Mine(s, m.user, m.journey) {
      if m.kind == Reminder {
        ReminderGrows(s, now, m.journey);
      } else {
        TimeoutGrows(s, now, m.journey);
      }
    }
  }

  lemma StepGrows(s: State, e: Event)
    requires Inv(s) && CanHappen(s, e)
    ensures var z := Step(s, e); Grows(s, z) && Belong(z.tasks, |z.rows|) && Below(z.handled, |z.sent|)
    ensures |Step(s, e).rows| > |s.rows| ==> e.act.Create?
  {
    match e.act
    case Deliver(n) => DeliveryGrows(s, e.at, n);
    case ScanWindow(no) => WindowScanPosts(s, e.at, no, |s.rows|);
    case ScanOverdue(no) => OverdueScanPosts(s, e.at, no, |s.rows|);
    case _ =>
  }

  lemma RescheduleIsLawful(s: State, now: int, u: nat, i: nat, when: Option<int>, publishes: bool, j: nat)
    requires j < |s.rows| && Story(Seen(s, j), j)
    ensures var z := Rescheduled(s, now, u, i, when, publishes).0;
            && |z.rows| == |s.rows|
            && (Seen(z, j) == Seen(s, j) || (!s.rows[j].deleted && Edited(Seen(s, j), now, Seen(z, j))))
  {
  }

  lemma StepIsLawful(s: State, e: Event, j: nat)
    requires Inv(s) && CanHappen(s, e) && j < |s.rows| && s.rows[j].user in s.owners
    ensures j < |Step(s, e).rows| && Lawful(Seen(s, j), j, e.at, OwnerOf(s, j), Seen(Step(s, e), j))
  {
    assert Right(s, j);
    match e.act
    case Deliver(n) =>
      assert Right(s, s.sent[n].journey);
      DeliveryIsLawful(s, e.at, n, j);
    case ScanWindow(no) => WindowScanPosts(s, e.at, no, |s.rows|);
    case ScanOverdue(no) => OverdueScanPosts(s, e.at, no, |s.rows|);
    case Reschedule(u, i, when, publishes) => RescheduleIsLawful(s, e.at, u, i, when, publishes, j);
    case _ =>
  }

  /** A journey that was not there before. */
  lemma NewJourney(s: State, e: Event)
    requires Inv(s) && CanHappen(s, e) && e.act.Create? && |Step(s, e).rows| > |s.rows|
    ensures Right(Step(s, e), |s.rows|)
  {
    NoTasks(s.tasks, |s.rows|);
  }

  lemma OldJourney(s: State, e: Event, j: nat)
    requires Inv(s) && CanHappen(s, e) && j < |s.rows|
    ensures Right(Step(s, e), j)
  {
    assert Right(s, j);
    StepGrows(s, e);
    StepIsLawful(s, e, j);
    StoryKept(Seen(s, j), j, e.at, OwnerOf(s, j), Seen(Step(s, e), j));
  }

  lemma InvKept(s: State, e: Event)
    requires Inv(s) && CanHappen(s, e)
    ensures Inv(Step(s, e))
  {
    StepGrows(s, e);
    forall j: nat
      ensures Right(Step(s, e), j)
    {
      if j < |s.rows| {
        OldJourney(s, e, j);
      } else if j < |Step(s, e).rows| {
        NewJourney(s, e);
      }
    }
  }

  lemma InvAtStart()
    ensures Inv(START)
  {
  }

  lemma {:induction false} InvAlways(s: State, now: int, es: seq<Event>)
    requires Valid(s, now, es) && Inv(s)
    ensures Inv(Run(s, now, es))
    decreases |es|
  {
    if es != [] {
      InvKept(s, es[0]);
      InvAlways(Step(s, es[0]), es[0].at, es[1..]);
    }
  }

  // ----- over whole runs -----

  lemma StepPastOngoing(v: View, j: nat, now: int, owner: Owner, z: View)
    requires Story(v, j) && Lawful(v, j, now, owner, z) && v.row.status != Ongoing
    ensures z.alerts == v.alerts && z.reminders == v.reminders
    ensures z.row == v.row.(status := z.row.status, deleted := z.row.deleted)
    ensures z.row.status in {v.row.status, Ended, Cancelled} && (v.row.status == Cancelled ==> z == v)
  {
  }

  /** Main result: a journey that has left ongoing never returns.  All that can still change is
      its status, to ended or cancelled, and a cancelled journey never changes at all. */
  lemma {:induction false} LeftForGood(s: State, now: int, es: seq<Event>, j: nat)
    requires Valid(s, now, es) && Inv(s) && j < |s.rows| && s.rows[j].status != Ongoing
    ensures j < |Run(s, now, es).rows|
    ensures var v, z := Seen(s, j), Seen(Run(s, now, es), j);
            && z.alerts == v.alerts && z.reminders == v.reminders
            && z.row == v.row.(status := z.row.status, deleted := z.row.deleted)
            && z.row.status in {v.row.status, Ended, Cancelled}
            && (v.row.status == Cancelled ==> z == v)
    decreases |es|
  {
    if es != [] {
      assert Right(s, j);
      StepIsLawful(s, es[0], j);
      StepPastOngoing(Seen(s, j), j, es[0].at, OwnerOf(s, j), Seen(Step(s, es[0]), j));
      InvKept(s, es[0]);
      LeftForGood(Step(s, es[0]), es[0].at, es[1..], j);
    }
  }

  predicate IsOngoing(s: State, j: nat) {
    j < |s.rows| && s.rows[j].status == Ongoing
  }

  predicate HasLeft(s: State, j: nat) {
    j < |s.rows| && s.rows[j].status != Ongoing
  }

  /** How often journey j leaves ongoing in a run, and how often it times out. */
  ghost function Departures(s: State, now: int, es: seq<Event>, j: nat): nat
    requires Valid(s, now, es)
    decreases |es|
  {
    if es == [] then 0
    else
      var z := Step(s, es[0]);
      (if IsOngoing(s, j) && !IsOngoing(z, j) then 1 else 0) + Departures(z, es[0].at, es[1..], j)
  }

  lemma JourneysStayOrStart(s: State, e: Event, j: nat)
    requires Inv(s) && CanHappen(s, e)
    ensures HasLeft(s, j) ==> HasLeft(Step(s, e), j)
    ensures IsOngoing(s, j) ==> IsOngoing(Step(s, e), j) || HasLeft(Step(s, e), j)
    ensures j >= |s.rows| ==> !HasLeft(Step(s, e), j)
  {
    StepGrows(s, e);
    assert Right(s, j);
    if j < |s.rows| {
      StepIsLawful(s, e, j);
    }
  }

  /** Main result: a journey leaves ongoing at most once, and it has left exactly when it did so in the run. */
  lemma {:induction false} LeavesOnce(s: State, now: int, es: seq<Event>, j: nat)
    requires Valid(s, now, es) && Inv(s)
    ensures Departures(s, now, es, j) == (if !HasLeft(s, j) && HasLeft(Run(s, now, es), j) then 1 else 0)
    ensures HasLeft(s, j) ==> HasLeft(Run(s, now, es), j)
    decreases |es|
  {
    if es != [] {
      JourneysStayOrStart(s, es[0], j);
      InvKept(s, es[0]);
      LeavesOnce(Step(s, es[0]), es[0].at, es[1..], j);
    }
  }

  /** Main result: at most one alert and one reminder.  The alert goes to at most three contacts, in
      priority order, never earlier than the grace period after the stored expected return; there are
      contact tasks only if it was triggered, and no contact is told of a journey that is ongoing. */
  lemma OneAlertOneReminder(now: int, es: seq<Event>, j: nat)
    requires Valid(START, now, es) && j < |Run(START, now, es).rows|
    ensures var v := Seen(Run(START, now, es), j);
            && v.row.attempts <= 1 && v.reminders <= 1
            && (v.alerts != [] ==> v.row.attempts == 1 && v.row.status != Ongoing)
            && (v.row.attempts == 1 ==> v.row.triggeredAt.Some? && v.row.triggeredAt.value >= v.row.expected + GRACE
                                        && OneAlert(v.alerts, j, v.row.triggeredAt.value))
  {
    InvAlways(START, now, es);
    assert Right(Run(START, now, es), j);
  }

  /** The step at which journey j was alerted. */
  ghost predicate AlertStep(s: State, now: int, es: seq<Event>, j: nat, k: int) {
    && 0 <= k < |es| && Valid(s, now, es[..k])
    && var before := Run(s, now, es[..k]);
    && j < |before.rows| && before.rows[j].user in before.owners && CanHappen(before, es[k])
    && var after := Step(before, es[k]);
    && j < |after.rows| && TimesOut(Seen(before, j), j, es[k].at, OwnerOf(before, j), Seen(after, j))
  }

  lemma StepCreatesAlerts(s: State, e: Event, j: nat)
    requires Inv(s) && CanHappen(s, e) && j < |Step(s, e).rows|
    requires j < |s.rows| ==> Seen(s, j).alerts == []
    requires Seen(Step(s, e), j).alerts != []
    ensures j < |s.rows| && s.rows[j].user in s.owners
    ensures TimesOut(Seen(s, j), j, e.at, OwnerOf(s, j), Seen(Step(s, e), j))
  {
    assert Right(s, j);
    StepGrows(s, e);
    if j < |s.rows| {
      StepIsLawful(s, e, j);
    } else {
      NoTasks(s.tasks, j);
    }
  }

  lemma AlertStepLater(s: State, now: int, es: seq<Event>, j: nat, k: int)
    requires Valid(s, now, es) && es != []
    requires AlertStep(Step(s, es[0]), es[0].at, es[1..], j, k)
    ensures AlertStep(s, now, es, j, k + 1)
  {
    assert es[..k + 1][1..] == es[1..][..k];
  }

  /** The alerts of the first step of a run are all there is at its end. */
  lemma FirstStepAlerts(s: State, now: int, es: seq<Event>, j: nat)
    requires Valid(s, now, es) && Inv(s) && es != []
    requires j < |s.rows| ==> Seen(s, j).alerts == []
    requires j < |Step(s, es[0]).rows| && Seen(Step(s, es[0]), j).alerts != []
    ensures AlertStep(s, now, es, j, 0) && j < |Run(s, now, es).rows|
    ensures var owner := OwnerOf(s, j);
            && owner.balance >= UNIT_PRICE * |owner.contacts|
            && Seen(Run(s, now, es), j).alerts == Alerts(j, NotifyList(owner.contacts), es[0].at)
  {
    var z := Step(s, es[0]);
    StepCreatesAlerts(s, es[0], j);
    InvKept(s, es[0]);
    assert Right(z, j);
    LeftForGood(z, es[0].at, es[1..], j);
    assert es[..0] == [];
    var list := Alerts(j, NotifyList(OwnerOf(s, j).contacts), es[0].at);
    assert [] + list == list;
  }

  /** Main result: every contact task was written by one step, which took the journey from ongoing to
      timed out after the grace period, for a balance that covered every contact. */
  lemma {:induction false} AlertsHaveTheirStep(s: State, now: int, es: seq<Event>, j: nat) returns (k: int)
    requires Valid(s, now, es) && Inv(s)
    requires j < |s.rows| ==> Seen(s, j).alerts == []
    requires j < |Run(s, now, es).rows| && Seen(Run(s, now, es), j).alerts != []
    ensures AlertStep(s, now, es, j, k)
    ensures var owner := OwnerOf(Run(s, now, es[..k]), j);
            && owner.balance >= UNIT_PRICE * |owner.contacts|
            && Seen(Run(s, now, es), j).alerts == Alerts(j, NotifyList(owner.contacts), es[k].at)
    decreases |es|
  {
    assert es != [];
    var z := Step(s, es[0]);
    if j < |z.rows| && Seen(z, j).alerts != [] {
      k := 0;
      FirstStepAlerts(s, now, es, j);
      assert es[..0] == [];
    } else {
      InvKept(s, es[0]);
      k := AlertsHaveTheirStep(z, es[0].at, es[1..], j);
      AlertStepLater(s, now, es, j, k);
      assert es[..k + 1][1..] == es[1..][..k];
      k := k + 1;
    }
  }
}
