/** When a journey is looked at and when it must have been alerted (cmd/scheduler/main.go:123-175). */
module JourneyTiming {
  import opened Wrappers
  import opened ContactBook
  import opened Journey
  import opened JourneySafety

  // ----- the states along a run -----

  /** The state before event i. */
  ghost function At(s: State, now: int, es: seq<Event>, i: nat): State
    requires i <= |es| && Valid(s, now, es)
    decreases |es|
  {
    if i == 0 then s else At(Step(s, es[0]), es[0].at, es[1..], i - 1)
  }

  lemma {:induction false} Advance(s: State, now: int, es: seq<Event>, i: nat)
    requires i < |es| && Valid(s, now, es) && Inv(s)
    ensures var x := At(s, now, es, i);
            Inv(x) && CanHappen(x, es[i]) && At(s, now, es, i + 1) == Step(x, es[i]) && Inv(Step(x, es[i]))
    ensures now <= es[0].at <= es[i].at
    decreases i
  {
    InvKept(s, es[0]);
    if i > 0 {
      Advance(Step(s, es[0]), es[0].at, es[1..], i - 1);
    }
  }

  lemma {:induction false} Later(s: State, now: int, es: seq<Event>, i: nat, k: nat)
    requires i <= k < |es| && Valid(s, now, es) && Inv(s)
    ensures es[i].at <= es[k].at
    decreases k - i
  {
    if i < k {
      Later(s, now, es, i, k - 1);
      InOrder(s, now, es, k - 1);
    }
  }

  lemma {:induction false} InOrder(s: State, now: int, es: seq<Event>, i: nat)
    requires i + 1 < |es| && Valid(s, now, es)
    ensures es[i].at <= es[i + 1].at
    decreases i
  {
    if i == 0 {
      assert es[1..][0] == es[1];
    } else {
      InOrder(Step(s, es[0]), es[0].at, es[1..], i - 1);
    }
  }

  lemma {:induction false} LeftLater(s: State, now: int, es: seq<Event>, j: nat, i: nat, k: nat)
    requires i <= k <= |es| && Valid(s, now, es) && Inv(s)
    requires HasLeft(At(s, now, es, i), j)
    ensures HasLeft(At(s, now, es, k), j)
    decreases k - i
  {
    if i < k {
      LeftLater(s, now, es, j, i, k - 1);
      Advance(s, now, es, k - 1);
      JourneysStayOrStart(At(s, now, es, k - 1), es[k - 1], j);
    }
  }

  /** The owner moves the expected return of journey j, and the call is accepted. */
  predicate Moves(s: State, e: Event, j: nat) {
    && e.act.Reschedule? && e.act.journey == j && e.act.when.Some? && Mine(s, e.act.user, j)
    && s.rows[j].status == Ongoing && e.act.when.value - e.at >= MIN_LEAD && e.act.when.value != s.rows[j].expected
  }

  /** No event from i up to k does. */
  ghost predicate KeepsReturn(s: State, now: int, es: seq<Event>, j: nat, i: nat, k: nat)
    requires k <= |es| && Valid(s, now, es)
  {
    forall x: nat :: i <= x < k ==> !Moves(At(s, now, es, x), es[x], j)
  }

  lemma DeliveryKeepsReturn(s: State, now: int, n: nat, j: nat)
    requires n < |s.sent| && j < |s.rows|
    ensures var z := Delivered(s, now, n); j < |z.rows| && z.rows[j].expected == s.rows[j].expected
  {
  }

  lemma RescheduleMovesIff(s: State, now: int, u: nat, i: nat, when: Option<int>, publishes: bool, j: nat)
    requires j < |s.rows| && (s.rows[j].deleted <==> s.rows[j].status == Cancelled)
    ensures var z := Rescheduled(s, now, u, i, when, publishes).0;
            && j < |z.rows|
            && (z.rows[j].expected != s.rows[j].expected
                <==> Moves(s, Event(now, Reschedule(u, i, when, publishes)), j))
  {
  }

  /** Nothing else changes the stored return, refused calls and calls of strangers included. */
  lemma ReturnMovesIff(s: State, e: Event, j: nat)
    requires Inv(s) && CanHappen(s, e) && j < |s.rows|
    ensures j < |Step(s, e).rows| && (Step(s, e).rows[j].expected != s.rows[j].expected <==> Moves(s, e, j))
  {
    assert Right(s, j);
    match e.act
    case Deliver(n) => DeliveryKeepsReturn(s, e.at, n, j);
    case Reschedule(u, i, when, publishes) => RescheduleMovesIff(s, e.at, u, i, when, publishes, j);
    case _ =>
  }

  lemma {:induction false} ReturnKept(s: State, now: int, es: seq<Event>, j: nat, i: nat, k: nat)
    requires i <= k <= |es| && Valid(s, now, es) && Inv(s) && j < |At(s, now, es, i).rows|
    requires KeepsReturn(s, now, es, j, i, k)
    ensures j < |At(s, now, es, k).rows|
    ensures At(s, now, es, k).rows[j].expected == At(s, now, es, i).rows[j].expected
    decreases k - i
  {
    if i < k {
      ReturnKept(s, now, es, j, i, k - 1);
      Advance(s, now, es, k - 1);
      ReturnMovesIff(At(s, now, es, k - 1), es[k - 1], j);
    }
  }

  lemma {:induction false} SentStays(s: State, now: int, es: seq<Event>, i: nat, k: nat)
    requires i <= k <= |es| && Valid(s, now, es) && Inv(s)
    ensures At(s, now, es, i).sent <= At(s, now, es, k).sent
    decreases k - i
  {
    if i < k {
      SentStays(s, now, es, i, k - 1);
      Advance(s, now, es, k - 1);
      StepGrows(At(s, now, es, k - 1), es[k - 1]);
    }
  }

  // ----- the backstop -----

  /** An overdue scan that reaches the broker for journey j, in (from, from + period]. */
  ghost predicate OverdueScanIn(es: seq<Event>, j: nat, from: int, period: int) {
    exists k :: 0 <= k < |es| && from < es[k].at <= from + period && es[k].act.ScanOverdue?
        && j !in es[k].act.no.timeouts
  }

  /** Overdue scans are at most `period` apart, from `now` to `end`. */
  ghost predicate OverdueScansEvery(es: seq<Event>, j: nat, period: int, now: int, end: int) {
    forall x :: now <= x && x + period < end ==> OverdueScanIn(es, j, x, period)
  }

  ghost predicate DeliveredIn(es: seq<Event>, n: nat, from: int, to: int) {
    exists k :: 0 <= k < |es| && from <= es[k].at <= to && es[k].act == Deliver(n)
  }

  /** Every message that is due more than `delta` before `end` is delivered within `delta`. */
  ghost predicate DeliversWithin(z: State, es: seq<Event>, delta: int, end: int) {
    forall n: nat :: n < |z.sent| && z.sent[n].due + delta < end ==>
      DeliveredIn(es, n, z.sent[n].due, z.sent[n].due + delta)
  }

  lemma {:induction false} ScanPosts(s: State, now: int, no: Refusals, n: nat, j: nat) returns (i: nat)
    requires j < n <= |s.rows|
    requires Overdue(s.rows[j], now) && s.rows[j].user in s.owners && j !in no.timeouts
    ensures var z := OverdueScanned(s, now, no, n);
            |s.sent| <= i < |z.sent| && z.sent[i] == Message(Timeout, j, s.rows[j].user, now)
  {
    OverdueScanPosts(s, now, no, n - 1);
    if n - 1 == j {
      i := |OverdueScanned(s, now, no, n - 1).sent|;
    } else {
      i := ScanPosts(s, now, no, n - 1, j);
    }
  }

  /** The scan's filter implies the processor's guard, then and at any later delivery. */
  lemma ScannedIsDue(r: Row, now: int, later: int)
    requires Overdue(r, now) && now <= later
    ensures IsDue(r, later)
  {
  }

  /** Message n about journey j is addressed to its owner. */
  predicate Concerns(s: State, n: nat, j: nat) {
    && n < |s.sent| && j < |s.rows|
    && s.sent[n].kind == Timeout && s.sent[n].journey == j && s.sent[n].user == s.rows[j].user
  }

  lemma UsersStay(s: State, e: Event, j: nat)
    requires Inv(s) && CanHappen(s, e) && j < |s.rows|
    ensures j < |Step(s, e).rows| && Step(s, e).rows[j].user == s.rows[j].user
  {
    assert Right(s, j);
    StepIsLawful(s, e, j);
  }

  /** Handled, at an instant past the grace period, implies that the journey has left. */
  lemma HandledMeansLeft(s: State, e: Event, n: nat, j: nat)
    requires Inv(s) && CanHappen(s, e) && Concerns(s, n, j)
    requires n in s.handled ==> HasLeft(s, j)
    requires IsOngoing(s, j) ==> IsDue(s.rows[j], e.at)
    ensures Concerns(Step(s, e), n, j)
    ensures n in Step(s, e).handled ==> HasLeft(Step(s, e), j)
    ensures e.act == Deliver(n) ==> HasLeft(Step(s, e), j)
  {
    assert Right(s, j);
    StepGrows(s, e);
    UsersStay(s, e, j);
    JourneysStayOrStart(s, e, j);
    if e.act == Deliver(n) {
    } else if e.act.Deliver? {
      assert n in Step(s, e).handled ==> n in s.handled;
    } else {
      match e.act
      case ScanWindow(no) => WindowScanPosts(s, e.at, no, |s.rows|);
      case ScanOverdue(no) => OverdueScanPosts(s, e.at, no, |s.rows|);
      case _ =>
    }
  }

  /** From the publishing step to any later one. */
  lemma {:induction false} HandledMeansLeftAt(s: State, now: int, es: seq<Event>, n: nat, j: nat, i: nat, k: nat)
    requires i <= k <= |es| && Valid(s, now, es) && Inv(s)
    requires var x := At(s, now, es, i); Concerns(x, n, j) && n !in x.handled
    requires forall m: nat :: i <= m < k && IsOngoing(At(s, now, es, m), j) ==>
               IsDue(At(s, now, es, m).rows[j], es[m].at)
    ensures var z := At(s, now, es, k); Concerns(z, n, j) && (n in z.handled ==> HasLeft(z, j))
    decreases k - i
  {
    if i < k {
      HandledMeansLeftAt(s, now, es, n, j, i, k - 1);
      Advance(s, now, es, k - 1);
      HandledMeansLeft(At(s, now, es, k - 1), es[k - 1], n, j);
    }
  }

  /** Once a scan at event i has published message n, the journey has left when n is delivered at event k. */
  lemma PublishedLeaves(s: State, now: int, es: seq<Event>, n: nat, j: nat, i: nat, k: nat)
    requires i < k < |es| && Valid(s, now, es) && Inv(s) && es[k].act == Deliver(n)
    requires var x := At(s, now, es, i + 1); Concerns(x, n, j) && n !in x.handled
    requires At(s, now, es, i + 1).rows[j].expected + GRACE < es[i].at
    requires KeepsReturn(s, now, es, j, i + 1, k)
    ensures HasLeft(At(s, now, es, k + 1), j)
  {
    forall m: nat | i + 1 <= m <= k && IsOngoing(At(s, now, es, m), j)
      ensures IsDue(At(s, now, es, m).rows[j], es[m].at)
    {
      ReturnKept(s, now, es, j, i + 1, m);
      Later(s, now, es, i, m);
    }
    HandledMeansLeftAt(s, now, es, n, j, i + 1, k);
    Advance(s, now, es, k);
    HandledMeansLeft(At(s, now, es, k), es[k], n, j);
  }

  lemma {:induction false} RunIsLast(s: State, now: int, es: seq<Event>)
    requires Valid(s, now, es)
    ensures Run(s, now, es) == At(s, now, es, |es|)
    decreases |es|
  {
    if es != [] {
      RunIsLast(Step(s, es[0]), es[0].at, es[1..]);
    }
  }

  /** The scan at event k publishes a message that is delivered in time. */
  lemma ScanLeadsToAlert(s: State, now: int, es: seq<Event>, j: nat, k: nat, delta: int, i: nat)
    requires Valid(s, now, es) && Inv(s) && j < |s.rows|
    requires i < |es| && KeepsReturn(s, now, es, j, 0, i)
    requires k < i && es[k].act.ScanOverdue? && j !in es[k].act.no.timeouts
    requires es[k].at > s.rows[j].expected + GRACE && es[i].at > es[k].at + delta
    requires DeliversWithin(Run(s, now, es), es, delta, es[i].at)
    ensures HasLeft(At(s, now, es, i), j)
  {
    var x := At(s, now, es, k);
    Advance(s, now, es, k);
    ReturnKept(s, now, es, j, 0, k);
    if HasLeft(x, j) {
      LeftLater(s, now, es, j, k, i);
    } else {
      assert Right(x, j);
      var n := ScanPosts(x, es[k].at, es[k].act.no, |x.rows|, j);
      OverdueScanPosts(x, es[k].at, es[k].act.no, |x.rows|);
      var z := Run(s, now, es);
      RunIsLast(s, now, es);
      SentStays(s, now, es, k + 1, |es|);
      assert DeliveredIn(es, n, z.sent[n].due, z.sent[n].due + delta);
      var d :| 0 <= d < |es| && es[k].at <= es[d].at <= es[k].at + delta && es[d].act == Deliver(n);
      DeliveredAfter(s, now, es, n, k, d);
      DeliveredBefore(s, now, es, d, i);
      PublishedLeaves(s, now, es, n, j, k, d);
      LeftLater(s, now, es, j, d + 1, i);
    }
  }

  /** A message is not delivered before it is published. */
  lemma DeliveredAfter(s: State, now: int, es: seq<Event>, n: nat, k: nat, d: nat)
    requires Valid(s, now, es) && Inv(s) && k < |es| && d < |es| && es[d].act == Deliver(n)
    requires |At(s, now, es, k).sent| <= n && !es[k].act.Deliver?
    ensures k < d
  {
    Advance(s, now, es, d);
    if d < k {
      SentStays(s, now, es, d, k);
    }
  }

  lemma DeliveredBefore(s: State, now: int, es: seq<Event>, d: nat, i: nat)
    requires Valid(s, now, es) && Inv(s) && d < |es| && i < |es| && es[d].at < es[i].at
    ensures d < i
  {
    if i <= d {
      Later(s, now, es, i, d);
    }
  }

  /** Main result: if overdue scans come at most `period` apart and messages are delivered within
      `delta`, a journey whose expected return is not moved until then has left ongoing when
      grace + period + delta have passed since.  The run starts in any sound state, so earlier
      messages may have come early, been dropped or been lost. */
  lemma BackstopBound(s: State, now: int, es: seq<Event>, j: nat, period: int, delta: int, i: nat)
    requires Valid(s, now, es) && Inv(s) && j < |s.rows| && period >= 0
    requires i < |es| && KeepsReturn(s, now, es, j, 0, i)
    requires OverdueScansEvery(es, j, period, now, es[i].at)
    requires DeliversWithin(Run(s, now, es), es, delta, es[i].at)
    requires var due := s.rows[j].expected + GRACE;
             es[i].at > (if due < now then now else due) + period + delta && delta >= 0
    ensures HasLeft(At(s, now, es, i), j)
  {
    var due := s.rows[j].expected + GRACE;
    var x := if due < now then now else due;
    assert OverdueScanIn(es, j, x, period);
    var k :| 0 <= k < |es| && x < es[k].at <= x + period && es[k].act.ScanOverdue? && j !in es[k].act.no.timeouts;
    DeliveredBefore(s, now, es, k, i);
    ScanLeadsToAlert(s, now, es, j, k, delta, i);
  }

  /** The owner ends or cancels journey j, and the call is accepted. */
  predicate Closes(s: State, e: Event, j: nat) {
    || (e.act.Complete? && e.act.journey == j && Mine(s, e.act.user, j) && s.rows[j].status != Ended)
    || (e.act.Cancel? && e.act.journey == j && Mine(s, e.act.user, j))
  }

  lemma DeliveryTimesOutOnly(s: State, now: int, n: nat, j: nat)
    requires Inv(s) && n < |s.sent| && j < |s.rows| && s.rows[j].status in {Ongoing, TimedOut}
    ensures var z := Delivered(s, now, n); j < |z.rows| && z.rows[j].status in {Ongoing, TimedOut}
  {
    assert Right(s, s.sent[n].journey) && Right(s, j);
    DeliveryGrows(s, now, n);
    if Mine(s, s.sent[n].user, s.sent[n].journey) {
      ReminderIsLawful(s, now, s.sent[n].journey, j);
      TimeoutIsLawful(s, now, s.sent[n].journey, j);
    }
  }

  /** Nothing else takes a journey from ongoing or timed out, calls of strangers included. */
  lemma ClosesIff(s: State, e: Event, j: nat)
    requires Inv(s) && CanHappen(s, e) && j < |s.rows| && s.rows[j].status in {Ongoing, TimedOut}
    ensures j < |Step(s, e).rows| && (Step(s, e).rows[j].status !in {Ongoing, TimedOut} <==> Closes(s, e, j))
  {
    assert Right(s, j);
    match e.act
    case Deliver(n) => DeliveryTimesOutOnly(s, e.at, n, j);
    case _ =>
  }

  lemma {:induction false} TimesOutOnly(s: State, now: int, es: seq<Event>, j: nat, i: nat)
    requires i <= |es| && Valid(s, now, es) && Inv(s) && IsOngoing(s, j)
    requires forall k: nat :: k < i ==> !Closes(At(s, now, es, k), es[k], j)
    ensures var z := At(s, now, es, i); j < |z.rows| && z.rows[j].status in {Ongoing, TimedOut}
    decreases i
  {
    if i > 0 {
      TimesOutOnly(s, now, es, j, i - 1);
      Advance(s, now, es, i - 1);
      ClosesIff(At(s, now, es, i - 1), es[i - 1], j);
    }
  }

  /** Main result: a traveller who does not report back is alerted about by then, or, when the
      balance does not cover the contacts, recorded as not alerted. */
  lemma SilenceRaisesTheAlarm(s: State, now: int, es: seq<Event>, j: nat, period: int, delta: int, i: nat)
    requires Valid(s, now, es) && Inv(s) && IsOngoing(s, j) && period >= 0 && delta >= 0
    requires i < |es| && KeepsReturn(s, now, es, j, 0, i)
    requires forall k: nat :: k < i ==> !Closes(At(s, now, es, k), es[k], j)
    requires OverdueScansEvery(es, j, period, now, es[i].at)
    requires DeliversWithin(Run(s, now, es), es, delta, es[i].at)
    requires var due := s.rows[j].expected + GRACE; es[i].at > (if due < now then now else due) + period + delta
    ensures var z := At(s, now, es, i);
            && j < |z.rows| && z.rows[j].status == TimedOut && z.rows[j].alert in {Triggered, Failed}
            && (z.rows[j].alert == Triggered ==>
                  z.rows[j].triggeredAt.Some? && OneAlert(Seen(z, j).alerts, j, z.rows[j].triggeredAt.value))
  {
    BackstopBound(s, now, es, j, period, delta, i);
    TimesOutOnly(s, now, es, j, i);
    Advance(s, now, es, i);
    assert Right(At(s, now, es, i), j);
  }

  // ----- the window scan -----

  ghost predicate WindowScanIn(es: seq<Event>, from: int, period: int) {
    exists k :: 0 <= k < |es| && from < es[k].at <= from + period && es[k].act.ScanWindow?
  }

  ghost predicate WindowScansEvery(es: seq<Event>, period: int, now: int, end: int) {
    forall x :: now <= x && x + period < end ==> WindowScanIn(es, x, period)
  }

  /** The event is a successful create or move of journey j. */
  predicate SetsReturn(s: State, e: Event, j: nat) {
    match e.act
    case Create(u, expected, publishes) => j == |s.rows| && Created(s, e.at, u, expected, publishes).1 == Fine
    case Reschedule(u, i, when, publishes) =>
      i == j && when.Some? && IsOngoing(s, j) && Rescheduled(s, e.at, u, i, when, publishes).1 == Fine
    case _ => false
  }

  lemma SetsWithLead(s: State, e: Event, j: nat)
    requires CanHappen(s, e) && SetsReturn(s, e, j) && Inv(s)
    ensures j < |Step(s, e).rows| && Step(s, e).rows[j].expected >= e.at + MIN_LEAD
  {
    assert Right(s, j);
  }

  /** Main result: with window scans at most ten minutes apart (the loop runs every five), a journey
      that is still ongoing past its expected return was seen by a scan after that return was last
      set, with a delay within twenty minutes, far below the limit of the broker. */
  lemma SeenBeforeItsReturn(s: State, now: int, es: seq<Event>, j: nat, period: int, i: nat) returns (k: nat)
    requires Valid(s, now, es) && Inv(s) && 0 < i < |es| && SetsReturn(s, es[0], j)
    requires KeepsReturn(s, now, es, j, 1, i)
    requires 0 < period <= WINDOW && WindowScansEvery(es, period, es[0].at, es[i].at)
    requires IsOngoing(At(s, now, es, i), j) && At(s, now, es, i).rows[j].expected < es[i].at
    ensures 0 < k < i && es[k].act.ScanWindow? && es[k].at > es[0].at
    ensures var x := At(s, now, es, k);
            && j < |x.rows| && Approaching(x.rows[j], es[k].at)
            && 0 < x.rows[j].expected + GRACE - es[k].at <= 20 * MINUTE < DAY
  {
    Advance(s, now, es, 0);
    assert At(s, now, es, 1) == Step(s, es[0]) by { assert At(s, now, es, 0) == s; }
    SetsWithLead(s, es[0], j);
    var due := Step(s, es[0]).rows[j].expected;
    ReturnKept(s, now, es, j, 1, i);
    assert WindowScanIn(es, due - period, period);
    k :| 0 <= k < |es| && due - period < es[k].at <= due && es[k].act.ScanWindow?;
    DeliveredBefore(s, now, es, k, i);
    ReturnKept(s, now, es, j, 1, k);
    Advance(s, now, es, k);
    var x := At(s, now, es, k);
    if HasLeft(x, j) {
      LeftLater(s, now, es, j, k, i);
    }
    assert Right(x, j);
  }

  /** A scan that sees an unmarked journey publishes its timeout message, due less than a second early. */
  lemma {:induction false} WindowScanAnnounces(s: State, now: int, no: Refusals, n: nat, j: nat) returns (i: nat)
    requires j < n <= |s.rows|
    requires Approaching(s.rows[j], now) && s.rows[j].user in s.owners && j !in no.timeouts
            && !IsMarked(s.timeoutMarks, j, now)
    ensures |s.sent| <= i < |WindowScanned(s, now, no, n).sent|
    ensures EndsWithGrace(WindowScanned(s, now, no, n).sent[i], s.rows[j], j)
  {
    var before := WindowScanned(s, now, no, n - 1);
    WindowScanPosts(s, now, no, n - 1);
    if n - 1 == j {
      ScanMarksEarlier(s, now, no, j, j);
      i := ApproachedAnnounces(before, now, no, j);
    } else {
      i := WindowScanAnnounces(s, now, no, n - 1, j);
      assert before.sent <= Approached(before, now, no, n - 1).sent;
    }
  }

  /** A timeout message for journey j, due less than a second before its grace period ends. */
  predicate EndsWithGrace(m: Message, r: Row, j: nat) {
    m.kind == Timeout && m.journey == j && m.user == r.user && m.due <= r.expected + GRACE < m.due + SECOND
  }

  /** A timeout message for journey j. */
  predicate AlarmFor(m: Message, j: nat) {
    m.kind == Timeout && m.journey == j
  }

  /** And only such a journey gets one. */
  lemma {:induction false} AnnouncedOnlyIf(s: State, now: int, no: Refusals, n: nat, j: nat, i: nat)
    requires j < |s.rows| && n <= |s.rows|
    requires |s.sent| <= i < |WindowScanned(s, now, no, n).sent| && AlarmFor(WindowScanned(s, now, no, n).sent[i], j)
    ensures Approaching(s.rows[j], now) && s.rows[j].user in s.owners
    ensures j !in no.timeouts && !IsMarked(s.timeoutMarks, j, now)
    ensures EndsWithGrace(WindowScanned(s, now, no, n).sent[i], s.rows[j], j)
  {
    var before := WindowScanned(s, now, no, n - 1);
    WindowScanPosts(s, now, no, n - 1);
    if i < |before.sent| {
      assert before.sent <= Approached(before, now, no, n - 1).sent;
      AnnouncedOnlyIf(s, now, no, n - 1, j, i);
    } else {
      ApproachedAdds(before, now, no, n - 1, i);
      ScanMarksEarlier(s, now, no, j, j);
    }
  }

  lemma ApproachedAdds(s: State, now: int, no: Refusals, j: nat, i: nat)
    requires j < |s.rows| && |s.sent| <= i < |Approached(s, now, no, j).sent|
    ensures Approached(s, now, no, j).sent[i].journey == j
    ensures Approached(s, now, no, j).sent[i].kind == Timeout ==>
              && Approaching(s.rows[j], now) && s.rows[j].user in s.owners
              && j !in no.timeouts && !IsMarked(s.timeoutMarks, j, now)
              && EndsWithGrace(Approached(s, now, no, j).sent[i], s.rows[j], j)
  {
  }

  /** Main result: a window scan publishes a timeout message for a journey exactly if it sees the journey, its
      owner exists, the broker accepts, and no mark of the last 24 hours stands in the way; and then
      the message is due in the last second of the grace period. */
  lemma WindowScanAnnouncesIff(s: State, now: int, no: Refusals, j: nat)
    requires j < |s.rows|
    ensures var z := WindowScanned(s, now, no, |s.rows|);
            && ((exists i :: |s.sent| <= i < |z.sent| && AlarmFor(z.sent[i], j))
                <==> (Approaching(s.rows[j], now) && s.rows[j].user in s.owners
                      && j !in no.timeouts && !IsMarked(s.timeoutMarks, j, now)))
            && (forall i :: |s.sent| <= i < |z.sent| && AlarmFor(z.sent[i], j) ==>
                  EndsWithGrace(z.sent[i], s.rows[j], j))
  {
    var z := WindowScanned(s, now, no, |s.rows|);
    if Approaching(s.rows[j], now) && s.rows[j].user in s.owners && j !in no.timeouts
       && !IsMarked(s.timeoutMarks, j, now) {
      var i := WindowScanAnnounces(s, now, no, |s.rows|, j);
      assert AlarmFor(z.sent[i], j);
    }
    forall i | |s.sent| <= i < |z.sent| && AlarmFor(z.sent[i], j)
      ensures EndsWithGrace(z.sent[i], s.rows[j], j)
    {
      AnnouncedOnlyIf(s, now, no, |s.rows|, j, i);
    }
    if i :| |s.sent| <= i < |z.sent| && AlarmFor(z.sent[i], j) {
      AnnouncedOnlyIf(s, now, no, |s.rows|, j, i);
    }
  }

  lemma ApproachedAnnounces(s: State, now: int, no: Refusals, j: nat) returns (i: nat)
    requires j < |s.rows| && Approaching(s.rows[j], now) && s.rows[j].user in s.owners
    requires j !in no.timeouts && !IsMarked(s.timeoutMarks, j, now)
    ensures |s.sent| <= i < |Approached(s, now, no, j).sent|
            && EndsWithGrace(Approached(s, now, no, j).sent[i], s.rows[j], j)
  {
    i := |ReminderPosted(s, now, j, j in no.reminders).sent|;
  }

  lemma {:induction false} ScanMarksEarlier(s: State, now: int, no: Refusals, n: nat, j: nat)
    requires n <= j < |s.rows|
    ensures IsMarked(WindowScanned(s, now, no, n).timeoutMarks, j, now) == IsMarked(s.timeoutMarks, j, now)
  {
    if n > 0 {
      ScanMarksEarlier(s, now, no, n - 1, j);
    }
  }

  // ----- early, stale and late -----

  /** Setting a return announces its timeout exactly if the user wants it, the delay is within a day and the
      broker accepts; the message is due less than a second before the grace period ends, never after. */
  lemma SettingAnnounces(s: State, e: Event, j: nat)
    requires Inv(s) && CanHappen(s, e) && SetsReturn(s, e, j)
    ensures j < |Step(s, e).rows| && Step(s, e).rows[j].user in s.owners
    ensures var z := Step(s, e); var end := z.rows[j].expected + GRACE;
            if e.act.publishes && s.owners[z.rows[j].user].autoNotify && end - e.at <= DAY
            then && |z.sent| == |s.sent| + 1 && z.sent[..|s.sent|] == s.sent
                 && var m := z.sent[|s.sent|];
                 && m.kind == Timeout && m.journey == j && m.user == z.rows[j].user
                 && m.due <= end < m.due + SECOND && (m.due - e.at) % SECOND == 0
            else z.sent == s.sent
  {
    assert Right(s, j);
    SetsWithLead(s, e, j);
  }

  /** Main result: a timeout message is posted with its delay cut to whole seconds, so it may come early; it
      is then dropped for good.  Delivered the moment it is due, it works exactly if nothing was cut. */
  lemma EarlyMessageIsDropped(s: State, posted: int, now: int, n: nat, j: nat)
    requires Inv(s) && Concerns(s, n, j) && IsOngoing(s, j) && n !in s.handled
    requires posted <= s.rows[j].expected + GRACE
    requires s.sent[n].due == posted + WholeSeconds(s.rows[j].expected + GRACE - posted) && s.sent[n].due <= now
    ensures var z := Delivered(s, now, n);
            && (HasLeft(z, j) <==> s.rows[j].expected + GRACE <= now)
            && (now == s.sent[n].due ==> (HasLeft(z, j) <==> (s.rows[j].expected + GRACE - posted) % SECOND == 0))
            && s.rows[j].expected + GRACE < s.sent[n].due + SECOND
            && (forall later :: Delivered(z, later, n) == z)
  {
    assert Right(s, j);
    var z := Delivered(s, now, n);
    TimeoutGrows(s, now, j);
    assert n in z.handled && n < |z.sent|;
  }

  /** A run in which the mark of an earlier scan outlives a reschedule: its events and its states. */
  function StaleEvent(i: int): Event {
    match i
    case 0 => Event(0, ChangeOwner(1, Owner(false, [], 0)))
    case 1 => Event(0, Create(1, 20 * MINUTE, false))
    case 2 => Event(15 * MINUTE, ScanWindow(Refusals({}, {})))
    case 3 => Event(16 * MINUTE, Reschedule(1, 0, Some(40 * MINUTE), false))
    case 4 => Event(30 * MINUTE, Deliver(0))
    case 5 => Event(30 * MINUTE, Deliver(1))
    case _ => Event(35 * MINUTE, ScanWindow(Refusals({}, {})))
  }

  function StaleState(i: int): State {
    var owned := START.(owners := map[1 := Owner(false, [], 0)]);
    var created := owned.(rows := [Fresh(1, 20 * MINUTE)]);
    var marks := map[0 := 15 * MINUTE + DAY];
    var scanned := created.(sent := [Message(Reminder, 0, 1, 20 * MINUTE), Message(Timeout, 0, 1, 30 * MINUTE)],
                            timeoutMarks := marks, reminderMarks := marks);
    var moved := scanned.(rows := [Fresh(1, 40 * MINUTE)]);
    match i
    case 0 => START
    case 1 => owned
    case 2 => created
    case 3 => scanned
    case 4 => moved
    case 5 => moved.(handled := {0})
    case _ => moved.(handled := {0, 1})
  }

  lemma StaleStep(i: int)
    requires 0 <= i < 7
    ensures CanHappen(StaleState(i), StaleEvent(i)) && Step(StaleState(i), StaleEvent(i)) == StaleState(i + 1)
  {
    if i == 2 || i == 6 {
      OneRowScan(StaleState(i), StaleEvent(i).at, Refusals({}, {}));
    }
  }

  lemma {:induction false} StaleRun(i: int) returns (es: seq<Event>)
    requires 0 <= i < 7
    ensures |es| == 7 - i && es[6 - i] == StaleEvent(6)
    ensures Valid(StaleState(i), StaleEvent(i).at, es) && Run(StaleState(i), StaleEvent(i).at, es) == StaleState(7)
    ensures At(StaleState(i), StaleEvent(i).at, es, 6 - i) == StaleState(6)
    decreases 7 - i
  {
    StaleStep(i);
    var rest := [];
    if i < 6 {
      rest := StaleRun(i + 1);
      Earlier(StaleState(i + 1), StaleEvent(i).at, StaleEvent(i + 1).at, rest);
      assert At(StaleState(i + 1), StaleEvent(i).at, rest, 5 - i) == StaleState(6);
    }
    Cons(StaleState(i), StaleEvent(i).at, StaleEvent(i), rest, StaleState(i + 1));
    es := [StaleEvent(i)] + rest;
  }

  /** What happens does not depend on when the clock was last looked at. */
  lemma Earlier(s: State, now: int, later: int, es: seq<Event>)
    requires now <= later && Valid(s, later, es)
    ensures Valid(s, now, es) && Run(s, now, es) == Run(s, later, es)
    ensures forall i: nat :: i <= |es| ==> At(s, now, es, i) == At(s, later, es, i)
  {
  }

  /** That a window scan always publishes for a journey it sees is false.  In this run the last scan
      sees the journey, every message that was ever published has been handled, and only an overdue
      scan can still raise the alarm. */
  lemma RescheduleOutlivesMark() returns (es: seq<Event>)
    ensures |es| == 7 && Valid(START, 0, es) && es[6].act.ScanWindow?
    ensures var x := At(START, 0, es, 6);
            |x.rows| == 1 && Approaching(x.rows[0], es[6].at) && x.rows[0].user in x.owners
    ensures var z := Run(START, 0, es); IsOngoing(z, 0) && forall n: nat :: n < |z.sent| ==> n in z.handled
  {
    es := StaleRun(0);
  }

  lemma Cons(s: State, now: int, e: Event, rest: seq<Event>, z: State)
    requires now <= e.at && CanHappen(s, e) && z == Step(s, e) && Valid(z, e.at, rest)
    ensures Valid(s, now, [e] + rest) && Run(s, now, [e] + rest) == Run(z, e.at, rest)
    ensures forall i: nat :: i <= |rest| ==> At(s, now, [e] + rest, i + 1) == At(z, e.at, rest, i)
  {
    assert ([e] + rest)[1..] == rest;
  }

  lemma OneRowScan(s: State, now: int, no: Refusals)
    requires |s.rows| == 1
    ensures WindowScanned(s, now, no, 1) ==
            if Approaching(s.rows[0], now) && s.rows[0].user in s.owners
            then TimeoutPosted(ReminderPosted(s, now, 0, 0 in no.reminders), now, 0, 0 in no.timeouts)
            else s
  {
    assert WindowScanned(s, now, no, 0) == s;
  }
}
