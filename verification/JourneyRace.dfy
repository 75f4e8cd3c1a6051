/** ProcessTimeout reads the journey at internal/service/journey.go:639 and writes it at :717 without looking
    again.  Here the read and the write of n processors are separate steps that interleave freely
    with each other and with all other calls on journeys. */
module JourneyRace {
  import opened Wrappers
  import opened ContactBook
  import opened Journey
  import opened JourneySafety

  /** A processor has no call in progress, or has found a journey due and read its owner. */
  datatype Slot = Idle | Passed(journey: nat, owner: Owner, at: int)

  datatype Race = Race(base: State, slots: seq<Slot>)

  datatype Move =
    | Reads(p: nat, user: nat, journey: nat)
    | Writes(p: nat)
    | Does(act: Act)  // any other call, scan or reminder

  datatype Tick = Tick(at: int, move: Move)

  predicate IsTimeout(s: State, act: Act) {
    act.Deliver? && act.n < |s.sent| && s.sent[act.n].kind == Timeout
  }

  predicate Enabled(s: Race, t: Tick) {
    match t.move
    case Reads(p, u, j) => p < |s.slots| && s.slots[p].Idle? && Mine(s.base, u, j)
    case Writes(p) => p < |s.slots| && s.slots[p].Passed? && s.slots[p].journey < |s.base.rows|
    case Does(act) => CanHappen(s.base, Event(t.at, act)) && !IsTimeout(s.base, act)
  }

  predicate CanPay(owner: Owner) {
    owner.balance >= UNIT_PRICE * |owner.contacts|
  }

  /** A funded alert is stamped with the instant of the read, an unfunded one with that of the write. */
  function Apply(s: Race, t: Tick): Race
    requires Enabled(s, t)
  {
    match t.move
    case Reads(p, u, j) =>
      if IsDue(s.base.rows[j], t.at) then s.(slots := s.slots[p := Passed(j, OwnerOf(s.base, j), t.at)]) else s
    case Writes(p) =>
      var c := s.slots[p];
      Race(TimedOutAs(s.base, if CanPay(c.owner) then c.at else t.at, c.journey, c.owner), s.slots[p := Idle])
    case Does(act) => s.(base := Step(s.base, Event(t.at, act)))
  }

  ghost predicate Possible(s: Race, now: int, ts: seq<Tick>)
    decreases |ts|
  {
    ts == [] || (now <= ts[0].at && Enabled(s, ts[0]) && Possible(Apply(s, ts[0]), ts[0].at, ts[1..]))
  }

  ghost function Outcome(s: Race, now: int, ts: seq<Tick>): Race
    requires Possible(s, now, ts)
    decreases |ts|
  {
    if ts == [] then s else Outcome(Apply(s, ts[0]), ts[0].at, ts[1..])
  }

  /** Read and write at one instant, with nothing in between, are the processor of module Journey. */
  lemma AloneIsTimeout(s: Race, p: nat, u: nat, j: nat, now: int)
    requires Enabled(s, Tick(now, Reads(p, u, j)))
    ensures var read := Apply(s, Tick(now, Reads(p, u, j)));
            && p < |read.slots|
            && (if read.slots[p].Passed?
                then Enabled(read, Tick(now, Writes(p)))
                     && Apply(read, Tick(now, Writes(p))) == s.(base := AfterTimeout(s.base, now, j))
                else read == s && AfterTimeout(s.base, now, j) == s.base)
  {
    var read := Apply(s, Tick(now, Reads(p, u, j)));
    assert read.slots[p := Idle] == s.slots;
  }

  // ----- one late write -----

  /** The write has nothing to do: the row is deleted and there is no one to tell, or it says the same already. */
  predicate Harmless(r: Row, owner: Owner, now: int) {
    || (r.deleted && (owner.contacts == [] || !CanPay(owner)))
    || (!CanPay(owner) && r.status == TimedOut && r.alert == Failed && r.triggeredAt == Some(now))
  }

  lemma AlertIsEmptyIff(owner: Owner)
    ensures NotifyList(owner.contacts) == [] <==> owner.contacts == []
  {
    var rest := NotifiesTheFirstThree(owner.contacts);
  }

  /** The journey after the late write. */
  function LateView(v: View, j: nat, owner: Owner, now: int): View {
    var r := v.row;
    var written := if CanPay(owner)
                   then r.(status := TimedOut, alert := Triggered, triggeredAt := Some(now), attempts := r.attempts + 1)
                   else r.(status := TimedOut, alert := Failed, triggeredAt := Some(now));
    View(if r.deleted then r else written,
         if CanPay(owner) then v.alerts + Alerts(j, NotifyList(owner.contacts), now) else v.alerts,
         v.reminders)
  }

  lemma LateWriteTables(s: State, now: int, j: nat, owner: Owner)
    requires j < |s.rows|
    ensures var z := TimedOutAs(s, now, j, owner);
            && |z.rows| == |s.rows| && z.rows[j] == LateView(Seen(s, j), j, owner, now).row
            && z.tasks == if CanPay(owner) then s.tasks + Alerts(j, NotifyList(owner.contacts), now) else s.tasks
  {
  }

  lemma LateWriteView(s: State, now: int, j: nat, owner: Owner)
    requires j < |s.rows|
    ensures |TimedOutAs(s, now, j, owner).rows| == |s.rows|
    ensures Seen(TimedOutAs(s, now, j, owner), j) == LateView(Seen(s, j), j, owner, now)
  {
    LateWriteTables(s, now, j, owner);
    var z := TimedOutAs(s, now, j, owner);
    if CanPay(owner) {
      var list := NotifyList(owner.contacts);
      AlertsAdd(s.tasks, j, list, now, j);
      assert AlertsOf(z.tasks, j) == AlertsOf(s.tasks, j) + Alerts(j, list, now);
    } else {
      assert AlertsOf(z.tasks, j) == AlertsOf(s.tasks, j);
    }
  }

  lemma LateWriteIsUnlawful(v: View, j: nat, owner: Owner, now: int)
    requires Story(v, j) && !IsDue(v.row, now) && !Harmless(v.row, owner, now)
    ensures !Lawful(v, j, now, owner, LateView(v, j, owner, now))
  {
    AlertIsEmptyIff(owner);
    var more := Alerts(j, NotifyList(owner.contacts), now);
    assert CanPay(owner) && owner.contacts != [] ==> |v.alerts + more| > |v.alerts|;
  }

  lemma HarmlessWrite(v: View, j: nat, owner: Owner, now: int)
    requires Story(v, j) && Harmless(v.row, owner, now)
    ensures LateView(v, j, owner, now) == v
  {
    AlertIsEmptyIff(owner);
    assert v.alerts + [] == v.alerts;
  }

  /** Main result: whatever came between, the late write is lawful exactly if the row is still ongoing and due
      when it is written, or if it has nothing to do. */
  lemma LateWriteIsSafeIff(s: State, now: int, j: nat, owner: Owner)
    requires Inv(s) && j < |s.rows|
    ensures |TimedOutAs(s, now, j, owner).rows| == |s.rows|
    ensures Lawful(Seen(s, j), j, now, owner, Seen(TimedOutAs(s, now, j, owner), j))
            <==> IsDue(s.rows[j], now) || Harmless(s.rows[j], owner, now)
  {
    assert Right(s, j);
    LateWriteView(s, now, j, owner);
    if IsDue(s.rows[j], now) {
      WriteIsLawful(s, now, j, owner, j);
    } else if Harmless(s.rows[j], owner, now) {
      HarmlessWrite(Seen(s, j), j, owner, now);
    } else {
      LateWriteIsUnlawful(Seen(s, j), j, owner, now);
    }
  }

  // ----- how many attempts -----

  /** The processors that have found journey j due and not yet written. */
  function Claims(slots: seq<Slot>, j: nat): nat {
    if slots == [] then 0 else (if slots[0].Passed? && slots[0].journey == j then 1 else 0) + Claims(slots[1..], j)
  }

  lemma {:induction false} ClaimsUpdate(slots: seq<Slot>, p: nat, x: Slot, j: nat)
    requires p < |slots|
    ensures Claims(slots[p := x], j) == Claims(slots, j) - (if slots[p].Passed? && slots[p].journey == j then 1 else 0)
                                        + (if x.Passed? && x.journey == j then 1 else 0)
  {
    if p > 0 {
      assert slots[p := x][1..] == slots[1..][p - 1 := x];
      ClaimsUpdate(slots[1..], p - 1, x, j);
    } else {
      assert slots[p := x][1..] == slots[1..];
    }
  }

  lemma {:induction false} ClaimsAtMostAll(slots: seq<Slot>, j: nat)
    ensures Claims(slots, j) <= |slots|
    ensures (forall p :: 0 <= p < |slots| ==> slots[p].Passed? ==> slots[p].journey != j) ==> Claims(slots, j) == 0
  {
    if slots != [] {
      ClaimsAtMostAll(slots[1..], j);
    }
  }

  /** Once it has left, no processor can find the journey due. */
  ghost predicate Bounded(s: Race, j: nat) {
    j < |s.base.rows| ==>
      && s.base.rows[j].attempts + Claims(s.slots, j) <= |s.slots|
      && (s.base.rows[j].status == Ongoing ==> s.base.rows[j].attempts == 0 && !s.base.rows[j].deleted)
  }

  predicate Belong(s: Race) {
    && (forall p :: 0 <= p < |s.slots| && s.slots[p].Passed? ==> s.slots[p].journey < |s.base.rows|)
  }

  /** No attempt is made, and nothing is reopened. */
  predicate NoAttempt(r: Row, z: Row) {
    && z.attempts == r.attempts && (z.status == Ongoing ==> r.status == Ongoing && z.deleted == r.deleted)
  }

  lemma ReminderMakesNoAttempt(s: State, now: int, n: nat, j: nat)
    requires n < |s.sent| && s.sent[n].kind == Reminder && j < |s.rows|
    ensures var z := Delivered(s, now, n); |z.rows| == |s.rows| && NoAttempt(s.rows[j], z.rows[j])
  {
  }

  lemma ReminderKeepsRows(s: State, now: int, n: nat)
    requires n < |s.sent| && s.sent[n].kind == Reminder
    ensures |Delivered(s, now, n).rows| == |s.rows|
  {
  }

  /** Calls other than timeouts. */
  lemma OthersMakeNoAttempt(s: State, e: Event, j: nat)
    requires CanHappen(s, e) && !IsTimeout(s, e.act)
    ensures |s.rows| <= |Step(s, e).rows| <= |s.rows| + 1
    ensures j < |s.rows| ==> NoAttempt(s.rows[j], Step(s, e).rows[j])
    ensures |s.rows| == j < |Step(s, e).rows| ==> var z := Step(s, e).rows[j]; z == Fresh(z.user, z.expected)
  {
    match e.act
    case Deliver(n) =>
      ReminderKeepsRows(s, e.at, n);
      if j < |s.rows| {
        ReminderMakesNoAttempt(s, e.at, n, j);
      }
    case _ =>
  }

  lemma ReadKeepsBound(s: Race, t: Tick, j: nat)
    requires Enabled(s, t) && t.move.Reads? && Bounded(s, j) && Belong(s)
    ensures Bounded(Apply(s, t), j) && Belong(Apply(s, t))
  {
    if IsDue(s.base.rows[t.move.journey], t.at) {
      var x := Passed(t.move.journey, OwnerOf(s.base, t.move.journey), t.at);
      ClaimsUpdate(s.slots, t.move.p, x, j);
      ClaimsAtMostAll(s.slots[t.move.p := x], j);
    }
  }

  lemma WriteKeepsBound(s: Race, t: Tick, j: nat)
    requires Enabled(s, t) && t.move.Writes? && Bounded(s, j) && Belong(s)
    ensures Bounded(Apply(s, t), j) && Belong(Apply(s, t))
  {
    ClaimsUpdate(s.slots, t.move.p, Idle, j);
  }

  lemma OtherKeepsBound(s: Race, t: Tick, j: nat)
    requires Enabled(s, t) && t.move.Does? && Bounded(s, j) && Belong(s)
    ensures Bounded(Apply(s, t), j) && Belong(Apply(s, t))
  {
    OthersMakeNoAttempt(s.base, Event(t.at, t.move.act), j);
    ClaimsAtMostAll(s.slots, j);
  }

  lemma {:induction false} StaysBounded(s: Race, now: int, ts: seq<Tick>, j: nat)
    requires Possible(s, now, ts) && Bounded(s, j) && Belong(s)
    ensures Bounded(Outcome(s, now, ts), j) && |Outcome(s, now, ts).slots| == |s.slots|
    decreases |ts|
  {
    if ts != [] {
      match ts[0].move {
        case Reads(_, _, _) => ReadKeepsBound(s, ts[0], j);
        case Writes(_) => WriteKeepsBound(s, ts[0], j);
        case Does(_) => OtherKeepsBound(s, ts[0], j);
      }
      StaysBounded(Apply(s, ts[0]), ts[0].at, ts[1..], j);
    }
  }

  /** A sound system with n processors, none at work. */
  ghost predicate Resting(s: Race) {
    Inv(s.base) && |s.slots| > 0 && forall p :: 0 <= p < |s.slots| ==> s.slots[p].Idle?
  }

  lemma RestingIsBounded(s: Race, j: nat)
    requires Resting(s)
    ensures Bounded(s, j) && Belong(s)
  {
    assert Right(s.base, j);
    ClaimsAtMostAll(s.slots, j);
  }

  /** Main result: with n processors at work at once, a journey is alerted about at most n times. */
  lemma AttemptsAtMostProcessors(s: Race, now: int, ts: seq<Tick>, j: nat)
    requires Resting(s) && Possible(s, now, ts) && j < |Outcome(s, now, ts).base.rows|
    ensures Outcome(s, now, ts).base.rows[j].attempts <= |s.slots|
  {
    RestingIsBounded(s, j);
    StaysBounded(s, now, ts, j);
  }

  lemma TickFirst(s: Race, now: int, t: Tick, z: Race, rest: seq<Tick>)
    requires now <= t.at && Enabled(s, t) && z == Apply(s, t) && Possible(z, t.at, rest)
    ensures Possible(s, now, [t] + rest) && Outcome(s, now, [t] + rest) == Outcome(z, t.at, rest)
  {
    assert ([t] + rest)[1..] == rest;
  }

  /** From processor p on, all write. */
  lemma {:induction false} WritesFrom(s: Race, at: int, j: nat, p: nat) returns (ts: seq<Tick>)
    requires p <= |s.slots| && j < |s.base.rows| && !s.base.rows[j].deleted
    requires forall i :: p <= i < |s.slots| ==>
               s.slots[i].Passed? && s.slots[i].journey == j && CanPay(s.slots[i].owner)
    ensures Possible(s, at, ts)
    ensures var z := Outcome(s, at, ts);
            |z.base.rows| == |s.base.rows| && z.base.rows[j].attempts == s.base.rows[j].attempts + |s.slots| - p
    decreases |s.slots| - p
  {
    ts := [];
    if p < |s.slots| {
      var t := Tick(at, Writes(p));
      var rest := WritesFrom(Apply(s, t), at, j, p + 1);
      TickFirst(s, at, t, Apply(s, t), rest);
      ts := [t] + rest;
    }
  }

  /** From processor p on, all read; then all write. */
  lemma {:induction false} ReadsThenWrites(s: Race, at: int, j: nat, p: nat) returns (ts: seq<Tick>)
    requires p <= |s.slots| && j < |s.base.rows| && !s.base.rows[j].deleted && s.base.rows[j].user in s.base.owners
    requires IsDue(s.base.rows[j], at) && CanPay(OwnerOf(s.base, j))
    requires forall i :: 0 <= i < p ==> s.slots[i].Passed? && s.slots[i].journey == j && CanPay(s.slots[i].owner)
    requires forall i :: p <= i < |s.slots| ==> s.slots[i].Idle?
    ensures Possible(s, at, ts)
    ensures var z := Outcome(s, at, ts);
            |z.base.rows| == |s.base.rows| && z.base.rows[j].attempts == s.base.rows[j].attempts + |s.slots|
    decreases |s.slots| - p
  {
    if p == |s.slots| {
      ts := WritesFrom(s, at, j, 0);
    } else {
      var t := Tick(at, Reads(p, s.base.rows[j].user, j));
      var rest := ReadsThenWrites(Apply(s, t), at, j, p + 1);
      TickFirst(s, at, t, Apply(s, t), rest);
      ts := [t] + rest;
    }
  }

  ghost predicate AlwaysOnce(s: Race, now: int, j: nat) {
    forall ts :: Possible(s, now, ts) && j < |Outcome(s, now, ts).base.rows|
                 ==> Outcome(s, now, ts).base.rows[j].attempts <= 1
  }

  /** Main result: a journey that is due and whose owner can pay is sure to be alerted about at most once
      exactly if there is one processor. */
  lemma OnceIffOneProcessor(s: Race, now: int, j: nat)
    requires Resting(s) && j < |s.base.rows| && s.base.rows[j].user in s.base.owners
    requires IsDue(s.base.rows[j], now) && CanPay(OwnerOf(s.base, j))
    ensures AlwaysOnce(s, now, j) <==> |s.slots| == 1
  {
    if |s.slots| == 1 {
      forall ts: seq<Tick> | Possible(s, now, ts) && j < |Outcome(s, now, ts).base.rows|
        ensures Outcome(s, now, ts).base.rows[j].attempts <= 1
      {
        AttemptsAtMostProcessors(s, now, ts, j);
      }
    } else {
      assert Right(s.base, j);
      var ts := ReadsThenWrites(s, now, j, 0);
      assert Outcome(s, now, ts).base.rows[j].attempts > 1;
    }
  }

  // ----- one interleaving, from the beginning -----

  const FRIEND := Contact(1, 7, "Friend", "")
  const TRAVELLER := Owner(false, [FRIEND], 100)

  /** The traveller reports back between the read and the write of one processor. */
  function ReturnTick(i: int): Tick {
    match i
    case 0 => Tick(0, Does(ChangeOwner(1, TRAVELLER)))
    case 1 => Tick(0, Does(Create(1, 20 * MINUTE, false)))
    case 2 => Tick(30 * MINUTE, Reads(0, 1, 0))
    case 3 => Tick(30 * MINUTE, Does(Complete(1, 0)))
    case _ => Tick(30 * MINUTE, Writes(0))
  }

  function ReturnRace(i: int): Race {
    var owned := START.(owners := map[1 := TRAVELLER]);
    var row := Fresh(1, 20 * MINUTE);
    var seen := Passed(0, TRAVELLER, 30 * MINUTE);
    match i
    case 0 => Race(START, [Idle])
    case 1 => Race(owned, [Idle])
    case 2 => Race(owned.(rows := [row]), [Idle])
    case 3 => Race(owned.(rows := [row]), [seen])
    case 4 => Race(owned.(rows := [row.(status := Ended)]), [seen])
    case _ =>
      Race(owned.(rows := [row.(status := TimedOut, alert := Triggered, triggeredAt := Some(30 * MINUTE),
                                attempts := 1)],
                  tasks := [ContactAlert(0, FRIEND, 30 * MINUTE)]), [Idle])
  }

  lemma ReturnStep(i: int)
    requires 0 <= i < 5
    ensures Enabled(ReturnRace(i), ReturnTick(i)) && Apply(ReturnRace(i), ReturnTick(i)) == ReturnRace(i + 1)
  {
    if i == 4 {
      assert ByPriority([FRIEND]) == [FRIEND] by { SortedIsFixed([FRIEND]); }
      assert Alerts(0, [FRIEND], 30 * MINUTE) == [ContactAlert(0, FRIEND, 30 * MINUTE)];
    }
  }

  lemma {:induction false} ReturnTicks(i: int) returns (ts: seq<Tick>)
    requires 0 <= i < 5
    ensures |ts| == 5 - i && Possible(ReturnRace(i), ReturnTick(i).at, ts)
    ensures Outcome(ReturnRace(i), ReturnTick(i).at, ts) == ReturnRace(5)
    decreases 5 - i
  {
    ReturnStep(i);
    var rest := [];
    if i < 4 {
      rest := ReturnTicks(i + 1);
      EarlierTick(ReturnRace(i + 1), ReturnTick(i).at, ReturnTick(i + 1).at, rest);
    }
    TickFirst(ReturnRace(i), ReturnTick(i).at, ReturnTick(i), ReturnRace(i + 1), rest);
    ts := [ReturnTick(i)] + rest;
  }

  lemma EarlierTick(s: Race, now: int, later: int, ts: seq<Tick>)
    requires now <= later && Possible(s, later, ts)
    ensures Possible(s, now, ts) && Outcome(s, now, ts) == Outcome(s, later, ts)
  {
  }

  /** A run from the beginning: a traveller who has reported back is timed out and the contact is alerted. */
  lemma ReportedBackYetAlerted() returns (ts: seq<Tick>)
    ensures |ts| == 5 && Possible(Race(START, [Idle]), 0, ts)
    ensures ReturnRace(4).base.rows[0].status == Ended && Apply(ReturnRace(4), ReturnTick(4)) == ReturnRace(5)
    ensures var z := Outcome(Race(START, [Idle]), 0, ts);
            z == ReturnRace(5) && z.base.rows[0].status == TimedOut && AlertsOf(z.base.tasks, 0) != []
  {
    ReturnStep(4);
    ts := ReturnTicks(0);
  }
}
