/** ProcessTimeoutBatch reads the users, the check-ins and the balances (internal/service/checkin.go:567-639) and
    then writes for those it has found without an alert.  Here the read and the write of n processors
    are separate steps that interleave freely with each other and with all other calls. */
module CheckInRace {
  import opened Wrappers
  import opened ContactBook
  import opened CheckInTimeout
  import opened CheckInSafety

  /** A processor has no batch at work, or has read the tables for one. */
  datatype Slot = Idle | Begun(start: State, users: seq<nat>, date: nat, at: int)

  datatype Race = Race(base: State, slots: seq<Slot>)

  datatype Move =
    | Begins(p: nat, users: seq<nat>, date: nat)
    | Ends(p: nat)
    | Does(act: Act)  // check-ins, stamps, settings, payments

  datatype Tick = Tick(at: int, move: Move)

  predicate Distinct(users: seq<nat>) {
    forall i, j :: 0 <= i < j < |users| ==> users[i] != users[j]
  }

  /** Lists are as published: they name nobody twice. */
  predicate Enabled(s: Race, t: Tick) {
    match t.move
    case Begins(p, users, _) => p < |s.slots| && s.slots[p].Idle? && Distinct(users)
    case Ends(p) => p < |s.slots| && s.slots[p].Begun?
    case Does(act) => !act.Batch?
  }

  /** The first n users of a batch that has read `start` and writes to s. */
  function Written(start: State, s: State, users: seq<nat>, date: nat, now: int, n: nat): State
    requires n <= |users|
  {
    if n == 0 then s else Treated(start, Written(start, s, users, date, now, n - 1), Key(users[n - 1], date), now)
  }

  function Apply(s: Race, t: Tick): Race
    requires Enabled(s, t)
  {
    match t.move
    case Begins(p, users, date) => s.(slots := s.slots[p := Begun(s.base, users, date, t.at)])
    case Ends(p) =>
      var b := s.slots[p];
      Race(Written(b.start, s.base, b.users, b.date, b.at, |b.users|), s.slots[p := Idle])
    case Does(act) => s.(base := Step(s.base, Event(t.at, act)))
  }

  ghost predicate Possible(s: Race, now: int, ts: seq<Tick>)
    decreases |ts|
  {
    ts == [] || (now <= ts[0].at && Enabled(s, ts[0]) && Possible(Apply(s, ts[0]), ts[0].at, ts[1..]))
  }

  ghost function Outcome(s: Race, now: int, ts: seq<Tick>): Race
    requires Possible(s, now, ts)
    decreases |ts|
  {
    if ts == [] then s else Outcome(Apply(s, ts[0]), ts[0].at, ts[1..])
  }

  /** With nothing in between, read and write are the batch. */
  lemma {:induction false} AloneIsBatch(s: State, users: seq<nat>, date: nat, now: int, n: nat)
    requires n <= |users|
    ensures Written(s, s, users, date, now, n) == Batched(s, users, date, now, n)
  {
    if n > 0 {
      AloneIsBatch(s, users, date, now, n - 1);
    }
  }

  // ----- what one late write does to one record -----

  /** The batch has found the record without an alert. */
  predicate Claiming(b: Slot, k: Key) {
    b.Begun? && b.date == k.date && k.user in b.users && Eligible(b.start, k)
  }

  /** One turn for record k, whose user and balance were read at `start`. */
  predicate Turned(v: View, z: View, k: Key, start: State, at: int)
    requires Eligible(start, k)
  {
    && v.record.Some? && z.record == Some(v.record.value.(alertedAt := Some(at), status := Status.TimedOut))
    && (if Funded(start.owners[k.user]) then z.alerts == v.alerts + AlertFor(start, k, at) && z.depleted == v.depleted
        else z.alerts == v.alerts && v.depleted <= z.depleted <= v.depleted + 1)
  }

  lemma TurnIsTurned(start: State, s: State, k: Key, now: int)
    requires Eligible(start, k) && k in s.records
    ensures Turned(Seen(s, k), Seen(Treated(start, s, k, now), k), k, start, now)
  {
    AlertsAdd(s.tasks, k, NotifyList(start.owners[k.user].contacts), now, k, k.user);
    TaskAdds(s.tasks, QuotaDepleted(k, now), k, k.user);
    assert s.tasks + [] == s.tasks;
  }

  lemma {:induction false} WrittenApart(start: State, s: State, users: seq<nat>, date: nat, now: int, n: nat, k: Key)
    requires n <= |users|
    requires k.user !in users[..n] || k.date != date || !Eligible(start, k) || k !in s.records
    ensures Seen(Written(start, s, users, date, now, n), k) == Seen(s, k)
  {
    if n > 0 {
      assert users[..n] == users[..n - 1] + [users[n - 1]];
      WrittenApart(start, s, users, date, now, n - 1, k);
      TreatedApart(start, Written(start, s, users, date, now, n - 1), Key(users[n - 1], date), now, k, k.user);
    }
  }

  lemma {:induction false} WrittenOnce(start: State, s: State, users: seq<nat>, date: nat, now: int, n: nat, k: Key)
    requires n <= |users| && Distinct(users) && k.user in users[..n] && k.date == date
    requires Eligible(start, k) && k in s.records
    ensures Turned(Seen(s, k), Seen(Written(start, s, users, date, now, n), k), k, start, now)
  {
    var before := Written(start, s, users, date, now, n - 1);
    assert users[..n] == users[..n - 1] + [users[n - 1]];
    if users[n - 1] == k.user {
      assert k.user !in users[..n - 1];
      WrittenApart(start, s, users, date, now, n - 1, k);
      TurnIsTurned(start, before, k, now);
    } else {
      WrittenOnce(start, s, users, date, now, n - 1, k);
      TreatedApart(start, before, Key(users[n - 1], date), now, k, k.user);
    }
  }

  /** A write leaves the record alone, or is the one turn its batch claimed. */
  lemma EndView(s: Race, t: Tick, k: Key)
    requires Enabled(s, t) && t.move.Ends? && (s.slots[t.move.p].Begun? ==> Distinct(s.slots[t.move.p].users))
    ensures var b := s.slots[t.move.p]; var v, z := Seen(s.base, k), Seen(Apply(s, t).base, k);
            if Claiming(b, k) && k in s.base.records then Turned(v, z, k, b.start, b.at) else z == v
  {
    var b := s.slots[t.move.p];
    assert b.users[..|b.users|] == b.users;
    if Claiming(b, k) && k in s.base.records {
      WrittenOnce(b.start, s.base, b.users, b.date, b.at, |b.users|, k);
    } else {
      WrittenApart(b.start, s.base, b.users, b.date, b.at, |b.users|, k);
    }
  }

  // ----- how many alerts -----

  function Claims(slots: seq<Slot>, k: Key): nat {
    if slots == [] then 0 else (if Claiming(slots[0], k) then 1 else 0) + Claims(slots[1..], k)
  }

  lemma {:induction false} ClaimsUpdate(slots: seq<Slot>, p: nat, x: Slot, k: Key)
    requires p < |slots|
    ensures Claims(slots[p := x], k)
            == Claims(slots, k) - (if Claiming(slots[p], k) then 1 else 0) + (if Claiming(x, k) then 1 else 0)
  {
    if p > 0 {
      assert slots[p := x][1..] == slots[1..][p - 1 := x];
      ClaimsUpdate(slots[1..], p - 1, x, k);
    } else {
      assert slots[p := x][1..] == slots[1..];
    }
  }

  lemma {:induction false} ClaimsAtMostAll(slots: seq<Slot>, k: Key)
    ensures Claims(slots, k) <= |slots|
    ensures (forall p :: 0 <= p < |slots| ==> slots[p].Idle?) ==> Claims(slots, k) == 0
  {
    if slots != [] {
      ClaimsAtMostAll(slots[1..], k);
    }
  }

  predicate ListsDistinct(slots: seq<Slot>) {
    forall p :: 0 <= p < |slots| && slots[p].Begun? ==> Distinct(slots[p].users)
  }

  /** Each alert and each claim uses up one processor; a record without an alert has no alert tasks. */
  ghost predicate Bounded(s: Race, k: Key) {
    && |AlertsOf(s.base.tasks, k)| + MAX_CONTACTS * Claims(s.slots, k) <= MAX_CONTACTS * |s.slots|
    && (!IsAlerted(Seen(s.base, k)) ==> AlertsOf(s.base.tasks, k) == [])
    && ListsDistinct(s.slots)
  }

  lemma BeginKeepsBound(s: Race, t: Tick, k: Key)
    requires Enabled(s, t) && t.move.Begins? && Bounded(s, k)
    ensures Bounded(Apply(s, t), k)
  {
    var x := Begun(s.base, t.move.users, t.move.date, t.at);
    ClaimsUpdate(s.slots, t.move.p, x, k);
    ClaimsAtMostAll(s.slots[t.move.p := x], k);
  }

  lemma AlertIsShort(start: State, k: Key, at: int)
    requires Eligible(start, k)
    ensures |AlertFor(start, k, at)| <= MAX_CONTACTS
  {
    var rest := NotifiesTheFirstThree(start.owners[k.user].contacts);
  }

  lemma EndKeepsBound(s: Race, t: Tick, k: Key)
    requires Enabled(s, t) && t.move.Ends? && Bounded(s, k)
    ensures Bounded(Apply(s, t), k)
  {
    EndView(s, t, k);
    ClaimsUpdate(s.slots, t.move.p, Idle, k);
    var b := s.slots[t.move.p];
    if Claiming(b, k) {
      AlertIsShort(b.start, k, b.at);
    }
  }

  lemma OtherKeepsView(s: State, e: Event, k: Key)
    requires !e.act.Batch?
    ensures var v, z := Seen(s, k), Seen(Step(s, e), k);
            && z.alerts == v.alerts && z.depleted == v.depleted && (IsAlerted(v) <==> IsAlerted(z))
            && (IsAlerted(v) ==> SameAlert(v, z)) && (v.record.Some? ==> z.record.Some?)
  {
    match e.act
    case CheckIn(i) => UpsertsKeepAlert(s, i, e.at, k);
    case Stamp(i) => UpsertsKeepAlert(s, i, e.at, k);
    case _ =>
  }

  lemma {:induction false} StaysBounded(s: Race, now: int, ts: seq<Tick>, k: Key)
    requires Possible(s, now, ts) && Bounded(s, k)
    ensures Bounded(Outcome(s, now, ts), k) && |Outcome(s, now, ts).slots| == |s.slots|
    decreases |ts|
  {
    if ts != [] {
      match ts[0].move {
        case Begins(_, _, _) => BeginKeepsBound(s, ts[0], k);
        case Ends(_) => EndKeepsBound(s, ts[0], k);
        case Does(act) => OtherKeepsView(s.base, Event(ts[0].at, act), k);
      }
      StaysBounded(Apply(s, ts[0]), ts[0].at, ts[1..], k);
    }
  }

  /** Processors at rest, on tables in which record k has at most one alert. */
  ghost predicate Resting(s: Race, k: Key) {
    Story(Seen(s.base, k), k) && |s.slots| > 0 && forall p :: 0 <= p < |s.slots| ==> s.slots[p].Idle?
  }

  lemma RestingIsBounded(s: Race, k: Key)
    requires Resting(s, k)
    ensures Bounded(s, k)
  {
    ClaimsAtMostAll(s.slots, k);
  }

  /** Main result: with n processors at work at once, a record gets the alerts of at most n batches. */
  lemma AlertsAtMostProcessors(s: Race, now: int, ts: seq<Tick>, k: Key)
    requires Resting(s, k) && Possible(s, now, ts)
    ensures |AlertsOf(Outcome(s, now, ts).base.tasks, k)| <= MAX_CONTACTS * |s.slots|
  {
    RestingIsBounded(s, k);
    StaysBounded(s, now, ts, k);
  }

  // ----- once, if and only if there is one processor -----

  /** The only processor's claim is still good when it writes. */
  ghost predicate OneAtWork(s: Race, k: Key) {
    && |s.slots| == 1 && ListsDistinct(s.slots) && Story(Seen(s.base, k), k)
    && (Claiming(s.slots[0], k) ==> k in s.base.records && s.base.records[k].alertedAt.None?)
  }

  lemma TurnedStory(v: View, z: View, k: Key, start: State, at: int)
    requires Eligible(start, k) && Turned(v, z, k, start, at) && Story(v, k) && !IsAlerted(v)
    ensures Story(z, k)
  {
    var contacts := start.owners[k.user].contacts;
    var rest := NotifiesTheFirstThree(contacts);
    var list := NotifyList(contacts);
    assert list == (list + rest)[..|list|];
    assert [] + Alerts(k, list, at) == Alerts(k, list, at) && Alerts(k, [], at) == [];
    assert OneAlert(Alerts(k, [], at), k, at) && OneAlert(Alerts(k, list, at), k, at);
  }

  lemma OneStep(s: Race, t: Tick, k: Key)
    requires Enabled(s, t) && OneAtWork(s, k)
    ensures OneAtWork(Apply(s, t), k)
  {
    match t.move
    case Begins(_, _, _) =>
    case Ends(_) =>
      EndView(s, t, k);
      if Claiming(s.slots[0], k) {
        TurnedStory(Seen(s.base, k), Seen(Apply(s, t).base, k), k, s.slots[0].start, s.slots[0].at);
      }
    case Does(act) =>
      StoryKept(s.base, Event(t.at, act), k);
      OtherKeepsView(s.base, Event(t.at, act), k);
  }

  lemma {:induction false} OneStaysOne(s: Race, now: int, ts: seq<Tick>, k: Key)
    requires Possible(s, now, ts) && OneAtWork(s, k)
    ensures OneAtWork(Outcome(s, now, ts), k)
    decreases |ts|
  {
    if ts != [] {
      OneStep(s, ts[0], k);
      OneStaysOne(Apply(s, ts[0]), ts[0].at, ts[1..], k);
    }
  }

  ghost predicate AlwaysOnce(s: Race, now: int, k: Key) {
    forall ts :: Possible(s, now, ts) ==> Story(Seen(Outcome(s, now, ts).base, k), k)
  }

  lemma TickFirst(s: Race, now: int, t: Tick, z: Race, rest: seq<Tick>)
    requires now <= t.at && Enabled(s, t) && z == Apply(s, t) && Possible(z, t.at, rest)
    ensures Possible(s, now, [t] + rest) && Outcome(s, now, [t] + rest) == Outcome(z, t.at, rest)
  {
    assert ([t] + rest)[1..] == rest;
  }

  lemma FirstIsAt(alerts: seq<Task>, k: Key, at: int)
    requires OneAlert(alerts, k, at) && alerts != []
    ensures alerts[0].at == at
  {
  }

  /** Alerts written at two instants are not one alert. */
  lemma TwoInstants(z: View, k: Key, first: seq<Task>, more: seq<Task>, at: int)
    requires first != [] && first[0].at != at && z.alerts == first + more
    requires z.record.Some? && z.record.value.alertedAt == Some(at)
    ensures !Story(z, k)
  {
    if Story(z, k) {
      FirstIsAt(z.alerts, k, at);
    }
  }

  /** Two processors read one after the other, and then both write. */
  lemma TwoAlert(s: Race, now: int, k: Key) returns (ts: seq<Tick>)
    requires Resting(s, k) && |s.slots| >= 2
    requires Eligible(s.base, k) && Funded(s.base.owners[k.user]) && s.base.owners[k.user].contacts != []
    ensures Possible(s, now, ts) && !Story(Seen(Outcome(s, now, ts).base, k), k)
  {
    var t1, t2 := Tick(now, Begins(0, [k.user], k.date)), Tick(now + 1, Begins(1, [k.user], k.date));
    var t3, t4 := Tick(now + 1, Ends(0)), Tick(now + 1, Ends(1));
    var s1 := Apply(s, t1);
    var s2 := Apply(s1, t2);
    assert s2.base == s.base && s2.slots[0] == Begun(s.base, [k.user], k.date, now);
    assert s2.slots[1] == Begun(s.base, [k.user], k.date, now + 1);
    EndView(s2, t3, k);
    var s3 := Apply(s2, t3);
    assert s3.slots[1] == s2.slots[1] && k in s3.base.records;
    EndView(s3, t4, k);
    var s4 := Apply(s3, t4);
    var rest := NotifiesTheFirstThree(s.base.owners[k.user].contacts);
    var a, b := AlertFor(s.base, k, now), AlertFor(s.base, k, now + 1);
    assert Seen(s.base, k).alerts == [] && [] + a == a;
    TwoInstants(Seen(s4.base, k), k, a, b, now + 1);
    assert Possible(s4, now + 1, []) && Outcome(s4, now + 1, []) == s4;
    TickFirst(s3, now + 1, t4, s4, []);
    TickFirst(s2, now + 1, t3, s3, [t4] + []);
    TickFirst(s1, now, t2, s2, [t3] + ([t4] + []));
    TickFirst(s, now, t1, s1, [t2] + ([t3] + ([t4] + [])));
    ts := [t1] + ([t2] + ([t3] + ([t4] + [])));
  }

  /** Main result: a record that is there, not alerted and paid for, of a user with contacts, is alerted at most
      once in every run exactly if there is one processor. */
  lemma OnceIffOneProcessor(s: Race, now: int, k: Key)
    requires Resting(s, k)
    requires Eligible(s.base, k) && Funded(s.base.owners[k.user]) && s.base.owners[k.user].contacts != []
    ensures AlwaysOnce(s, now, k) <==> |s.slots| == 1
  {
    if |s.slots| == 1 {
      forall ts: seq<Tick> | Possible(s, now, ts)
        ensures Story(Seen(Outcome(s, now, ts).base, k), k)
      {
        OneStaysOne(s, now, ts, k);
      }
    } else {
      var ts := TwoAlert(s, now, k);
    }
  }
}
