/** When exactly each thing happens to a check-in, said of the records, the tasks, the grants and the owners
    alone. */
module CheckInCalls {
  import opened Wrappers
  import opened ContactBook
  import opened CheckInTimeout
  import opened CheckInSafety

  // ----- who is told about the quota -----

  predicate ToldAt(tasks: seq<Task>, i: nat, u: nat) {
    i < |tasks| && tasks[i].QuotaDepleted? && tasks[i].key.user == u
  }

  /** Grant g is the user's, and later than every time the user was told. */
  ghost predicate PaidSince(s: State, u: nat, g: int) {
    0 <= g < |s.grants| && s.grants[g].user == u
    && forall i: nat :: ToldAt(s.tasks, i, u) ==> s.tasks[i].at < s.grants[g].at
  }

  /** The user was never told that the quota is used up, or has paid since. */
  ghost predicate NotToldSince(s: State, u: nat) {
    (forall i: nat :: !ToldAt(s.tasks, i, u)) || (exists g :: PaidSince(s, u, g))
  }

  lemma {:induction false} LastIsATask(tasks: seq<Task>, u: nat) returns (i: nat)
    requires LastDepleted(tasks, u).Some?
    ensures ToldAt(tasks, i, u) && tasks[i].at == LastDepleted(tasks, u).value
  {
    var k := |tasks| - 1;
    if IsDepleted(tasks[k], u) && tasks[k].at == LastDepleted(tasks, u).value {
      i := k;
    } else {
      i := LastIsATask(tasks[..k], u);
    }
  }

  lemma {:induction false} CountedIff(grants: seq<GrantRow>, u: nat, since: int)
    ensures GrantsSince(grants, u, since) > 0
            <==> exists g :: 0 <= g < |grants| && grants[g].user == u && since < grants[g].at
  {
    if grants != [] {
      var k := |grants| - 1;
      CountedIff(grants[..k], u, since);
      if g :| 0 <= g < |grants| && grants[g].user == u && since < grants[g].at {
        assert g < k ==> grants[..k][g] == grants[g];
      }
      if g :| 0 <= g < k && grants[..k][g].user == u && since < grants[..k][g].at {
        assert grants[g] == grants[..k][g];
      }
    }
  }

  /** The two queries of the service ask for just this. */
  lemma ShouldTellIff(s: State, u: nat)
    ensures ShouldTell(s, u) <==> NotToldSince(s, u)
  {
    forall i: nat | ToldAt(s.tasks, i, u)
      ensures LastDepleted(s.tasks, u).Some? && s.tasks[i].at <= LastDepleted(s.tasks, u).value
    {
      LastIsLatest(s.tasks, u, i);
    }
    if LastDepleted(s.tasks, u).Some? {
      var last := LastDepleted(s.tasks, u).value;
      var i := LastIsATask(s.tasks, u);
      CountedIff(s.grants, u, last);
      if g :| 0 <= g < |s.grants| && s.grants[g].user == u && last < s.grants[g].at {
        assert PaidSince(s, u, g);
      }
    }
  }

  // ----- what one event does to one record -----

  /** The record is there and was not alerted, and its user exists. */
  predicate Waits(s: State, k: Key) {
    k.user in s.owners && k in s.records && s.records[k].alertedAt == None
  }

  /** Five cents for each contact. */
  predicate Covered(s: State, k: Key)
    requires k.user in s.owners
  {
    5 * |s.owners[k.user].contacts| <= s.owners[k.user].balance
  }

  /** One alert to each contact of the list, in order. */
  predicate OneEach(v: View, z: View, k: Key, list: seq<Contact>, now: int) {
    && |z.alerts| == |v.alerts| + |list| && v.alerts <= z.alerts
    && forall i :: 0 <= i < |list| ==> z.alerts[|v.alerts| + i] == ContactAlert(k, list[i], now)
  }

  /** At most three of the contacts, and none that is left out comes before one that is not. */
  predicate FirstThree(contacts: seq<Contact>, list: seq<Contact>, rest: seq<Contact>) {
    && |list| == (if |contacts| < 3 then |contacts| else 3)
    && multiset(list + rest) == multiset(contacts)
    && forall i, j :: 0 <= i < j < |list + rest| ==> (list + rest)[i].priority <= (list + rest)[j].priority
  }

  /** Main result: a batch touches exactly the records of its date that were there, not alerted, and listed.  It
      times them out; if the balance covers the contacts it alerts the first three, once if listed once;
      otherwise it alerts nobody and tells the user exactly if the user was never told, or has paid since. */
  lemma BatchDoes(s: State, users: seq<nat>, date: nat, now: int, k: Key)
    returns (list: seq<Contact>, rest: seq<Contact>)
    requires Count(users, k.user) > 1 ==> NoLater(s.grants, now)
    ensures var v, z := Seen(s, k), Seen(Batched(s, users, date, now, |users|), k);
            if k.date != date || Count(users, k.user) == 0 || !Waits(s, k) then z == v
            else
              && z.record == Some(s.records[k].(alertedAt := Some(now), status := Status.TimedOut))
              && z.depleted == v.depleted + (if !Covered(s, k) && NotToldSince(s, k.user) then 1 else 0)
              && (!Covered(s, k) ==> z.alerts == v.alerts)
              && FirstThree(s.owners[k.user].contacts, list, rest)
              && (Covered(s, k) && Count(users, k.user) == 1 ==> OneEach(v, z, k, list, now))
  {
    list, rest := [], [];
    assert users[..|users|] == users;
    BatchIsExact(s, users, date, now, |users|, k);
    if Waits(s, k) {
      var contacts := s.owners[k.user].contacts;
      ShouldTellIff(s, k.user);
      list := NotifyList(contacts);
      rest := NotifiesTheFirstThree(contacts);
      assert Copies(AlertFor(s, k, now), 0) == [];
      assert Copies(AlertFor(s, k, now), 1) == [] + AlertFor(s, k, now) == AlertFor(s, k, now);
    }
  }

  /** The record as an upsert finds it. */
  function Found(s: State, k: Key): Record {
    if k in s.records then s.records[k] else Record(Pending, None, None, None)
  }

  /** Main result: a check-in is recorded as done, with its time, exactly if the user exists and has check-ins
      enabled, whether or not a row was there; the reminder stamp needs only the user.  Each leaves the other's
      column, the alert time, all other records, the tasks and the owners as they were. */
  lemma UpsertsDo(s: State, i: Key, now: int, k: Key)
    ensures var v, z := Seen(s, k), Seen(CheckedIn(s, i, now), k);
            if k == i && k.user in s.owners && s.owners[k.user].enabled
            then z.record == Some(Record(Done, Found(s, k).alertedAt, Found(s, k).reminderAt, Some(now)))
                 && z.alerts == v.alerts && z.depleted == v.depleted
            else z == v
    ensures var v, z := Seen(s, k), Seen(Stamped(s, i, now), k);
            if k == i && k.user in s.owners
            then z.record == Some(Record(Found(s, k).status, Found(s, k).alertedAt, Some(now),
                                         Found(s, k).checkedInAt))
                 && z.alerts == v.alerts && z.depleted == v.depleted
            else z == v
    ensures forall z :: z in {CheckedIn(s, i, now), Stamped(s, i, now)} ==>
              z.tasks == s.tasks && z.grants == s.grants && z.owners == s.owners
  {
  }

  // ----- over whole runs -----

  /** The event is an accepted check-in for record k. */
  predicate ChecksIn(s: State, e: Event, k: Key) {
    e.act == CheckIn(k) && k.user in s.owners && s.owners[k.user].enabled
  }

  /** The event is a batch that lists a waiting record. */
  predicate Catches(s: State, e: Event, k: Key) {
    e.act.Batch? && e.act.date == k.date && Count(e.act.users, k.user) > 0 && Waits(s, k)
  }

  /** Main result: a record's status turns to done exactly by an accepted check-in, and to timed out exactly by a
      batch that lists it while it waits; nothing else sets either. */
  lemma StatusTurnsIff(s: State, e: Event, k: Key)
    requires e.act.Batch? ==> Count(e.act.users, k.user) <= 1
    ensures var v, z := Seen(s, k).record, Seen(Step(s, e), k).record;
            && (ChecksIn(s, e, k) ==> z.Some? && z.value.status == Done && z.value.checkedInAt == Some(e.at))
            && (Catches(s, e, k) ==> z.Some? && z.value.status == Status.TimedOut && z.value.alertedAt == Some(e.at))
            && (!ChecksIn(s, e, k) && !Catches(s, e, k) ==>
                  && (v.Some? ==> z.Some? && z.value == v.value.(reminderAt := z.value.reminderAt))
                  && (v.None? && z.Some? ==> z.value == Record(Pending, None, Some(e.at), None)))
  {
    match e.act
    case Batch(users, date) =>
      var list, rest := BatchDoes(s, users, date, e.at, k);
    case CheckIn(i) => UpsertsDo(s, i, e.at, k);
    case Stamp(i) => UpsertsDo(s, i, e.at, k);
    case _ =>
  }
}
