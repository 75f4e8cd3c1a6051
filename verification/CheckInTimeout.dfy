/** The daily check-in after its deadline: timeout batches against check-ins, reminder stamps and
    payments (internal/service/checkin.go:487-895, internal/queue/consumer.go:898-942).

    A batch reads the users, the check-in rows and the balances first and then works through its
    list in one transaction; the whole of it is one step here. */
module CheckInTimeout {
  import opened Wrappers
  import opened ContactBook

  const UNIT_PRICE := 5

  datatype Status = Pending | Done | TimedOut

  /** A row of daily_check_ins; (user, date) is unique. */
  datatype Record = Record(status: Status, alertedAt: Option<int>, reminderAt: Option<int>, checkedInAt: Option<int>)

  datatype Key = Key(user: nat, date: nat)

  /** A row of notification_tasks.  The table has no column for the date of the check-in a task is
      about; the model keeps it, to be able to say which record an alert belongs to. */
  datatype Task = ContactAlert(key: Key, contact: Contact, at: int) | QuotaDepleted(key: Key, at: int)

  /** A ledger row of type grant (a payment or a refund) and its created_at. */
  datatype GrantRow = GrantRow(user: nat, at: int)

  datatype Owner = Owner(enabled: bool, contacts: seq<Contact>, balance: int)

  datatype State = State(
    records: map<Key, Record>,
    tasks: seq<Task>,
    grants: seq<GrantRow>,
    owners: map<nat, Owner>)

  // ----- one batch -----

  predicate IsDepleted(t: Task, u: nat) {
    t.QuotaDepleted? && t.key.user == u
  }

  /** scheduled_at of the user's latest quota_depleted task. */
  function LastDepleted(tasks: seq<Task>, u: nat): Option<int> {
    if tasks == [] then None
    else
      var before := LastDepleted(tasks[..|tasks| - 1], u);
      var t := tasks[|tasks| - 1];
      if !IsDepleted(t, u) then before
      else if before.Some? && before.value >= t.at then before
      else Some(t.at)
  }

  /** The Count of the user's grants created after `since`. */
  function GrantsSince(grants: seq<GrantRow>, u: nat, since: int): nat {
    if grants == [] then 0
    else
      var g := grants[|grants| - 1];
      GrantsSince(grants[..|grants| - 1], u, since) + (if g.user == u && since < g.at then 1 else 0)
  }

  predicate ShouldTell(s: State, u: nat) {
    var last := LastDepleted(s.tasks, u);
    last.None? || GrantsSince(s.grants, u, last.value) > 0
  }

  function Alerts(k: Key, contacts: seq<Contact>, now: int): seq<Task> {
    seq(|contacts|, i requires 0 <= i < |contacts| => ContactAlert(k, contacts[i], now))
  }

  /** A user of the batch whose record was there and not alerted when the batch began. */
  predicate Eligible(start: State, k: Key) {
    k.user in start.owners && k in start.records && start.records[k].alertedAt.None?
  }

  predicate Funded(o: Owner) {
    o.balance >= UNIT_PRICE * |o.contacts|
  }

  function NewTasks(start: State, s: State, k: Key, now: int): seq<Task>
    requires Eligible(start, k)
  {
    var owner := start.owners[k.user];
    if Funded(owner) then Alerts(k, NotifyList(owner.contacts), now)
    else if ShouldTell(s, k.user) then [QuotaDepleted(k, now)]
    else []
  }

  /** The loop body: `start` is what was read before the loop, `s` what the transaction sees. */
  function Treated(start: State, s: State, k: Key, now: int): State {
    if !Eligible(start, k) || k !in s.records then s
    else
      s.(tasks := s.tasks + NewTasks(start, s, k, now),
         records := s.records[k := s.records[k].(alertedAt := Some(now), status := TimedOut)])
  }

  /** The first n users of the list. */
  function Batched(s: State, users: seq<nat>, date: nat, now: int, n: nat): State
    requires n <= |users|
  {
    if n == 0 then s else Treated(s, Batched(s, users, date, now, n - 1), Key(users[n - 1], date), now)
  }

  // ----- the other calls -----

  /** CompleteCheckIn's upsert; a user who has check-ins disabled is refused. */
  function CheckedIn(s: State, k: Key, now: int): State {
    if k.user !in s.owners || !s.owners[k.user].enabled then s
    else
      s.(records := s.records[k := if k in s.records then s.records[k].(status := Done, checkedInAt := Some(now))
                                   else Record(Done, None, None, Some(now))])
  }

  /** updateReminderSentAt's upsert. */
  function Stamped(s: State, k: Key, now: int): State {
    if k.user !in s.owners then s
    else
      s.(records := s.records[k := if k in s.records then s.records[k].(reminderAt := Some(now))
                                   else Record(Pending, None, Some(now), None)])
  }

  datatype Act =
    | Batch(users: seq<nat>, date: nat)
    | CheckIn(key: Key)
    | Stamp(key: Key)
    | ChangeOwner(user: nat, owner: Owner, grant: bool)  // settings, contacts, any wallet operation

  datatype Event = Event(at: int, act: Act)

  function Step(s: State, e: Event): State {
    match e.act
    case Batch(users, date) => Batched(s, users, date, e.at, |users|)
    case CheckIn(k) => CheckedIn(s, k, e.at)
    case Stamp(k) => Stamped(s, k, e.at)
    case ChangeOwner(u, owner, grant) =>
      s.(owners := s.owners[u := owner], grants := if grant then s.grants + [GrantRow(u, e.at)] else s.grants)
  }

  predicate Timely(now: int, es: seq<Event>)
    decreases |es|
  {
    es == [] || (now <= es[0].at && Timely(es[0].at, es[1..]))
  }

  function Run(s: State, es: seq<Event>): State
    decreases |es|
  {
    if es == [] then s else Run(Step(s, es[0]), es[1..])
  }

  const START := State(map[], [], [], map[])

  // ----- the service -----

  class CheckInService {
    var records: map<Key, Record>
    var tasks: seq<Task>
    var grants: seq<GrantRow>
    var owners: map<nat, Owner>

    function Tables(): State
      reads this
    {
      State(records, tasks, grants, owners)
    }

    /** The two queries that decide about a quota_depleted message. */
    method ShouldSendQuotaDepleted(u: nat) returns (should: bool)
      ensures should <==> ShouldTell(Tables(), u)
    {
      var last: Option<int> := None;
      for i := 0 to |tasks|
        invariant last == LastDepleted(tasks[..i], u)
      {
        assert tasks[..i + 1][..i] == tasks[..i];
        if IsDepleted(tasks[i], u) && (last.None? || last.value < tasks[i].at) {
          last := Some(tasks[i].at);
        }
      }
      assert tasks[..|tasks|] == tasks;
      if last.None? {
        return true;
      }
      var rechargeCount := 0;
      for i := 0 to |grants|
        invariant rechargeCount == GrantsSince(grants[..i], u, last.value)
      {
        assert grants[..i + 1][..i] == grants[..i];
        if grants[i].user == u && last.value < grants[i].at {
          rechargeCount := rechargeCount + 1;
        }
      }
      assert grants[..|grants|] == grants;
      return rechargeCount > 0;
    }

    method MarkTimedOut(k: Key, now: int)
      requires k in records
      modifies this`records
      ensures records == old(records)[k := old(records)[k].(alertedAt := Some(now), status := TimedOut)]
    {
      records := records[k := records[k].(alertedAt := Some(now), status := TimedOut)];
    }

    method AlertContacts(k: Key, all: seq<Contact>, now: int)
      modifies this`tasks
      ensures tasks == old(tasks) + Alerts(k, NotifyList(all), now)
    {
      var contacts := ByPriority(all);
      if |contacts| > MAX_CONTACTS {
        contacts := contacts[..MAX_CONTACTS];
      }
      for i := 0 to |contacts|
        invariant tasks == old(tasks) + Alerts(k, contacts[..i], now)
      {
        assert Alerts(k, contacts[..i + 1], now) == Alerts(k, contacts[..i], now) + [ContactAlert(k, contacts[i], now)];
        tasks := tasks + [ContactAlert(k, contacts[i], now)];
      }
      assert contacts[..|contacts|] == contacts;
    }

    method ProcessTimeoutBatch(users: seq<nat>, date: nat, now: int)
      modifies this
      ensures Tables() == Batched(old(Tables()), users, date, now, |users|)
    {
      var checkInMap := records;
      for i := 0 to |users|
        invariant Tables() == Batched(old(Tables()), users, date, now, i)
        invariant owners == old(owners) && grants == old(grants) && records.Keys == checkInMap.Keys
      {
        var k := Key(users[i], date);
        if k.user !in owners || k !in checkInMap || checkInMap[k].alertedAt.Some? {
          continue;
        }
        var owner := owners[k.user];
        if owner.balance < UNIT_PRICE * |owner.contacts| {
          var should := ShouldSendQuotaDepleted(k.user);
          if should {
            tasks := tasks + [QuotaDepleted(k, now)];
          }
          MarkTimedOut(k, now);
          continue;
        }
        MarkTimedOut(k, now);
        AlertContacts(k, owner.contacts, now);
      }
    }

    method CompleteCheckIn(k: Key, now: int)
      modifies this`records
      ensures Tables() == CheckedIn(old(Tables()), k, now)
    {
      if k.user !in owners || !owners[k.user].enabled {
        return;
      }
      if k in records {
        records := records[k := records[k].(status := Done, checkedInAt := Some(now))];
      } else {
        records := records[k := Record(Done, None, None, Some(now))];
      }
    }

    method UpdateReminderSentAt(k: Key, now: int)
      modifies this`records
      ensures Tables() == Stamped(old(Tables()), k, now)
    {
      if k.user !in owners {
        return;
      }
      if k in records {
        records := records[k := records[k].(reminderAt := Some(now))];
      } else {
        records := records[k := Record(Pending, None, Some(now), None)];
      }
    }
  }
}
