/** What timeout batches keep, in any order with check-ins, reminder stamps and payments. */
module CheckInSafety {
  import opened Wrappers
  import opened ContactBook
  import opened CheckInTimeout

  // ----- one record's tasks -----

  function AlertsOf(tasks: seq<Task>, k: Key): seq<Task> {
    if tasks == [] then []
    else
      var t := tasks[|tasks| - 1];
      AlertsOf(tasks[..|tasks| - 1], k) + (if t.ContactAlert? && t.key == k then [t] else [])
  }

  function DepletedOf(tasks: seq<Task>, k: Key): nat {
    if tasks == [] then 0
    else
      var t := tasks[|tasks| - 1];
      DepletedOf(tasks[..|tasks| - 1], k) + (if t.QuotaDepleted? && t.key == k then 1 else 0)
  }

  lemma TaskAdds(tasks: seq<Task>, t: Task, k: Key, u: nat)
    ensures AlertsOf(tasks + [t], k) == AlertsOf(tasks, k) + (if t.ContactAlert? && t.key == k then [t] else [])
    ensures DepletedOf(tasks + [t], k) == DepletedOf(tasks, k) + (if t.QuotaDepleted? && t.key == k then 1 else 0)
    ensures !IsDepleted(t, u) ==> LastDepleted(tasks + [t], u) == LastDepleted(tasks, u)
  {
    assert (tasks + [t])[..|tasks|] == tasks;
  }

  lemma AlertsSplit(i: Key, contacts: seq<Contact>, at: int)
    requires contacts != []
    ensures var n := |contacts| - 1;
            Alerts(i, contacts, at) == Alerts(i, contacts[..n], at) + [ContactAlert(i, contacts[n], at)]
  {
  }

  lemma {:induction false} AlertsAdd(tasks: seq<Task>, i: Key, contacts: seq<Contact>, at: int, k: Key, u: nat)
    ensures var z := tasks + Alerts(i, contacts, at);
            && AlertsOf(z, k) == AlertsOf(tasks, k) + (if i == k then Alerts(i, contacts, at) else [])
            && DepletedOf(z, k) == DepletedOf(tasks, k)
            && LastDepleted(z, u) == LastDepleted(tasks, u)
  {
    var all := Alerts(i, contacts, at);
    if contacts == [] {
      assert tasks + all == tasks && AlertsOf(tasks, k) + all == AlertsOf(tasks, k);
    } else {
      var n := |contacts| - 1;
      var before := Alerts(i, contacts[..n], at);
      var last := ContactAlert(i, contacts[n], at);
      AlertsAdd(tasks, i, contacts[..n], at, k, u);
      AlertsSplit(i, contacts, at);
      TaskAdds(tasks + before, last, k, u);
      assert tasks + all == (tasks + before) + [last];
      assert AlertsOf(tasks, k) + all == (AlertsOf(tasks, k) + before) + [last];
    }
  }

  // ----- one record in one batch -----

  /** All there is to know about one check-in. */
  datatype View = View(record: Option<Record>, alerts: seq<Task>, depleted: nat)

  function Seen(s: State, k: Key): View {
    View(if k in s.records then Some(s.records[k]) else None, AlertsOf(s.tasks, k), DepletedOf(s.tasks, k))
  }

  /** How often a list names user u. */
  function Count(users: seq<nat>, u: nat): nat {
    if users == [] then 0
    else Count(users[..|users| - 1], u) + (if users[|users| - 1] == u then 1 else 0)
  }

  function Copies(tasks: seq<Task>, n: nat): seq<Task> {
    if n == 0 then [] else Copies(tasks, n - 1) + tasks
  }

  /** The alert of a funded record. */
  function AlertFor(s: State, k: Key, now: int): seq<Task>
    requires Eligible(s, k)
  {
    Alerts(k, NotifyList(s.owners[k.user].contacts), now)
  }

  /** What a batch does to an eligible record whose user it lists n times. */
  function TimedOutView(s: State, k: Key, now: int, n: nat): View
    requires Eligible(s, k)
  {
    var v := Seen(s, k);
    var funded := Funded(s.owners[k.user]);
    if n == 0 then v
    else
      View(Some(s.records[k].(alertedAt := Some(now), status := Status.TimedOut)),
           if funded then v.alerts + Copies(AlertFor(s, k, now), n) else v.alerts,
           if !funded && ShouldTell(s, k.user) then v.depleted + 1 else v.depleted)
  }

  /** Treating record i does not touch record k. */
  lemma TreatedApart(start: State, s: State, i: Key, now: int, k: Key, u: nat)
    ensures i != k ==> Seen(Treated(start, s, i, now), k) == Seen(s, k)
    ensures i.user != u ==> LastDepleted(Treated(start, s, i, now).tasks, u) == LastDepleted(s.tasks, u)
  {
    if Eligible(start, i) && i in s.records {
      AlertsAdd(s.tasks, i, NotifyList(start.owners[i.user].contacts), now, k, u);
      TaskAdds(s.tasks, QuotaDepleted(i, now), k, u);
      assert s.tasks + [] == s.tasks;
    }
  }

  /** The latest message about the quota, after n turns: one of this batch if there was reason to tell. */
  predicate ToldBy(start: State, s: State, k: Key, now: int, n: nat)
    requires Eligible(start, k)
  {
    if n > 0 && !Funded(start.owners[k.user]) && ShouldTell(start, k.user)
    then LastDepleted(s.tasks, k.user).Some? && LastDepleted(s.tasks, k.user).value >= now
    else LastDepleted(s.tasks, k.user) == LastDepleted(start.tasks, k.user)
  }

  predicate NoLater(grants: seq<GrantRow>, now: int) {
    forall i :: 0 <= i < |grants| ==> grants[i].at <= now
  }

  lemma {:induction false} NoGrantSince(grants: seq<GrantRow>, u: nat, since: int)
    requires NoLater(grants, since)
    ensures GrantsSince(grants, u, since) == 0
  {
    if grants != [] {
      NoGrantSince(grants[..|grants| - 1], u, since);
    }
  }

  lemma FundedTurn(start: State, s: State, k: Key, now: int, n: nat)
    requires Eligible(start, k) && Funded(start.owners[k.user])
    requires Seen(s, k) == TimedOutView(start, k, now, n) && ToldBy(start, s, k, now, n)
    ensures Seen(Treated(start, s, k, now), k) == TimedOutView(start, k, now, n + 1)
    ensures ToldBy(start, Treated(start, s, k, now), k, now, n + 1)
  {
    var one := AlertFor(start, k, now);
    AlertsAdd(s.tasks, k, NotifyList(start.owners[k.user].contacts), now, k, k.user);
    assert Copies(one, n + 1) == Copies(one, n) + one;
    assert n == 0 ==> Copies(one, n) == [];
    var v := Seen(start, k).alerts;
    assert v + [] == v;
    assert v + (Copies(one, n) + one) == (v + Copies(one, n)) + one;
  }

  /** Only the first turn of a batch has reason to tell. */
  lemma ToldByFirstTurn(start: State, s: State, k: Key, now: int, n: nat)
    requires Eligible(start, k) && !Funded(start.owners[k.user]) && s.grants == start.grants
    requires n > 0 ==> NoLater(start.grants, now)
    requires ToldBy(start, s, k, now, n)
    ensures ShouldTell(s, k.user) <==> n == 0 && ShouldTell(start, k.user)
  {
    if n > 0 && ShouldTell(start, k.user) {
      NoGrantSince(s.grants, k.user, LastDepleted(s.tasks, k.user).value);
    }
  }

  lemma TellingIsLast(tasks: seq<Task>, k: Key, now: int)
    ensures var last := LastDepleted(tasks + [QuotaDepleted(k, now)], k.user); last.Some? && last.value >= now
  {
    assert (tasks + [QuotaDepleted(k, now)])[..|tasks|] == tasks;
  }

  lemma UnfundedTurn(start: State, s: State, k: Key, now: int, n: nat)
    requires Eligible(start, k) && !Funded(start.owners[k.user]) && s.grants == start.grants
    requires n > 0 ==> NoLater(start.grants, now)
    requires Seen(s, k) == TimedOutView(start, k, now, n) && ToldBy(start, s, k, now, n)
    ensures Seen(Treated(start, s, k, now), k) == TimedOutView(start, k, now, n + 1)
    ensures ToldBy(start, Treated(start, s, k, now), k, now, n + 1)
  {
    ToldByFirstTurn(start, s, k, now, n);
    if ShouldTell(s, k.user) {
      TaskAdds(s.tasks, QuotaDepleted(k, now), k, k.user);
      TellingIsLast(s.tasks, k, now);
    } else {
      assert s.tasks + [] == s.tasks;
    }
  }

  lemma {:induction false} BatchKeepsTables(s: State, users: seq<nat>, date: nat, now: int, n: nat)
    requires n <= |users|
    ensures var z := Batched(s, users, date, now, n);
            z.grants == s.grants && z.owners == s.owners && z.records.Keys == s.records.Keys
  {
    if n > 0 {
      BatchKeepsTables(s, users, date, now, n - 1);
    }
  }

  /** A record that is not listed so far, of another date, or not eligible, is as before. */
  lemma {:induction false} BatchApart(s: State, users: seq<nat>, date: nat, now: int, n: nat, k: Key)
    requires n <= |users|
    requires k.user !in users[..n] || k.date != date || !Eligible(s, k)
    ensures Seen(Batched(s, users, date, now, n), k) == Seen(s, k)
    ensures k.user !in users[..n] ==>
              LastDepleted(Batched(s, users, date, now, n).tasks, k.user) == LastDepleted(s.tasks, k.user)
  {
    if n > 0 {
      assert users[..n] == users[..n - 1] + [users[n - 1]];
      BatchApart(s, users, date, now, n - 1, k);
      TreatedApart(s, Batched(s, users, date, now, n - 1), Key(users[n - 1], date), now, k, k.user);
    }
  }

  /** Main result: a batch times out exactly the listed records that were there and not alerted.  Each
      funded one gets, for every time it is listed, the alerts to the first three contacts by
      priority; an unfunded one gets at most one message to the user; no other record changes.
      Listing a user more often is covered when the clock has not fallen behind the ledger. */
  lemma {:induction false} BatchIsExact(s: State, users: seq<nat>, date: nat, now: int, n: nat, k: Key)
    requires n <= |users| && (Count(users[..n], k.user) > 1 ==> NoLater(s.grants, now))
    ensures Seen(Batched(s, users, date, now, n), k)
            == if k.date == date && Eligible(s, k) then TimedOutView(s, k, now, Count(users[..n], k.user))
               else Seen(s, k)
    ensures k.date == date && Eligible(s, k)
            ==> ToldBy(s, Batched(s, users, date, now, n), k, now, Count(users[..n], k.user))
  {
    if k.date != date || !Eligible(s, k) {
      BatchApart(s, users, date, now, n, k);
    } else if n > 0 {
      var before := Batched(s, users, date, now, n - 1);
      var upTo := users[..n];
      assert upTo[..n - 1] == users[..n - 1];
      BatchIsExact(s, users, date, now, n - 1, k);
      BatchKeepsTables(s, users, date, now, n - 1);
      if users[n - 1] != k.user {
        TreatedApart(s, before, Key(users[n - 1], date), now, k, k.user);
      } else if Funded(s.owners[k.user]) {
        FundedTurn(s, before, k, now, Count(users[..n - 1], k.user));
      } else {
        UnfundedTurn(s, before, k, now, Count(users[..n - 1], k.user));
      }
    }
  }

  // ----- alerted at most once -----

  /** Alerts to at most three contacts in priority order, all written at `at`. */
  ghost predicate OneAlert(alerts: seq<Task>, k: Key, at: int) {
    exists contacts: seq<Contact> :: |contacts| <= MAX_CONTACTS && Ascending(contacts)
        && alerts == Alerts(k, contacts, at)
  }

  ghost predicate Story(v: View, k: Key) {
    if v.record.None? || v.record.value.alertedAt.None? then v.alerts == [] && v.depleted == 0
    else
      && OneAlert(v.alerts, k, v.record.value.alertedAt.value)
      && v.depleted <= 1 && (v.depleted == 1 ==> v.alerts == [])
  }

  lemma TimedOutStory(s: State, k: Key, now: int)
    requires Eligible(s, k) && Story(Seen(s, k), k)
    ensures Story(TimedOutView(s, k, now, 1), k)
  {
    var contacts := s.owners[k.user].contacts;
    var rest := NotifiesTheFirstThree(contacts);
    var list := NotifyList(contacts);
    assert list == (list + rest)[..|list|];
    assert Copies(AlertFor(s, k, now), 0) == [];
    assert [] + Alerts(k, list, now) == Alerts(k, list, now);
    assert Alerts(k, [], now) == [];
    assert OneAlert(Alerts(k, [], now), k, now);
    assert OneAlert(Alerts(k, list, now), k, now);
  }

  /** A batch of the record's date lists its user at most once. */
  predicate ListedOnceBy(e: Event, k: Key) {
    e.act.Batch? && e.act.date == k.date ==> Count(e.act.users, k.user) <= 1
  }

  predicate ListedOnce(es: seq<Event>, k: Key) {
    forall i :: 0 <= i < |es| ==> ListedOnceBy(es[i], k)
  }

  /** The alert time and the alerts of a record that was alerted. */
  predicate SameAlert(v: View, z: View) {
    && z.alerts == v.alerts && z.depleted == v.depleted && z.record.Some?
    && v.record.Some? && z.record.value.alertedAt == v.record.value.alertedAt
  }

  predicate IsAlerted(v: View) {
    v.record.Some? && v.record.value.alertedAt.Some?
  }

  lemma BatchKeepsStory(s: State, users: seq<nat>, date: nat, now: int, k: Key)
    requires Story(Seen(s, k), k) && (date == k.date ==> Count(users, k.user) <= 1)
    ensures var z := Seen(Batched(s, users, date, now, |users|), k);
            Story(z, k) && (IsAlerted(Seen(s, k)) ==> SameAlert(Seen(s, k), z))
  {
    assert users[..|users|] == users;
    if date != k.date {
      BatchApart(s, users, date, now, |users|, k);
    } else {
      BatchIsExact(s, users, date, now, |users|, k);
      if Eligible(s, k) {
        TimedOutStory(s, k, now);
      }
    }
  }

  /** The upserts leave the alert alone. */
  lemma UpsertsKeepAlert(s: State, i: Key, now: int, k: Key)
    ensures var v := Seen(s, k);
            forall z :: z in {Seen(CheckedIn(s, i, now), k), Seen(Stamped(s, i, now), k)} ==>
              && z.alerts == v.alerts && z.depleted == v.depleted && (IsAlerted(v) <==> IsAlerted(z))
              && (IsAlerted(v) ==> SameAlert(v, z))
  {
  }

  lemma StoryKept(s: State, e: Event, k: Key)
    requires Story(Seen(s, k), k) && ListedOnceBy(e, k)
    ensures Story(Seen(Step(s, e), k), k)
    ensures IsAlerted(Seen(s, k)) ==> SameAlert(Seen(s, k), Seen(Step(s, e), k))
  {
    match e.act
    case Batch(users, date) => BatchKeepsStory(s, users, date, e.at, k);
    case CheckIn(i) => UpsertsKeepAlert(s, i, e.at, k);
    case Stamp(i) => UpsertsKeepAlert(s, i, e.at, k);
    case _ =>
  }

  /** Main result: over any run of batches, check-ins, stamps and payments, a record that no batch lists twice is
      alerted at most once: its alerts are those of one alert, or it got the message about the quota. */
  lemma {:induction false} AlertedAtMostOnce(s: State, es: seq<Event>, k: Key)
    requires Story(Seen(s, k), k) && ListedOnce(es, k)
    ensures Story(Seen(Run(s, es), k), k)
    decreases |es|
  {
    if es != [] {
      StoryKept(s, es[0], k);
      AlertedAtMostOnce(Step(s, es[0]), es[1..], k);
    }
  }

  /** Main result: an alert time is never cleared or moved, by a check-in or anything else, and nothing is added to
      the alert. */
  lemma {:induction false} AlertTimeIsFinal(s: State, es: seq<Event>, k: Key)
    requires Story(Seen(s, k), k) && ListedOnce(es, k) && IsAlerted(Seen(s, k))
    ensures SameAlert(Seen(s, k), Seen(Run(s, es), k))
    decreases |es|
  {
    if es != [] {
      StoryKept(s, es[0], k);
      AlertTimeIsFinal(Step(s, es[0]), es[1..], k);
    }
  }

  lemma StoryAtStart(k: Key)
    ensures Story(Seen(START, k), k)
  {
  }

  /** Both, from the beginning: `es` leads up to any moment, `more` is what comes after. */
  lemma AlertedOnceForEver(es: seq<Event>, more: seq<Event>, k: Key)
    requires ListedOnce(es, k) && ListedOnce(more, k)
    ensures var z := Run(START, es);
            && Story(Seen(z, k), k) && Story(Seen(Run(z, more), k), k)
            && (IsAlerted(Seen(z, k)) ==> SameAlert(Seen(z, k), Seen(Run(z, more), k)))
  {
    StoryAtStart(k);
    AlertedAtMostOnce(START, es, k);
    AlertedAtMostOnce(Run(START, es), more, k);
    if IsAlerted(Seen(Run(START, es), k)) {
      AlertTimeIsFinal(Run(START, es), more, k);
    }
  }

  // ----- what the code does not promise -----

  /** Having checked in does not protect: the batch does not look at the status. */
  lemma DoneDoesNotProtect(s: State, k: Key, now: int)
    requires Eligible(s, k) && s.records[k].status == Done && Funded(s.owners[k.user])
    ensures var z := Step(s, Event(now, Batch([k.user], k.date)));
            && k in z.records && z.records[k].status == Status.TimedOut
            && z.records[k].checkedInAt == s.records[k].checkedInAt
            && Seen(z, k).alerts == Seen(s, k).alerts + Alerts(k, NotifyList(s.owners[k.user].contacts), now)
  {
    var users := [k.user];
    assert users[..0] == [] && users[..1] == users;
    assert Count(users, k.user) == 1;
    BatchIsExact(s, users, k.date, now, 1, k);
    var one := AlertFor(s, k, now);
    assert Copies(one, 1) == Copies(one, 0) + one == one;
  }

  /** A run from the beginning: a user checks in, the deadline passes, and the contact is alerted. */
  lemma CheckedInYetAlerted(c: Contact) returns (es: seq<Event>)
    ensures Timely(0, es) && |es| == 3 && es[1].act == CheckIn(Key(1, 1))
    ensures var z := Run(START, es);
            && Key(1, 1) in z.records && z.records[Key(1, 1)].checkedInAt.Some?
            && z.records[Key(1, 1)].status == Status.TimedOut && Seen(z, Key(1, 1)).alerts != []
  {
    var k := Key(1, 1);
    var e0, e1 := Event(0, ChangeOwner(1, Owner(true, [c], 100), true)), Event(1, CheckIn(k));
    var e2 := Event(2, Batch([1], 1));
    var s1 := Step(START, e0);
    var s2 := Step(s1, e1);
    DoneDoesNotProtect(s2, k, 2);
    var rest := NotifiesTheFirstThree([c]);
    es := [e0, e1, e2];
    assert es[1..] == [e1, e2] && [e1, e2][1..] == [e2] && [e2][1..] == [];
    assert Timely(1, [e2]) && Timely(0, [e1, e2]);
    assert Run(s2, [e2]) == Step(s2, e2);
    assert Run(s1, [e1, e2]) == Step(s2, e2);
  }

  lemma {:induction false} CopiesLength(one: seq<Task>, n: nat)
    requires one != []
    ensures |Copies(one, n)| >= n && (n > 1 ==> |Copies(one, n)| > |one|) && (n >= 1 ==> |Copies(one, n)| >= |one|)
  {
    if n > 0 {
      CopiesLength(one, n - 1);
    }
  }

  /** The only publisher of timeout batches takes one id from each user row, and ids are unique. */
  lemma {:induction false} PublishedListsOnce(users: seq<nat>, u: nat)
    requires forall i, j :: 0 <= i < j < |users| ==> users[i] != users[j]
    ensures Count(users, u) <= 1 && (Count(users, u) == 1 <==> u in users)
  {
    if users != [] {
      PublishedListsOnce(users[..|users| - 1], u);
      assert users == users[..|users| - 1] + [users[|users| - 1]];
    }
  }

  /** The lists of the shipped publisher name nobody twice.  A list that did would have the record alerted
      that often, for every turn goes by what was read before the loop: a user with contacts is
      alerted exactly once if and only if listed exactly once. */
  lemma AlertedOnceIffListedOnce(s: State, users: seq<nat>, k: Key, now: int)
    requires Eligible(s, k) && Funded(s.owners[k.user]) && s.owners[k.user].contacts != [] && NoLater(s.grants, now)
    ensures var z := Step(s, Event(now, Batch(users, k.date)));
            && Seen(z, k).alerts == Seen(s, k).alerts + Copies(AlertFor(s, k, now), Count(users, k.user))
            && (Seen(z, k).alerts == Seen(s, k).alerts + AlertFor(s, k, now) <==> Count(users, k.user) == 1)
            && (Seen(z, k).alerts == Seen(s, k).alerts <==> Count(users, k.user) == 0)
  {
    var n := Count(users, k.user);
    var one := AlertFor(s, k, now);
    assert users[..|users|] == users;
    BatchIsExact(s, users, k.date, now, |users|, k);
    var rest := NotifiesTheFirstThree(s.owners[k.user].contacts);
    CopiesLength(one, n);
    assert Copies(one, 0) == [] && Copies(one, 1) == Copies(one, 0) + one == one;
    assert Seen(s, k).alerts + [] == Seen(s, k).alerts;
  }

  // ----- the message about the quota -----

  /** The user has a grant after a and up to b. */
  ghost predicate GrantBetween(grants: seq<GrantRow>, u: nat, a: int, b: int) {
    exists i :: 0 <= i < |grants| && grants[i].user == u && a < grants[i].at <= b
  }

  ghost predicate Separated(tasks: seq<Task>, grants: seq<GrantRow>, u: nat) {
    forall i, k :: 0 <= i < k < |tasks| && IsDepleted(tasks[i], u) && IsDepleted(tasks[k], u)
                   ==> GrantBetween(grants, u, tasks[i].at, tasks[k].at)
  }

  lemma {:induction false} SomeGrantSince(grants: seq<GrantRow>, u: nat, since: int, now: int)
    requires GrantsSince(grants, u, since) > 0 && NoLater(grants, now)
    ensures GrantBetween(grants, u, since, now)
  {
    var k := |grants| - 1;
    if grants[k].user == u && since < grants[k].at {
    } else {
      SomeGrantSince(grants[..k], u, since, now);
      var i :| 0 <= i < k && grants[..k][i].user == u && since < grants[..k][i].at <= now;
      assert grants[i] == grants[..k][i];
    }
  }

  lemma {:induction false} LastIsLatest(tasks: seq<Task>, u: nat, i: nat)
    requires i < |tasks| && IsDepleted(tasks[i], u)
    ensures LastDepleted(tasks, u).Some? && tasks[i].at <= LastDepleted(tasks, u).value
  {
    var k := |tasks| - 1;
    if i < k {
      assert tasks[..k][i] == tasks[i];
      LastIsLatest(tasks[..k], u, i);
    }
  }

  lemma AddDepleted(s: State, k: Key, now: int, u: nat)
    requires Separated(s.tasks, s.grants, u) && NoLater(s.grants, now) && ShouldTell(s, k.user)
    ensures Separated(s.tasks + [QuotaDepleted(k, now)], s.grants, u)
  {
    var z := s.tasks + [QuotaDepleted(k, now)];
    forall i, j | 0 <= i < j < |z| && IsDepleted(z[i], u) && IsDepleted(z[j], u)
      ensures GrantBetween(s.grants, u, z[i].at, z[j].at)
    {
      if j == |s.tasks| {
        LastIsLatest(s.tasks, u, i);
        SomeGrantSince(s.grants, u, LastDepleted(s.tasks, u).value, now);
      }
    }
  }

  lemma AddAlerts(s: State, k: Key, contacts: seq<Contact>, now: int, u: nat)
    requires Separated(s.tasks, s.grants, u)
    ensures Separated(s.tasks + Alerts(k, contacts, now), s.grants, u)
  {
  }

  lemma {:induction false} BatchSeparates(s: State, users: seq<nat>, date: nat, now: int, n: nat, u: nat)
    requires n <= |users| && Separated(s.tasks, s.grants, u) && NoLater(s.grants, now)
    ensures Separated(Batched(s, users, date, now, n).tasks, s.grants, u)
  {
    if n > 0 {
      BatchSeparates(s, users, date, now, n - 1, u);
      BatchKeepsTables(s, users, date, now, n - 1);
      var before := Batched(s, users, date, now, n - 1);
      var k := Key(users[n - 1], date);
      if Eligible(s, k) {
        AddAlerts(before, k, NotifyList(s.owners[k.user].contacts), now, u);
        if ShouldTell(before, k.user) {
          AddDepleted(before, k, now, u);
        }
        assert before.tasks + [] == before.tasks;
      }
    }
  }

  lemma MoreGrants(tasks: seq<Task>, grants: seq<GrantRow>, g: GrantRow, u: nat)
    requires Separated(tasks, grants, u)
    ensures Separated(tasks, grants + [g], u)
  {
    forall i, k | 0 <= i < k < |tasks| && IsDepleted(tasks[i], u) && IsDepleted(tasks[k], u)
      ensures GrantBetween(grants + [g], u, tasks[i].at, tasks[k].at)
    {
      var j :| 0 <= j < |grants| && grants[j].user == u && tasks[i].at < grants[j].at <= tasks[k].at;
      assert (grants + [g])[j] == grants[j];
    }
  }

  lemma {:induction false} SeparatedAlways(s: State, now: int, es: seq<Event>, u: nat)
    requires Timely(now, es) && Separated(s.tasks, s.grants, u) && NoLater(s.grants, now)
    ensures var z := Run(s, es); Separated(z.tasks, z.grants, u)
    decreases |es|
  {
    if es != [] {
      match es[0].act {
        case Batch(users, date) =>
          BatchSeparates(s, users, date, es[0].at, |users|, u);
          BatchKeepsTables(s, users, date, es[0].at, |users|);
        case ChangeOwner(v, owner, grant) =>
          MoreGrants(s.tasks, s.grants, GrantRow(v, es[0].at), u);
        case _ =>
      }
      SeparatedAlways(Step(s, es[0]), es[0].at, es[1..], u);
    }
  }

  /** Main result: between two messages to a user that the quota is used up there is always a grant
      created after the first, whatever batches run, repeated users included. */
  lemma ToldOncePerGrant(now: int, es: seq<Event>, u: nat, i: nat, k: nat)
    requires Timely(now, es)
    requires var z := Run(START, es); i < k < |z.tasks| && IsDepleted(z.tasks[i], u) && IsDepleted(z.tasks[k], u)
    ensures var z := Run(START, es); GrantBetween(z.grants, u, z.tasks[i].at, z.tasks[k].at)
  {
    SeparatedAlways(START, now, es, u);
  }
}
