/** What the faults that DeliverySafety counts really cost.  From every state in which one of
    them can strike, the script given here is a possible continuation: the bounds proved there
    are reached, so the failure model cannot be relaxed. */
module DeliveryFaults {
  import opened Quota
  import opened Delivery
  import opened DeliverySafety

  // ----- which faults a run contains -----

  /** Crashes of workers, expiries of marks that a handler has set and not completed, and task updates that
      fail after a committed charge. */
  datatype Faults = Faults(crashes: bool, expiries: bool, updates: bool)

  predicate Permitted(s: State, e: Event, f: Faults)
    requires Enabled(s, e)
  {
    match e
    case Outside(input) => input.Expire? && s.marks[input.t] == InProgress ==> f.expiries
    case Inside(_, act) => (act.Crash? ==> f.crashes) && (act.RecordFails? ==> f.updates)
  }

  /** The run has no faults but those. */
  predicate Within(s: State, es: seq<Event>, f: Faults)
    requires Valid(s, es)
    decreases |es|
  {
    es == [] || (Permitted(s, es[0], f) && Within(Apply(s, es[0]), es[1..], f))
  }

  // ----- putting runs together -----

  lemma ExecCons(s: State, e: Event, rest: seq<Event>, n: State)
    requires Enabled(s, e) && n == Apply(s, e) && Valid(n, rest)
    ensures Valid(s, [e] + rest) && Exec(s, [e] + rest) == Exec(n, rest)
  {
    assert ([e] + rest)[1..] == rest;
  }

  lemma WithinCons(s: State, e: Event, rest: seq<Event>, n: State, f: Faults)
    requires Enabled(s, e) && n == Apply(s, e) && Valid(n, rest) && Permitted(s, e, f) && Within(n, rest, f)
    ensures Valid(s, [e] + rest) && Within(s, [e] + rest, f)
  {
    assert ([e] + rest)[1..] == rest;
  }

  lemma {:induction false} ExecAppend(s: State, es: seq<Event>, more: seq<Event>, f: Faults) returns (all: seq<Event>)
    requires Valid(s, es) && Valid(Exec(s, es), more) && Within(s, es, f) && Within(Exec(s, es), more, f)
    ensures Valid(s, all) && Exec(s, all) == Exec(Exec(s, es), more) && Within(s, all, f)
    decreases |es|
  {
    if es == [] {
      all := more;
    } else {
      var n := Apply(s, es[0]);
      var rest := ExecAppend(n, es[1..], more, f);
      ExecCons(s, es[0], rest, n);
      WithinCons(s, es[0], rest, n, f);
      all := [es[0]] + rest;
    }
  }

  lemma ExecTwo(s: State, e1: Event, e2: Event, s1: State, s2: State, f: Faults) returns (es: seq<Event>)
    requires Enabled(s, e1) && s1 == Apply(s, e1) && Permitted(s, e1, f)
    requires Enabled(s1, e2) && s2 == Apply(s1, e2) && Permitted(s1, e2, f)
    ensures Valid(s, es) && Exec(s, es) == s2 && Within(s, es, f)
  {
    assert Valid(s2, []) && Exec(s2, []) == s2 && Within(s2, [], f);
    ExecCons(s1, e2, [], s2);
    WithinCons(s1, e2, [], s2, f);
    es := [e1] + ([e2] + []);
    ExecCons(s, e1, [e2] + [], s1);
    WithinCons(s, e1, [e2] + [], s1, f);
  }

  lemma ExecThree(s: State, e1: Event, e2: Event, e3: Event, s1: State, s2: State, s3: State, f: Faults)
    returns (es: seq<Event>)
    requires Enabled(s, e1) && s1 == Apply(s, e1) && Permitted(s, e1, f)
    requires Enabled(s1, e2) && s2 == Apply(s1, e2) && Permitted(s1, e2, f)
    requires Enabled(s2, e3) && s3 == Apply(s2, e3) && Permitted(s2, e3, f)
    ensures Valid(s, es) && Exec(s, es) == s3 && Within(s, es, f)
  {
    var rest := ExecTwo(s1, e2, e3, s2, s3, f);
    es := [e1] + rest;
    ExecCons(s, e1, rest, s1);
    WithinCons(s, e1, rest, s1, f);
  }

  // ----- single acts, seen through the fields a later act looks at -----

  predicate Quiet(s: State, n: State) {
    && n.tasks == s.tasks && n.users == s.users && n.wallets == s.wallets
    && n.accepted == s.accepted && n.settled == s.settled && n.rejected == s.rejected
  }

  lemma DeliverAct(s: State, w: nat, c: Copy)
    requires w !in s.workers && c in s.ready
    ensures var n := Apply(s, Inside(w, Deliver(c)));
            Quiet(s, n) && n.marks == s.marks && n.ready == s.ready - multiset{c}
                && n.workers == s.workers[w := Worker(c, Received)]
  {
  }

  lemma LockTakes(s: State, w: nat, c: Copy)
    requires w in s.workers && s.workers[w] == Worker(c, Received) && !c.garbled && c.task !in s.marks
    ensures var n := Apply(s, Inside(w, Lock));
            Quiet(s, n) && n.ready == s.ready && n.workers == s.workers[w := Worker(c, Locked)]
  {
  }

  lemma LockSkips(s: State, w: nat, c: Copy)
    requires w in s.workers && s.workers[w] == Worker(c, Received) && !c.garbled && c.task in s.marks
    ensures var n := Apply(s, Inside(w, Lock));
            Quiet(s, n) && n.ready == s.ready && n.workers == s.workers[w := Worker(c, Leaving)]
  {
  }

  lemma AckAct(s: State, w: nat)
    requires w in s.workers && s.workers[w].pc == Leaving
    ensures var n := Apply(s, Inside(w, Ack));
            Quiet(s, n) && n.ready == s.ready && n.workers == s.workers - {w}
  {
  }

  lemma InspectPasses(s: State, w: nat, c: Copy)
    requires w in s.workers && s.workers[w] == Worker(c, Locked) && c.task != 0 && Sendable(s.tasks, c)
            && c.user in s.users
    ensures var n := Apply(s, Inside(w, Inspect));
            Quiet(s, n) && n.ready == s.ready && n.workers == s.workers[w := Worker(c, Checked)]
  {
  }

  lemma RecordFailsAct(s: State, w: nat, c: Copy)
    requires w in s.workers && s.workers[w] == Worker(c, Charged)
    ensures var n := Apply(s, Inside(w, RecordFails));
            Quiet(s, n) && n.ready == s.ready && n.marks == s.marks && n.workers == s.workers[w := Worker(c, UnmarkDue)]
  {
  }

  lemma UnmarkAct(s: State, w: nat, c: Copy)
    requires w in s.workers && s.workers[w] == Worker(c, UnmarkDue)
    ensures var n := Apply(s, Inside(w, Unmark));
            Quiet(s, n) && n.ready == s.ready && n.marks == s.marks - {c.task}
                && n.workers == s.workers[w := Worker(c, Bouncing)]
  {
  }

  lemma BounceAct(s: State, w: nat, c: Copy)
    requires w in s.workers && s.workers[w] == Worker(c, Bouncing) && c.retry < MAX_RETRIES
    ensures var n := Apply(s, Inside(w, Bounce(true)));
            Quiet(s, n) && n.ready == s.ready + multiset{c.(retry := c.retry + 1)} && n.marks == s.marks
            && n.workers == s.workers[w := Worker(c, Leaving)]
  {
  }

  lemma CrashAct(s: State, w: nat)
    requires w in s.workers
    ensures var n := Apply(s, Inside(w, Crash));
            Quiet(s, n) && n.marks == s.marks && n.ready == s.ready + multiset{s.workers[w].copy}
                && n.workers == s.workers - {w}
  {
  }

  // ----- an undisturbed send -----

  /** The payer can afford another message. */
  predicate Solvent(s: State, u: nat) {
    u in s.users && WalletOf(s, u).present && WalletOf(s, u).columns.available >= UNIT_PRICE
  }

  /** Nothing stands in the way of a send. */
  predicate Clear(s: State, w: nat, c: Copy) {
    && w !in s.workers && c in s.ready && c.task != 0 && c.task !in s.marks
    && Sendable(s.tasks, c) && Solvent(s, c.user)
  }

  lemma PickUp(s: State, w: nat, c: Copy, f: Faults) returns (es: seq<Event>)
    requires Clear(s, w, c)
    ensures Valid(s, es) && Within(s, es, f)
    ensures var n := Exec(s, es);
            && Quiet(s, n) && n.workers == s.workers[w := Worker(c, Checked)]
            && n.ready == s.ready - multiset{c} && n.named == s.named
  {
    DeliverAct(s, w, c);
    var s1 := Apply(s, Inside(w, Deliver(c)));
    LockTakes(s1, w, c);
    var s2 := Apply(s1, Inside(w, Lock));
    InspectPasses(s2, w, c);
    var s3 := Apply(s2, Inside(w, Inspect));
    assert s3.workers == s.workers[w := Worker(c, Checked)];
    assert s3.ready == s.ready - multiset{c} && s3.named == s.named && Quiet(s, s3);
    es := ExecThree(s, Inside(w, Deliver(c)), Inside(w, Lock), Inside(w, Inspect), s1, s2, s3, f);
  }

  lemma SendOff(s: State, w: nat, c: Copy, f: Faults) returns (es: seq<Event>)
    requires w in s.workers && s.workers[w] == Worker(c, Checked) && Solvent(s, c.user)
    ensures Valid(s, es) && Within(s, es, f) && Exec(s, es).accepted == s.accepted.Add(c.task, c.user)
  {
    var s1 := Apply(s, Inside(w, Reserve));
    assert s1.workers == s.workers[w := Worker(c, Reserved)] && s1.accepted == s.accepted;
    var s2 := Apply(s1, Inside(w, Send(Accepted)));
    es := ExecTwo(s, Inside(w, Reserve), Inside(w, Send(Accepted)), s1, s2, f);
  }

  /** Deliver, lock, inspect, reserve, send. */
  lemma SendGoesThrough(s: State, w: nat, c: Copy, f: Faults) returns (es: seq<Event>)
    requires Clear(s, w, c)
    ensures Valid(s, es) && Within(s, es, f)
    ensures Exec(s, es).accepted == s.accepted.Add(c.task, c.user)
  {
    var first := PickUp(s, w, c, f);
    var second := SendOff(Exec(s, first), w, c, f);
    es := ExecAppend(s, first, second, f);
  }

  // ----- the faults -----

  lemma SentOnceAlready(s: State, w: nat)
    requires Inv(s) && w in s.workers && In(s.workers[w].pc, PostSend)
    ensures s.accepted.byTask[s.workers[w].copy.task] >= 1
  {
    assert SendsOk(s, s.workers[w].copy.task);
    assert w in ByTask(s.workers, PostSend, s.workers[w].copy.task);
  }

  /** Crash, then the mark expires. */
  lemma ExpiryClears(s: State, w: nat, v: nat, f: Faults) returns (es: seq<Event>)
    requires f.crashes && f.expiries
    requires Inv(s) && w in s.workers && s.workers[w].pc.Sent? && v !in s.workers
    requires s.workers[w].copy.task != 0 && Solvent(s, s.workers[w].copy.user)
    ensures Valid(s, es) && Within(s, es, f)
    ensures Exec(s, es).accepted == s.accepted && Clear(Exec(s, es), v, s.workers[w].copy)
  {
    var c := s.workers[w].copy;
    assert Sendable(s.tasks, c);
    CrashLeavesStuck(s, w);
    CrashAct(s, w);
    var s1 := Apply(s, Inside(w, Crash));
    var s2 := Apply(s1, Outside(Expire(c.task)));
    es := ExecTwo(s, Inside(w, Crash), Outside(Expire(c.task)), s1, s2, f);
  }

  /** A crash right after the send, followed by the expiry of the mark, can send the message
      again: the task row never learnt of the first send. */
  lemma CrashAndExpiryResend(s: State, w: nat, v: nat, f: Faults) returns (es: seq<Event>)
    requires f.crashes && f.expiries
    requires Inv(s) && w in s.workers && s.workers[w].pc.Sent? && v !in s.workers
    requires s.workers[w].copy.task != 0 && Solvent(s, s.workers[w].copy.user)
    ensures Valid(s, es) && Within(s, es, f)
    ensures Exec(s, es).accepted.byTask[s.workers[w].copy.task] == s.accepted.byTask[s.workers[w].copy.task] + 1 >= 2
  {
    var first := ExpiryClears(s, w, v, f);
    var second := SendGoesThrough(Exec(s, first), v, s.workers[w].copy, f);
    es := ExecAppend(s, first, second, f);
    SentOnceAlready(s, w);
  }

  lemma FailedRecordScript(s: State, w: nat, c: Copy, f: Faults) returns (es: seq<Event>)
    requires f.updates
    requires w in s.workers && s.workers[w] == Worker(c, Charged) && c.retry < MAX_RETRIES
    ensures Valid(s, es) && Within(s, es, f)
    ensures var n := Exec(s, es);
            Quiet(s, n) && n.ready == s.ready + multiset{c.(retry := c.retry + 1)} && n.marks == s.marks - {c.task}
            && n.workers.Keys == s.workers.Keys
  {
    RecordFailsAct(s, w, c);
    var s1 := Apply(s, Inside(w, RecordFails));
    UnmarkAct(s1, w, c);
    var s2 := Apply(s1, Inside(w, Unmark));
    BounceAct(s2, w, c);
    var s3 := Apply(s2, Inside(w, Bounce(true)));
    es := ExecThree(s, Inside(w, RecordFails), Inside(w, Unmark), Inside(w, Bounce(true)), s1, s2, s3, f);
  }

  lemma WorkingIsSendable(s: State, w: nat)
    requires Inv(s) && w in s.workers && In(s.workers[w].pc, Working)
    ensures Sendable(s.tasks, s.workers[w].copy)
  {
  }

  lemma ClearLater(s: State, n: State, v: nat, c: Copy)
    requires Quiet(s, n) && Sendable(s.tasks, c) && Solvent(s, c.user)
    requires v !in n.workers && c in n.ready && c.task != 0 && c.task !in n.marks
    ensures Clear(n, v, c)
  {
  }

  /** The update fails, the handler reports an error, and the message is published again. */
  lemma FailedRecordComesBack(s: State, w: nat, c: Copy, v: nat, f: Faults) returns (es: seq<Event>)
    requires f.updates
    requires w in s.workers && s.workers[w] == Worker(c, Charged) && v !in s.workers
    requires c.task != 0 && c.retry < MAX_RETRIES && Solvent(s, c.user) && Sendable(s.tasks, c)
    ensures Valid(s, es) && Within(s, es, f) && Exec(s, es).accepted == s.accepted
    ensures Clear(Exec(s, es), v, c.(retry := c.retry + 1))
  {
    es := FailedRecordScript(s, w, c, f);
    ClearLater(s, Exec(s, es), v, c.(retry := c.retry + 1));
  }

  /** ConfirmDeduction commits outside the transaction that updates the task row.  When that update
      fails, the retry can send the same task again, on another reservation. */
  lemma FailedRecordResends(s: State, w: nat, v: nat, f: Faults) returns (es: seq<Event>)
    requires f.updates
    requires Inv(s) && w in s.workers && s.workers[w].pc.Charged? && v !in s.workers
    requires s.workers[w].copy.task != 0 && s.workers[w].copy.retry < MAX_RETRIES && Solvent(s, s.workers[w].copy.user)
    ensures Valid(s, es) && Within(s, es, f)
    ensures Exec(s, es).accepted.byTask[s.workers[w].copy.task] == s.accepted.byTask[s.workers[w].copy.task] + 1 >= 2
  {
    WorkingIsSendable(s, w);
    var first := FailedRecordComesBack(s, w, s.workers[w].copy, v, f);
    var second := SendGoesThrough(Exec(s, first), v, s.workers[w].copy.(retry := s.workers[w].copy.retry + 1), f);
    es := ExecAppend(s, first, second, f);
    SentOnceAlready(s, w);
  }

  /** A delivered copy whose mark is taken is skipped and acknowledged. */
  lemma MarkedCopySkipped(s: State, v: nat, c: Copy, f: Faults) returns (es: seq<Event>)
    requires v !in s.workers && c in s.ready && !c.garbled && c.task in s.marks
    ensures Valid(s, es) && Within(s, es, f) && Quiet(s, Exec(s, es))
    ensures Exec(s, es).ready == s.ready - multiset{c} && Exec(s, es).workers == s.workers
  {
    DeliverAct(s, v, c);
    var s1 := Apply(s, Inside(v, Deliver(c)));
    LockSkips(s1, v, c);
    var s2 := Apply(s1, Inside(v, Lock));
    AckAct(s2, v);
    var s3 := Apply(s2, Inside(v, Ack));
    assert s3.workers == s.workers && s3.ready == s.ready - multiset{c} && Quiet(s, s3);
    es := ExecThree(s, Inside(v, Deliver(c)), Inside(v, Lock), Inside(v, Ack), s1, s2, s3, f);
  }

  /** A crash while holding the mark can lose the message: the redelivered copy meets the mark, is
      skipped and acknowledged, and if it was the only copy nothing is left to finish the job. */
  lemma CrashLosesMessage(s: State, w: nat, v: nat, f: Faults) returns (es: seq<Event>)
    requires f.crashes
    requires Inv(s) && Holds(s.workers, w) && v !in s.workers
    requires forall u :: u in s.workers && u != w ==> s.workers[u].copy.task != s.workers[w].copy.task
    requires !InQueue(s.ready, s.workers[w].copy.task)
    ensures Valid(s, es) && Within(s, es, f)
    ensures !Carried(Exec(s, es), s.workers[w].copy.task)
    ensures Exec(s, es).settled == s.settled && Exec(s, es).rejected == s.rejected
  {
    var c := s.workers[w].copy;
    CrashAct(s, w);
    var s1 := Apply(s, Inside(w, Crash));
    var rest := MarkedCopySkipped(s1, v, c, f);
    assert s1.ready - multiset{c} == s.ready;
    es := [Inside(w, Crash)] + rest;
    ExecCons(s, Inside(w, Crash), rest, s1);
    WithinCons(s, Inside(w, Crash), rest, s1, f);
  }

  // ----- each fault, in a run from the beginning -----

  function FirstCopy(t: nat, u: nat): Copy {
    Copy(t, u, 0, false)
  }

  /** An idle system in which user u can pay twice and task t is new. */
  ghost predicate Fresh(s: State, t: nat, u: nat) {
    Start(s) && Solvent(s, u) && WalletOf(s, u).columns.available >= 2 * UNIT_PRICE && t != 0 && t !in s.tasks
  }

  /** There are such systems. */
  lemma SomeFresh() returns (s: State)
    ensures Fresh(s, 1, 1)
  {
    var wallets := map[1 := Granted(NO_ACCOUNT, 100, NewUserBonus)];
    s := State(multiset{}, map[], map[], map[], {1}, wallets, {}, NONE, NONE, {}, {}, NONE, NONE,
               multiset{}, {}, multiset{});
    assert forall u: nat :: SentTasks(s.tasks, u) == {};
  }

  /** The task is created and its message published. */
  lemma TaskPublished(s: State, t: nat, u: nat, w: nat, f: Faults) returns (es: seq<Event>)
    requires Fresh(s, t, u)
    ensures Valid(s, es) && Within(s, es, f)
    ensures var n := Exec(s, es);
            && Clear(n, w, FirstCopy(t, u)) && n.workers == map[] && n.ready == multiset{FirstCopy(t, u)}
            && n.wallets == s.wallets && n.settled == {} && n.rejected == {} && n.named == {t}
  {
    var c := FirstCopy(t, u);
    var e1, e2 := Outside(CreateTask(t, u)), Outside(Publish(c));
    es := ExecTwo(s, e1, e2, Apply(s, e1), Apply(Apply(s, e1), e2), f);
  }

  lemma SendAndKeep(s: State, w: nat, c: Copy, f: Faults) returns (es: seq<Event>)
    requires s.workers == map[w := Worker(c, Checked)] && Solvent(s, c.user)
    requires WalletOf(s, c.user).columns.available >= 2 * UNIT_PRICE
    ensures Valid(s, es) && Within(s, es, f)
    ensures var n := Exec(s, es);
            && n.workers == map[w := Worker(c, Sent)] && Solvent(n, c.user) && n.ready == s.ready
            && n.settled == s.settled && n.rejected == s.rejected && n.named == s.named
  {
    var s1 := Apply(s, Inside(w, Reserve));
    assert s1.workers == map[w := Worker(c, Reserved)];
    var s2 := Apply(s1, Inside(w, Send(Accepted)));
    assert s2.workers == map[w := Worker(c, Sent)];
    es := ExecTwo(s, Inside(w, Reserve), Inside(w, Send(Accepted)), s1, s2, f);
  }

  /** From the beginning to a worker that has just sent. */
  lemma ReachSent(s: State, t: nat, u: nat, w: nat, f: Faults) returns (es: seq<Event>)
    requires Fresh(s, t, u)
    ensures Valid(s, es) && Within(s, es, f) && Inv(Exec(s, es))
    ensures var n := Exec(s, es);
            && n.workers == map[w := Worker(FirstCopy(t, u), Sent)] && Solvent(n, u) && n.ready == multiset{}
            && n.settled == {} && n.rejected == {} && n.named == {t}
  {
    var c := FirstCopy(t, u);
    var first := TaskPublished(s, t, u, w, f);
    var s1 := Exec(s, first);
    var second := PickUp(s1, w, c, f);
    var s2 := Exec(s1, second);
    assert map[][w := Worker(c, Checked)] == map[w := Worker(c, Checked)];
    var third := SendAndKeep(s2, w, c, f);
    var rest := ExecAppend(s1, second, third, f);
    es := ExecAppend(s, first, rest, f);
    InvAtStart(s);
    InvAlways(s, es);
  }

  /** A run from the beginning in which a crash makes a task be sent twice.  The copy that the broker
      delivers again has to stay undelivered until the mark expires, 24 hours later. */
  lemma CrashResendsInARun(s: State, t: nat, u: nat, w: nat, v: nat, f: Faults) returns (es: seq<Event>)
    requires f.crashes && f.expiries
    requires Fresh(s, t, u) && v != w
    ensures Valid(s, es) && Within(s, es, f) && Exec(s, es).accepted.byTask[t] >= 2
  {
    var first := ReachSent(s, t, u, w, f);
    var second := CrashAndExpiryResend(Exec(s, first), w, v, f);
    es := ExecAppend(s, first, second, f);
  }

  lemma ChargeGoesThrough(s: State, w: nat)
    requires Inv(s) && w in s.workers && s.workers[w].pc == Sent && Solvent(s, s.workers[w].copy.user)
    ensures var n := Apply(s, Inside(w, Charge));
            n.workers == s.workers[w := Worker(s.workers[w].copy, Charged)] && Solvent(n, s.workers[w].copy.user)
  {
    SettlementAccepted(s, w);
  }

  /** One in which a failed task update does. */
  lemma FailedRecordResendsInARun(s: State, t: nat, u: nat, w: nat, v: nat, f: Faults) returns (es: seq<Event>)
    requires f.updates
    requires Fresh(s, t, u) && v != w
    ensures Valid(s, es) && Within(s, es, f) && Exec(s, es).accepted.byTask[t] >= 2
  {
    var first := ReachSent(s, t, u, w, f);
    var s1 := Exec(s, first);
    ChargeGoesThrough(s1, w);
    InvKept(s1, Inside(w, Charge));
    var s2 := Apply(s1, Inside(w, Charge));
    var rest := FailedRecordResends(s2, w, v, f);
    ExecCons(s1, Inside(w, Charge), rest, s2);
    WithinCons(s1, Inside(w, Charge), rest, s2, f);
    es := ExecAppend(s, first, [Inside(w, Charge)] + rest, f);
  }

  lemma NamedStays(s: State, es: seq<Event>, t: nat)
    requires Valid(s, es) && t in s.named
    ensures t in Exec(s, es).named
    decreases |es|
  {
    if es != [] {
      NamedStays(Apply(s, es[0]), es[1..], t);
    }
  }

  /** And one in which a crash loses the only copy of a published message. */
  lemma CrashLosesInARun(s: State, t: nat, u: nat, w: nat, v: nat, f: Faults) returns (es: seq<Event>)
    requires f.crashes
    requires Fresh(s, t, u) && v != w
    ensures Valid(s, es) && Within(s, es, f)
    ensures var z := Exec(s, es); t in z.named && !Carried(z, t) && t !in z.settled && t !in z.rejected
  {
    var first := ReachSent(s, t, u, w, f);
    var rest := CrashLosesMessage(Exec(s, first), w, v, f);
    NamedStays(Exec(s, first), rest, t);
    es := ExecAppend(s, first, rest, f);
  }

  // ----- exactly when the promises hold -----

  lemma PermittedKeepsOrphans(s: State, e: Event, f: Faults)
    requires Enabled(s, e) && Permitted(s, e, f) && !f.crashes
    ensures Apply(s, e).orphans == s.orphans
  {
  }

  lemma {:induction false} NoOrphans(s: State, es: seq<Event>, f: Faults)
    requires Valid(s, es) && Within(s, es, f) && !f.crashes && s.orphans == {}
    ensures Exec(s, es).orphans == {}
    decreases |es|
  {
    if es != [] {
      PermittedKeepsOrphans(s, es[0], f);
      NoOrphans(Apply(s, es[0]), es[1..], f);
    }
  }

  ghost predicate MarksOk(s: State) {
    forall t: nat :: LossOk(s, t)
  }

  lemma MarksOkKept(s: State, e: Event)
    requires Enabled(s, e) && MarksOk(s)
    ensures MarksOk(Apply(s, e))
  {
    forall t: nat
      ensures LossOk(Apply(s, e), t)
    {
      assert LossOk(s, t);
      if e.Inside? {
        LossKeptInside(s, e.w, e.act, t);
      } else {
        LossKeptOutside(s, e.input, t);
      }
    }
  }

  /** A mark in progress that nobody holds is the work of a crash. */
  lemma NothingToExpire(s: State, e: Event, f: Faults)
    requires Enabled(s, e) && Permitted(s, e, f) && MarksOk(s)
    requires !f.updates && !(f.crashes && f.expiries) && (f.crashes || s.orphans == {})
    ensures !Resets(s, e)
  {
    if e.Outside? && e.input.Expire? {
      assert LossOk(s, e.input.t);
    }
  }

  lemma {:induction false} NothingResets(s: State, es: seq<Event>, f: Faults)
    requires Valid(s, es) && Within(s, es, f) && MarksOk(s)
    requires !f.updates && !(f.crashes && f.expiries) && (f.crashes || s.orphans == {})
    ensures NoResets(s, es)
    decreases |es|
  {
    if es != [] {
      NothingToExpire(s, es[0], f);
      MarksOkKept(s, es[0]);
      if !f.crashes {
        PermittedKeepsOrphans(s, es[0], f);
      }
      NothingResets(Apply(s, es[0]), es[1..], f);
    }
  }

  ghost predicate SentOnce(s: State, t: nat, f: Faults) {
    forall es :: Valid(s, es) && Within(s, es, f) ==> Exec(s, es).accepted.byTask[t] <= 1
  }

  /** Main result: with faults of these kinds and no others, the provider accepts a task at most once in every
      run exactly if no task update fails after a charge, and crashes and expiring marks do not come together. */
  lemma SentOnceIff(s: State, t: nat, u: nat, f: Faults)
    requires Fresh(s, t, u)
    ensures SentOnce(s, t, f) <==> !f.updates && !(f.crashes && f.expiries)
  {
    if f.updates {
      var es := FailedRecordResendsInARun(s, t, u, 0, 1, f);
    } else if f.crashes && f.expiries {
      var es := CrashResendsInARun(s, t, u, 0, 1, f);
    } else {
      forall es | Valid(s, es) && Within(s, es, f)
        ensures Exec(s, es).accepted.byTask[t] <= 1
      {
        NothingResets(s, es, f);
        AtMostOneSend(s, es, t);
      }
    }
  }

  /** Settled, still on its way, or rejected after its last retry. */
  ghost predicate NotLost(z: State, t: nat) {
    t in z.named ==> Carried(z, t) || t in z.settled || t in z.rejected
  }

  ghost predicate NeverLost(s: State, t: nat, f: Faults) {
    forall es :: Valid(s, es) && Within(s, es, f) ==> NotLost(Exec(s, es), t)
  }

  /** Main result: with faults of these kinds and no others, no run loses the message of a task exactly if
      workers do not crash. */
  lemma NeverLostIff(s: State, t: nat, u: nat, f: Faults)
    requires Fresh(s, t, u)
    ensures NeverLost(s, t, f) <==> !f.crashes
  {
    if f.crashes {
      var es := CrashLosesInARun(s, t, u, 0, 1, f);
      assert !NotLost(Exec(s, es), t);
    } else {
      forall es | Valid(s, es) && Within(s, es, f)
        ensures NotLost(Exec(s, es), t)
      {
        NoOrphans(s, es, f);
        if t in Exec(s, es).named {
          NoSilentLoss(s, es, t);
        }
      }
    }
  }
}
