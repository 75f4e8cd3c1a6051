/** A worker that runs undisturbed does what the sequential handler does, and nothing else: given how the
    message fares, the acts of the transition system lead to exactly what the code computes. */
module DeliveryRefinement {
  import opened Quota
  import opened Delivery
  import opened DeliverySafety
  import opened DeliveryFaults
  import N = Notification
  import Q = MessageQueue

  /** The acts of one handler run without faults: between the delivery of the copy and its ack or bounce. */
  predicate InHandler(act: Act) {
    !(act.Deliver? || act.Bounce? || act.Ack? || act.Crash? || act.RecordFails?)
  }

  /** The act agrees with how the message is to fare. */
  predicate Fits(act: Act, fate: N.Fate) {
    && InHandler(act)
    && (act.GiveUp? ==> fate == N.Unsendable(act.flaw))
    && (act.Send? ==> fate == N.Offered(act.answer))
  }

  predicate HandlerRun(es: seq<Event>, w: nat) {
    forall i :: 0 <= i < |es| ==> es[i].Inside? && es[i].w == w && InHandler(es[i].act)
  }

  predicate Follows(es: seq<Event>, w: nat, fate: N.Fate) {
    forall i :: 0 <= i < |es| ==> es[i].Inside? && es[i].w == w && Fits(es[i].act, fate)
  }

  /** The handler has returned. */
  predicate Over(s: State, w: nat) {
    w in s.workers && s.workers[w].pc in {Leaving, Bouncing}
  }

  /** The part of the state a handler run can change. */
  datatype View = View(tasks: map<nat, Task>, wallets: map<nat, Account>, accepted: Tally, marks: map<nat, Mark>,
                       workers: map<nat, Worker>)

  function Seen(s: State): View {
    View(s.tasks, s.wallets, s.accepted, s.marks, s.workers)
  }

  /** By acts of worker w alone that fit the fate, s can come to look like v. */
  ghost predicate Reaches(s: State, w: nat, fate: N.Fate, v: View) {
    exists es :: Follows(es, w, fate) && Valid(s, es) && Seen(Exec(s, es)) == v
  }

  /** And it looks like v whenever such acts have come to the end of the handler. */
  ghost predicate EndsOnlyIn(s: State, w: nat, fate: N.Fate, v: View) {
    forall es :: Follows(es, w, fate) && Valid(s, es) && Over(Exec(s, es), w) ==> Seen(Exec(s, es)) == v
  }

  ghost predicate Becomes(s: State, w: nat, fate: N.Fate, v: View) {
    Reaches(s, w, fate, v) && EndsOnlyIn(s, w, fate, v)
  }

  lemma NothingAfterTheEnd(s: State, w: nat, es: seq<Event>, fate: N.Fate)
    requires Over(s, w) && Follows(es, w, fate) && Valid(s, es)
    ensures es == []
  {
  }

  lemma BecomesNow(s: State, w: nat, fate: N.Fate)
    requires Over(s, w)
    ensures Becomes(s, w, fate, Seen(s))
  {
    assert Valid(s, []) && Exec(s, []) == s && Follows([], w, fate);
    forall es: seq<Event> | Follows(es, w, fate) && Valid(s, es) && Over(Exec(s, es), w)
      ensures Seen(Exec(s, es)) == Seen(s)
    {
      NothingAfterTheEnd(s, w, es, fate);
    }
  }

  /** A worker has no choice but the fate of its message. */
  lemma OneWay(s: State, w: nat, fate: N.Fate, act: Act, other: Act)
    requires CanAct(s, w, act) && CanAct(s, w, other) && Fits(act, fate) && Fits(other, fate)
    ensures act == other
  {
  }

  lemma ReachesBefore(s: State, w: nat, fate: N.Fate, act: Act, n: State, v: View)
    requires CanAct(s, w, act) && Fits(act, fate) && n == Step(s, w, act) && Reaches(n, w, fate, v)
    ensures Reaches(s, w, fate, v)
  {
    var rest :| Follows(rest, w, fate) && Valid(n, rest) && Seen(Exec(n, rest)) == v;
    var es := [Inside(w, act)] + rest;
    ExecCons(s, Inside(w, act), rest, n);
    assert Follows(es, w, fate);
  }

  lemma EndsOnlyInBefore(s: State, w: nat, fate: N.Fate, act: Act, n: State, v: View)
    requires CanAct(s, w, act) && Fits(act, fate) && n == Step(s, w, act) && EndsOnlyIn(n, w, fate, v) && !Over(s, w)
    ensures EndsOnlyIn(s, w, fate, v)
  {
    forall es: seq<Event> | Follows(es, w, fate) && Valid(s, es) && Over(Exec(s, es), w)
      ensures Seen(Exec(s, es)) == v
    {
      assert es != [] && Fits(es[0].act, fate);
      OneWay(s, w, fate, act, es[0].act);
      assert Follows(es[1..], w, fate);
    }
  }

  /** One act, then the rest. */
  lemma BecomesBefore(s: State, w: nat, fate: N.Fate, act: Act, n: State, v: View)
    requires CanAct(s, w, act) && Fits(act, fate) && n == Step(s, w, act) && Becomes(n, w, fate, v) && !Over(s, w)
    ensures Becomes(s, w, fate, v)
  {
    ReachesBefore(s, w, fate, act, n, v);
    EndsOnlyInBefore(s, w, fate, act, n, v);
  }

  /** How a handler run ends: done and marked, or unmarked and bouncing. */
  function Closed(v: View, w: nat, c: Copy, reply: N.CallReply): View {
    if reply == N.OtherError then v.(marks := v.marks - {c.task}, workers := v.workers[w := Worker(c, Bouncing)])
    else v.(marks := v.marks[c.task := Completed], workers := v.workers[w := Worker(c, Leaving)])
  }

  /** Where the worker stood before does not show in the end. */
  lemma ClosedForgets(v: View, w: nat, x: Worker, c: Copy, reply: N.CallReply)
    ensures Closed(v.(workers := v.workers[w := x]), w, c, reply) == Closed(v, w, c, reply)
  {
    var y := Worker(c, if reply == N.OtherError then Bouncing else Leaving);
    assert v.workers[w := x][w := y] == v.workers[w := y];
  }

  lemma MarkEnds(s: State, w: nat, fate: N.Fate, c: Copy, reply: N.CallReply)
    requires w in s.workers && s.workers[w] == Worker(c, if reply == N.OtherError then UnmarkDue else MarkDue)
    ensures Becomes(s, w, fate, Closed(Seen(s), w, c, reply))
  {
    var act := if reply == N.OtherError then Unmark else MarkDone;
    var n := Step(s, w, act);
    BecomesNow(n, w, fate);
    BecomesBefore(s, w, fate, act, n, Seen(n));
  }

  function VerdictReply(v: Verdict): N.CallReply {
    if v == Skip then N.SkipError else N.OtherError
  }

  lemma FailureEnds(s: State, w: nat, fate: N.Fate, c: Copy, v: Verdict)
    requires w in s.workers && s.workers[w] == Worker(c, FailDue(v))
    ensures Becomes(s, w, fate, Closed(Seen(s).(tasks := WithStatus(s.tasks, c.task, Failed)), w, c, VerdictReply(v)))
  {
    var n := Step(s, w, RecordFailure);
    var x := Worker(c, if v == Skip then MarkDue else UnmarkDue);
    assert n.workers == s.workers[w := x];
    MarkEnds(n, w, fate, c, VerdictReply(v));
    ClosedForgets(Seen(s).(tasks := n.tasks), w, x, c, VerdictReply(v));
    BecomesBefore(s, w, fate, RecordFailure, n, Closed(Seen(n), w, c, VerdictReply(v)));
  }

  lemma RefundEnds(s: State, w: nat, fate: N.Fate, c: Copy, v: Verdict)
    requires w in s.workers && s.workers[w] == Worker(c, RefundDue(v)) && RefundedTo(s, c.user).1 == Done
    ensures Becomes(s, w, fate, Closed(Seen(s).(tasks := WithStatus(s.tasks, c.task, Failed),
                                          wallets := s.wallets[c.user := RefundedTo(s, c.user).0]), w, c,
                                              VerdictReply(v)))
  {
    var n := Step(s, w, GiveBack);
    var x := Worker(c, FailDue(v));
    assert n.workers == s.workers[w := x];
    FailureEnds(n, w, fate, c, v);
    ClosedForgets(Seen(s).(tasks := WithStatus(s.tasks, c.task, Failed), wallets := n.wallets), w, x, c,
                  VerdictReply(v));
    BecomesBefore(s, w, fate, GiveBack, n,
                  Closed(Seen(n).(tasks := WithStatus(n.tasks, c.task, Failed)), w, c, VerdictReply(v)));
  }

  lemma RecordEnds(s: State, w: nat, fate: N.Fate, c: Copy)
    requires w in s.workers && s.workers[w] == Worker(c, Charged)
    ensures Becomes(s, w, fate, Closed(Seen(s).(tasks := WithStatus(s.tasks, c.task, Success)), w, c, N.Nil))
  {
    var n := Step(s, w, RecordSuccess);
    var x := Worker(c, MarkDue);
    assert n.workers == s.workers[w := x];
    MarkEnds(n, w, fate, c, N.Nil);
    ClosedForgets(Seen(s).(tasks := n.tasks), w, x, c, N.Nil);
    BecomesBefore(s, w, fate, RecordSuccess, n, Closed(Seen(n), w, c, N.Nil));
  }

  lemma ChargeEnds(s: State, w: nat, fate: N.Fate, c: Copy)
    requires w in s.workers && s.workers[w] == Worker(c, Sent) && ChargedTo(s, c.user).1 == Done
    ensures Becomes(s, w, fate, Closed(Seen(s).(tasks := WithStatus(s.tasks, c.task, Success),
                                          wallets := s.wallets[c.user := ChargedTo(s, c.user).0]), w, c, N.Nil))
  {
    var n := Step(s, w, Charge);
    var x := Worker(c, Charged);
    assert n.workers == s.workers[w := x];
    RecordEnds(n, w, fate, c);
    ClosedForgets(Seen(s).(tasks := WithStatus(s.tasks, c.task, Success), wallets := n.wallets), w, x, c, N.Nil);
    BecomesBefore(s, w, fate, Charge, n, Closed(Seen(n).(tasks := WithStatus(n.tasks, c.task, Success)), w, c, N.Nil));
  }

  /** After the reservation: send and charge, or refund and fail. */
  function Settled(v: View, s: State, c: Copy, fate: N.Fate): View {
    if fate == N.Offered(Accepted) then
      v.(tasks := WithStatus(v.tasks, c.task, Success), wallets := v.wallets[c.user := ChargedTo(s, c.user).0],
         accepted := v.accepted.Add(c.task, c.user))
    else
      v.(tasks := WithStatus(v.tasks, c.task, Failed), wallets := v.wallets[c.user := RefundedTo(s, c.user).0])
  }

  lemma ReservedEnds(s: State, w: nat, c: Copy, fate: N.Fate)
    requires w in s.workers && s.workers[w] == Worker(c, Reserved)
    requires ChargedTo(s, c.user).1 == Done && RefundedTo(s, c.user).1 == Done
    ensures Becomes(s, w, fate, Closed(Settled(Seen(s), s, c, fate), w, c, N.FateReply(fate)))
  {
    var act := if fate.Offered? then Send(fate.answer) else GiveUp(fate.flaw);
    var n := Step(s, w, act);
    assert n.wallets == s.wallets && n.tasks == s.tasks && n.marks == s.marks;
    if fate == N.Offered(Accepted) {
      var x := Worker(c, Sent);
      assert n.workers == s.workers[w := x];
      ChargeEnds(n, w, fate, c);
      ClosedForgets(Settled(Seen(s), s, c, fate), w, x, c, N.Nil);
      BecomesBefore(s, w, fate, act, n, Closed(Settled(Seen(s), s, c, fate), w, c, N.Nil));
    } else {
      var v := if fate.Offered? then AnsweredPc(fate.answer).v else FlawVerdict(fate.flaw);
      var x := Worker(c, RefundDue(v));
      assert n.workers == s.workers[w := x];
      assert VerdictReply(v) == N.FateReply(fate);
      RefundEnds(n, w, fate, c, v);
      ClosedForgets(Settled(Seen(s), s, c, fate), w, x, c, VerdictReply(v));
      BecomesBefore(s, w, fate, act, n, Closed(Settled(Seen(s), s, c, fate), w, c, VerdictReply(v)));
    }
  }

  /** The sequential service's tables agree with the state. */
  predicate SameTables(db: N.Db, s: State) {
    db == N.Db(s.tasks, db.toContact, s.users, s.wallets, s.accepted, db.attempts, db.stamped)
  }

  /** What the sequential service leaves behind, as the transition system would show it. */
  function Called(v: View, db: N.Db, c: Copy, fate: N.Fate): View {
    var db' := N.AfterCall(db, c.task, c.user, fate).0;
    v.(tasks := db'.tasks, wallets := db'.wallets, accepted := db'.accepted)
  }

  lemma OverwriteWallet(wallets: map<nat, Account>, u: nat, a: Account, b: Account)
    ensures wallets[u := a][u := b] == wallets[u := b]
  {
  }

  lemma CheckedEnds(s: State, w: nat, c: Copy, fate: N.Fate, db: N.Db)
    requires w in s.workers && s.workers[w] == Worker(c, Checked) && SameTables(db, s)
    requires N.Hindrance(db, c.task, c.user).None? && WalletOf(s, c.user).columns.frozen >= 0
    ensures Becomes(s, w, fate, Closed(Called(Seen(s), db, c, fate), w, c, N.AfterCall(db, c.task, c.user, fate).1))
  {
    var n := Step(s, w, Reserve);
    var (reserved, funded) := PreDeducted(WalletOf(s, c.user), UNIT_PRICE);
    var end := Called(Seen(s), db, c, fate);
    var reply := N.AfterCall(db, c.task, c.user, fate).1;
    if funded == Done {
      var x := Worker(c, Reserved);
      assert n.workers == s.workers[w := x] && n.wallets == s.wallets[c.user := reserved];
      ReservedEnds(n, w, c, fate);
      OverwriteWallet(s.wallets, c.user, reserved, ChargedTo(n, c.user).0);
      OverwriteWallet(s.wallets, c.user, reserved, RefundedTo(n, c.user).0);
      assert Settled(Seen(n), n, c, fate) == end.(workers := end.workers[w := x]);
      ClosedForgets(end, w, x, c, reply);
      BecomesBefore(s, w, fate, Reserve, n, Closed(end, w, c, reply));
    } else {
      var x := Worker(c, FailDue(Skip));
      assert n.workers == s.workers[w := x] && n.wallets == s.wallets;
      FailureEnds(n, w, fate, c, Skip);
      ClosedForgets(end, w, x, c, reply);
      BecomesBefore(s, w, fate, Reserve, n, Closed(end, w, c, reply));
    }
  }

  lemma LockedEnds(s: State, w: nat, c: Copy, fate: N.Fate, db: N.Db)
    requires w in s.workers && s.workers[w] == Worker(c, Locked) && SameTables(db, s)
    requires c.task != 0 && WalletOf(s, c.user).columns.frozen >= 0
    ensures Becomes(s, w, fate, Closed(Called(Seen(s), db, c, fate), w, c, N.AfterCall(db, c.task, c.user, fate).1))
  {
    var n := Step(s, w, Inspect);
    var x := Worker(c, InspectedPc(s, c));
    assert n.workers == s.workers[w := x];
    var end := Called(Seen(s), db, c, fate);
    var reply := N.AfterCall(db, c.task, c.user, fate).1;
    if N.Hindrance(db, c.task, c.user).None? {
      CheckedEnds(n, w, c, fate, db);
    } else {
      MarkEnds(n, w, fate, c, reply);
    }
    ClosedForgets(end, w, x, c, reply);
    BecomesBefore(s, w, fate, Inspect, n, Closed(end, w, c, reply));
  }

  /** What the sequential handler leaves behind, the worker waiting to ack or to bounce. */
  function HandlerView(s: State, db: N.Db, w: nat, c: Copy, fate: N.Fate): View {
    var (marks, db', reply) := N.Handled(s.marks, db, c, fate, false);
    View(db'.tasks, db'.wallets, db'.accepted, marks,
         s.workers[w := Worker(c, if reply == N.Error then Bouncing else Leaving)])
  }

  lemma TaskZeroEnds(s: State, w: nat, fate: N.Fate, c: Copy)
    requires w in s.workers && s.workers[w] == Worker(c, Locked) && c.task == 0
    ensures Becomes(s, w, fate, Closed(Seen(s), w, c, N.OtherError))
  {
    var n := Step(s, w, Inspect);
    var x := Worker(c, UnmarkDue);
    assert n.workers == s.workers[w := x];
    MarkEnds(n, w, fate, c, N.OtherError);
    ClosedForgets(Seen(s), w, x, c, N.OtherError);
    BecomesBefore(s, w, fate, Inspect, n, Closed(Seen(s), w, c, N.OtherError));
  }

  lemma LockRefusedEnds(s: State, w: nat, fate: N.Fate, db: N.Db)
    requires w in s.workers && s.workers[w].pc == Received && SameTables(db, s)
    requires s.workers[w].copy.garbled || s.workers[w].copy.task in s.marks
    ensures Becomes(s, w, fate, HandlerView(s, db, w, s.workers[w].copy, fate))
  {
    var n := Step(s, w, Lock);
    BecomesNow(n, w, fate);
    BecomesBefore(s, w, fate, Lock, n, Seen(n));
  }

  lemma LockTakenEnds(s: State, w: nat, fate: N.Fate, db: N.Db)
    requires w in s.workers && s.workers[w].pc == Received && SameTables(db, s)
    requires !s.workers[w].copy.garbled && s.workers[w].copy.task !in s.marks
    requires WalletOf(s, s.workers[w].copy.user).columns.frozen >= 0
    ensures Becomes(s, w, fate, HandlerView(s, db, w, s.workers[w].copy, fate))
  {
    var c := s.workers[w].copy;
    var n := Step(s, w, Lock);
    var x := Worker(c, Locked);
    assert n.workers == s.workers[w := x] && n.marks == s.marks[c.task := InProgress];
    assert s.marks[c.task := InProgress] - {c.task} == s.marks;
    assert s.marks[c.task := InProgress][c.task := Completed] == s.marks[c.task := Completed];
    if c.task == 0 {
      TaskZeroEnds(n, w, fate, c);
      ClosedForgets(Seen(s).(marks := n.marks), w, x, c, N.OtherError);
      BecomesBefore(s, w, fate, Lock, n, HandlerView(s, db, w, c, fate));
    } else {
      var reply := N.AfterCall(db, c.task, c.user, fate).1;
      LockedEnds(n, w, c, fate, db);
      ClosedForgets(Called(Seen(s).(marks := n.marks), db, c, fate), w, x, c, reply);
      BecomesBefore(s, w, fate, Lock, n, HandlerView(s, db, w, c, fate));
    }
  }

  /** Main result: from every state of every run, a worker that has just been called with copy c can, on its
      own, reach what the sequential handler computes, and its run can end in nothing else. */
  lemma UndisturbedWorkerIsHandler(s: State, w: nat, fate: N.Fate, db: N.Db)
    requires MoneyInv(s) && w in s.workers && s.workers[w].pc == Received && SameTables(db, s)
    ensures Becomes(s, w, fate, HandlerView(s, db, w, s.workers[w].copy, fate))
  {
    if s.workers[w].copy.garbled || s.workers[w].copy.task in s.marks {
      LockRefusedEnds(s, w, fate, db);
    } else {
      assert MoneyOk(s, s.workers[w].copy.user);
      LockTakenEnds(s, w, fate, db);
    }
  }

  /** Past the choice between sending and giving up. */
  predicate Decided(pc: Pc) {
    !(pc.Received? || pc.Locked? || pc.Checked? || pc.Reserved?)
  }

  lemma {:induction false} NoSecondChoice(s: State, w: nat, es: seq<Event>, fate: N.Fate)
    requires HandlerRun(es, w) && Valid(s, es) && w in s.workers && Decided(s.workers[w].pc)
    ensures Follows(es, w, fate)
    decreases |es|
  {
    if es != [] {
      var n := Step(s, w, es[0].act);
      assert w in n.workers && Decided(n.workers[w].pc);
      assert Fits(es[0].act, fate);
      NoSecondChoice(n, w, es[1..], fate);
      assert forall i :: 0 < i < |es| ==> es[i] == es[1..][i - 1];
    }
  }

  /** Every handler run follows some fate. */
  lemma {:induction false} SomeFate(s: State, w: nat, es: seq<Event>) returns (fate: N.Fate)
    requires HandlerRun(es, w) && Valid(s, es) && w in s.workers
    ensures Follows(es, w, fate)
    decreases |es|
  {
    fate := N.Unsendable(BadPayload);
    if es != [] {
      var act := es[0].act;
      var n := Step(s, w, act);
      assert w in n.workers;
      if act.Send? || act.GiveUp? {
        fate := if act.Send? then N.Offered(act.answer) else N.Unsendable(act.flaw);
        NoSecondChoice(n, w, es[1..], fate);
      } else {
        fate := SomeFate(n, w, es[1..]);
      }
      assert Fits(act, fate);
      assert forall i :: 0 < i < |es| ==> es[i] == es[1..][i - 1];
    }
  }

  /** The converse, for any schedule: every run of a worker alone, from its call to the end of the handler and
      without faults, ends in what the sequential handler computes for some fate of the message. */
  lemma EveryHandlerRunIsHandler(s: State, w: nat, es: seq<Event>, db: N.Db) returns (fate: N.Fate)
    requires MoneyInv(s) && w in s.workers && s.workers[w].pc == Received
    requires SameTables(db, s)
    requires HandlerRun(es, w) && Valid(s, es) && Over(Exec(s, es), w)
    ensures Seen(Exec(s, es)) == HandlerView(s, db, w, s.workers[w].copy, fate)
  {
    fate := SomeFate(s, w, es);
    UndisturbedWorkerIsHandler(s, w, fate, db);
  }

  // ----- the consumer loop around the handler -----

  /** The loop alone with one message: what it puts back, and how it disposed of the copy. */
  function TurnedAlone(c: Copy, h: Q.Header, outcome: Q.Outcome, republished: bool): Q.Queue {
    Q.Turned(Q.Queue([Q.Message(c.task, h)], []), Q.Turn(outcome, republished), MAX_RETRIES)
  }

  /** The copies of c that a list of messages stands for. */
  function AsCopies(c: Copy, ready: seq<Q.Message>): multiset<Copy> {
    if ready == [] then multiset{}
    else multiset{c.(retry := Q.RetryCount(ready[0].header))} + AsCopies(c, ready[1..])
  }

  lemma TurnAlone(c: Copy, h: Q.Header, outcome: Q.Outcome, republished: bool)
    requires Q.RetryCount(h) == c.retry
    ensures var q := TurnedAlone(c, h, outcome, republished); var again := c.(retry := c.retry + 1);
            && |q.log| == 1
            && (outcome != Q.Errored ==> AsCopies(c, q.ready) == multiset{} && q.log[0].fate == Q.Acked)
            && (outcome == Q.Errored && c.retry >= MAX_RETRIES ==>
                  AsCopies(c, q.ready) == multiset{} && q.log[0].fate == Q.Rejected)
            && (outcome == Q.Errored && c.retry < MAX_RETRIES && republished ==>
                  AsCopies(c, q.ready) == multiset{again} && q.log[0].fate == Q.Republished)
            && (outcome == Q.Errored && c.retry < MAX_RETRIES && !republished ==>
                  AsCopies(c, q.ready) == multiset{c} && q.log[0].fate == Q.Requeued)
  {
    var q := TurnedAlone(c, h, outcome, republished);
    assert q.ready == [] || q.ready == [q.ready[0]];
    assert AsCopies(c, []) == multiset{};
  }

  lemma AckLeaves(s: State, w: nat)
    requires w in s.workers && s.workers[w].pc == Leaving
    ensures var z := Step(s, w, Ack); z.ready == s.ready && z.rejected == s.rejected && w !in z.workers
  {
  }

  lemma BounceLeaves(s: State, w: nat, republished: bool)
    requires w in s.workers && s.workers[w].pc == Bouncing
    ensures var c := s.workers[w].copy; var z := Step(s, w, Bounce(republished)); var again := c.retry < MAX_RETRIES;
            && z.ready == (if !again then s.ready
                           else s.ready + multiset{if republished then c.(retry := c.retry + 1) else c})
            && z.rejected == (if again then s.rejected else s.rejected + {c.task})
            && (w in z.workers <==> again && republished) && (w in z.workers ==> z.workers[w] == Worker(c, Leaving))
  {
  }

  /** Main result: a bounce is the loop's turn after an error, and an ack its turn after nil or the skip error: the
      same copies go back with the same counts, whatever integer type the header has, and a message goes to
      the dead-letter queue exactly if the loop rejects it. */
  lemma LeavingIsTheLoop(s: State, w: nat, h: Q.Header, outcome: Q.Outcome, republished: bool)
    requires w in s.workers && Over(s, w) && Q.RetryCount(h) == s.workers[w].copy.retry
    requires s.workers[w].pc.Bouncing? <==> outcome == Q.Errored
    ensures var c := s.workers[w].copy; var q := TurnedAlone(c, h, outcome, republished);
            var z := Step(s, w, if outcome == Q.Errored then Bounce(republished) else Ack);
            && z.ready == s.ready + AsCopies(c, q.ready) && |q.log| == 1
            && (q.log[0].fate == Q.Rejected <==> outcome == Q.Errored && c.retry >= MAX_RETRIES)
            && z.rejected == (if q.log[0].fate == Q.Rejected then s.rejected + {c.task} else s.rejected)
            && (w in z.workers <==> q.log[0].fate == Q.Republished)
            && (w in z.workers ==> z.workers[w] == Worker(c, Leaving))
  {
    var c := s.workers[w].copy;
    TurnAlone(c, h, outcome, republished);
    assert s.ready + multiset{} == s.ready;
    if outcome == Q.Errored {
      BounceLeaves(s, w, republished);
    } else {
      AckLeaves(s, w);
    }
  }
}
