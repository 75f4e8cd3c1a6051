/** What every run of the delivery system keeps: one sender per task, every send and every
    cent accounted for, and no message silently lost. */
module DeliverySafety {
  import opened Quota
  import opened Delivery
  import opened Wrappers

  // ----- counting workers -----

  function ByUser(ws: map<nat, Worker>, st: Stage, u: nat): set<nat> {
    set w | w in ws && In(ws[w].pc, st) && ws[w].copy.user == u
  }

  function ByTask(ws: map<nat, Worker>, st: Stage, t: nat): set<nat> {
    set w | w in ws && In(ws[w].pc, st) && ws[w].copy.task == t
  }

  function InByUser(ws: map<nat, Worker>, w: nat, st: Stage, u: nat): nat {
    if w in ws && In(ws[w].pc, st) && ws[w].copy.user == u then 1 else 0
  }

  function InByTask(ws: map<nat, Worker>, w: nat, st: Stage, t: nat): nat {
    if w in ws && In(ws[w].pc, st) && ws[w].copy.task == t then 1 else 0
  }

  /** Only worker w came, went or moved. */
  ghost predicate OnlyMoved(ws: map<nat, Worker>, ws': map<nat, Worker>, w: nat) {
    forall v :: v != w ==> (v in ws <==> v in ws') && (v in ws ==> ws[v] == ws'[v])
  }

  lemma Without(a: set<nat>, b: set<nat>, w: nat)
    requires a - {w} == b - {w}
    ensures |a| + (if w in b then 1 else 0) == |b| + (if w in a then 1 else 0)
  {
    assert w in a ==> a == (a - {w}) + {w};
    assert w in b ==> b == (b - {w}) + {w};
  }

  /** When only worker w moves, a count changes by what w contributes. */
  lemma CountsMove(ws: map<nat, Worker>, ws': map<nat, Worker>, w: nat, st: Stage, u: nat, t: nat)
    requires OnlyMoved(ws, ws', w)
    ensures |ByUser(ws', st, u)| + InByUser(ws, w, st, u) == |ByUser(ws, st, u)| + InByUser(ws', w, st, u)
    ensures |ByTask(ws', st, t)| + InByTask(ws, w, st, t) == |ByTask(ws, st, t)| + InByTask(ws', w, st, t)
  {
    Without(ByUser(ws, st, u), ByUser(ws', st, u), w);
    Without(ByTask(ws, st, t), ByTask(ws', st, t), w);
  }

  /** An act of worker w moves only w, and never swaps its copy. */
  lemma WorkerMoves(s: State, w: nat, act: Act)
    requires CanAct(s, w, act)
    ensures OnlyMoved(s.workers, Step(s, w, act).workers, w)
    ensures w in s.workers && w in Step(s, w, act).workers
            ==> Step(s, w, act).workers[w].copy == s.workers[w].copy
  {
  }

  // ----- one holder per mark -----

  predicate Holds(ws: map<nat, Worker>, w: nat) {
    w in ws && In(ws[w].pc, Holding)
  }

  /** A holder's mark is in progress, and no two workers hold the same mark. */
  ghost predicate LockInv(ws: map<nat, Worker>, marks: map<nat, Mark>) {
    && (forall w :: Holds(ws, w) ==> ws[w].copy.task in marks && marks[ws[w].copy.task] == InProgress)
    && (forall v, w :: Holds(ws, v) && Holds(ws, w) && ws[v].copy.task == ws[w].copy.task ==> v == w)
  }

  predicate SameAt(marks: map<nat, Mark>, marks': map<nat, Mark>, t: nat) {
    (t in marks <==> t in marks') && (t in marks ==> marks[t] == marks'[t])
  }

  /** A mark is set by the worker that becomes its holder, and touched by nobody but its holder. */
  ghost predicate MarkMove(ws: map<nat, Worker>, ws': map<nat, Worker>, marks: map<nat, Mark>, marks': map<nat, Mark>,
                           w: nat) {
    if !Holds(ws, w) && Holds(ws', w) then
      ws'[w].copy.task !in marks && marks' == marks[ws'[w].copy.task := InProgress]
    else if Holds(ws, w) && !Holds(ws', w) then
      forall t :: t != ws[w].copy.task ==> SameAt(marks, marks', t)
    else
      marks' == marks
  }

  predicate EndsHolding(act: Act) {
    act.MarkDone? || act.Unmark? || act.Crash?
  }

  lemma HoldingKept(s: State, w: nat, act: Act)
    requires CanAct(s, w, act) && !act.Lock? && !EndsHolding(act) && !act.Deliver?
    ensures var next := NextWorker(s, w, act);
            In(s.workers[w].pc, Holding) == (next.Some? && In(next.value.pc, Holding))
  {
  }

  lemma HoldingEnds(s: State, w: nat, act: Act)
    requires CanAct(s, w, act) && EndsHolding(act)
    ensures !Holds(Step(s, w, act).workers, w)
    ensures !act.Crash? ==> Holds(s.workers, w)
  {
  }

  lemma MarksMove(s: State, w: nat, act: Act)
    requires CanAct(s, w, act)
    ensures MarkMove(s.workers, Step(s, w, act).workers, s.marks, Step(s, w, act).marks, w)
  {
    WorkerMoves(s, w, act);
    if EndsHolding(act) {
      HoldingEnds(s, w, act);
    } else if !act.Lock? && !act.Deliver? {
      HoldingKept(s, w, act);
    }
  }

  lemma LockKeptByMove(ws: map<nat, Worker>, ws': map<nat, Worker>, marks: map<nat, Mark>, marks': map<nat, Mark>,
                       w: nat)
    requires LockInv(ws, marks) && OnlyMoved(ws, ws', w) && MarkMove(ws, ws', marks, marks', w)
    requires w in ws && w in ws' ==> ws'[w].copy == ws[w].copy
    ensures LockInv(ws', marks')
  {
    forall v | Holds(ws', v)
      ensures ws'[v].copy.task in marks' && marks'[ws'[v].copy.task] == InProgress
    {
      if v != w {
        assert Holds(ws, v);
        assert Holds(ws, w) && !Holds(ws', w) ==> SameAt(marks, marks', ws[v].copy.task);
      }
    }
    forall u, v | Holds(ws', u) && Holds(ws', v) && ws'[u].copy.task == ws'[v].copy.task
      ensures u == v
    {
      assert u != w ==> Holds(ws, u);
      assert v != w ==> Holds(ws, v);
    }
  }

  lemma LockKept(s: State, e: Event)
    requires Enabled(s, e) && LockInv(s.workers, s.marks)
    ensures LockInv(Apply(s, e).workers, Apply(s, e).marks)
  {
    if e.Inside? {
      WorkerMoves(s, e.w, e.act);
      MarksMove(s, e.w, e.act);
      LockKeptByMove(s.workers, Apply(s, e).workers, s.marks, Apply(s, e).marks, e.w);
    } else if e.input.Expire? {
      assert forall w :: Holds(s.workers, w) ==> s.workers[w].copy.task != e.input.t;
    }
  }

  // ----- the task row stays sendable while a worker is about to send -----

  predicate Sendable(tasks: map<nat, Task>, c: Copy) {
    && !c.garbled && c.task in tasks && c.user == tasks[c.task].user
    && tasks[c.task].status != Success && tasks[c.task].status != Processing
  }

  /** A copy names the task's own user. */
  predicate Addressed(s: State, c: Copy) {
    c.task in s.named && (!c.garbled && c.task in s.tasks ==> c.user == s.tasks[c.task].user)
  }

  ghost predicate TaskInv(s: State) {
    && (forall c :: c in s.ready ==> Addressed(s, c))
    && (forall w :: w in s.workers ==> Addressed(s, s.workers[w].copy))
    && (forall w :: Holds(s.workers, w) ==> !s.workers[w].copy.garbled)
    && (forall w :: w in s.workers && In(s.workers[w].pc, Working) ==> Sendable(s.tasks, s.workers[w].copy))
  }

  /** Only the two recording acts write the task row, and they end the work on it. */
  lemma WorkingStep(s: State, w: nat, act: Act)
    requires CanAct(s, w, act) && !act.Deliver?
    ensures act.RecordFailure? || act.RecordSuccess? ==> In(s.workers[w].pc, Working)
    ensures var next := NextWorker(s, w, act);
            next.Some? && In(next.value.pc, Working) ==>
              if act.Inspect? then next.value.pc.Checked?
              else In(s.workers[w].pc, Working) && !act.RecordFailure? && !act.RecordSuccess?
  {
  }

  /** Task rows keep their user. */
  predicate SameUsers(tasks: map<nat, Task>, tasks': map<nat, Task>) {
    tasks.Keys == tasks'.Keys && forall t :: t in tasks ==> tasks'[t].user == tasks[t].user
  }

  lemma UsersKept(s: State, w: nat, act: Act)
    requires CanAct(s, w, act)
    ensures SameUsers(s.tasks, NextTasks(s, w, act))
  {
  }

  /** A copy in the queue was there before, or is the worker's own, perhaps with its count raised. */
  lemma QueueStep(s: State, w: nat, act: Act, c: Copy)
    requires CanAct(s, w, act) && c in NextReady(s, w, act) && c !in s.ready
    ensures w in s.workers && (c == s.workers[w].copy || c == s.workers[w].copy.(retry := s.workers[w].copy.retry + 1))
  {
  }

  lemma AddressedKept(s: State, w: nat, act: Act, c: Copy)
    requires CanAct(s, w, act) && Addressed(s, c)
    ensures Addressed(Step(s, w, act), c)
  {
    UsersKept(s, w, act);
  }

  lemma CopiesKeptAddressed(s: State, w: nat, act: Act)
    requires CanAct(s, w, act) && TaskInv(s)
    ensures forall c :: c in Step(s, w, act).ready ==> Addressed(Step(s, w, act), c)
    ensures forall v :: v in Step(s, w, act).workers ==> Addressed(Step(s, w, act), Step(s, w, act).workers[v].copy)
  {
    var s' := Step(s, w, act);
    forall c | c in s'.ready
      ensures Addressed(s', c)
    {
      if c !in s.ready {
        QueueStep(s, w, act, c);
      }
      AddressedKept(s, w, act, c);
    }
    WorkerMoves(s, w, act);
    forall v | v in s'.workers
      ensures Addressed(s', s'.workers[v].copy)
    {
      AddressedKept(s, w, act, s'.workers[v].copy);
    }
  }

  lemma WorkKeptSendable(s: State, w: nat, act: Act, v: nat)
    requires CanAct(s, w, act) && TaskInv(s) && LockInv(s.workers, s.marks)
    requires v in Step(s, w, act).workers && In(Step(s, w, act).workers[v].pc, Working)
    ensures Sendable(Step(s, w, act).tasks, Step(s, w, act).workers[v].copy)
  {
    WorkerMoves(s, w, act);
    if !act.Deliver? {
      WorkingStep(s, w, act);
    }
    if v == w {
      assert act.Inspect? ==> Holds(s.workers, w);
    } else if act.RecordFailure? || act.RecordSuccess? {
      assert Holds(s.workers, v) && Holds(s.workers, w);
    }
  }

  lemma HoldersKeptParsed(s: State, w: nat, act: Act, v: nat)
    requires CanAct(s, w, act) && TaskInv(s)
    requires Holds(Step(s, w, act).workers, v)
    ensures !Step(s, w, act).workers[v].copy.garbled
  {
    WorkerMoves(s, w, act);
    if v == w && !act.Lock? && !EndsHolding(act) && !act.Deliver? {
      HoldingKept(s, w, act);
      assert Holds(s.workers, w);
    } else if v == w && EndsHolding(act) {
      HoldingEnds(s, w, act);
    } else if v != w {
      assert Holds(s.workers, v);
    }
  }

  lemma TaskKeptOutside(s: State, input: Input)
    requires CanHappen(s, input) && TaskInv(s)
    ensures TaskInv(Happen(s, input))
  {
  }

  lemma TaskKeptInside(s: State, w: nat, act: Act)
    requires CanAct(s, w, act) && TaskInv(s) && LockInv(s.workers, s.marks)
    ensures TaskInv(Step(s, w, act))
  {
    CopiesKeptAddressed(s, w, act);
    forall v | v in Step(s, w, act).workers && In(Step(s, w, act).workers[v].pc, Working)
      ensures Sendable(Step(s, w, act).tasks, Step(s, w, act).workers[v].copy)
    {
      WorkKeptSendable(s, w, act, v);
    }
    forall v | Holds(Step(s, w, act).workers, v)
      ensures !Step(s, w, act).workers[v].copy.garbled
    {
      HoldersKeptParsed(s, w, act, v);
    }
  }

  // ----- how acts move a run between stages -----

  function One(b: bool): nat {
    if b then 1 else 0
  }

  /** Contribution of worker w to a stage, before and after an act. */
  function Before(s: State, w: nat, st: Stage): nat {
    One(w in s.workers && In(s.workers[w].pc, st))
  }

  function After(s: State, w: nat, act: Act, st: Stage): nat
    requires CanAct(s, w, act)
  {
    One(NextWorker(s, w, act).Some? && In(NextWorker(s, w, act).value.pc, st))
  }

  predicate Charges(s: State, w: nat, act: Act)
    requires CanAct(s, w, act)
  {
    act.Charge? && ChargedTo(s, s.workers[w].copy.user).1 == Done
  }

  lemma MoneyStep(s: State, w: nat, act: Act)
    requires CanAct(s, w, act)
    ensures After(s, w, act, Money) + One(act.GiveBack?) + One(act.Charge?)
            + One(act.Crash? && In(s.workers[w].pc, Money))
            == Before(s, w, Money) + One(act.Reserve? && ReservedFor(s, s.workers[w].copy.user).1 == Done)
  {
  }

  lemma PostSendStep(s: State, w: nat, act: Act)
    requires CanAct(s, w, act) && (act.Charge? ==> Charges(s, w, act))
    ensures After(s, w, act, PostSend) + One(act.RecordSuccess?)
            + One(act.RecordFails? || (act.Crash? && s.workers[w].pc.Charged?))
               + One(act.Crash? && s.workers[w].pc.Sent?)
            == Before(s, w, PostSend) + One(act == Send(Accepted))
  {
  }

  lemma AtChargeStep(s: State, w: nat, act: Act)
    requires CanAct(s, w, act)
    ensures After(s, w, act, AtCharge) + One(act.RecordSuccess?)
            + One(act.RecordFails? || (act.Crash? && s.workers[w].pc.Charged?))
            == Before(s, w, AtCharge) + One(Charges(s, w, act))
  {
  }

  lemma PlacedCounts(ws: map<nat, Worker>, w: nat, next: Option<Worker>, st: Stage, u: nat, t: nat)
    requires w in ws && (next.Some? ==> next.value.copy == ws[w].copy)
    ensures var here := One(In(ws[w].pc, st)); var there := One(next.Some? && In(next.value.pc, st));
            && |ByUser(Place(ws, w, next), st, u)| + (if u == ws[w].copy.user then here else 0)
               == |ByUser(ws, st, u)| + (if u == ws[w].copy.user then there else 0)
            && |ByTask(Place(ws, w, next), st, t)| + (if t == ws[w].copy.task then here else 0)
               == |ByTask(ws, st, t)| + (if t == ws[w].copy.task then there else 0)
  {
    CountsMove(ws, Place(ws, w, next), w, st, u, t);
  }

  /** The counts of a stage after an act, for the user and the task of the worker's copy and for all others. */
  lemma StageCounts(s: State, w: nat, act: Act, st: Stage, u: nat, t: nat, before: nat, after: nat)
    requires CanAct(s, w, act) && !act.Deliver?
    requires before == Before(s, w, st) && after == After(s, w, act, st)
    ensures |ByUser(Step(s, w, act).workers, st, u)| + (if u == s.workers[w].copy.user then before else 0)
            == |ByUser(s.workers, st, u)| + (if u == s.workers[w].copy.user then after else 0)
    ensures |ByTask(Step(s, w, act).workers, st, t)| + (if t == s.workers[w].copy.task then before else 0)
            == |ByTask(s.workers, st, t)| + (if t == s.workers[w].copy.task then after else 0)
  {
    SameCopy(s, w, act);
    PlacedCounts(s.workers, w, NextWorker(s, w, act), st, u, t);
    assert before == One(In(s.workers[w].pc, st));
    assert Step(s, w, act).workers == Place(s.workers, w, NextWorker(s, w, act));
  }

  lemma SameCopy(s: State, w: nat, act: Act)
    requires CanAct(s, w, act) && !act.Deliver?
    ensures NextWorker(s, w, act).Some? ==> NextWorker(s, w, act).value.copy == s.workers[w].copy
  {
  }

  lemma DeliveryCountsNothing(s: State, w: nat, act: Act, st: Stage, u: nat, t: nat)
    requires CanAct(s, w, act) && act.Deliver? && st != Carrying
    ensures |ByUser(Step(s, w, act).workers, st, u)| == |ByUser(s.workers, st, u)|
    ensures |ByTask(Step(s, w, act).workers, st, t)| == |ByTask(s.workers, st, t)|
  {
    WorkerMoves(s, w, act);
    CountsMove(s.workers, Step(s, w, act).workers, w, st, u, t);
  }

  // ----- money -----

  /** Frozen cents are exactly the reservations of live runs plus those lost to crashes. */
  predicate MoneyOk(s: State, u: nat) {
    && WalletOf(s, u).columns.frozen == UNIT_PRICE * (|ByUser(s.workers, Money, u)| + s.stranded[u])
    && (!WalletOf(s, u).present ==> WalletOf(s, u).columns == ZERO)
  }

  ghost predicate MoneyInv(s: State) {
    forall u: nat :: MoneyOk(s, u)
  }

  /** With the books in order, neither settlement can be refused. */
  lemma SettlementAccepted(s: State, w: nat)
    requires MoneyInv(s) && w in s.workers && In(s.workers[w].pc, Money)
    ensures ChargedTo(s, s.workers[w].copy.user).1 == Done
    ensures RefundedTo(s, s.workers[w].copy.user).1 == Done
  {
    var u := s.workers[w].copy.user;
    assert w in ByUser(s.workers, Money, u);
    assert MoneyOk(s, u);
  }

  predicate Reserves(s: State, w: nat, act: Act)
    requires CanAct(s, w, act)
  {
    act.Reserve? && ReservedFor(s, s.workers[w].copy.user).1 == Done
  }

  /** What an act does to the wallets, once no settlement is refused. */
  lemma WalletStep(s: State, w: nat, act: Act, u: nat)
    requires CanAct(s, w, act) && !act.Deliver?
    requires act.Charge? ==> Charges(s, w, act)
    requires act.GiveBack? ==> RefundedTo(s, s.workers[w].copy.user).1 == Done
    requires !WalletOf(s, u).present ==> WalletOf(s, u).columns == ZERO
    ensures var mine := u == s.workers[w].copy.user;
            var a := WalletOf(s, u); var b := WalletOf(Step(s, w, act), u);
            && b.columns.frozen == a.columns.frozen
               + (if mine then UNIT_PRICE * (One(Reserves(s, w, act)) - One(act.GiveBack?) - One(act.Charge?)) else 0)
            && b.columns.used == a.columns.used + (if mine then UNIT_PRICE * One(Charges(s, w, act)) else 0)
            && (!b.present ==> b.columns == ZERO)
  {
    if act.Reserve? || act.GiveBack? || act.Charge? {
      var a' := NextWallets(s, w, act);
      assert u != s.workers[w].copy.user ==> WalletOf(Step(s, w, act), u) == WalletOf(s, u);
    } else {
      assert NextWallets(s, w, act) == s.wallets;
    }
  }

  /** No settlement that is due is refused. */
  lemma SettlesWell(s: State, w: nat, act: Act)
    requires CanAct(s, w, act) && !act.Deliver? && MoneyInv(s)
    ensures act.Charge? ==> Charges(s, w, act)
    ensures act.GiveBack? ==> RefundedTo(s, s.workers[w].copy.user).1 == Done
  {
    if In(s.workers[w].pc, Money) {
      SettlementAccepted(s, w);
    }
  }

  lemma MoneyKeptFor(s: State, w: nat, act: Act, u: nat)
    requires CanAct(s, w, act) && !act.Deliver? && MoneyInv(s)
    ensures MoneyOk(Step(s, w, act), u)
  {
    assert MoneyOk(s, u);
    SettlesWell(s, w, act);
    WalletStep(s, w, act, u);
    MoneyStep(s, w, act);
    StageCounts(s, w, act, Money, u, 0, Before(s, w, Money), After(s, w, act, Money));
  }

  lemma MoneyKeptOutside(s: State, input: Input)
    requires CanHappen(s, input) && MoneyInv(s)
    ensures MoneyInv(Happen(s, input))
  {
    var s' := Happen(s, input);
    forall u: nat
      ensures MoneyOk(s', u)
    {
      assert MoneyOk(s, u);
    }
  }

  lemma MoneyKeptInside(s: State, w: nat, act: Act)
    requires CanAct(s, w, act) && MoneyInv(s)
    ensures MoneyInv(Step(s, w, act))
  {
    forall u: nat
      ensures MoneyOk(Step(s, w, act), u)
    {
      assert MoneyOk(s, u);
      if act.Deliver? {
        DeliveryCountsNothing(s, w, act, Money, u, 0);
      } else {
        MoneyKeptFor(s, w, act, u);
      }
    }
  }

  // ----- sends and charges, by task -----

  /** Every accepted send is recorded in the task row, about to be, or lost to a named fault;
      and every charge likewise. */
  ghost predicate SendsInv(s: State) {
    forall t: nat :: SendsOk(s, t) && ChargesOk(s, t)
  }

  predicate SendsOk(s: State, t: nat) {
    s.accepted.byTask[t] == s.unpaid.byTask[t] + s.unrecorded.byTask[t] + One(HasStatus(s.tasks, t, Success))
        + |ByTask(s.workers, PostSend, t)|
  }

  predicate ChargesOk(s: State, t: nat) {
    s.charged.byTask[t] == s.unrecorded.byTask[t] + One(HasStatus(s.tasks, t, Success))
        + |ByTask(s.workers, AtCharge, t)|
  }

  /** The recorded status of the worker's own task, and of all others. */
  lemma SuccessStep(s: State, w: nat, act: Act, t: nat)
    requires CanAct(s, w, act) && !act.Deliver? && TaskInv(s)
    ensures One(HasStatus(Step(s, w, act).tasks, t, Success))
            == One(HasStatus(s.tasks, t, Success))
               + (if t == s.workers[w].copy.task then One(act.RecordSuccess?) else 0)
  {
    if act.RecordFailure? || act.RecordSuccess? {
      WorkingStep(s, w, act);
      assert Sendable(s.tasks, s.workers[w].copy);
    }
  }

  predicate Mine(s: State, w: nat, t: nat)
    requires w in s.workers
  {
    t == s.workers[w].copy.task
  }

  /** How the observers' counts move. */
  lemma TalliesByTask(s: State, w: nat, act: Act, t: nat)
    requires CanAct(s, w, act) && !act.Deliver?
    ensures var s' := Step(s, w, act); var pc := s.workers[w].pc; var mine := Mine(s, w, t);
            && s'.accepted.byTask[t] == s.accepted.byTask[t] + One(mine && act == Send(Accepted))
            && s'.charged.byTask[t] == s.charged.byTask[t] + One(mine && Charges(s, w, act))
            && s'.unpaid.byTask[t] == s.unpaid.byTask[t] + One(mine && act.Crash? && pc.Sent?)
            && s'.unrecorded.byTask[t] == s.unrecorded.byTask[t]
               + One(mine && (act.RecordFails? || (act.Crash? && pc.Charged?)))
  {
  }

  lemma SendsKeptFor(s: State, w: nat, act: Act, t: nat)
    requires CanAct(s, w, act) && !act.Deliver? && TaskInv(s) && SendsInv(s) && MoneyInv(s)
    ensures SendsOk(Step(s, w, act), t)
  {
    assert SendsOk(s, t);
    if In(s.workers[w].pc, Money) {
      SettlementAccepted(s, w);
    }
    SuccessStep(s, w, act, t);
    TalliesByTask(s, w, act, t);
    PostSendStep(s, w, act);
    var before, after := Before(s, w, PostSend), After(s, w, act, PostSend);
    StageCounts(s, w, act, PostSend, 0, t, before, after);
    var s' := Step(s, w, act);
    if !Mine(s, w, t) {
      assert |ByTask(s'.workers, PostSend, t)| == |ByTask(s.workers, PostSend, t)|;
    }
  }

  lemma ChargesKeptFor(s: State, w: nat, act: Act, t: nat)
    requires CanAct(s, w, act) && !act.Deliver? && TaskInv(s) && SendsInv(s)
    ensures ChargesOk(Step(s, w, act), t)
  {
    assert ChargesOk(s, t);
    SuccessStep(s, w, act, t);
    AtChargeStep(s, w, act);
    StageCounts(s, w, act, AtCharge, 0, t, Before(s, w, AtCharge), After(s, w, act, AtCharge));
  }

  lemma SendsKeptInside(s: State, w: nat, act: Act)
    requires CanAct(s, w, act) && TaskInv(s) && SendsInv(s) && MoneyInv(s)
    ensures SendsInv(Step(s, w, act))
  {
    var s' := Step(s, w, act);
    forall t: nat
      ensures SendsOk(s', t) && ChargesOk(s', t)
    {
      assert SendsOk(s, t) && ChargesOk(s, t);
      if act.Deliver? {
        DeliveryCountsNothing(s, w, act, PostSend, 0, t);
        DeliveryCountsNothing(s, w, act, AtCharge, 0, t);
      } else {
        SendsKeptFor(s, w, act, t);
        ChargesKeptFor(s, w, act, t);
      }
    }
  }

  lemma SendsKeptOutside(s: State, input: Input)
    requires CanHappen(s, input) && SendsInv(s)
    ensures SendsInv(Happen(s, input))
  {
    forall t: nat
      ensures SendsOk(Happen(s, input), t) && ChargesOk(Happen(s, input), t)
    {
      assert SendsOk(s, t) && ChargesOk(s, t);
      assert HasStatus(Happen(s, input).tasks, t, Success) == HasStatus(s.tasks, t, Success);
    }
  }

  // ----- sends and charges, by user -----

  predicate UserSendsOk(s: State, u: nat) {
    s.accepted.byUser[u] == s.unpaid.byUser[u] + s.unrecorded.byUser[u] + |SentTasks(s.tasks, u)|
        + |ByUser(s.workers, PostSend, u)|
  }

  /** Used cents are what the recorded tasks cost, plus charges on their way and charges never recorded. */
  predicate UsedOk(s: State, u: nat) {
    WalletOf(s, u).columns.used == UNIT_PRICE * (s.unrecorded.byUser[u] + |SentTasks(s.tasks, u)|
                                                 + |ByUser(s.workers, AtCharge, u)|)
  }

  ghost predicate UserInv(s: State) {
    forall u: nat :: UserSendsOk(s, u) && UsedOk(s, u)
  }

  lemma SentTasksStep(s: State, w: nat, act: Act, u: nat)
    requires CanAct(s, w, act) && !act.Deliver? && TaskInv(s)
    ensures |SentTasks(Step(s, w, act).tasks, u)|
            == |SentTasks(s.tasks, u)| + (if u == s.workers[w].copy.user then One(act.RecordSuccess?) else 0)
  {
    if act.RecordFailure? || act.RecordSuccess? {
      WorkingStep(s, w, act);
      assert Sendable(s.tasks, s.workers[w].copy);
      var t := s.workers[w].copy.task;
      assert SentTasks(NextTasks(s, w, act), u) ==
             if act.RecordSuccess? && u == s.workers[w].copy.user then SentTasks(s.tasks, u) + {t}
             else SentTasks(s.tasks, u);
    }
  }

  lemma TalliesByUser(s: State, w: nat, act: Act, u: nat)
    requires CanAct(s, w, act) && !act.Deliver?
    ensures var s' := Step(s, w, act); var pc := s.workers[w].pc; var mine := u == s.workers[w].copy.user;
            && s'.accepted.byUser[u] == s.accepted.byUser[u] + One(mine && act == Send(Accepted))
            && s'.unpaid.byUser[u] == s.unpaid.byUser[u] + One(mine && act.Crash? && pc.Sent?)
            && s'.unrecorded.byUser[u] == s.unrecorded.byUser[u]
               + One(mine && (act.RecordFails? || (act.Crash? && pc.Charged?)))
  {
  }

  lemma UserSendsKeptFor(s: State, w: nat, act: Act, u: nat)
    requires CanAct(s, w, act) && !act.Deliver? && TaskInv(s) && UserInv(s) && MoneyInv(s)
    ensures UserSendsOk(Step(s, w, act), u)
  {
    assert UserSendsOk(s, u);
    if In(s.workers[w].pc, Money) {
      SettlementAccepted(s, w);
    }
    SentTasksStep(s, w, act, u);
    TalliesByUser(s, w, act, u);
    PostSendStep(s, w, act);
    var before, after := Before(s, w, PostSend), After(s, w, act, PostSend);
    StageCounts(s, w, act, PostSend, u, 0, before, after);
  }

  lemma UsedKeptFor(s: State, w: nat, act: Act, u: nat)
    requires CanAct(s, w, act) && !act.Deliver? && TaskInv(s) && UserInv(s) && MoneyInv(s)
    ensures UsedOk(Step(s, w, act), u)
  {
    assert UsedOk(s, u) && MoneyOk(s, u);
    if In(s.workers[w].pc, Money) {
      SettlementAccepted(s, w);
    }
    WalletStep(s, w, act, u);
    SentTasksStep(s, w, act, u);
    TalliesByUser(s, w, act, u);
    AtChargeStep(s, w, act);
    var before, after := Before(s, w, AtCharge), After(s, w, act, AtCharge);
    StageCounts(s, w, act, AtCharge, u, 0, before, after);
  }

  lemma UserKeptInside(s: State, w: nat, act: Act)
    requires CanAct(s, w, act) && TaskInv(s) && UserInv(s) && MoneyInv(s)
    ensures UserInv(Step(s, w, act))
  {
    var s' := Step(s, w, act);
    forall u: nat
      ensures UserSendsOk(s', u) && UsedOk(s', u)
    {
      assert UserSendsOk(s, u) && UsedOk(s, u) && MoneyOk(s, u);
      if act.Deliver? {
        DeliveryCountsNothing(s, w, act, PostSend, u, 0);
        DeliveryCountsNothing(s, w, act, AtCharge, u, 0);
      } else {
        UserSendsKeptFor(s, w, act, u);
        UsedKeptFor(s, w, act, u);
      }
    }
  }

  lemma UserKeptOutside(s: State, input: Input)
    requires CanHappen(s, input) && UserInv(s) && MoneyInv(s)
    ensures UserInv(Happen(s, input))
  {
    var s' := Happen(s, input);
    forall u: nat
      ensures UserSendsOk(s', u) && UsedOk(s', u)
    {
      assert UserSendsOk(s, u) && UsedOk(s, u) && MoneyOk(s, u);
      assert SentTasks(s'.tasks, u) == SentTasks(s.tasks, u);
      assert WalletOf(s', u).columns.used == WalletOf(s, u).columns.used;
    }
  }

  // ----- faults -----

  /** A mark left behind by a crash, on a task that is not recorded as sent. */
  predicate Stuck(s: State, t: nat) {
    t in s.marks && s.marks[t] == InProgress && !Held(s, t) && !HasStatus(s.tasks, t, Success)
  }

  /** An unrecorded send is blocked by a stuck mark or has had its mark reset. */
  ghost predicate FaultInv(s: State) {
    forall t: nat :: FaultOk(s, t)
  }

  lemma HeldKept(s: State, s': State, w: nat, t: nat)
    requires OnlyMoved(s.workers, s'.workers, w)
    requires Holds(s.workers, w) ==> s.workers[w].copy.task != t
    requires Holds(s'.workers, w) ==> s'.workers[w].copy.task != t
    ensures Held(s', t) == Held(s, t)
  {
    if Held(s, t) {
      var v :| v in s.workers && In(s.workers[v].pc, Holding) && s.workers[v].copy.task == t;
      assert v != w;
      assert v in s'.workers && s'.workers[v] == s.workers[v];
    }
    if Held(s', t) {
      var v :| v in s'.workers && In(s'.workers[v].pc, Holding) && s'.workers[v].copy.task == t;
      assert v != w;
      assert v in s.workers && s'.workers[v] == s.workers[v];
    }
  }

  predicate FaultOk(s: State, t: nat) {
    s.unpaid.byTask[t] + s.unrecorded.byTask[t] <= s.resets[t] + One(Stuck(s, t))
  }

  /** A crash of the holder leaves the mark stuck, unless the task is recorded as sent. */
  lemma CrashLeavesStuck(s: State, w: nat)
    requires CanAct(s, w, Crash) && TaskInv(s) && LockInv(s.workers, s.marks) && Holds(s.workers, w)
    requires In(s.workers[w].pc, Working)
    ensures Stuck(Step(s, w, Crash), s.workers[w].copy.task)
  {
    var t := s.workers[w].copy.task;
    var s' := Step(s, w, Crash);
    WorkerMoves(s, w, Crash);
    if Held(s', t) {
      var v :| v in s'.workers && In(s'.workers[v].pc, Holding) && s'.workers[v].copy.task == t;
      assert Holds(s.workers, v) && v != w;
    }
    assert Sendable(s.tasks, s.workers[w].copy);
  }

  /** The worker's own message, when the act is no crash of a working run. */
  lemma FaultKeptCalm(s: State, w: nat, act: Act)
    requires CanAct(s, w, act) && !act.Deliver? && TaskInv(s)
    requires act.Crash? ==> !In(s.workers[w].pc, Working)
    requires FaultOk(s, s.workers[w].copy.task)
    ensures FaultOk(Step(s, w, act), s.workers[w].copy.task)
  {
    var t := s.workers[w].copy.task;
    TalliesByTask(s, w, act, t);
    if Holds(s.workers, w) {
      HeldByWorker(s, w);
    } else {
      MarksMove(s, w, act);
      WorkerMoves(s, w, act);
      if Holds(Step(s, w, act).workers, w) {
        HeldByWorker(Step(s, w, act), w);
      } else {
        HeldNeither(s, Step(s, w, act), w, t);
      }
    }
  }

  lemma FaultKeptByCrash(s: State, w: nat)
    requires CanAct(s, w, Crash) && TaskInv(s) && LockInv(s.workers, s.marks) && In(s.workers[w].pc, Working)
    requires FaultOk(s, s.workers[w].copy.task)
    ensures FaultOk(Step(s, w, Crash), s.workers[w].copy.task)
  {
    TalliesByTask(s, w, Crash, s.workers[w].copy.task);
    HeldByWorker(s, w);
    CrashLeavesStuck(s, w);
  }

  lemma FaultKeptMine(s: State, w: nat, act: Act)
    requires CanAct(s, w, act) && !act.Deliver? && TaskInv(s) && LockInv(s.workers, s.marks)
    requires FaultOk(s, s.workers[w].copy.task)
    ensures FaultOk(Step(s, w, act), s.workers[w].copy.task)
  {
    if act.Crash? && In(s.workers[w].pc, Working) {
      FaultKeptByCrash(s, w);
    } else {
      FaultKeptCalm(s, w, act);
    }
  }

  lemma HeldByWorker(s: State, w: nat)
    requires Holds(s.workers, w)
    ensures Held(s, s.workers[w].copy.task)
  {
  }

  lemma HeldNeither(s: State, s': State, w: nat, t: nat)
    requires OnlyMoved(s.workers, s'.workers, w) && !Holds(s.workers, w) && !Holds(s'.workers, w)
    ensures Held(s', t) == Held(s, t)
  {
    HeldKept(s, s', w, t);
  }

  lemma FaultKeptOther(s: State, w: nat, act: Act, t: nat)
    requires CanAct(s, w, act) && FaultOk(s, t)
    requires act.Deliver? || t != s.workers[w].copy.task
    ensures FaultOk(Step(s, w, act), t)
  {
    var s' := Step(s, w, act);
    WorkerMoves(s, w, act);
    HeldKept(s, s', w, t);
    if !act.Deliver? {
      TalliesByTask(s, w, act, t);
    }
  }

  lemma FaultKept(s: State, e: Event)
    requires Enabled(s, e) && TaskInv(s) && LockInv(s.workers, s.marks) && FaultInv(s)
    ensures FaultInv(Apply(s, e))
  {
    forall t: nat
      ensures FaultOk(Apply(s, e), t)
    {
      assert FaultOk(s, t);
      if e.Outside? {
        FaultKeptOutside(s, e.input, t);
      } else if !e.act.Deliver? && t == s.workers[e.w].copy.task {
        FaultKeptMine(s, e.w, e.act);
      } else {
        FaultKeptOther(s, e.w, e.act, t);
      }
    }
  }

  lemma FaultKeptOutside(s: State, input: Input, t: nat)
    requires CanHappen(s, input) && FaultOk(s, t)
    ensures FaultOk(Happen(s, input), t)
  {
    var s' := Happen(s, input);
    assert Held(s', t) == Held(s, t);
    assert HasStatus(s'.tasks, t, Success) == HasStatus(s.tasks, t, Success);
  }

  // ----- all runs -----

  ghost predicate Inv(s: State) {
    LockInv(s.workers, s.marks) && TaskInv(s) && MoneyInv(s) && SendsInv(s) && UserInv(s) && FaultInv(s)
  }

  lemma InvAtStart(s: State)
    requires Start(s)
    ensures Inv(s)
  {
    forall u: nat, st
      ensures ByUser(s.workers, st, u) == {} && ByTask(s.workers, st, u) == {}
    {
    }
    forall t: nat
      ensures SendsOk(s, t) && ChargesOk(s, t) && FaultOk(s, t)
    {
      assert s.accepted.byTask[t] == s.charged.byTask[t];
    }
    forall u: nat
      ensures MoneyOk(s, u) && UserSendsOk(s, u) && UsedOk(s, u)
    {
      assert WalletOf(s, u).columns.frozen == 0 && WalletOf(s, u).columns.used == UNIT_PRICE * |SentTasks(s.tasks, u)|;
      assert s.accepted.byUser[u] == |SentTasks(s.tasks, u)|;
    }
  }

  lemma InvKept(s: State, e: Event)
    requires Enabled(s, e) && Inv(s)
    ensures Inv(Apply(s, e))
  {
    LockKept(s, e);
    FaultKept(s, e);
    if e.Inside? {
      TaskKeptInside(s, e.w, e.act);
      MoneyKeptInside(s, e.w, e.act);
      SendsKeptInside(s, e.w, e.act);
      UserKeptInside(s, e.w, e.act);
    } else {
      TaskKeptOutside(s, e.input);
      MoneyKeptOutside(s, e.input);
      SendsKeptOutside(s, e.input);
      UserKeptOutside(s, e.input);
    }
  }

  lemma {:induction false} InvAlways(s: State, es: seq<Event>)
    requires Inv(s) && Valid(s, es)
    ensures Inv(Exec(s, es))
    decreases |es|
  {
    if es != [] {
      InvKept(s, es[0]);
      InvAlways(Apply(s, es[0]), es[1..]);
    }
  }

  lemma HolderUnique(s: State, st: Stage, t: nat)
    requires LockInv(s.workers, s.marks) && (st == PostSend || st == AtCharge)
    ensures |ByTask(s.workers, st, t)| <= 1
    ensures ByTask(s.workers, st, t) != {} ==> Held(s, t)
  {
    var a := ByTask(s.workers, st, t);
    if a != {} {
      var v :| v in a;
      assert In(s.workers[v].pc, Holding);
      forall w | w in a
        ensures w == v
      {
        assert Holds(s.workers, v) && Holds(s.workers, w);
      }
      assert a == {v};
    }
  }

  /** Main result: whatever the workers, copies, retries and faults, a task is sent at most
      once more than its mark was reset after a crash or a failed task update, at most once
      more than a fault struck between an accepted send and its record, and it is never
      charged more often than it was sent. */
  lemma SendsBounded(s: State, es: seq<Event>, t: nat)
    requires Start(s) && Valid(s, es)
    ensures Exec(s, es).accepted.byTask[t] <= 1 + Exec(s, es).resets[t]
    ensures Exec(s, es).accepted.byTask[t] <= 1 + Exec(s, es).unpaid.byTask[t] + Exec(s, es).unrecorded.byTask[t]
    ensures Exec(s, es).charged.byTask[t] <= Exec(s, es).accepted.byTask[t]
  {
    InvAtStart(s);
    InvAlways(s, es);
    var z := Exec(s, es);
    assert SendsOk(z, t) && ChargesOk(z, t) && FaultOk(z, t);
    HolderUnique(z, PostSend, t);
    assert ByTask(z.workers, AtCharge, t) <= ByTask(z.workers, PostSend, t);
    SubsetSize(ByTask(z.workers, AtCharge, t), ByTask(z.workers, PostSend, t));
    if ByTask(z.workers, PostSend, t) != {} {
      var v :| v in ByTask(z.workers, PostSend, t);
      assert Sendable(z.tasks, z.workers[v].copy);
    }
  }

  lemma {:induction false} SubsetSize(a: set<nat>, b: set<nat>)
    requires a <= b
    ensures |a| <= |b|
    decreases a
  {
    if a != {} {
      var x :| x in a;
      SubsetSize(a - {x}, b - {x});
    }
  }

  // ----- runs without particular faults -----

  predicate Resets(s: State, e: Event)
    requires Enabled(s, e)
  {
    match e
    case Outside(input) => input.Expire? && s.marks[input.t] == InProgress
    case Inside(_, act) => act.RecordFails?
  }

  predicate IsFault(e: Event) {
    e.Inside? && (e.act.Crash? || e.act.RecordFails?)
  }

  predicate NoFaults(es: seq<Event>) {
    forall i :: 0 <= i < |es| ==> !IsFault(es[i])
  }

  /** No mark left behind by a crash expires, and no task update fails after its charge. */
  predicate NoResets(s: State, es: seq<Event>)
    requires Valid(s, es)
    decreases |es|
  {
    es == [] || (!Resets(s, es[0]) && NoResets(Apply(s, es[0]), es[1..]))
  }

  lemma {:induction false} ResetsUnchanged(s: State, es: seq<Event>)
    requires Valid(s, es) && NoResets(s, es)
    ensures Exec(s, es).resets == s.resets
    decreases |es|
  {
    if es != [] {
      assert Apply(s, es[0]).resets == s.resets;
      ResetsUnchanged(Apply(s, es[0]), es[1..]);
    }
  }

  /** Crashes alone, wherever they strike, never cause a second send. */
  lemma AtMostOneSend(s: State, es: seq<Event>, t: nat)
    requires Start(s) && Valid(s, es) && NoResets(s, es)
    ensures Exec(s, es).accepted.byTask[t] <= 1
  {
    ResetsUnchanged(s, es);
    SendsBounded(s, es, t);
  }

  predicate SameDamage(s: State, z: State) {
    z.unpaid == s.unpaid && z.unrecorded == s.unrecorded && z.stranded == s.stranded && z.orphans == s.orphans
  }

  lemma DamageStep(s: State, e: Event)
    requires Enabled(s, e) && !IsFault(e)
    ensures SameDamage(s, Apply(s, e))
  {
  }

  lemma {:induction false} NoDamageWithoutFaults(s: State, es: seq<Event>)
    requires Valid(s, es) && NoFaults(es)
    ensures SameDamage(s, Exec(s, es))
    decreases |es|
  {
    if es != [] {
      DamageStep(s, es[0]);
      NoDamageWithoutFaults(Apply(s, es[0]), es[1..]);
    }
  }

  /** Frozen cents in any run: five for every reservation that a live run still has to settle
      and for every one whose run crashed. */
  lemma FrozenIsOutstanding(s: State, es: seq<Event>, u: nat)
    requires Start(s) && Valid(s, es)
    ensures var z := Exec(s, es);
            WalletOf(z, u).columns.frozen == UNIT_PRICE * (|ByUser(z.workers, Money, u)| + z.stranded[u])
    ensures NoFaults(es)
            ==> WalletOf(Exec(s, es), u).columns.frozen == UNIT_PRICE * |ByUser(Exec(s, es).workers, Money, u)|
  {
    InvAtStart(s);
    InvAlways(s, es);
    assert MoneyOk(Exec(s, es), u);
    if NoFaults(es) {
      NoDamageWithoutFaults(s, es);
    }
  }

  /** The frozen-amount guards of ConfirmDeduction and Refund never reject a run that reserved. */
  lemma SettlementNeverRefused(s: State, es: seq<Event>, w: nat)
    requires Start(s) && Valid(s, es) && w in Exec(s, es).workers && In(Exec(s, es).workers[w].pc, Money)
    ensures Confirmed(WalletOf(Exec(s, es), Exec(s, es).workers[w].copy.user), UNIT_PRICE).1 == Done
    ensures Refunded(WalletOf(Exec(s, es), Exec(s, es).workers[w].copy.user), UNIT_PRICE).1 == Done
  {
    InvAtStart(s);
    InvAlways(s, es);
    SettlementAccepted(Exec(s, es), w);
  }

  /** Used cents in any run without crashes: five for every task recorded as sent and for
      every charge about to be recorded; and money is never used without a send. */
  lemma UsedIsSent(s: State, es: seq<Event>, u: nat)
    requires Start(s) && Valid(s, es)
    ensures WalletOf(Exec(s, es), u).columns.used <= UNIT_PRICE * Exec(s, es).accepted.byUser[u]
    ensures NoFaults(es)
            ==> WalletOf(Exec(s, es), u).columns.used
                == UNIT_PRICE * (|SentTasks(Exec(s, es).tasks, u)| + |ByUser(Exec(s, es).workers, AtCharge, u)|)
  {
    InvAtStart(s);
    InvAlways(s, es);
    var z := Exec(s, es);
    assert UsedOk(z, u) && UserSendsOk(z, u);
    assert ByUser(z.workers, AtCharge, u) <= ByUser(z.workers, PostSend, u);
    SubsetSize(ByUser(z.workers, AtCharge, u), ByUser(z.workers, PostSend, u));
    if NoFaults(es) {
      NoDamageWithoutFaults(s, es);
    }
  }

  lemma SuccessStays(s: State, e: Event, t: nat)
    requires Enabled(s, e) && Inv(s) && HasStatus(s.tasks, t, Success)
    ensures HasStatus(Apply(s, e).tasks, t, Success)
  {
    if e.Inside? && !e.act.Deliver? {
      SuccessStep(s, e.w, e.act, t);
    }
  }

  lemma {:induction false} SuccessStaysFrom(s: State, es: seq<Event>, t: nat)
    requires Inv(s) && Valid(s, es) && HasStatus(s.tasks, t, Success)
    ensures HasStatus(Exec(s, es).tasks, t, Success)
    decreases |es|
  {
    if es != [] {
      SuccessStays(s, es[0], t);
      InvKept(s, es[0]);
      SuccessStaysFrom(Apply(s, es[0]), es[1..], t);
    }
  }

  /** Once recorded as sent, a task stays so, in every continuation of every run. */
  lemma SuccessIsAbsorbing(s: State, es: seq<Event>, more: seq<Event>, t: nat)
    requires Start(s) && Valid(s, es) && Valid(Exec(s, es), more)
    requires HasStatus(Exec(s, es).tasks, t, Success)
    ensures HasStatus(Exec(Exec(s, es), more).tasks, t, Success)
  {
    InvAtStart(s);
    InvAlways(s, es);
    SuccessStaysFrom(Exec(s, es), more, t);
  }

  // ----- no message is silently lost -----

  ghost predicate InQueue(ready: multiset<Copy>, t: nat) {
    exists c :: c in ready && c.task == t
  }

  predicate InFlight(ws: map<nat, Worker>, t: nat) {
    exists w :: w in ws && In(ws[w].pc, Carrying) && ws[w].copy.task == t
  }

  ghost predicate Carried(s: State, t: nat) {
    InQueue(s.ready, t) || InFlight(s.workers, t)
  }

  /** Why the system no longer needs a copy of the message. */
  predicate Accounted(s: State, t: nat) {
    t in s.settled || t in s.rejected || t in s.orphans
  }

  predicate MarkOk(s: State, t: nat) {
    t in s.marks ==> if s.marks[t] == Completed then t in s.settled else Held(s, t) || t in s.orphans
  }

  ghost predicate LossOk(s: State, t: nat) {
    MarkOk(s, t) && (t in s.named ==> Carried(s, t) || Accounted(s, t))
  }

  lemma AccountedStays(s: State, w: nat, act: Act, t: nat)
    requires CanAct(s, w, act) && Accounted(s, t)
    ensures Accounted(Step(s, w, act), t)
  {
  }

  /** The ways a holding ends. */
  lemma ReleaseActs(s: State, w: nat, act: Act)
    requires CanAct(s, w, act) && Holds(s.workers, w) && !Holds(Step(s, w, act).workers, w)
    ensures EndsHolding(act)
  {
    if !EndsHolding(act) && !act.Lock? && !act.Deliver? {
      HoldingKept(s, w, act);
    }
  }

  lemma MarkOkAfterRelease(s: State, w: nat, act: Act)
    requires CanAct(s, w, act) && EndsHolding(act) && Holds(s.workers, w) && MarkOk(s, s.workers[w].copy.task)
    ensures MarkOk(Step(s, w, act), s.workers[w].copy.task)
  {
  }

  lemma MarkOkMine(s: State, w: nat, act: Act)
    requires CanAct(s, w, act) && !act.Deliver? && MarkOk(s, s.workers[w].copy.task)
    ensures MarkOk(Step(s, w, act), s.workers[w].copy.task)
  {
    var t := s.workers[w].copy.task;
    WorkerMoves(s, w, act);
    MarksMove(s, w, act);
    if Holds(Step(s, w, act).workers, w) {
      if Holds(s.workers, w) {
        HeldByWorker(s, w);
      }
      HeldByWorker(Step(s, w, act), w);
    } else if Holds(s.workers, w) {
      ReleaseActs(s, w, act);
      MarkOkAfterRelease(s, w, act);
    } else {
      HeldNeither(s, Step(s, w, act), w, t);
    }
  }

  lemma MarkOkOther(s: State, w: nat, act: Act, t: nat)
    requires CanAct(s, w, act) && MarkOk(s, t)
    requires act.Deliver? || t != s.workers[w].copy.task
    ensures MarkOk(Step(s, w, act), t)
  {
    WorkerMoves(s, w, act);
    HeldKept(s, Step(s, w, act), w, t);
  }

  /** A worker that stops carrying its copy has settled it, rejected it, passed it on, or found
      another holder for the message. */
  lemma CarriedMine(s: State, w: nat, act: Act)
    requires CanAct(s, w, act) && !act.Deliver? && MarkOk(s, s.workers[w].copy.task)
    requires In(s.workers[w].pc, Carrying)
    ensures Carried(Step(s, w, act), s.workers[w].copy.task) || Accounted(Step(s, w, act), s.workers[w].copy.task)
  {
    var c := s.workers[w].copy;
    var s' := Step(s, w, act);
    if act.Bounce? && c.retry < MAX_RETRIES {
      var next := if act.republished then c.(retry := c.retry + 1) else c;
      assert next in s'.ready && next.task == c.task;
    } else if act.Crash? {
      assert c in s'.ready;
    } else if act.Lock? && !c.garbled && c.task in s.marks {
      if Held(s, c.task) {
        var v :| v in s.workers && In(s.workers[v].pc, Holding) && s.workers[v].copy.task == c.task;
        WorkerMoves(s, w, act);
        assert v != w && s'.workers[v] == s.workers[v];
        assert InFlight(s'.workers, c.task);
      }
    } else if !act.MarkDone? && !act.Bounce? {
      StillCarrying(s, w, act);
      assert w in s'.workers && In(s'.workers[w].pc, Carrying) && s'.workers[w].copy == c;
    }
  }

  lemma StillCarrying(s: State, w: nat, act: Act)
    requires CanAct(s, w, act) && !act.Deliver? && !act.Bounce? && !act.Crash? && !act.MarkDone?
    requires act.Lock? ==> s.workers[w].copy.garbled || s.workers[w].copy.task !in s.marks
    requires In(s.workers[w].pc, Carrying)
    ensures NextWorker(s, w, act).Some? && In(NextWorker(s, w, act).value.pc, Carrying)
    ensures NextWorker(s, w, act).value.copy == s.workers[w].copy
  {
  }

  /** Every other carrier is untouched, and the queue loses only the copy that is delivered. */
  lemma CarriedElsewhere(s: State, w: nat, act: Act, t: nat)
    requires CanAct(s, w, act) && Carried(s, t)
    requires act.Deliver? || t != s.workers[w].copy.task || !In(s.workers[w].pc, Carrying)
    ensures Carried(Step(s, w, act), t)
  {
    var s' := Step(s, w, act);
    WorkerMoves(s, w, act);
    if act.Deliver? && act.c.task == t {
      assert w in s'.workers && In(s'.workers[w].pc, Carrying) && s'.workers[w].copy.task == t;
    } else if InQueue(s.ready, t) {
      var c :| c in s.ready && c.task == t;
      assert c in s'.ready;
    } else {
      var v :| v in s.workers && In(s.workers[v].pc, Carrying) && s.workers[v].copy.task == t;
      assert v != w && s'.workers[v] == s.workers[v];
    }
  }

  lemma LossKeptInside(s: State, w: nat, act: Act, t: nat)
    requires CanAct(s, w, act) && LossOk(s, t)
    ensures LossOk(Step(s, w, act), t)
  {
    if !act.Deliver? && t == s.workers[w].copy.task {
      MarkOkMine(s, w, act);
    } else {
      MarkOkOther(s, w, act, t);
    }
    if t in s.named {
      if Accounted(s, t) {
        AccountedStays(s, w, act, t);
      } else if !act.Deliver? && t == s.workers[w].copy.task && In(s.workers[w].pc, Carrying) {
        CarriedMine(s, w, act);
      } else {
        CarriedElsewhere(s, w, act, t);
      }
    }
  }

  lemma LossKeptOutside(s: State, input: Input, t: nat)
    requires CanHappen(s, input) && LossOk(s, t)
    ensures LossOk(Happen(s, input), t)
  {
    var s' := Happen(s, input);
    assert Held(s', t) == Held(s, t);
    if input.Publish? {
      assert input.c in s'.ready;
    }
    if InQueue(s.ready, t) {
      var c :| c in s.ready && c.task == t;
      assert c in s'.ready;
    }
  }

  lemma {:induction false} LossAlways(s: State, es: seq<Event>, t: nat)
    requires LossOk(s, t) && Valid(s, es)
    ensures LossOk(Exec(s, es), t)
    decreases |es|
  {
    if es != [] {
      if es[0].Inside? {
        LossKeptInside(s, es[0].w, es[0].act, t);
      } else {
        LossKeptOutside(s, es[0].input, t);
      }
      LossAlways(Apply(s, es[0]), es[1..], t);
    }
  }

  /** Main result: a published message is settled, has a copy that will still be handled, or was
      rejected after its last retry, unless a worker crashed while it held the message's mark. */
  lemma NoSilentLoss(s: State, es: seq<Event>, t: nat)
    requires Start(s) && Valid(s, es) && t in Exec(s, es).named
    ensures var z := Exec(s, es); Carried(z, t) || t in z.settled || t in z.rejected || t in z.orphans
    ensures NoFaults(es) ==> var z := Exec(s, es); Carried(z, t) || t in z.settled || t in z.rejected
  {
    LossAlways(s, es, t);
    if NoFaults(es) {
      NoDamageWithoutFaults(s, es);
    }
  }

  // ----- ledgers -----

  /** The wallet operation an event performs, if any. */
  function WalletOp(e: Event): Option<Op> {
    match e
    case Outside(TopUp(_, amount, reason)) => Some(Op(Granting(reason), amount))
    case Inside(_, Reserve) => Some(Op(Reserving, UNIT_PRICE))
    case Inside(_, GiveBack) => Some(Op(Refunding, UNIT_PRICE))
    case Inside(_, Charge) => Some(Op(Confirming, UNIT_PRICE))
    case _ => None
  }

  predicate HonestEvents(es: seq<Event>) {
    forall i :: 0 <= i < |es| ==> WalletOp(es[i]).Some? ==> HonestReason(WalletOp(es[i]).value)
  }

  predicate MovesByOp(a: Account, b: Account, op: Option<Op>) {
    b == a || (op.Some? && b == Perform(a, op.value))
  }

  lemma WalletsMoveInside(s: State, w: nat, act: Act, u: nat)
    requires CanAct(s, w, act)
    ensures MovesByOp(WalletOf(s, u), WalletOf(Step(s, w, act), u), WalletOp(Inside(w, act)))
  {
    var s' := Step(s, w, act);
    assert s'.wallets == NextWallets(s, w, act);
    if act.Reserve? {
      assert u != s.workers[w].copy.user ==> WalletOf(s', u) == WalletOf(s, u);
    } else if act.GiveBack? {
      assert u != s.workers[w].copy.user ==> WalletOf(s', u) == WalletOf(s, u);
    } else if act.Charge? {
      assert u != s.workers[w].copy.user ==> WalletOf(s', u) == WalletOf(s, u);
    }
  }

  lemma WalletsMoveByOps(s: State, e: Event, u: nat)
    requires Enabled(s, e)
    ensures MovesByOp(WalletOf(s, u), WalletOf(Apply(s, e), u), WalletOp(e))
  {
    if e.Inside? {
      WalletsMoveInside(s, e.w, e.act, u);
    }
  }

  /** In every interleaving and under every fault, each wallet's ledger still rebuilds it. */
  lemma {:induction false} LedgersAlwaysRight(s: State, es: seq<Event>, u: nat)
    requires Valid(s, es) && HonestEvents(es) && Consistent(WalletOf(s, u))
    ensures Consistent(WalletOf(Exec(s, es), u))
    decreases |es|
  {
    if es != [] {
      WalletsMoveByOps(s, es[0], u);
      if WalletOp(es[0]).Some? {
        PerformKeepsLedger(WalletOf(s, u), WalletOp(es[0]).value);
      }
      LedgersAlwaysRight(Apply(s, es[0]), es[1..], u);
    }
  }
}
