/** Paid SMS delivery as a transition system.

    Any number of workers take copies of notification messages from the queue
    (storage/mq/consumer.go), each wraps SendSMS in a Redis mark for its message ID
    (internal/queue/consumer.go), and SendSMS reserves, sends and settles
    (internal/service/notification.go).  The message ID is "notification_" followed by
    the task code, so marks are indexed by task code here.

    One step is one Redis command, one database transaction, one provider call or one
    broker command, and the steps of different workers interleave freely.

    Failure model: a worker may crash between any two of its steps, after which the broker
    delivers its copy again and its mark stays until it expires; a republish may fail; and
    the task update that follows a committed ConfirmDeduction may fail.  Redis commands and
    all other database statements succeed, and a provider error means nothing was sent. */
module Delivery {
  import opened Quota
  import opened Wrappers

  const UNIT_PRICE := 5
  const MAX_RETRIES := 3

  datatype Status = Pending | Processing | Success | Failed

  datatype Task = Task(user: nat, status: Status)

  /** One copy of a message.  A garbled body does not parse. */
  datatype Copy = Copy(task: nat, user: nat, retry: int, garbled: bool)

  datatype Mark = InProgress | Completed

  /** What SendSMS tells the handler after it failed: skip for good, or try again. */
  datatype Verdict = Skip | Retry

  datatype Pc =
    | Received           // the handler was called
    | Locked             // the mark was free and is now ours
    | Checked            // the task row allows sending and the user exists
    | Reserved           // PreDeduct committed
    | RefundDue(v: Verdict)
    | FailDue(v: Verdict)  // the task row is to become failed
    | Sent               // the provider accepted, ConfirmDeduction is next
    | Charged            // ConfirmDeduction committed, the task row is next
    | MarkDue            // the handler will return nil: MarkMessageProcessed is next
    | UnmarkDue          // the handler will return an error: the deferred unmark is next
    | Bouncing           // the handler returned an error
    | Leaving            // only the ack is left

  datatype Worker = Worker(copy: Copy, pc: Pc)

  /** Occurrences of an observed event, by task code and by user. */
  datatype Tally = Tally(byTask: multiset<nat>, byUser: multiset<nat>) {
    function Add(t: nat, u: nat): Tally {
      Tally(byTask + multiset{t}, byUser + multiset{u})
    }
  }

  const NONE := Tally(multiset{}, multiset{})

  datatype State = State(
    ready: multiset<Copy>,        // copies waiting in the queue
    workers: map<nat, Worker>,    // the workers that hold an unacknowledged copy
    marks: map<nat, Mark>,        // Redis
    tasks: map<nat, Task>,        // notification_tasks
    users: set<nat>,
    wallets: map<nat, Account>,
    named: set<nat>,              // task codes some published copy carried
    // what an observer of the provider, the wallets and the handlers has counted
    accepted: Tally,              // sends the provider accepted
    charged: Tally,               // deductions confirmed
    settled: set<nat>,            // messages some handler run returned nil for
    rejected: set<nat>,           // messages some copy of which went to the dead-letter queue
    // what went wrong so far
    unpaid: Tally,                // crashes between an accepted send and its confirmation
    unrecorded: Tally,            // charges whose task row was never updated
    stranded: multiset<nat>,      // reservations whose worker crashed, by user
    orphans: set<nat>,            // messages whose mark a crash left behind
    resets: multiset<nat>         // expiries of such a mark, and failed task updates after a charge
  )

  /** Why a reserved send never reaches the provider. */
  datatype Flaw = BadPayload | NoPhone | NoTemplate | BadParams

  datatype Answer = Accepted | RejectedForGood | RejectedForNow

  /** What one worker may do next. */
  datatype Act =
    | Deliver(c: Copy)
    | Lock
    | Inspect
    | Reserve
    | GiveUp(flaw: Flaw)
    | Send(answer: Answer)
    | GiveBack
    | RecordFailure
    | Charge
    | RecordSuccess
    | MarkDone
    | Unmark
    | Bounce(republished: bool)
    | Ack
    // faults
    | Crash
    | RecordFails

  /** What the rest of the system may do. */
  datatype Input =
    | AddUser(u: nat)
    | CreateTask(t: nat, u: nat)
    | Publish(c: Copy)
    | TopUp(u: nat, amount: int, reason: Reason)
    | Expire(t: nat)  // a Redis mark reaches its TTL

  datatype Event = Outside(input: Input) | Inside(w: nat, act: Act)

  // ----- stages of a handler run -----

  datatype Stage =
    | Holding   // owns the mark
    | Working   // past the task check, before the final task update
    | Money     // has reserved and not yet settled
    | PostSend  // the provider accepted, the task row does not say so yet
    | AtCharge  // charged, the task row does not say so yet
    | Carrying  // the message still depends on this copy

  predicate In(pc: Pc, st: Stage) {
    match st
    case Holding => !pc.Received? && !pc.Bouncing? && !pc.Leaving?
    case Working => pc.Checked? || pc.Reserved? || pc.RefundDue? || pc.FailDue? || pc.Sent? || pc.Charged?
    case Money => pc.Reserved? || pc.RefundDue? || pc.Sent?
    case PostSend => pc.Sent? || pc.Charged?
    case AtCharge => pc.Charged?
    case Carrying => !pc.Leaving?
  }

  predicate Held(s: State, t: nat) {
    exists w :: w in s.workers && In(s.workers[w].pc, Holding) && s.workers[w].copy.task == t
  }

  predicate HasStatus(tasks: map<nat, Task>, t: nat, st: Status) {
    t in tasks && tasks[t].status == st
  }

  function WithStatus(tasks: map<nat, Task>, t: nat, st: Status): map<nat, Task> {
    if t in tasks then tasks[t := tasks[t].(status := st)] else tasks
  }

  function WalletOf(s: State, u: nat): Account {
    if u in s.wallets then s.wallets[u] else NO_ACCOUNT
  }

  // ----- steps -----

  predicate CanAct(s: State, w: nat, act: Act) {
    if act.Deliver? then w !in s.workers && act.c in s.ready
    else
      w in s.workers
      && var pc := s.workers[w].pc;
      match act
      case Deliver(_) => false
      case Lock => pc.Received?
      case Inspect => pc.Locked?
      case Reserve => pc.Checked?
      case GiveUp(_) => pc.Reserved?
      case Send(_) => pc.Reserved?
      case GiveBack => pc.RefundDue?
      case RecordFailure => pc.FailDue?
      case Charge => pc.Sent?
      case RecordSuccess => pc.Charged?
      case MarkDone => pc.MarkDue?
      case Unmark => pc.UnmarkDue?
      case Bounce(_) => pc.Bouncing?
      case Ack => pc.Leaving?
      case Crash => true
      case RecordFails => pc.Charged?
  }

  predicate CanHappen(s: State, input: Input) {
    match input
    case AddUser(u) => true
    case CreateTask(t, u) => u in s.users && t !in s.tasks && t !in s.named
    case Publish(c) => c.retry == 0 && (!c.garbled && c.task in s.tasks ==> c.user == s.tasks[c.task].user)
    case TopUp(u, amount, reason) => true
    // a mark lives 24h or 48h, far longer than a handler run
    case Expire(t) => t in s.marks && !Held(s, t)
  }

  predicate Enabled(s: State, e: Event) {
    match e
    case Outside(input) => CanHappen(s, input)
    case Inside(w, act) => CanAct(s, w, act)
  }

  /** The checks at the head of SendSMS, after the handler's own check of the task code. */
  function InspectedPc(s: State, c: Copy): Pc {
    if c.task == 0 then UnmarkDue
    else if c.task !in s.tasks then MarkDue
    else if s.tasks[c.task].status == Success then MarkDue
    else if s.tasks[c.task].status == Processing then UnmarkDue
    else if c.user !in s.users then MarkDue
    else Checked
  }

  function FlawVerdict(flaw: Flaw): Verdict {
    if flaw.BadPayload? || flaw.NoPhone? then Skip else Retry
  }

  function AnsweredPc(answer: Answer): Pc {
    match answer
    case Accepted => Sent
    case RejectedForGood => RefundDue(Skip)
    case RejectedForNow => RefundDue(Retry)
  }

  function ReservedFor(s: State, u: nat): (Account, Reply) {
    PreDeducted(WalletOf(s, u), UNIT_PRICE)
  }

  function ChargedTo(s: State, u: nat): (Account, Reply) {
    Confirmed(WalletOf(s, u), UNIT_PRICE)
  }

  function RefundedTo(s: State, u: nat): (Account, Reply) {
    Refunded(WalletOf(s, u), UNIT_PRICE)
  }

  /** Where the worker goes next, or None when it is done with its copy. */
  function NextWorker(s: State, w: nat, act: Act): Option<Worker>
    requires CanAct(s, w, act)
  {
    if act.Deliver? then Some(Worker(act.c, Received))
    else
      var c := s.workers[w].copy;
      var pc := s.workers[w].pc;
      match act
      // TryMarkMessageProcessing; a body that does not parse never gets that far
      case Lock => Some(Worker(c, if c.garbled then Bouncing else if c.task in s.marks then Leaving else Locked))
      case Inspect => Some(Worker(c, InspectedPc(s, c)))
      case Reserve => Some(Worker(c, if ReservedFor(s, c.user).1 == Done then Reserved else FailDue(Skip)))
      case GiveUp(flaw) => Some(Worker(c, RefundDue(FlawVerdict(flaw))))
      case Send(answer) => Some(Worker(c, AnsweredPc(answer)))
      // a refund that is refused is only logged
      case GiveBack => Some(Worker(c, FailDue(pc.v)))
      case RecordFailure => Some(Worker(c, if pc.v == Skip then MarkDue else UnmarkDue))
      // a confirmation that is refused makes SendSMS return an error after the send
      case Charge => Some(Worker(c, if ChargedTo(s, c.user).1 == Done then Charged else UnmarkDue))
      case RecordSuccess => Some(Worker(c, MarkDue))
      case MarkDone => Some(Worker(c, Leaving))
      case Unmark => Some(Worker(c, Bouncing))
      // reject at the retry limit, else republish and ack, or requeue when that fails
      case Bounce(republished) => if c.retry < MAX_RETRIES && republished then Some(Worker(c, Leaving)) else None
      case Ack => None
      case Crash => None
      // the transaction around the task update rolls back; the confirmation had its own
      case RecordFails => Some(Worker(c, UnmarkDue))
  }

  /** The queue: a copy leaves it when delivered and comes back when requeued or redelivered. */
  function NextReady(s: State, w: nat, act: Act): multiset<Copy>
    requires CanAct(s, w, act)
  {
    match act
    case Deliver(c) => s.ready - multiset{c}
    case Bounce(republished) =>
      var c := s.workers[w].copy;
      if c.retry >= MAX_RETRIES then s.ready
      else s.ready + multiset{if republished then c.(retry := c.retry + 1) else c}
    case Crash => s.ready + multiset{s.workers[w].copy}
    case _ => s.ready
  }

  function NextMarks(s: State, w: nat, act: Act): map<nat, Mark>
    requires CanAct(s, w, act)
  {
    match act
    case Lock =>
      var c := s.workers[w].copy;
      if c.garbled || c.task in s.marks then s.marks else s.marks[c.task := InProgress]
    case MarkDone => s.marks[s.workers[w].copy.task := Completed]
    case Unmark => s.marks - {s.workers[w].copy.task}
    case _ => s.marks
  }

  function NextTasks(s: State, w: nat, act: Act): map<nat, Task>
    requires CanAct(s, w, act)
  {
    match act
    case RecordFailure => WithStatus(s.tasks, s.workers[w].copy.task, Failed)
    case RecordSuccess => WithStatus(s.tasks, s.workers[w].copy.task, Success)
    case _ => s.tasks
  }

  function NextWallets(s: State, w: nat, act: Act): map<nat, Account>
    requires CanAct(s, w, act)
  {
    if !act.Reserve? && !act.GiveBack? && !act.Charge? then s.wallets
    else
      var u := s.workers[w].copy.user;
      var (a, reply) := if act.Reserve? then ReservedFor(s, u) else if act.GiveBack? then RefundedTo(s, u)
          else ChargedTo(s, u);
      if reply == Done then s.wallets[u := a] else s.wallets
  }

  function Place(ws: map<nat, Worker>, w: nat, next: Option<Worker>): map<nat, Worker> {
    if next.Some? then ws[w := next.value] else ws - {w}
  }

  /** One more occurrence for the copy that worker w holds. */
  function Counted(s: State, w: nat, tally: Tally, yes: bool): Tally
    requires yes ==> w in s.workers
  {
    if yes then tally.Add(s.workers[w].copy.task, s.workers[w].copy.user) else tally
  }

  function Step(s: State, w: nat, act: Act): State
    requires CanAct(s, w, act)
  {
    var crashed := act.Crash?;
    s.(
      ready := NextReady(s, w, act),
      workers := Place(s.workers, w, NextWorker(s, w, act)),
      marks := NextMarks(s, w, act),
      tasks := NextTasks(s, w, act),
      wallets := NextWallets(s, w, act),
      accepted := Counted(s, w, s.accepted, act == Send(Accepted)),
      charged := Counted(s, w, s.charged, act.Charge? && ChargedTo(s, s.workers[w].copy.user).1 == Done),
      settled := if act.MarkDone? then s.settled + {s.workers[w].copy.task} else s.settled,
      rejected := if act.Bounce? && s.workers[w].copy.retry >= MAX_RETRIES then s.rejected + {s.workers[w].copy.task}
          else s.rejected,
      unpaid := Counted(s, w, s.unpaid, crashed && s.workers[w].pc.Sent?),
      unrecorded := Counted(s, w, s.unrecorded, act.RecordFails? || (crashed && s.workers[w].pc.Charged?)),
      stranded := if crashed && In(s.workers[w].pc, Money) then s.stranded + multiset{s.workers[w].copy.user}
          else s.stranded,
      orphans := if crashed && In(s.workers[w].pc, Holding) then s.orphans + {s.workers[w].copy.task} else s.orphans,
      resets := if act.RecordFails? then s.resets + multiset{s.workers[w].copy.task} else s.resets)
  }

  function Happen(s: State, input: Input): State
    requires CanHappen(s, input)
  {
    match input
    case AddUser(u) => s.(users := s.users + {u})
    case CreateTask(t, u) => s.(tasks := s.tasks[t := Task(u, Pending)])
    case Publish(c) => s.(ready := s.ready + multiset{c}, named := s.named + {c.task})
    case TopUp(u, amount, reason) => s.(wallets := s.wallets[u := Granted(WalletOf(s, u), amount, reason)])
    case Expire(t) =>
      s.(marks := s.marks - {t}, resets := if s.marks[t] == InProgress then s.resets + multiset{t} else s.resets)
  }

  function Apply(s: State, e: Event): State
    requires Enabled(s, e)
  {
    match e
    case Outside(input) => Happen(s, input)
    case Inside(w, act) => Step(s, w, act)
  }

  // ----- runs -----

  predicate Valid(s: State, es: seq<Event>)
    decreases |es|
  {
    es == [] || (Enabled(s, es[0]) && Valid(Apply(s, es[0]), es[1..]))
  }

  function Exec(s: State, es: seq<Event>): State
    requires Valid(s, es)
    decreases |es|
  {
    if es == [] then s else Exec(Apply(s, es[0]), es[1..])
  }

  /** The tasks of one user that are recorded as sent. */
  function SentTasks(tasks: map<nat, Task>, u: nat): set<nat> {
    set t | t in tasks && tasks[t].user == u && tasks[t].status == Success
  }

  /** An idle system in which the books agree with the task table. */
  ghost predicate Start(s: State) {
    && s.ready == multiset{} && s.workers == map[] && s.marks == map[] && s.named == {}
    && s.settled == {} && s.rejected == {} && s.orphans == {}
    && s.unpaid == NONE && s.unrecorded == NONE && s.stranded == multiset{} && s.resets == multiset{}
    && (forall t: nat :: s.accepted.byTask[t] == s.charged.byTask[t]
        == (if HasStatus(s.tasks, t, Success) then 1 else 0))
    && (forall u: nat :: s.accepted.byUser[u] == |SentTasks(s.tasks, u)|)
    && (forall u: nat :: WalletOf(s, u).columns.used == UNIT_PRICE * |SentTasks(s.tasks, u)|)
    && (forall u: nat :: WalletOf(s, u).columns.frozen == 0)
    && (forall u: nat :: !WalletOf(s, u).present ==> WalletOf(s, u).columns == ZERO)
  }
}
