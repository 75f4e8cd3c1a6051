/** SendSMS and the handler around it, in the service's own sequential form
    (internal/service/notification.go, internal/queue/consumer.go:729-895).

    Class `Notifier` updates the task row and the payer's wallet step by step; `AfterCall` says
    what one whole call amounts to.  Module DeliveryRefinement shows that a worker of the
    transition system that runs undisturbed does exactly this. */
module Notification {
  import opened Quota
  import opened Delivery
  import opened Wrappers

  // ----- whom to send to -----

  /** An emergency contact; `phone` is what its cipher decrypts to, if it does. */
  datatype Contact = Contact(hash: string, phone: Option<string>)

  datatype User = User(contacts: seq<Contact>, phone: Option<string>)

  /** Contact i is the one a lookup by hash finds. */
  predicate IsFirst(contacts: seq<Contact>, hash: string, i: int) {
    0 <= i < |contacts| && contacts[i].hash == hash && forall j :: 0 <= j < i ==> contacts[j].hash != hash
  }

  /** findContactPhoneByHash: the first match decides, even when its cipher is unusable. */
  method FindContactPhone(contacts: seq<Contact>, hash: string) returns (phone: Option<string>)
    ensures phone.Some? ==> exists i :: IsFirst(contacts, hash, i) && contacts[i].phone == phone
    ensures phone.None? ==> forall i :: IsFirst(contacts, hash, i) ==> contacts[i].phone.None?
  {
    for k := 0 to |contacts|
      invariant forall j :: 0 <= j < k ==> contacts[j].hash != hash
    {
      if contacts[k].hash == hash {
        assert IsFirst(contacts, hash, k);
        assert forall i :: IsFirst(contacts, hash, i) ==> i == k;
        return contacts[k].phone;
      }
    }
    return None;
  }

  /** resolveNotificationPhone.  A message or task that names a contact never goes to the user's own phone. */
  method ResolvePhone(user: User, taskHash: string, messageHash: string) returns (phone: Option<string>)
    ensures messageHash == "" && taskHash == "" ==> phone == user.phone
    ensures phone.Some? && (messageHash != "" || taskHash != "") ==>
              exists i :: IsFirst(user.contacts, if messageHash != "" then messageHash else taskHash, i)
                  && user.contacts[i].phone == phone
    ensures phone.None? && (messageHash != "" || taskHash != "") ==>
              forall i :: IsFirst(user.contacts, if messageHash != "" then messageHash else taskHash, i)
                  ==> user.contacts[i].phone.None?
  {
    var hash := if messageHash != "" then messageHash else taskHash;
    if hash != "" {
      phone := FindContactPhone(user.contacts, hash);
    } else {
      phone := user.phone;
    }
  }

  // ----- what one call of SendSMS amounts to -----

  /** A row of contact_attempts. */
  datatype Attempt = Attempt(task: nat, success: bool, cost: int)

  /** The tables SendSMS reads and writes, and the provider's count. */
  datatype Db = Db(
    tasks: map<nat, Task>,
    toContact: set<nat>,  // tasks that carry a contact's phone hash
    users: set<nat>,
    wallets: map<nat, Account>,
    accepted: Tally,
    attempts: seq<Attempt>,
    stamped: seq<nat>)    // tasks whose check-in got its reminder_sent_at

  /** How the message fares before it is sent, and at the provider. */
  datatype Fate = Unsendable(flaw: Flaw) | Offered(answer: Answer)

  datatype CallReply = Nil | SkipError | OtherError

  function PayerOf(db: Db, u: nat): Account {
    if u in db.wallets then db.wallets[u] else NO_ACCOUNT
  }

  /** Whether the call gets as far as reserving, and its reply if it does not. */
  function Hindrance(db: Db, t: nat, u: nat): Option<CallReply> {
    if t !in db.tasks then Some(SkipError)
    else if db.tasks[t].status == Success then Some(Nil)
    else if db.tasks[t].status == Processing then Some(OtherError)
    else if u !in db.users then Some(SkipError)
    else None
  }

  function FateReply(fate: Fate): CallReply {
    match fate
    case Unsendable(BadPayload) => SkipError
    case Unsendable(NoPhone) => SkipError
    case Unsendable(NoTemplate) => OtherError
    case Unsendable(BadParams) => OtherError
    case Offered(Accepted) => Nil
    case Offered(RejectedForGood) => SkipError
    case Offered(RejectedForNow) => OtherError
  }

  /** One attempt row for every answer of the provider about a contact's message. */
  function Attempted(db: Db, t: nat, success: bool): seq<Attempt> {
    if t in db.toContact then db.attempts + [Attempt(t, success, if success then UNIT_PRICE else 0)] else db.attempts
  }

  /** The tables and the reply after a call for task t billed to user u. */
  function AfterCall(db: Db, t: nat, u: nat, fate: Fate): (Db, CallReply) {
    var early := Hindrance(db, t, u);
    if early.Some? then (db, early.value)
    else
      var (reserved, funded) := PreDeducted(PayerOf(db, u), UNIT_PRICE);
      if funded != Done then (db.(tasks := WithStatus(db.tasks, t, Failed)), SkipError)
      else if fate != Offered(Accepted) then
        (db.(tasks := WithStatus(db.tasks, t, Failed),
             wallets := db.wallets[u := Refunded(reserved, UNIT_PRICE).0],
             attempts := if fate.Offered? then Attempted(db, t, false) else db.attempts),
         FateReply(fate))
      else
        var sent := db.(accepted := db.accepted.Add(t, u));
        var (charged, settled) := Confirmed(reserved, UNIT_PRICE);
        if settled != Done then (sent.(wallets := db.wallets[u := reserved]), OtherError)
        else
          (sent.(tasks := WithStatus(db.tasks, t, Success), wallets := db.wallets[u := charged],
                 attempts := Attempted(db, t, true)), Nil)
  }

  /** On sound books a refund undoes its reservation: the columns return and the ledger records both. */
  lemma RefundUndoesReserve(a: Account, amount: int)
    requires PreDeducted(a, amount).1 == Done
    requires (if a.present then a.columns else ZERO).frozen >= 0
    ensures var (b, reply) := Refunded(PreDeducted(a, amount).0, amount);
            && reply == Done
            && b.columns == (if a.present then a.columns else ZERO)
            && |b.ledger| == |a.ledger| + 2 && a.ledger <= b.ledger
            && GrantMinusDeduct(b.ledger) == GrantMinusDeduct(a.ledger)
  {
    var r := PreDeducted(a, amount).0;
    var b := Refunded(r, amount).0;
    assert b.ledger[..|b.ledger| - 1] == r.ledger && r.ledger[..|r.ledger| - 1] == a.ledger;
  }

  /** Main result: a call settles what it reserved.  On sound books it never leaves cents frozen, it
      takes five cents exactly when the provider accepted, and then the task is recorded as sent. */
  lemma SettledExactlyOnce(db: Db, t: nat, u: nat, fate: Fate)
    requires (if PayerOf(db, u).present then PayerOf(db, u).columns else ZERO).frozen >= 0
    ensures var (db', reply) := AfterCall(db, t, u, fate);
            var c := if PayerOf(db, u).present then PayerOf(db, u).columns else ZERO;
            var c' := if PayerOf(db', u).present then PayerOf(db', u).columns else ZERO;
            var spent := if db'.accepted == db.accepted then 0 else UNIT_PRICE;
            && c'.frozen == c.frozen && c'.available == c.available - spent && c'.used == c.used + spent
               && c'.granted == c.granted
            && (db'.accepted != db.accepted <==> reply == Nil && !HasStatus(db.tasks, t, Success))
            && (db'.accepted != db.accepted ==> HasStatus(db'.tasks, t, Success))
            && (reply == Nil ==> HasStatus(db'.tasks, t, Success))
            && (forall v :: v != u ==> PayerOf(db', v) == PayerOf(db, v))
            && (forall x :: x != t && x in db.tasks ==> x in db'.tasks && db'.tasks[x] == db.tasks[x])
  {
    assert db.accepted.Add(t, u).byTask[t] != db.accepted.byTask[t];
    if Hindrance(db, t, u).None? && PreDeducted(PayerOf(db, u), UNIT_PRICE).1 == Done {
      RefundUndoesReserve(PayerOf(db, u), UNIT_PRICE);
    }
  }

  // ----- the service -----

  class Notifier {
    var tasks: map<nat, Task>
    var toContact: set<nat>
    var users: set<nat>
    var wallets: map<nat, Account>
    var accepted: Tally
    var attempts: seq<Attempt>
    var stamped: seq<nat>

    function Tables(): Db
      reads this
    {
      Db(tasks, toContact, users, wallets, accepted, attempts, stamped)
    }

    method UpdateTask(t: nat, status: Status)
      modifies this`tasks
      ensures tasks == WithStatus(old(tasks), t, status)
    {
      if t in tasks {
        tasks := tasks[t := tasks[t].(status := status)];
      }
    }

    /** Refund, whose failure SendSMS only logs. */
    method RefundQuietly(u: nat)
      requires u in wallets
      modifies this`wallets
      ensures wallets == old(wallets)[u := Refunded(old(wallets)[u], UNIT_PRICE).0]
    {
      var (a, reply) := Refunded(wallets[u], UNIT_PRICE);
      wallets := wallets[u := a];
    }

    method RecordAttempt(t: nat, success: bool, cost: int)
      modifies this`attempts
      ensures attempts == if t in toContact then old(attempts) + [Attempt(t, success, cost)] else old(attempts)
    {
      if t in toContact {
        attempts := attempts + [Attempt(t, success, cost)];
      }
    }

    /** updateReminderSentAt, whose upsert is modelled with the check-ins. */
    method StampReminder(t: nat)
      modifies this`stamped
      ensures stamped == old(stamped) + [t]
    {
      stamped := stamped + [t];
    }

    /** `fate` stands for the payload, the address book, the template configuration and the provider. */
    method SendSMS(t: nat, u: nat, fate: Fate) returns (reply: CallReply)
      modifies this
      ensures (Tables(), reply) == AfterCall(old(Tables()), t, u, fate)
    {
      if t !in tasks {
        return SkipError;
      }
      if tasks[t].status == Success {
        return Nil;
      }
      if tasks[t].status == Processing {
        return OtherError;
      }
      if u !in users {
        return SkipError;
      }

      var (reserved, funded) := PreDeducted(PayerOf(Tables(), u), UNIT_PRICE);
      if funded != Done {
        UpdateTask(t, Failed);
        return SkipError;
      }
      wallets := wallets[u := reserved];

      if fate.Unsendable? {
        RefundQuietly(u);
        assert wallets == old(wallets)[u := Refunded(reserved, UNIT_PRICE).0];
        UpdateTask(t, Failed);
        if fate.flaw.BadPayload? || fate.flaw.NoPhone? {
          return SkipError;
        }
        return OtherError;
      }

      if !fate.answer.Accepted? {
        RefundQuietly(u);
        assert wallets == old(wallets)[u := Refunded(reserved, UNIT_PRICE).0];
        UpdateTask(t, Failed);
        RecordAttempt(t, false, 0);
        if fate.answer.RejectedForGood? {
          return SkipError;
        }
        return OtherError;
      }
      accepted := accepted.Add(t, u);

      var (charged, settled) := Confirmed(wallets[u], UNIT_PRICE);
      if settled != Done {
        return OtherError;
      }
      wallets := wallets[u := charged];
      assert wallets == old(wallets)[u := charged];
      UpdateTask(t, Success);
      RecordAttempt(t, true, UNIT_PRICE);
      return Nil;
    }
  }

  // ----- the handler -----

  /** nil, the skip error for a message that is marked already, or an error to retry. */
  datatype HandlerReply = Finished | Duplicate | Error

  /** The marks, the tables and the reply after the handler is called with copy c; `reminder` tells whether
      the message reminds of a check-in.  A skipped message is marked but not stamped. */
  function Handled(marks: map<nat, Mark>, db: Db, c: Copy, fate: Fate, reminder: bool)
    : (map<nat, Mark>, Db, HandlerReply)
  {
    if c.garbled then (marks, db, Error)
    else if c.task in marks then (marks, db, Duplicate)
    else if c.task == 0 then (marks, db, Error)
    else
      var (db', reply) := AfterCall(db, c.task, c.user, fate);
      if reply == OtherError then (marks, db', Error)
      else
        (marks[c.task := Completed],
         if reply == Nil && reminder then db'.(stamped := db'.stamped + [c.task]) else db',
         Finished)
  }

  class SmsConsumer {
    const notifier: Notifier
    var marks: map<nat, Mark>

    constructor (n: Notifier)
      ensures notifier == n && marks == map[]
    {
      notifier := n;
      marks := map[];
    }

    /** SETNX. */
    method TryMarkProcessing(t: nat) returns (first: bool)
      modifies this
      ensures first <==> t !in old(marks)
      ensures marks == if t in old(marks) then old(marks) else old(marks)[t := InProgress]
    {
      first := t !in marks;
      if first {
        marks := marks[t := InProgress];
      }
    }

    method MarkProcessed(t: nat)
      modifies this
      ensures marks == old(marks)[t := Completed]
    {
      marks := marks[t := Completed];
    }

    method UnmarkProcessing(t: nat)
      modifies this
      ensures marks == old(marks) - {t}
    {
      marks := marks - {t};
    }

    /** The handler of queue notification.sms, its deferred clean-up at the end. */
    method Handle(c: Copy, fate: Fate, reminder: bool) returns (reply: HandlerReply)
      modifies this, notifier
      ensures (marks, notifier.Tables(), reply) == Handled(old(marks), old(notifier.Tables()), c, fate, reminder)
      ensures !c.garbled && c.task !in old(marks) ==> (reply == Finished <==> c.task in marks)
    {
      if c.garbled {
        return Error;
      }
      var first := TryMarkProcessing(c.task);
      if !first {
        return Duplicate;
      }
      var shouldCleanup := true;
      reply := Error;
      if c.task != 0 {
        var sent := notifier.SendSMS(c.task, c.user, fate);
        if sent != OtherError {
          MarkProcessed(c.task);
          if sent == Nil && reminder {
            notifier.StampReminder(c.task);
          }
          shouldCleanup := false;
          reply := Finished;
          assert marks == old(marks)[c.task := Completed];
        }
      }
      if shouldCleanup {
        UnmarkProcessing(c.task);
        assert marks == old(marks);
      }
    }
  }
}
