/** What a call of SendSMS and a call of its handler answer and write, said of the tables, the marks and the
    message's fate alone. */
module NotificationCalls {
  import opened Quota
  import opened Delivery
  import opened Wrappers
  import opened Notification

  function Cents(db: Db, u: nat): Columns {
    if u in db.wallets && db.wallets[u].present then db.wallets[u].columns else ZERO
  }

  /** The task is there, neither sent nor being sent, and the payer exists. */
  predicate Open(db: Db, t: nat, u: nat) {
    t in db.tasks && db.tasks[t].status in {Pending, Failed} && u in db.users
  }

  /** The message is offered to the provider. */
  predicate IsOffered(db: Db, t: nat, u: nat, fate: Fate) {
    Open(db, t, u) && Cents(db, u).available >= 5 && fate.Offered?
  }

  predicate Sends(db: Db, t: nat, u: nat, fate: Fate) {
    IsOffered(db, t, u, fate) && fate.answer == Accepted
  }

  /** Trying again may help: the task is being sent, the template is not configured, its parameters do not fit,
      or the provider is busy. */
  predicate WorthRetrying(db: Db, t: nat, u: nat, fate: Fate) {
    if Open(db, t, u)
    then Cents(db, u).available >= 5
         && fate in {Unsendable(NoTemplate), Unsendable(BadParams), Offered(RejectedForNow)}
    else HasStatus(db.tasks, t, Processing)
  }

  /** Main result: a call returns nil exactly if the message is accepted now or was sent before, and asks for
      another try exactly if that may help; the provider is asked exactly if the task is open and the payer holds
      five cents; the task ends as a success, as a failure, or as it was. */
  lemma CallAnswers(db: Db, t: nat, u: nat, fate: Fate)
    requires Cents(db, u).frozen >= 0
    ensures var (db', reply) := AfterCall(db, t, u, fate);
            && (reply == Nil <==> Sends(db, t, u, fate) || HasStatus(db.tasks, t, Success))
            && (reply == OtherError <==> WorthRetrying(db, t, u, fate))
            && db'.accepted == (if Sends(db, t, u, fate) then db.accepted.Add(t, u) else db.accepted)
            && db'.tasks == (if !Open(db, t, u) then db.tasks
                             else
                               var status := if Sends(db, t, u, fate) then Success else Failed;
                               db.tasks[t := Task(db.tasks[t].user, status)])
  {
  }

  /** Main result: a row of contact_attempts is written exactly for an answer of the provider about a message to a
      contact; it says whether the message was accepted, and costs the five cents that the payer then lost. */
  lemma AttemptsAreAnswers(db: Db, t: nat, u: nat, fate: Fate)
    requires Cents(db, u).frozen >= 0
    ensures var (db', reply) := AfterCall(db, t, u, fate); var paid := Cents(db', u).used - Cents(db, u).used;
            && db'.attempts == (if IsOffered(db, t, u, fate) && t in db.toContact
                                then db.attempts + [Attempt(t, fate.answer == Accepted, paid)] else db.attempts)
            && paid == (if Sends(db, t, u, fate) then 5 else 0)
            && (db'.users, db'.toContact, db'.stamped) == (db.users, db.toContact, db.stamped)
  {
    SettledExactlyOnce(db, t, u, fate);
    assert db.accepted.Add(t, u).byTask[t] != db.accepted.byTask[t];
    CallAnswers(db, t, u, fate);
  }

  /** The message is parsed, not marked, and names a task. */
  predicate Taken(marks: map<nat, Mark>, c: Copy) {
    !c.garbled && c.task !in marks && c.task != 0
  }

  /** Main result: the handler reports a duplicate exactly for a marked message, and an error exactly if it cannot
      be read, names no task, or another try may help; the mark stays, as completed, exactly if it did its work. */
  lemma HandlerAnswers(marks: map<nat, Mark>, db: Db, c: Copy, fate: Fate, reminder: bool)
    requires Cents(db, c.user).frozen >= 0
    ensures var (marks', db', reply) := Handled(marks, db, c, fate, reminder);
            && (reply == Duplicate <==> !c.garbled && c.task in marks)
            && (reply == Finished <==> Taken(marks, c) && !WorthRetrying(db, c.task, c.user, fate))
            && marks' == (if reply == Finished then marks[c.task := Completed] else marks)
            && (!Taken(marks, c) ==> db' == db)
            && (Taken(marks, c) ==> db' == AfterCall(db, c.task, c.user, fate).0.(stamped := db'.stamped))
  {
    CallAnswers(db, c.task, c.user, fate);
  }

  /** Main result: a check-in is stamped as reminded exactly if the message reminds of it, is neither garbled nor
      marked, names a task, and is accepted now or was sent before; never for a message that was skipped. */
  lemma StampedIff(marks: map<nat, Mark>, db: Db, c: Copy, fate: Fate, reminder: bool)
    requires Cents(db, c.user).frozen >= 0
    ensures Handled(marks, db, c, fate, reminder).1.stamped
            == if && reminder && Taken(marks, c)
                  && (Sends(db, c.task, c.user, fate) || HasStatus(db.tasks, c.task, Success))
               then db.stamped + [c.task] else db.stamped
  {
    CallAnswers(db, c.task, c.user, fate);
    AttemptsAreAnswers(db, c.task, c.user, fate);
  }

  // ----- over repeated calls -----

  /** The handler is called with one copy after the other; each has its own fate. */
  datatype Call = Call(copy: Copy, fate: Fate, reminder: bool)

  function AfterCalls(marks: map<nat, Mark>, db: Db, calls: seq<Call>): (map<nat, Mark>, Db)
    decreases |calls|
  {
    if calls == [] then (marks, db)
    else
      var (marks', db', _) := Handled(marks, db, calls[0].copy, calls[0].fate, calls[0].reminder);
      AfterCalls(marks', db', calls[1..])
  }

  function TimesStamped(stamped: seq<nat>, t: nat): nat {
    if stamped == [] then 0
    else TimesStamped(stamped[..|stamped| - 1], t) + (if stamped[|stamped| - 1] == t then 1 else 0)
  }

  ghost predicate NothingFrozen(db: Db) {
    forall u: nat :: Cents(db, u).frozen >= 0
  }

  lemma CallFreezesNothing(db: Db, t: nat, u: nat, fate: Fate)
    requires NothingFrozen(db)
    ensures NothingFrozen(AfterCall(db, t, u, fate).0)
  {
    assert Cents(db, u).frozen >= 0;
    SettledExactlyOnce(db, t, u, fate);
    forall v: nat
      ensures Cents(AfterCall(db, t, u, fate).0, v).frozen >= 0
    {
      assert Cents(db, v).frozen >= 0;
      assert v != u ==> PayerOf(AfterCall(db, t, u, fate).0, v) == PayerOf(db, v);
    }
  }

  /** A stamped task was sent and stays marked. */
  predicate StampsAreMarked(marks: map<nat, Mark>, db: Db, t: nat) {
    && TimesStamped(db.stamped, t) <= (if t in marks then 1 else 0)
    && (TimesStamped(db.stamped, t) == 1 ==> HasStatus(db.tasks, t, Success))
  }

  lemma HandlerFreezesNothing(marks: map<nat, Mark>, db: Db, call: Call)
    requires NothingFrozen(db)
    ensures NothingFrozen(Handled(marks, db, call.copy, call.fate, call.reminder).1)
  {
    var c := call.copy;
    var called := AfterCall(db, c.task, c.user, call.fate).0;
    CallFreezesNothing(db, c.task, c.user, call.fate);
    assert forall u: nat :: Cents(called.(stamped := db.stamped + [c.task]), u) == Cents(called, u);
  }

  lemma StampAdds(stamped: seq<nat>, x: nat, t: nat)
    ensures TimesStamped(stamped + [x], t) == TimesStamped(stamped, t) + (if x == t then 1 else 0)
  {
    assert (stamped + [x])[..|stamped|] == stamped;
  }

  /** What the handler does to the mark, the status and the stamps of task t. */
  lemma HandlerTurn(marks: map<nat, Mark>, db: Db, call: Call, t: nat)
    requires Cents(db, call.copy.user).frozen >= 0
    ensures var (marks', db', reply) := Handled(marks, db, call.copy, call.fate, call.reminder);
            && (t in marks ==> t in marks')
            && (HasStatus(db.tasks, t, Success) ==> HasStatus(db'.tasks, t, Success))
            && (db'.stamped == db.stamped
                || (db'.stamped == db.stamped + [call.copy.task] && call.copy.task in marks'
                    && call.copy.task !in marks && HasStatus(db'.tasks, call.copy.task, Success)))
  {
    var c := call.copy;
    StampedIff(marks, db, c, call.fate, call.reminder);
    HandlerAnswers(marks, db, c, call.fate, call.reminder);
    CallAnswers(db, c.task, c.user, call.fate);
  }

  lemma StampsStayMarked(marks: map<nat, Mark>, db: Db, call: Call, t: nat)
    requires NothingFrozen(db) && StampsAreMarked(marks, db, t)
    ensures var (marks', db', _) := Handled(marks, db, call.copy, call.fate, call.reminder);
            StampsAreMarked(marks', db', t)
  {
    assert Cents(db, call.copy.user).frozen >= 0;
    HandlerTurn(marks, db, call, t);
    StampAdds(db.stamped, call.copy.task, t);
  }

  /** Main result: while no mark expires, a check-in is stamped at most once, and only for a message that the
      provider accepted, whatever copies arrive in whatever order and however they fare. */
  lemma {:induction false} StampedAtMostOnce(marks: map<nat, Mark>, db: Db, calls: seq<Call>, t: nat)
    requires NothingFrozen(db) && StampsAreMarked(marks, db, t)
    ensures var (_, db') := AfterCalls(marks, db, calls);
            && TimesStamped(db'.stamped, t) <= 1
            && (TimesStamped(db'.stamped, t) == 1 ==> HasStatus(db'.tasks, t, Success))
    decreases |calls|
  {
    if calls != [] {
      var (marks', db', _) := Handled(marks, db, calls[0].copy, calls[0].fate, calls[0].reminder);
      HandlerFreezesNothing(marks, db, calls[0]);
      StampsStayMarked(marks, db, calls[0], t);
      StampedAtMostOnce(marks', db', calls[1..], t);
    }
  }
}
