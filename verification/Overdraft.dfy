/** PreDeduct without its lock.

    The comment in internal/service/quota.go:42 announces a pessimistic lock, but the
    query carries no lock clause, so two transactions may both read the balance before
    either writes.  The writes are relative (`available_amount - ?`), which is what
    limits the damage.  Here the read and the write of n callers are separate steps
    that interleave freely with each other and with all other wallet operations. */
module Overdraft {
  import opened Quota

  /** A caller either has no call in progress or has read a sufficient balance. */
  datatype Slot = Idle | Passed(seen: int)

  datatype State = State(account: Account, slots: seq<Slot>)

  datatype Step =
    | Read(caller: nat)   // query the wallet, check the balance
    | Write(caller: nat)  // relative update, ledger row, commit
    | Other(op: Op)       // a whole ConfirmDeduction, Refund or GrantQuota

  predicate Enabled(s: State, step: Step) {
    match step
    case Read(i) => i < |s.slots| && s.slots[i].Idle?
    case Write(i) => i < |s.slots| && s.slots[i].Passed?
    case Other(op) => !op.move.Reserving? && op.amount >= 0 && HonestReason(op)
  }

  function Apply(s: State, step: Step, amount: int): State
    requires Enabled(s, step)
  {
    match step
    case Read(i) =>
      if s.account.columns.available < amount then s  // QuotaInsufficient: the call is over
      else s.(slots := s.slots[i := Passed(s.account.columns.available)])
    case Write(i) =>
      var c := s.account.columns;
      var row := Entry(Deduct, PreDeduction, amount, s.slots[i].seen - amount);
      State(Account(true, c.(available := c.available - amount, frozen := c.frozen + amount), s.account.ledger + [row]),
            s.slots[i := Idle])
    case Other(op) => s.(account := Perform(s.account, op))
  }

  /** Read and write with nothing in between are PreDeduct. */
  lemma AloneIsPreDeduct(s: State, i: nat, amount: int)
    requires Enabled(s, Read(i)) && (!s.account.present ==> s.account.columns == ZERO)
    ensures var read := Apply(s, Read(i), amount); var (a, reply) := PreDeducted(s.account, amount);
            if reply == Done then Enabled(read, Write(i)) && Apply(read, Write(i), amount) == s.(account := a)
            else read == s && a == s.account
  {
    var read := Apply(s, Read(i), amount);
    assert read.slots[i := Idle] == s.slots;
  }

  predicate Valid(s: State, steps: seq<Step>, amount: int)
    decreases |steps|
  {
    steps == [] || (Enabled(s, steps[0]) && Valid(Apply(s, steps[0], amount), steps[1..], amount))
  }

  function Exec(s: State, steps: seq<Step>, amount: int): State
    requires Valid(s, steps, amount)
    decreases |steps|
  {
    if steps == [] then s else Exec(Apply(s, steps[0], amount), steps[1..], amount)
  }

  /** The number of callers between their read and their write. */
  function Pending(slots: seq<Slot>): nat {
    if slots == [] then 0 else (if slots[0].Passed? then 1 else 0) + Pending(slots[1..])
  }

  lemma {:induction false} PendingUpdate(slots: seq<Slot>, i: nat, x: Slot)
    requires i < |slots|
    ensures Pending(slots[i := x])
            == Pending(slots) - (if slots[i].Passed? then 1 else 0) + (if x.Passed? then 1 else 0)
  {
    if i > 0 {
      assert slots[i := x][1..] == slots[1..][i - 1 := x];
      PendingUpdate(slots[1..], i - 1, x);
    } else {
      assert slots[i := x][1..] == slots[1..];
    }
  }

  lemma {:induction false} PendingAtMostAll(slots: seq<Slot>)
    ensures Pending(slots) <= |slots|
    ensures (forall i :: 0 <= i < |slots| ==> slots[i].Idle?) ==> Pending(slots) == 0
  {
    if slots != [] {
      PendingAtMostAll(slots[1..]);
    }
  }

  /** amount * k, by repeated addition. */
  function Times(amount: int, k: int): int
    decreases if k < 0 then -k else k
  {
    if k == 0 then 0 else if k > 0 then Times(amount, k - 1) + amount else Times(amount, k + 1) - amount
  }

  lemma {:induction false} TimesIsProduct(amount: int, k: int)
    ensures Times(amount, k) == amount * k
    decreases if k < 0 then -k else k
  {
    if k > 0 {
      TimesIsProduct(amount, k - 1);
      assert amount * (k - 1) + amount == amount * k;
    } else if k < 0 {
      TimesIsProduct(amount, k + 1);
      assert amount * (k + 1) - amount == amount * k;
    }
  }

  lemma TimesStep(amount: int, k: int)
    ensures Times(amount, k) == Times(amount, k - 1) + amount
  {
    TimesIsProduct(amount, k);
    TimesIsProduct(amount, k - 1);
  }

  lemma {:induction false} TimesMonotone(amount: int, k: int)
    requires amount > 0 && k <= 0
    ensures Times(amount, k) <= 0
    decreases -k
  {
    if k < 0 {
      TimesMonotone(amount, k + 1);
    }
  }

  /** The floor rises by `amount` with every caller that has passed its check but not yet written. */
  function FloorOf(slots: seq<Slot>, amount: int): int {
    Times(amount, 1 - |slots| + Pending(slots))
  }

  ghost predicate Floor(s: State, amount: int) {
    s.account.columns.available >= FloorOf(s.slots, amount)
  }

  /** Interleaving spoils the recorded balances, not the amounts. */
  ghost predicate Inv(s: State, amount: int) {
    Floor(s, amount) && AmountsRight(s.account)
  }

  lemma OthersOnlyAdd(a: Account, op: Op)
    requires !op.move.Reserving? && op.amount >= 0 && (!a.present ==> a.columns == ZERO)
    ensures Perform(a, op).columns.available >= a.columns.available
  {
  }

  lemma ReadKeepsInv(s: State, i: nat, amount: int)
    requires amount > 0 && Enabled(s, Read(i)) && Inv(s, amount)
    ensures Inv(Apply(s, Read(i), amount), amount)
  {
    var c := s.account.columns;
    if c.available >= amount {
      PendingUpdate(s.slots, i, Passed(c.available));
      PendingAtMostAll(s.slots[i := Passed(c.available)]);
      TimesMonotone(amount, Pending(s.slots) - |s.slots| + 1);
    }
  }

  lemma WriteKeepsInv(s: State, i: nat, amount: int)
    requires amount > 0 && Enabled(s, Write(i)) && Inv(s, amount)
    ensures Inv(Apply(s, Write(i), amount), amount)
  {
    PendingUpdate(s.slots, i, Idle);
    TimesStep(amount, 1 - |s.slots| + Pending(s.slots));
    ReplayAppend(s.account.ledger, Entry(Deduct, PreDeduction, amount, s.slots[i].seen - amount));
  }

  lemma OtherKeepsSlots(s: State, op: Op, amount: int)
    requires Enabled(s, Other(op))
    ensures Apply(s, Other(op), amount) == State(Perform(s.account, op), s.slots)
  {
  }

  lemma OtherKeepsInv(s: State, op: Op, amount: int)
    requires amount > 0 && Enabled(s, Other(op)) && Inv(s, amount)
    ensures Inv(Apply(s, Other(op), amount), amount)
  {
    OtherKeepsSlots(s, op, amount);
    OthersOnlyAdd(s.account, op);
    PerformKeepsAmounts(s.account, op);
  }

  lemma {:induction false} ExecKeepsInv(s: State, steps: seq<Step>, amount: int)
    requires amount > 0 && Valid(s, steps, amount) && Inv(s, amount)
    ensures Inv(Exec(s, steps, amount), amount)
    ensures |Exec(s, steps, amount).slots| == |s.slots|
    decreases |steps|
  {
    if steps != [] {
      match steps[0] {
        case Read(i) => ReadKeepsInv(s, i, amount);
        case Write(i) => WriteKeepsInv(s, i, amount);
        case Other(op) => OtherKeepsInv(s, op, amount);
      }
      ExecKeepsInv(Apply(s, steps[0], amount), steps[1..], amount);
    }
  }

  ghost predicate Start(s: State) {
    && AmountsRight(s.account) && s.account.columns.available >= 0
    && |s.slots| > 0 && forall i :: 0 <= i < |s.slots| ==> s.slots[i].Idle?
  }

  lemma {:induction false} FloorIsLowest(amount: int, k: int, p: nat)
    requires amount > 0
    ensures Times(amount, k) <= Times(amount, k + p)
  {
    if p > 0 {
      FloorIsLowest(amount, k, p - 1);
      TimesStep(amount, k + p);
    }
  }

  lemma InvAtStart(s: State, amount: int)
    requires amount > 0 && Start(s)
    ensures Inv(s, amount)
  {
    PendingAtMostAll(s.slots);
    TimesMonotone(amount, 1 - |s.slots|);
  }

  lemma FloorAfterRun(s: State, steps: seq<Step>, amount: int)
    requires amount > 0 && Start(s) && Valid(s, steps, amount)
    ensures Exec(s, steps, amount).account.columns.available >= Times(amount, 1 - |s.slots|)
    ensures AmountsRight(Exec(s, steps, amount).account)
  {
    InvAtStart(s, amount);
    ExecKeepsInv(s, steps, amount);
    FloorIsLowest(amount, 1 - |s.slots|, Pending(Exec(s, steps, amount).slots));
  }

  /** Main result: however n callers interleave, money is conserved, the ledger's amounts
      still rebuild the wallet, and the overdraft is at most n - 1 reservations. */
  lemma OverdraftBound(s: State, steps: seq<Step>, amount: int)
    requires amount > 0 && Start(s) && Valid(s, steps, amount)
    ensures Exec(s, steps, amount).account.columns.available >= amount * (1 - |s.slots|)
    ensures Balanced(Exec(s, steps, amount).account.columns)
    ensures AmountsRight(Exec(s, steps, amount).account)
  {
    FloorAfterRun(s, steps, amount);
    TimesIsProduct(amount, 1 - |s.slots|);
    ReplayBalances(Exec(s, steps, amount).account.ledger);
  }

  // ----- the bound is reached -----

  function ReadsFrom(i: nat, n: nat): seq<Step>
    requires i <= n
    decreases n - i
  {
    if i == n then WritesFrom(0, n) else [Read(i)] + ReadsFrom(i + 1, n)
  }

  function WritesFrom(i: nat, n: nat): seq<Step>
    requires i <= n
    decreases n - i
  {
    if i == n then [] else [Write(i)] + WritesFrom(i + 1, n)
  }

  lemma {:induction false} WritesDrain(s: State, i: nat, amount: int)
    requires i <= |s.slots| && forall j :: i <= j < |s.slots| ==> s.slots[j].Passed?
    ensures Valid(s, WritesFrom(i, |s.slots|), amount)
    ensures Exec(s, WritesFrom(i, |s.slots|), amount).account.columns.available
            == s.account.columns.available - Times(amount, |s.slots| - i)
    decreases |s.slots| - i
  {
    if i < |s.slots| {
      var next := Apply(s, Write(i), amount);
      WritesDrain(next, i + 1, amount);
      assert WritesFrom(i, |s.slots|)[1..] == WritesFrom(i + 1, |s.slots|);
      TimesStep(amount, |s.slots| - i);
    }
  }

  lemma {:induction false} ReadsThenWrites(s: State, i: nat, amount: int)
    requires i <= |s.slots| && s.account.columns.available >= amount
    requires forall j :: 0 <= j < i ==> s.slots[j].Passed?
    requires forall j :: i <= j < |s.slots| ==> s.slots[j].Idle?
    ensures Valid(s, ReadsFrom(i, |s.slots|), amount)
    ensures Exec(s, ReadsFrom(i, |s.slots|), amount).account.columns.available
            == s.account.columns.available - Times(amount, |s.slots|)
    decreases |s.slots| - i
  {
    if i == |s.slots| {
      WritesDrain(s, 0, amount);
    } else {
      ReadsThenWrites(Apply(s, Read(i), amount), i + 1, amount);
      assert ReadsFrom(i, |s.slots|)[1..] == ReadsFrom(i + 1, |s.slots|);
    }
  }

  lemma OneLess(amount: int, n: int)
    ensures amount - Times(amount, n) == amount * (1 - n)
  {
    TimesIsProduct(amount, n);
    TimesIsProduct(amount, 1 - n);
  }

  /** For every number of callers some run overdraws by exactly n - 1 reservations, which
      makes the bound exact. */
  lemma OverdraftReached(s: State, amount: int)
    requires Start(s) && s.account.columns.available == amount
    ensures Valid(s, ReadsFrom(0, |s.slots|), amount)
    ensures Exec(s, ReadsFrom(0, |s.slots|), amount).account.columns.available == amount * (1 - |s.slots|)
  {
    ReadsThenWrites(s, 0, amount);
    OneLess(amount, |s.slots|);
  }

  lemma TwoOrMore(amount: int, n: int)
    requires amount > 0 && n >= 2
    ensures Times(amount, n) >= 2 * amount
  {
    FloorIsLowest(amount, 2, n - 2);
    assert Times(amount, 2) == Times(amount, 1) + amount && Times(amount, 1) == Times(amount, 0) + amount;
  }

  lemma StepFirst(s: State, step: Step, rest: seq<Step>, amount: int)
    requires Enabled(s, step) && Valid(Apply(s, step, amount), rest, amount)
    ensures Valid(s, [step] + rest, amount)
    ensures Exec(s, [step] + rest, amount) == Exec(Apply(s, step, amount), rest, amount)
  {
    assert ([step] + rest)[1..] == rest;
  }

  /** One caller alone takes one amount. */
  lemma TakeOne(s: State, amount: int)
    requires amount > 0 && Start(s) && s.account.columns.available >= amount
    ensures Enabled(s, Read(0)) && Enabled(Apply(s, Read(0), amount), Write(0))
    ensures var z := Apply(Apply(s, Read(0), amount), Write(0), amount);
            Start(z) && |z.slots| == |s.slots| && z.account.columns.available == s.account.columns.available - amount
  {
    InvAtStart(s, amount);
    ReadKeepsInv(s, 0, amount);
    WriteKeepsInv(Apply(s, Read(0), amount), 0, amount);
  }

  lemma GrantUpTo(s: State, amount: int)
    requires amount > 0 && Start(s) && s.account.columns.available < amount
    ensures var grant := Other(Op(Granting(NewUserBonus), amount - s.account.columns.available));
            && Enabled(s, grant)
            && var z := Apply(s, grant, amount);
            Start(z) && |z.slots| == |s.slots| && z.account.columns.available == amount
  {
    var op := Op(Granting(NewUserBonus), amount - s.account.columns.available);
    OtherKeepsSlots(s, op, amount);
    PerformKeepsAmounts(s.account, op);
  }

  /** Two callers or more can overdraw any wallet: spend it down, or top it up, to less than two amounts first. */
  lemma {:induction false} TwoCallersOverdraw(s: State, amount: int) returns (steps: seq<Step>)
    requires amount > 0 && Start(s) && |s.slots| >= 2
    ensures Valid(s, steps, amount) && Exec(s, steps, amount).account.columns.available < 0
    decreases if s.account.columns.available >= amount then s.account.columns.available else 2 * amount
  {
    if s.account.columns.available < amount {
      GrantUpTo(s, amount);
      var grant := Other(Op(Granting(NewUserBonus), amount - s.account.columns.available));
      var rest := TwoCallersOverdraw(Apply(s, grant, amount), amount);
      StepFirst(s, grant, rest, amount);
      steps := [grant] + rest;
    } else if s.account.columns.available < 2 * amount {
      ReadsThenWrites(s, 0, amount);
      TwoOrMore(amount, |s.slots|);
      steps := ReadsFrom(0, |s.slots|);
    } else {
      TakeOne(s, amount);
      var s1 := Apply(s, Read(0), amount);
      var s2 := Apply(s1, Write(0), amount);
      var rest := TwoCallersOverdraw(s2, amount);
      StepFirst(s1, Write(0), rest, amount);
      StepFirst(s, Read(0), [Write(0)] + rest, amount);
      steps := [Read(0)] + ([Write(0)] + rest);
    }
  }

  ghost predicate NeverOverdrawn(s: State, amount: int) {
    forall steps :: Valid(s, steps, amount) ==> Exec(s, steps, amount).account.columns.available >= 0
  }

  /** Main result: the unlocked check is safe for one caller and for no larger number, whatever the wallet holds. */
  lemma SafeIffOneCaller(s: State, amount: int)
    requires amount > 0 && Start(s)
    ensures NeverOverdrawn(s, amount) <==> |s.slots| == 1
  {
    if |s.slots| == 1 {
      forall steps | Valid(s, steps, amount)
        ensures Exec(s, steps, amount).account.columns.available >= 0
      {
        OverdraftBound(s, steps, amount);
      }
    } else {
      var steps := TwoCallersOverdraw(s, amount);
    }
  }
}
