/** The SMS quota wallet of one user and its ledger (internal/service/quota.go).

    A wallet row splits the cents ever granted into available, frozen and used.
    Every successful operation also appends one ledger row.  `Account` is the pair
    as a value, the operations on it are functions, and class `WalletTable` is the
    service's own form: columns updated in place inside a transaction. */
module Quota {

  // ----- rows -----

  datatype Kind = Grant | Deduct

  /** The reason column: the strings the code writes, and any other a caller may pass. */
  datatype Reason = GrantRefund | NewUserBonus | PreDeduction | Confirmation | Named(name: string)

  datatype Entry = Entry(kind: Kind, reason: Reason, amount: int, balanceAfter: int)

  /** The four amount columns of a wallet row. */
  datatype Columns = Columns(available: int, frozen: int, used: int, granted: int)

  const ZERO := Columns(0, 0, 0, 0)

  /** The wallet row (if `present`) and the ledger of one user. */
  datatype Account = Account(present: bool, columns: Columns, ledger: seq<Entry>)

  const NO_ACCOUNT := Account(false, ZERO, [])

  datatype Reply = Done | QuotaInsufficient | WalletMissing | FrozenTooSmall

  // ----- the operations, as functions -----

  /** available -> frozen.  A missing wallet is created inside the transaction, so
      an insufficient balance rolls that creation back too. */
  function PreDeducted(a: Account, amount: int): (Account, Reply) {
    var c := if a.present then a.columns else ZERO;
    if c.available < amount then (a, QuotaInsufficient)
    else
      (Account(true, c.(available := c.available - amount, frozen := c.frozen + amount),
               a.ledger + [Entry(Deduct, PreDeduction, amount, c.available - amount)]), Done)
  }

  /** frozen -> used. */
  function Confirmed(a: Account, amount: int): (Account, Reply) {
    var c := a.columns;
    if !a.present then (a, WalletMissing)
    else if c.frozen < amount then (a, FrozenTooSmall)
    else
      (Account(true, c.(frozen := c.frozen - amount, used := c.used + amount),
               a.ledger + [Entry(Deduct, Confirmation, amount, c.available)]), Done)
  }

  /** frozen -> available. */
  function Refunded(a: Account, amount: int): (Account, Reply) {
    var c := a.columns;
    if !a.present then (a, WalletMissing)
    else if c.frozen < amount then (a, FrozenTooSmall)
    else
      (Account(true, c.(available := c.available + amount, frozen := c.frozen - amount),
               a.ledger + [Entry(Grant, GrantRefund, amount, c.available + amount)]), Done)
  }

  /** New money, creating the wallet when there is none.  The caller names the reason. */
  function Granted(a: Account, amount: int, reason: Reason): Account {
    var c := if a.present then a.columns else ZERO;
    Account(true, c.(available := c.available + amount, granted := c.granted + amount),
            a.ledger + [Entry(Grant, reason, amount, c.available + amount)])
  }

  // ----- the service's own form -----

  /** The rows of one user and channel, as the transactions of QuotaService see them. */
  class WalletTable {
    var present: bool
    var available: int
    var frozen: int
    var used: int
    var granted: int
    var ledger: seq<Entry>

    function Contents(): Account
      reads this
    {
      Account(present, Columns(available, frozen, used, granted), ledger)
    }

    constructor ()
      ensures Contents() == NO_ACCOUNT
    {
      present := false;
      available, frozen, used, granted := 0, 0, 0, 0;
      ledger := [];
    }

    method PreDeduct(amount: int) returns (reply: Reply)
      modifies this
      ensures (Contents(), reply) == PreDeducted(old(Contents()), amount)
      ensures old(Contents()).columns == ZERO && amount > 0
              ==> reply == QuotaInsufficient && Contents() == old(Contents())
    {
      var created := false;
      if !present {
        // The new row is visible only if the transaction commits.
        created := true;
      }
      var balance := if created then 0 else available;
      if balance < amount {
        return QuotaInsufficient;
      }
      if created {
        present := true;
        available, frozen, used, granted := 0, 0, 0, 0;
      }
      available := available - amount;
      frozen := frozen + amount;
      ledger := ledger + [Entry(Deduct, PreDeduction, amount, balance - amount)];
      return Done;
    }

    method ConfirmDeduction(amount: int) returns (reply: Reply)
      modifies this
      ensures (Contents(), reply) == Confirmed(old(Contents()), amount)
      ensures reply != Done ==> Contents() == old(Contents())
    {
      if !present {
        return WalletMissing;
      }
      if frozen < amount {
        return FrozenTooSmall;
      }
      frozen := frozen - amount;
      used := used + amount;
      ledger := ledger + [Entry(Deduct, Confirmation, amount, available)];
      return Done;
    }

    method Refund(amount: int) returns (reply: Reply)
      modifies this
      ensures (Contents(), reply) == Refunded(old(Contents()), amount)
      ensures reply != Done ==> Contents() == old(Contents())
    {
      if !present {
        return WalletMissing;
      }
      if frozen < amount {
        return FrozenTooSmall;
      }
      available := available + amount;
      frozen := frozen - amount;
      ledger := ledger + [Entry(Grant, GrantRefund, amount, available)];
      return Done;
    }

    method GrantQuota(amount: int, reason: Reason)
      modifies this
      ensures Contents() == Granted(old(Contents()), amount, reason)
    {
      if !present {
        present := true;
        available, frozen, used, granted := amount, 0, 0, amount;
      } else {
        available := available + amount;
        granted := granted + amount;
      }
      ledger := ledger + [Entry(Grant, reason, amount, available)];
    }

    /** A missing wallet reads as an empty one and is not created. */
    method GetWallet() returns (c: Columns)
      ensures c == if Contents().present then Contents().columns else ZERO
    {
      if !present {
        return ZERO;
      }
      return Columns(available, frozen, used, granted);
    }
  }

  // ----- replaying the ledger -----

  /** What one ledger row says happened to the columns. */
  function Post(c: Columns, e: Entry): Columns {
    if e.kind == Grant then
      if e.reason == GrantRefund then c.(available := c.available + e.amount, frozen := c.frozen - e.amount)
      else c.(available := c.available + e.amount, granted := c.granted + e.amount)
    else if e.reason == PreDeduction then c.(available := c.available - e.amount, frozen := c.frozen + e.amount)
    else c.(frozen := c.frozen - e.amount, used := c.used + e.amount)
  }

  function Replay(ledger: seq<Entry>): Columns {
    if ledger == [] then ZERO
    else Post(Replay(ledger[..|ledger| - 1]), ledger[|ledger| - 1])
  }

  /** Sum of the amounts of the rows of one kind whose reason is, or is not, `reason`. */
  function Sum(ledger: seq<Entry>, kind: Kind, reason: Reason, matching: bool): int {
    if ledger == [] then 0
    else
      var e := ledger[|ledger| - 1];
      Sum(ledger[..|ledger| - 1], kind, reason, matching)
      + (if e.kind == kind && (e.reason == reason) == matching then e.amount else 0)
  }

  /** GetBalanceByUserID: SUM over grant rows minus SUM over deduct rows. */
  function GrantMinusDeduct(ledger: seq<Entry>): int {
    if ledger == [] then 0
    else
      var e := ledger[|ledger| - 1];
      GrantMinusDeduct(ledger[..|ledger| - 1]) + (if e.kind == Grant then e.amount else -e.amount)
  }

  /** Every row records the balance that replaying the ledger up to and including it gives. */
  predicate BalancesRight(ledger: seq<Entry>) {
    ledger == []
    || (BalancesRight(ledger[..|ledger| - 1]) && ledger[|ledger| - 1].balanceAfter == Replay(ledger).available)
  }

  /** The same, row by row. */
  lemma {:induction false} BalanceOfRow(ledger: seq<Entry>, i: nat)
    requires BalancesRight(ledger) && i < |ledger|
    ensures ledger[i].balanceAfter == Replay(ledger[..i + 1]).available
  {
    if i == |ledger| - 1 {
      assert ledger[..i + 1] == ledger;
    } else {
      BalanceOfRow(ledger[..|ledger| - 1], i);
      assert ledger[..|ledger| - 1][..i + 1] == ledger[..i + 1];
    }
  }

  /** The amounts in the ledger rebuild the wallet. */
  predicate AmountsRight(a: Account) {
    a.columns == Replay(a.ledger) && (!a.present ==> a.ledger == [])
  }

  /** The ledger rebuilds the wallet and every balance it records is right. */
  predicate Consistent(a: Account) {
    AmountsRight(a) && BalancesRight(a.ledger)
  }

  lemma ReplayAppend(ledger: seq<Entry>, e: Entry)
    ensures Replay(ledger + [e]) == Post(Replay(ledger), e)
    ensures BalancesRight(ledger) ==> (BalancesRight(ledger + [e])
                                       <==> e.balanceAfter == Replay(ledger + [e]).available)
  {
    assert (ledger + [e])[..|ledger|] == ledger;
  }

  /** Replay, column by column, as sums over the ledger; the SQL balance is available minus used. */
  lemma {:induction false} ReplayIsSums(ledger: seq<Entry>)
    ensures Replay(ledger).available ==
            Sum(ledger, Grant, GrantRefund, true)
                + Sum(ledger, Grant, GrantRefund, false) - Sum(ledger, Deduct, PreDeduction, true)
    ensures Replay(ledger).frozen ==
            Sum(ledger, Deduct, PreDeduction, true) - Sum(ledger, Deduct, PreDeduction, false)
                - Sum(ledger, Grant, GrantRefund, true)
    ensures Replay(ledger).used == Sum(ledger, Deduct, PreDeduction, false)
    ensures Replay(ledger).granted == Sum(ledger, Grant, GrantRefund, false)
    ensures GrantMinusDeduct(ledger) == Replay(ledger).available - Replay(ledger).used
  {
    if ledger != [] {
      ReplayIsSums(ledger[..|ledger| - 1]);
    }
  }

  // ----- runs of wallet operations -----

  datatype Move = Reserving | Confirming | Refunding | Granting(reason: Reason)

  datatype Op = Op(move: Move, amount: int)

  function Perform(a: Account, op: Op): Account {
    match op.move
    case Reserving => PreDeducted(a, op.amount).0
    case Confirming => Confirmed(a, op.amount).0
    case Refunding => Refunded(a, op.amount).0
    case Granting(reason) => Granted(a, op.amount, reason)
  }

  function PerformAll(a: Account, ops: seq<Op>): Account
    decreases |ops|
  {
    if ops == [] then a else PerformAll(Perform(a, ops[0]), ops[1..])
  }

  /** A grant booked under the refund reason would be read back as a refund. */
  predicate HonestReason(op: Op) {
    op.move == Granting(GrantRefund) ==> op.amount == 0
  }

  /** What a committed operation writes: one row, which posts to the new columns and carries the new balance. */
  predicate Books(a: Account, b: Account) {
    && b.present && |b.ledger| == |a.ledger| + 1
    && var e := b.ledger[|a.ledger|];
    && b.ledger == a.ledger + [e] && b.columns == Post(a.columns, e) && e.balanceAfter == b.columns.available
  }

  lemma PerformBooks(a: Account, op: Op)
    requires !a.present ==> a.columns == ZERO
    requires HonestReason(op)
    ensures Perform(a, op) == a || Books(a, Perform(a, op))
  {
  }

  lemma PerformKeepsAmounts(a: Account, op: Op)
    requires AmountsRight(a) && HonestReason(op)
    ensures AmountsRight(Perform(a, op))
  {
    PerformBooks(a, op);
    var b := Perform(a, op);
    if b != a {
      ReplayAppend(a.ledger, b.ledger[|a.ledger|]);
    }
  }

  lemma PerformKeepsLedger(a: Account, op: Op)
    requires Consistent(a) && HonestReason(op)
    ensures Consistent(Perform(a, op))
  {
    PerformKeepsAmounts(a, op);
    PerformBooks(a, op);
    var b := Perform(a, op);
    if b != a {
      ReplayAppend(a.ledger, b.ledger[|a.ledger|]);
    }
  }

  lemma MislabelledGrantBreaksLedger(a: Account, op: Op)
    requires Consistent(a) && !HonestReason(op)
    ensures !Consistent(Perform(a, op))
  {
    ReplayAppend(a.ledger, Entry(Grant, GrantRefund, op.amount, a.columns.available + op.amount));
  }

  /** One operation keeps ledger and wallet in step exactly when its reason is honest. */
  lemma LedgerKeptIffHonest(a: Account, op: Op)
    requires Consistent(a)
    ensures Consistent(Perform(a, op)) <==> HonestReason(op)
  {
    if HonestReason(op) {
      PerformKeepsLedger(a, op);
    } else {
      MislabelledGrantBreaksLedger(a, op);
    }
  }

  /** Main result: after any run the ledger rebuilds the wallet and every recorded balance. */
  lemma {:induction false} LedgerRebuildsWallet(a: Account, ops: seq<Op>)
    requires Consistent(a)
    requires forall i :: 0 <= i < |ops| ==> HonestReason(ops[i])
    ensures Consistent(PerformAll(a, ops))
    ensures GrantMinusDeduct(PerformAll(a, ops).ledger)
            == PerformAll(a, ops).columns.available - PerformAll(a, ops).columns.used
    decreases |ops|
  {
    if ops == [] {
      ReplayIsSums(a.ledger);
    } else {
      PerformKeepsLedger(a, ops[0]);
      LedgerRebuildsWallet(Perform(a, ops[0]), ops[1..]);
    }
  }

  predicate Balanced(c: Columns) {
    c.available + c.frozen + c.used == c.granted
  }

  predicate NonNegative(c: Columns) {
    c.available >= 0 && c.frozen >= 0 && c.used >= 0 && c.granted >= 0
  }

  /** Every ledger, whatever its rows, replays to balanced columns. */
  lemma {:induction false} ReplayBalances(ledger: seq<Entry>)
    ensures Balanced(Replay(ledger))
  {
    if ledger != [] {
      ReplayBalances(ledger[..|ledger| - 1]);
    }
  }

  lemma PerformConserves(a: Account, op: Op)
    requires Balanced(a.columns) && (!a.present ==> a.columns == ZERO)
    ensures Balanced(Perform(a, op).columns)
    ensures !Perform(a, op).present ==> Perform(a, op).columns == ZERO
  {
    match op.move
    case Reserving =>
    case Confirming =>
    case Refunding =>
    case Granting(reason) =>
  }

  lemma PerformStaysNonNegative(a: Account, op: Op)
    requires NonNegative(a.columns) && (!a.present ==> a.columns == ZERO) && op.amount >= 0
    ensures NonNegative(Perform(a, op).columns)
  {
    match op.move
    case Reserving =>
    case Confirming =>
    case Refunding =>
    case Granting(reason) =>
  }

  /** Money is conserved whatever the amounts are. */
  lemma {:induction false} MoneyIsConserved(a: Account, ops: seq<Op>)
    requires Balanced(a.columns) && (!a.present ==> a.columns == ZERO)
    ensures Balanced(PerformAll(a, ops).columns)
    decreases |ops|
  {
    if ops != [] {
      PerformConserves(a, ops[0]);
      MoneyIsConserved(Perform(a, ops[0]), ops[1..]);
    }
  }

  /** No column goes negative when no amount is negative. */
  lemma {:induction false} NothingGoesNegative(a: Account, ops: seq<Op>)
    requires Balanced(a.columns) && NonNegative(a.columns) && (!a.present ==> a.columns == ZERO)
    requires forall i :: 0 <= i < |ops| ==> ops[i].amount >= 0
    ensures NonNegative(PerformAll(a, ops).columns)
    decreases |ops|
  {
    if ops != [] {
      PerformConserves(a, ops[0]);
      PerformStaysNonNegative(a, ops[0]);
      NothingGoesNegative(Perform(a, ops[0]), ops[1..]);
    }
  }

  // ----- how much a wallet serves -----

  /** The wallet columns, or zeroes without a wallet. */
  function Balances(a: Account): Columns {
    if a.present then a.columns else ZERO
  }

  /** The column a deduction, a confirmation or a refund takes from. */
  function Source(a: Account, move: Move): int {
    if move.Reserving? then Balances(a).available else Balances(a).frozen
  }

  /** The columns after `sum` cents went where the move takes them. */
  function Shifted(c: Columns, move: Move, sum: int): Columns {
    match move
    case Reserving => c.(available := c.available - sum, frozen := c.frozen + sum)
    case Confirming => c.(frozen := c.frozen - sum, used := c.used + sum)
    case Refunding => c.(frozen := c.frozen - sum, available := c.available + sum)
    case Granting(_) => c.(available := c.available + sum, granted := c.granted + sum)
  }

  function Repeated(op: Op, k: nat): seq<Op> {
    if k == 0 then [] else [op] + Repeated(op, k - 1)
  }

  lemma OneMove(a: Account, op: Op)
    requires !op.move.Granting?
    ensures var b := Perform(a, op);
            if Source(a, op.move) >= op.amount > 0
            then && Balances(b) == Shifted(Balances(a), op.move, op.amount) && a.ledger <= b.ledger
                 && |b.ledger| == |a.ledger| + 1 && Source(b, op.move) == Source(a, op.move) - op.amount
            else op.amount > 0 ==> b == a
  {
  }

  /** n times the amount, by addition. */
  function Total(amount: int, n: nat): (sum: int)
    ensures amount > 0 ==> sum >= 0
  {
    if n == 0 then 0 else Total(amount, n - 1) + amount
  }

  lemma {:induction false} TotalIsProduct(amount: int, n: nat)
    ensures Total(amount, n) == n * amount
  {
    if n > 0 {
      TotalIsProduct(amount, n - 1);
      assert n * amount == (n - 1) * amount + amount;
    }
  }

  lemma {:induction false} ServesInTurn(a: Account, op: Op, k: nat) returns (n: nat)
    requires !op.move.Granting? && op.amount > 0 && Source(a, op.move) >= 0
    ensures n <= k && Total(op.amount, n) <= Source(a, op.move)
    ensures n < k ==> Source(a, op.move) < Total(op.amount, n + 1)
    ensures var z := PerformAll(a, Repeated(op, k));
            && Balances(z) == Shifted(Balances(a), op.move, Total(op.amount, n))
            && a.ledger <= z.ledger && |z.ledger| == |a.ledger| + n && (n == 0 ==> z == a)
    decreases k
  {
    n := 0;
    if k > 0 {
      var b := Perform(a, op);
      OneMove(a, op);
      assert Repeated(op, k)[1..] == Repeated(op, k - 1);
      if Source(a, op.move) >= op.amount {
        var m := ServesInTurn(b, op, k - 1);
        n := m + 1;
      } else {
        n := ServesInTurn(a, op, k - 1);
      }
    }
  }

  /** Main result: of k equal deductions, confirmations or refunds in a row exactly as many go through as the
      source column holds, to the last cent; each adds one ledger row, and the others change nothing. */
  lemma ServesToTheLastCent(a: Account, op: Op, k: nat) returns (n: nat)
    requires !op.move.Granting? && op.amount > 0 && Source(a, op.move) >= 0
    ensures n <= k && n * op.amount <= Source(a, op.move)
    ensures n < k ==> Source(a, op.move) < (n + 1) * op.amount
    ensures var z := PerformAll(a, Repeated(op, k));
            && Balances(z) == Shifted(Balances(a), op.move, n * op.amount)
            && a.ledger <= z.ledger && |z.ledger| == |a.ledger| + n && (n == 0 ==> z == a)
  {
    n := ServesInTurn(a, op, k);
    TotalIsProduct(op.amount, n);
    TotalIsProduct(op.amount, n + 1);
  }
}
