/** Users, their two ways to log in, the waitlist and the sign-up bonus (internal/service/auth.go,
    internal/service/user.go:420-516).

    A user is known by the index of the row.  Open ids and phone hashes are numbers; open id 0 stands
    for the empty string.  A call is one step; two first logins at once are left to the unique indexes
    of the table. */
module Accounts {
  import opened Wrappers
  import opened Contacts
  import Quota

  datatype User = User(openId: nat, book: Book)

  datatype State = State(users: seq<User>, wallets: map<nat, Quota.Account>)

  datatype Config = Config(maxUsers: int, defaultQuota: int)

  datatype LoginReply =
    | LoggedIn(user: nat, isNew: bool)
    | OpenIdMissing
    | Malformed
    | BadCode
    | PhoneTaken
    | WaitlistFull

  // ----- lookups -----

  function WalletOf(s: State, u: nat): Quota.Account {
    if u in s.wallets then s.wallets[u] else Quota.NO_ACCOUNT
  }

  /** The row with this open id, or none. */
  function FindOpen(users: seq<User>, o: nat): (r: Option<nat>)
    ensures r.Some? ==> r.value < |users| && users[r.value].openId == o
    ensures r.None? ==> forall i :: 0 <= i < |users| ==> users[i].openId != o
  {
    if users == [] then None
    else if users[|users| - 1].openId == o then Some(|users| - 1)
    else FindOpen(users[..|users| - 1], o)
  }

  function FindPhone(users: seq<User>, p: nat): (r: Option<nat>)
    ensures r.Some? ==> r.value < |users| && users[r.value].book.phone == Some(p)
    ensures r.None? ==> forall i :: 0 <= i < |users| ==> users[i].book.phone != Some(p)
  {
    if users == [] then None
    else if users[|users| - 1].book.phone == Some(p) then Some(|users| - 1)
    else FindPhone(users[..|users| - 1], p)
  }

  /** The row with this open id and this phone. */
  function FindBoth(users: seq<User>, o: nat, p: nat): (r: Option<nat>)
    ensures r.Some? ==> r.value < |users| && users[r.value].openId == o && users[r.value].book.phone == Some(p)
    ensures r.None? ==> forall i :: 0 <= i < |users| ==> users[i].openId != o || users[i].book.phone != Some(p)
  {
    if users == [] then None
    else if users[|users| - 1].openId == o && users[|users| - 1].book.phone == Some(p) then Some(|users| - 1)
    else FindBoth(users[..|users| - 1], o, p)
  }

  // ----- the two ends of a login -----

  function BonusCents(cfg: Config): int {
    if cfg.defaultQuota <= 0 then 100 else cfg.defaultQuota
  }

  /** The wallet and its first ledger row. */
  function WithBonus(s: State, u: nat, cfg: Config): State {
    s.(wallets := s.wallets[u := Quota.Granted(WalletOf(s, u), BonusCents(cfg), Quota.NewUserBonus)])
  }

  /** A user who was not known: the row, the wallet and the bonus in one transaction. */
  function Registered(s: State, cfg: Config, o: nat, p: nat): (State, LoginReply) {
    if |s.users| >= cfg.maxUsers then (s, WaitlistFull)
    else
      var u := |s.users|;
      (WithBonus(s.(users := s.users + [User(o, Book([], FillingContacts, Some(p)))]), u, cfg), LoggedIn(u, true))
  }

  function Raised(status: Status): Status {
    if status == Waitlisted || status == Onboarding then FillingContacts else status
  }

  /** A known user binds the phone.  One without a phone so far counts as new, and gets a wallet with the
      bonus unless there is a wallet. */
  function Bound(s: State, cfg: Config, u: nat, o: nat, p: nat): (State, LoginReply)
    requires u < |s.users|
  {
    var user := s.users[u];
    var needInit := user.book.phone.None?;
    var z := s.(users := s.users[u := User(if user.openId == 0 then o else user.openId,
                                           Book(user.book.contacts, Raised(user.book.status), Some(p)))]);
    (if needInit && !WalletOf(s, u).present then WithBonus(z, u, cfg) else z, LoggedIn(u, needInit))
  }

  // ----- the calls -----

  /** ExchangeAlipayAuthCode; `wellFormed` is ValidatePhone's answer about the decrypted phone. */
  function Exchanged(s: State, cfg: Config, o: nat, p: nat, wellFormed: bool): (State, LoginReply) {
    if o == 0 then (s, OpenIdMissing)
    else if !wellFormed then (s, Malformed)
    else
      var user := if FindBoth(s.users, o, p).Some? then FindBoth(s.users, o, p) else FindOpen(s.users, o);
      var existing := FindPhone(s.users, p);
      if existing.Some? && user != existing then (s, PhoneTaken)
      else if user.None? then Registered(s, cfg, o, p)
      else Bound(s, cfg, user.value, o, p)
  }

  /** VerifyPhoneCaptchaAndLogin. */
  function CaptchaVerified(s: State, cfg: Config, o: nat, p: nat, codeFits: bool): (State, LoginReply) {
    if !codeFits then (s, BadCode)
    else if o == 0 then (s, OpenIdMissing)
    else
      var existing := FindPhone(s.users, p);
      if existing.Some? && s.users[existing.value].openId != o then (s, PhoneTaken)
      else
        var user := if FindOpen(s.users, o).Some? then FindOpen(s.users, o) else existing;
        if user.None? then Registered(s, cfg, o, p) else Bound(s, cfg, user.value, o, p)
  }

  /** What GetWaitListInfo does to the tables when neither its rate limit nor its cache answers. */
  function Queued(s: State, cfg: Config, o: nat): State {
    if o == 0 || FindOpen(s.users, o).Some? then s
    else
      s.(users := s.users + [User(o, Book([], if |s.users| + 1 > cfg.maxUsers then Waitlisted else Onboarding, None))])
  }

  datatype Step = BindPhone | FillContacts | Home | Waitlist

  function NextStep(status: Status, phoneVerified: bool): Step {
    match status
    case Waitlisted => Waitlist
    case Onboarding => if phoneVerified then FillContacts else BindPhone
    case FillingContacts => if phoneVerified then FillContacts else BindPhone
    case Active => Home
  }

  // ----- the waitlist call, with its Redis keys -----

  const SECOND := 1_000_000_000
  const MAX_HITS := 30

  /** The answer about a user, and one that Redis keeps until an instant. */
  datatype Info = Info(user: nat, status: Status, step: Step, phoneVerified: bool, isNew: bool)
  datatype Cached = Cached(info: Info, until: int)

  /** How often an open id has asked, until the counter expires. */
  datatype Hits = Hits(count: nat, until: int)

  datatype WaitKeys = WaitKeys(infos: map<nat, Cached>, hits: map<nat, Hits>)

  datatype WaitReply = Told(info: Info) | TooMany | NoOpenId

  function HitsAfter(hits: map<nat, Hits>, o: nat, now: int): Hits {
    if o in hits && now < hits[o].until then Hits(hits[o].count + 1, hits[o].until) else Hits(1, now + 60 * SECOND)
  }

  function InfoOf(s: State, u: nat, isNew: bool): Info
    requires u < |s.users|
  {
    var b := s.users[u].book;
    Info(u, b.status, NextStep(b.status, b.phone.Some?), b.phone.Some?, isNew)
  }

  /** GetWaitListInfo; an empty open id stands for an exchange with Alipay that failed. */
  function WaitlistAsked(s: State, k: WaitKeys, cfg: Config, o: nat, now: int): (State, WaitKeys, WaitReply) {
    if o == 0 then (s, k, NoOpenId)
    else
      var counted := k.(hits := k.hits[o := HitsAfter(k.hits, o, now)]);
      if counted.hits[o].count > MAX_HITS then (s, counted, TooMany)
      else if o in k.infos && now < k.infos[o].until then (s, counted, Told(k.infos[o].info))
      else
        var z := Queued(s, cfg, o);
        var found := FindOpen(s.users, o);
        var u := if found.Some? then found.value else |s.users|;
        var info := InfoOf(z, u, found.None?);
        (z, counted.(infos := k.infos[o := Cached(info, now + 300 * SECOND)]), Told(info))
  }

  // ----- the service -----

  class UserService {
    var users: seq<User>
    var wallets: map<nat, Quota.Account>
    var infos: map<nat, Cached>
    var hits: map<nat, Hits>

    function Keys(): WaitKeys
      reads this
    {
      WaitKeys(infos, hits)
    }

    function Tables(): State
      reads this
    {
      State(users, wallets)
    }

    method CreateWalletWithBonus(u: nat, cfg: Config)
      modifies this`wallets
      ensures Tables() == WithBonus(old(Tables()), u, cfg)
    {
      var defaultQuotaCents := cfg.defaultQuota;
      if defaultQuotaCents <= 0 {
        defaultQuotaCents := 100;
      }
      wallets := wallets[u := Quota.Granted(WalletOf(Tables(), u), defaultQuotaCents, Quota.NewUserBonus)];
    }

    method Register(cfg: Config, o: nat, p: nat) returns (reply: LoginReply)
      modifies this
      ensures (Tables(), reply) == Registered(old(Tables()), cfg, o, p)
    {
      var userCount := |users|;
      if userCount >= cfg.maxUsers {
        return WaitlistFull;
      }
      users := users + [User(o, Book([], FillingContacts, Some(p)))];
      CreateWalletWithBonus(userCount, cfg);
      return LoggedIn(userCount, true);
    }

    method BindPhone(cfg: Config, u: nat, o: nat, p: nat) returns (reply: LoginReply)
      requires u < |users|
      modifies this
      ensures (Tables(), reply) == Bound(old(Tables()), cfg, u, o, p)
    {
      var user := users[u];
      var isNewUser := false;
      var needInit := user.book.phone.None?;
      var status := user.book.status;
      if status == Waitlisted || status == Onboarding {
        status := FillingContacts;
      }
      users := users[u := User(if user.openId == 0 then o else user.openId, Book(user.book.contacts, status, Some(p)))];
      if needInit {
        if !WalletOf(Tables(), u).present {
          CreateWalletWithBonus(u, cfg);
        }
        isNewUser := true;
      }
      return LoggedIn(u, isNewUser);
    }

    method ExchangeAlipayAuthCode(cfg: Config, o: nat, p: nat, wellFormed: bool) returns (reply: LoginReply)
      modifies this
      ensures (Tables(), reply) == Exchanged(old(Tables()), cfg, o, p, wellFormed)
    {
      if o == 0 {
        return OpenIdMissing;
      }
      if !wellFormed {
        return Malformed;
      }
      var user := FindBoth(users, o, p);
      if user.None? {
        user := FindOpen(users, o);
      }
      var existingByPhone := FindPhone(users, p);
      if existingByPhone.Some? {
        if user.None? || existingByPhone.value != user.value {
          return PhoneTaken;
        }
      }
      if user.None? {
        reply := Register(cfg, o, p);
      } else {
        reply := BindPhone(cfg, user.value, o, p);
      }
    }

    method VerifyPhoneCaptchaAndLogin(cfg: Config, o: nat, p: nat, codeFits: bool) returns (reply: LoginReply)
      modifies this
      ensures (Tables(), reply) == CaptchaVerified(old(Tables()), cfg, o, p, codeFits)
    {
      if !codeFits {
        return BadCode;
      }
      if o == 0 {
        return OpenIdMissing;
      }
      var existingByPhone := FindPhone(users, p);
      if existingByPhone.Some? && users[existingByPhone.value].openId != o {
        return PhoneTaken;
      }
      var user := FindOpen(users, o);
      if user.None? {
        user := FindPhone(users, p);
      }
      if user.None? {
        reply := Register(cfg, o, p);
      } else {
        reply := BindPhone(cfg, user.value, o, p);
      }
    }

    method GetWaitListInfo(cfg: Config, o: nat, now: int) returns (reply: WaitReply)
      modifies this
      ensures (Tables(), Keys(), reply) == WaitlistAsked(old(Tables()), old(Keys()), cfg, o, now)
    {
      if o == 0 {
        return NoOpenId;
      }
      hits := hits[o := HitsAfter(hits, o, now)];
      if hits[o].count > MAX_HITS {
        return TooMany;
      }
      if o in infos && now < infos[o].until {
        return Told(infos[o].info);
      }
      var user := FindOpen(users, o);
      var isNewUser := false;
      if user.None? {
        var status := Onboarding;
        if |users| + 1 > cfg.maxUsers {
          status := Waitlisted;
        }
        users := users + [User(o, Book([], status, None))];
        user := Some(|users| - 1);
        isNewUser := true;
      }
      var info := InfoOf(Tables(), user.value, isNewUser);
      infos := infos[o := Cached(info, now + 300 * SECOND)];
      return Told(info);
    }
  }

  // ----- runs -----

  datatype Act =
    | AlipayLogin(openId: nat, phone: nat, wellFormed: bool)
    | CaptchaLogin(openId: nat, phone: nat, codeFits: bool)
    | JoinWaitlist(openId: nat)
    | EditContacts(user: nat, edit: Edit, production: bool)
    | Spend(user: nat, op: Quota.Op)

  /** Contacts are edited with a token, and only logins hand out tokens.  Spending is what SendSMS does to
      the wallet; nothing in the service calls GrantQuota. */
  predicate CanDo(s: State, a: Act) {
    match a
    case EditContacts(u, _, _) => u < |s.users| && s.users[u].book.phone.Some?
    case Spend(u, op) => u < |s.users| && !op.move.Granting? && op.amount > 0
    case _ => true
  }

  function Spent(s: State, u: nat, op: Quota.Op): State {
    s.(wallets := s.wallets[u := Quota.Perform(WalletOf(s, u), op)])
  }

  function Do(s: State, cfg: Config, a: Act): State
    requires CanDo(s, a)
  {
    match a
    case AlipayLogin(o, p, wellFormed) => Exchanged(s, cfg, o, p, wellFormed).0
    case CaptchaLogin(o, p, codeFits) => CaptchaVerified(s, cfg, o, p, codeFits).0
    case JoinWaitlist(o) => Queued(s, cfg, o)
    case EditContacts(u, edit, production) =>
      var book := Edited(s.users[u].book, edit, production).0;
      s.(users := s.users[u := s.users[u].(book := book)])
    case Spend(u, op) => Spent(s, u, op)
  }

  ghost predicate Valid(s: State, cfg: Config, acts: seq<Act>)
    decreases |acts|
  {
    acts == [] || (CanDo(s, acts[0]) && Valid(Do(s, cfg, acts[0]), cfg, acts[1..]))
  }

  ghost function Run(s: State, cfg: Config, acts: seq<Act>): State
    requires Valid(s, cfg, acts)
    decreases |acts|
  {
    if acts == [] then s else Run(Do(s, cfg, acts[0]), cfg, acts[1..])
  }

  const START := State([], map[])

  // ----- the invariant -----

  /** Sign-up bonuses in a ledger. */
  function Bonuses(ledger: seq<Quota.Entry>): nat {
    if ledger == [] then 0
    else Bonuses(ledger[..|ledger| - 1]) + (if ledger[|ledger| - 1].reason == Quota.NewUserBonus then 1 else 0)
  }

  predicate WalletRight(a: Quota.Account, hasPhone: bool) {
    if hasPhone then a.present && Bonuses(a.ledger) == 1 else !a.present && a.ledger == []
  }

  predicate BookRight(b: Book) {
    && Tidy(b)
    && (b.phone.Some? <==> b.status == FillingContacts || b.status == Active)
    && (b.contacts != [] <==> b.status == Active)
  }

  predicate UserRight(s: State, u: nat) {
    u < |s.users| ==>
      && BookRight(s.users[u].book)
      && WalletRight(WalletOf(s, u), s.users[u].book.phone.Some?)
      && s.users[u].openId != 0
  }

  predicate OpensUnique(users: seq<User>) {
    forall i, j :: 0 <= i < j < |users| ==> users[i].openId != users[j].openId
  }

  predicate PhonesUnique(users: seq<User>) {
    forall i, j :: 0 <= i < j < |users| && users[i].book.phone.Some? ==> users[i].book.phone != users[j].book.phone
  }

  ghost predicate Inv(s: State) {
    && OpensUnique(s.users) && PhonesUnique(s.users)
    && (forall u: nat :: UserRight(s, u))
    && (forall u :: u in s.wallets ==> u < |s.users|)
  }

  lemma BonusAppend(ledger: seq<Quota.Entry>, e: Quota.Entry)
    ensures Bonuses(ledger + [e]) == Bonuses(ledger) + (if e.reason == Quota.NewUserBonus then 1 else 0)
  {
    assert (ledger + [e])[..|ledger|] == ledger;
  }

  lemma BonusGranted(a: Quota.Account, amount: int)
    requires WalletRight(a, false)
    ensures WalletRight(Quota.Granted(a, amount, Quota.NewUserBonus), true)
  {
    var b := Quota.Granted(a, amount, Quota.NewUserBonus);
    assert b.ledger[..|a.ledger|] == a.ledger;
  }

  /** PreDeduct's implicit wallet never stays: with nothing in it, the deduction is refused and rolled back. */
  lemma SpendingIsSound(a: Quota.Account, op: Quota.Op, hasPhone: bool)
    requires WalletRight(a, hasPhone) && !op.move.Granting? && op.amount > 0
    ensures WalletRight(Quota.Perform(a, op), hasPhone)
    ensures !hasPhone ==> Quota.Perform(a, op) == a
  {
    var b := Quota.Perform(a, op);
    if b != a {
      assert b.ledger[..|a.ledger|] == a.ledger;
    }
  }

  lemma FoundIsUnique(users: seq<User>, o: nat, p: nat)
    requires OpensUnique(users) && PhonesUnique(users)
    ensures forall i :: 0 <= i < |users| && users[i].openId == o ==> FindOpen(users, o) == Some(i)
    ensures forall i :: 0 <= i < |users| && users[i].book.phone == Some(p) ==> FindPhone(users, p) == Some(i)
    ensures FindBoth(users, o, p).Some? ==> FindBoth(users, o, p) == FindOpen(users, o) == FindPhone(users, p)
  {
  }

  /** Both logins, as one rule: the phone must be free or the caller's own. */
  function LoggedInBy(s: State, cfg: Config, o: nat, p: nat): (State, LoginReply) {
    var user := FindOpen(s.users, o);
    var existing := FindPhone(s.users, p);
    if existing.Some? && user != existing then (s, PhoneTaken)
    else if user.None? then Registered(s, cfg, o, p)
    else Bound(s, cfg, user.value, o, p)
  }

  /** Main result: on sound tables the two logins are the same function, and the captcha login's second
      lookup, by phone, never finds anyone. */
  lemma LoginsAgree(s: State, cfg: Config, o: nat, p: nat)
    requires Inv(s) && o != 0
    ensures Exchanged(s, cfg, o, p, true) == CaptchaVerified(s, cfg, o, p, true) == LoggedInBy(s, cfg, o, p)
    ensures FindOpen(s.users, o).None? && FindPhone(s.users, p).Some? ==> LoggedInBy(s, cfg, o, p).1 == PhoneTaken
  {
    FoundIsUnique(s.users, o, p);
  }

  // ----- every call keeps the invariant -----

  lemma UniqueAfter(users: seq<User>, u: nat, user: User)
    requires OpensUnique(users) && PhonesUnique(users) && u < |users| && user.openId == users[u].openId
    requires forall i :: 0 <= i < |users| && i != u && user.book.phone.Some? ==> users[i].book.phone != user.book.phone
    ensures OpensUnique(users[u := user]) && PhonesUnique(users[u := user])
  {
  }

  lemma UniqueMore(users: seq<User>, user: User)
    requires OpensUnique(users) && PhonesUnique(users) && FindOpen(users, user.openId).None?
    requires user.book.phone.Some? ==> FindPhone(users, user.book.phone.value).None?
    ensures OpensUnique(users + [user]) && PhonesUnique(users + [user])
  {
  }

  /** Replacing one row and its wallet by right ones. */
  lemma OneUserChanges(s: State, z: State, u: nat)
    requires Inv(s) && u < |z.users| && |s.users| <= |z.users| <= |s.users| + 1
    requires |z.users| > |s.users| ==> u == |s.users|
    requires forall i :: 0 <= i < |s.users| && i != u ==> z.users[i] == s.users[i]
    requires forall i: nat :: i != u ==> WalletOf(z, i) == WalletOf(s, i)
    requires z.wallets.Keys <= s.wallets.Keys + {u}
    requires OpensUnique(z.users) && PhonesUnique(z.users) && UserRight(z, u)
    ensures Inv(z)
  {
    forall i: nat
      ensures UserRight(z, i)
    {
      assert UserRight(s, i);
    }
  }

  lemma NoWalletYet(s: State)
    requires Inv(s)
    ensures WalletOf(s, |s.users|) == Quota.NO_ACCOUNT
  {
    assert |s.users| !in s.wallets;
  }

  lemma RegisterKeeps(s: State, cfg: Config, o: nat, p: nat)
    requires Inv(s) && o != 0 && FindOpen(s.users, o).None? && FindPhone(s.users, p).None?
    ensures Inv(Registered(s, cfg, o, p).0)
  {
    if |s.users| < cfg.maxUsers {
      var user := User(o, Book([], FillingContacts, Some(p)));
      NoWalletYet(s);
      UniqueMore(s.users, user);
      BonusGranted(Quota.NO_ACCOUNT, BonusCents(cfg));
      OneUserChanges(s, Registered(s, cfg, o, p).0, |s.users|);
    }
  }

  lemma BindKeeps(s: State, cfg: Config, u: nat, o: nat, p: nat)
    requires Inv(s) && o != 0 && u < |s.users| && (FindPhone(s.users, p).None? || FindPhone(s.users, p) == Some(u))
    ensures Inv(Bound(s, cfg, u, o, p).0)
  {
    assert UserRight(s, u);
    var z := Bound(s, cfg, u, o, p).0;
    FoundIsUnique(s.users, o, p);
    UniqueAfter(s.users, u, z.users[u]);
    if s.users[u].book.phone.None? {
      BonusGranted(WalletOf(s, u), BonusCents(cfg));
    }
    OneUserChanges(s, z, u);
  }

  lemma LoginKeeps(s: State, cfg: Config, o: nat, p: nat)
    requires Inv(s) && o != 0
    ensures Inv(LoggedInBy(s, cfg, o, p).0)
  {
    var user := FindOpen(s.users, o);
    var existing := FindPhone(s.users, p);
    if !(existing.Some? && user != existing) {
      if user.None? {
        RegisterKeeps(s, cfg, o, p);
      } else {
        BindKeeps(s, cfg, user.value, o, p);
      }
    }
  }

  lemma QueueKeeps(s: State, cfg: Config, o: nat)
    requires Inv(s)
    ensures Inv(Queued(s, cfg, o))
  {
    if o != 0 && FindOpen(s.users, o).None? {
      var z := Queued(s, cfg, o);
      NoWalletYet(s);
      UniqueMore(s.users, z.users[|s.users|]);
      OneUserChanges(s, z, |s.users|);
    }
  }

  lemma EditIsRight(b: Book, e: Edit, production: bool)
    requires BookRight(b) && b.phone.Some?
    ensures BookRight(Edited(b, e, production).0) && Edited(b, e, production).0.phone == b.phone
  {
    EditKeepsTidy(b, e, production);
    var z := Edited(b, e, production).0;
    if b.contacts == [] && z.contacts != [] {
      FirstContactActivates(b, e, production);
    }
  }

  lemma FirstContactActivates(b: Book, e: Edit, production: bool)
    requires b.contacts == [] && Edited(b, e, production).0.contacts != [] && b.status == FillingContacts
    ensures Edited(b, e, production).0.status == Active
  {
  }

  lemma EditKeeps(s: State, cfg: Config, u: nat, e: Edit, production: bool)
    requires Inv(s) && u < |s.users| && s.users[u].book.phone.Some?
    ensures Inv(Do(s, cfg, EditContacts(u, e, production)))
  {
    assert UserRight(s, u);
    var z := Do(s, cfg, EditContacts(u, e, production));
    EditIsRight(s.users[u].book, e, production);
    UniqueAfter(s.users, u, z.users[u]);
    OneUserChanges(s, z, u);
  }

  lemma SpendKeeps(s: State, u: nat, op: Quota.Op)
    requires Inv(s) && u < |s.users| && !op.move.Granting? && op.amount > 0
    ensures Inv(Spent(s, u, op))
  {
    assert UserRight(s, u);
    SpendingIsSound(WalletOf(s, u), op, s.users[u].book.phone.Some?);
    OneUserChanges(s, Spent(s, u, op), u);
  }

  lemma InvKept(s: State, cfg: Config, a: Act)
    requires Inv(s) && CanDo(s, a)
    ensures Inv(Do(s, cfg, a))
  {
    match a
    case AlipayLogin(o, p, wellFormed) =>
      if o != 0 {
        LoginsAgree(s, cfg, o, p);
        LoginKeeps(s, cfg, o, p);
      }
    case CaptchaLogin(o, p, codeFits) =>
      if o != 0 {
        LoginsAgree(s, cfg, o, p);
        LoginKeeps(s, cfg, o, p);
      }
    case JoinWaitlist(o) => QueueKeeps(s, cfg, o);
    case EditContacts(u, e, production) => EditKeeps(s, cfg, u, e, production);
    case Spend(u, op) => SpendKeeps(s, u, op);
  }

  lemma {:induction false} InvAlways(s: State, cfg: Config, acts: seq<Act>)
    requires Valid(s, cfg, acts) && Inv(s)
    ensures Inv(Run(s, cfg, acts))
    decreases |acts|
  {
    if acts != [] {
      InvKept(s, cfg, acts[0]);
      InvAlways(Do(s, cfg, acts[0]), cfg, acts[1..]);
    }
  }

  // ----- the main results -----

  /** Main result: over any run of logins, waitlist calls, contact edits and spending, open ids and phones
      stay unique, and a user who fills in contacts or is active has a phone, a wallet and exactly one bonus. */
  lemma AccountsAreSound(cfg: Config, acts: seq<Act>, u: nat, v: nat)
    requires Valid(START, cfg, acts) && u < |Run(START, cfg, acts).users| && v < |Run(START, cfg, acts).users|
    ensures var z := Run(START, cfg, acts);
            && (u != v ==> z.users[u].openId != z.users[v].openId)
            && (u != v && z.users[u].book.phone.Some? ==> z.users[u].book.phone != z.users[v].book.phone)
            && (if z.users[u].book.status in {FillingContacts, Active}
                then z.users[u].book.phone.Some? && WalletOf(z, u).present && Bonuses(WalletOf(z, u).ledger) == 1
                else z.users[u].book.phone.None? && !WalletOf(z, u).present && WalletOf(z, u).ledger == [])
            && (z.users[u].book.status == Active <==> z.users[u].book.contacts != [])
  {
    InvAlways(START, cfg, acts);
    var z := Run(START, cfg, acts);
    assert UserRight(z, u);
    assert u < v ==> z.users[u].openId != z.users[v].openId;
  }

  lemma DoKeepsUsers(s: State, cfg: Config, a: Act, u: nat)
    requires Inv(s) && CanDo(s, a) && u < |s.users|
    ensures var z := Do(s, cfg, a);
            && u < |z.users| && z.users[u].openId == s.users[u].openId
            && Rank(s.users[u].book.status) <= Rank(z.users[u].book.status)
            && (s.users[u].book.phone.Some? ==> z.users[u].book.phone.Some?)
  {
    assert UserRight(s, u);
    match a
    case EditContacts(v, e, production) =>
      if v == u {
        EditKeepsTidy(s.users[u].book, e, production);
      }
    case _ =>
  }

  /** Main result: a user's status never falls, and open ids are for life. */
  lemma {:induction false} StatusNeverFalls(s: State, cfg: Config, acts: seq<Act>, u: nat)
    requires Valid(s, cfg, acts) && Inv(s) && u < |s.users|
    ensures var z := Run(s, cfg, acts);
            && u < |z.users| && z.users[u].openId == s.users[u].openId
            && Rank(s.users[u].book.status) <= Rank(z.users[u].book.status)
            && (s.users[u].book.phone.Some? ==> z.users[u].book.phone.Some?)
    decreases |acts|
  {
    if acts != [] {
      DoKeepsUsers(s, cfg, acts[0], u);
      InvKept(s, cfg, acts[0]);
      StatusNeverFalls(Do(s, cfg, acts[0]), cfg, acts[1..], u);
    }
  }

  /** The one row with this open id and phone has a wallet; it reports a new user exactly if the bonus was
      granted, on a wallet that holds that and nothing else; and no other wallet changes. */
  predicate WalletsAfterLogin(s: State, z: State, cfg: Config, u: nat, isNew: bool) {
    && (isNew <==> Bonuses(WalletOf(z, u).ledger) == Bonuses(WalletOf(s, u).ledger) + 1)
    && (if isNew then
          WalletOf(z, u) == Quota.Account(true, Quota.Columns(BonusCents(cfg), 0, 0, BonusCents(cfg)),
                                          [Quota.Entry(Quota.Grant, Quota.NewUserBonus, BonusCents(cfg),
                                                       BonusCents(cfg))])
        else WalletOf(z, u) == WalletOf(s, u))
    && WalletOf(z, u).present
  }

  lemma BonusIsAll(s: State, u: nat, cfg: Config)
    requires !WalletOf(s, u).present && WalletOf(s, u).ledger == []
    ensures WalletsAfterLogin(s, WithBonus(s, u, cfg), cfg, u, true)
  {
    var a := WalletOf(s, u);
    var b := Quota.Granted(a, BonusCents(cfg), Quota.NewUserBonus);
    var e := Quota.Entry(Quota.Grant, Quota.NewUserBonus, BonusCents(cfg), BonusCents(cfg));
    assert WalletOf(WithBonus(s, u, cfg), u) == b;
    assert b.ledger == [e];
    BonusAppend([], e);
    assert [] + [e] == [e];
  }

  lemma BindIsNewIffBonus(s: State, cfg: Config, u: nat, o: nat, p: nat)
    requires Inv(s) && u < |s.users|
    ensures var (z, reply) := Bound(s, cfg, u, o, p);
            && reply.LoggedIn? && WalletsAfterLogin(s, z, cfg, u, reply.isNew)
            && forall v :: v != u ==> WalletOf(z, v) == WalletOf(s, v)
  {
    assert UserRight(s, u);
    var z := Bound(s, cfg, u, o, p).0;
    if s.users[u].book.phone.None? {
      BonusIsAll(s.(users := z.users), u, cfg);
    }
  }

  /** Main result: a login that succeeds ends with the caller's open id and phone on one row, and reports a
      new user exactly if it granted the bonus; a refused login changes nothing. */
  lemma LoginIsNewIffBonus(s: State, cfg: Config, o: nat, p: nat)
    requires Inv(s) && o != 0
    ensures var (z, reply) := LoggedInBy(s, cfg, o, p);
            if !reply.LoggedIn? then z == s
            else
              var u := reply.user;
              && u < |z.users| && z.users[u].openId == o && z.users[u].book.phone == Some(p)
              && WalletsAfterLogin(s, z, cfg, u, reply.isNew)
              && forall v :: v != u ==> WalletOf(z, v) == WalletOf(s, v)
  {
    var user := FindOpen(s.users, o);
    if user.Some? {
      BindIsNewIffBonus(s, cfg, user.value, o, p);
      assert UserRight(s, user.value);
    } else {
      NoWalletYet(s);
      BonusIsAll(s.(users := s.users + [User(o, Book([], FillingContacts, Some(p)))]), |s.users|, cfg);
    }
  }

  lemma FoundWhereItIs(users: seq<User>, u: nat)
    requires u < |users| && OpensUnique(users)
    ensures FindOpen(users, users[u].openId) == Some(u)
  {
  }

  /** The capacity holds newcomers back, but nobody who ever asked for the waitlist: after any run since, a
      login with a free phone succeeds, however full the tables are.  Without such a call it is refused
      exactly if they are full. */
  lemma CapacityStopsOnlyNewcomers(s: State, cfg: Config, acts: seq<Act>, o: nat, p: nat)
    requires Inv(s) && o != 0
    requires Valid(Queued(s, cfg, o), cfg, acts) && FindPhone(Run(Queued(s, cfg, o), cfg, acts).users, p).None?
    ensures LoggedInBy(Run(Queued(s, cfg, o), cfg, acts), cfg, o, p).1.LoggedIn?
    ensures FindOpen(s.users, o).None? && FindPhone(s.users, p).None?
            ==> (LoggedInBy(s, cfg, o, p).1 == WaitlistFull <==> |s.users| >= cfg.maxUsers)
  {
    var queued := Queued(s, cfg, o);
    QueueKeeps(s, cfg, o);
    var u := FindOpen(queued.users, o).value;
    StatusNeverFalls(queued, cfg, acts, u);
    InvAlways(queued, cfg, acts);
    FoundWhereItIs(Run(queued, cfg, acts).users, u);
  }

  /** The tables after a waitlist call at some instant. */
  datatype Moment = Moment(at: int, tables: State)

  predicate Describes(s: State, o: nat, info: Info) {
    info.user < |s.users| && s.users[info.user].openId == o && info == InfoOf(s, info.user, info.isNew)
  }

  ghost predicate WasRight(past: seq<Moment>, o: nat, info: Info, at: int) {
    exists i :: 0 <= i < |past| && past[i].at == at && Describes(past[i].tables, o, info)
  }

  /** Every kept answer was right when it was given, five minutes before it expires. */
  ghost predicate KeptRight(infos: map<nat, Cached>, past: seq<Moment>) {
    forall o :: o in infos ==> WasRight(past, o, infos[o].info, infos[o].until - 300 * SECOND)
  }

  lemma StillWasRight(past: seq<Moment>, m: Moment, o: nat, info: Info, at: int)
    requires WasRight(past, o, info, at) || (m.at == at && Describes(m.tables, o, info))
    ensures WasRight(past + [m], o, info, at)
  {
    var more := past + [m];
    assert more[|past|] == m;
    if WasRight(past, o, info, at) {
      var i :| 0 <= i < |past| && past[i].at == at && Describes(past[i].tables, o, info);
      assert more[i] == past[i];
    }
  }

  lemma KeptRightLater(infos: map<nat, Cached>, past: seq<Moment>, m: Moment)
    requires KeptRight(infos, past)
    ensures KeptRight(infos, past + [m])
  {
    forall p | p in infos
      ensures WasRight(past + [m], p, infos[p].info, infos[p].until - 300 * SECOND)
    {
      StillWasRight(past, m, p, infos[p].info, infos[p].until - 300 * SECOND);
    }
  }

  lemma NewKeptRight(infos: map<nat, Cached>, past: seq<Moment>, m: Moment, o: nat, info: Info)
    requires KeptRight(infos, past) && Describes(m.tables, o, info)
    ensures KeptRight(infos[o := Cached(info, m.at + 300 * SECOND)], past + [m])
    ensures WasRight(past + [m], o, info, m.at)
  {
    KeptRightLater(infos, past, m);
    StillWasRight(past, m, o, info, m.at);
  }

  lemma FreshAnswerIsRight(s: State, k: WaitKeys, cfg: Config, o: nat, now: int)
    requires o != 0 && !(o in k.infos && now < k.infos[o].until) && HitsAfter(k.hits, o, now).count <= MAX_HITS
    ensures var (z, k', reply) := WaitlistAsked(s, k, cfg, o, now);
            && reply.Told? && Describes(z, o, reply.info) && (reply.info.isNew <==> |z.users| > |s.users|)
            && z == Queued(s, cfg, o) && k'.infos == k.infos[o := Cached(reply.info, now + 300 * SECOND)]
  {
  }

  /** The answer of the waitlist call tells of the caller's own row: as it is after the call, or, from the
      cache, as it was within the last five minutes.  `past` holds the tables after each earlier call. */
  lemma WaitlistAnswerIsRecent(s: State, k: WaitKeys, cfg: Config, o: nat, now: int, past: seq<Moment>)
    returns (at: int)
    requires KeptRight(k.infos, past)
    ensures var (z, k', reply) := WaitlistAsked(s, k, cfg, o, now);
            && KeptRight(k'.infos, past + [Moment(now, z)])
            && (reply.Told? ==> now - 300 * SECOND < at && WasRight(past + [Moment(now, z)], o, reply.info, at))
  {
    var (z, k', reply) := WaitlistAsked(s, k, cfg, o, now);
    var kept := o in k.infos && now < k.infos[o].until;
    at := if kept then k.infos[o].until - 300 * SECOND else now;
    if o != 0 && !kept && HitsAfter(k.hits, o, now).count <= MAX_HITS {
      FreshAnswerIsRight(s, k, cfg, o, now);
      NewKeptRight(k.infos, past, Moment(now, z), o, reply.info);
    } else {
      KeptRightLater(k.infos, past, Moment(now, z));
    }
  }

  /** The step a client is sent to says where the user stands. */
  lemma NextStepIsRight(s: State, u: nat)
    requires Inv(s) && u < |s.users|
    ensures var b := s.users[u].book; var step := NextStep(b.status, b.phone.Some?);
            && (step == Home <==> b.contacts != [])
            && (step == FillContacts <==> b.phone.Some? && b.contacts == [])
            && (step == Step.BindPhone <==> b.status == Onboarding)
            && (step == Waitlist <==> b.status == Waitlisted)
            && (step in {Step.BindPhone, Waitlist} <==> b.phone.None?)
  {
    assert UserRight(s, u);
  }
}
