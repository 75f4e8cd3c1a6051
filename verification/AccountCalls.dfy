/** When exactly each login and each waitlist call succeeds, and what it then leaves, said of the rows, the
    wallets and the Redis keys alone. */
module AccountCalls {
  import opened Wrappers
  import opened Contacts
  import opened Accounts
  import Quota

  // ----- logins -----

  predicate Knows(users: seq<User>, o: nat) {
    exists i :: 0 <= i < |users| && users[i].openId == o
  }

  predicate OthersPhone(users: seq<User>, o: nat, p: nat) {
    exists i :: 0 <= i < |users| && users[i].book.phone == Some(p) && users[i].openId != o
  }

  /** The sign-up bonus, a hundred cents unless configured otherwise. */
  function Bonus(cfg: Config): int {
    if cfg.defaultQuota > 0 then cfg.defaultQuota else 100
  }

  /** The caller's row u after a login: the phone is bound, contacts stay, and who waited or was being onboarded
      fills in contacts next. */
  predicate RowAfterLogin(s: State, z: State, o: nat, p: nat, u: nat, isNew: bool) {
    if Knows(s.users, o) then
      && u < |s.users| == |z.users| && s.users[u].openId == o
      && var was := s.users[u].book;
      && z.users[u] == User(o, Book(was.contacts, if was.status in {Waitlisted, Onboarding} then FillingContacts
                                                  else was.status, Some(p)))
      && (isNew <==> was.phone == None)
    else
      u == |s.users| && |z.users| == u + 1 && isNew && z.users[u] == User(o, Book([], FillingContacts, Some(p)))
  }

  /** Only the caller's row and wallet change; a new user's wallet holds the bonus, with its one ledger row. */
  ghost predicate SignedIn(s: State, z: State, cfg: Config, o: nat, p: nat, u: nat, isNew: bool) {
    && RowAfterLogin(s, z, o, p, u, isNew)
    && (forall v :: 0 <= v < |s.users| && v != u ==> z.users[v] == s.users[v])
    && (forall v :: v != u ==> WalletOf(z, v) == WalletOf(s, v))
    && var b := Bonus(cfg);
    && WalletOf(z, u) == if isNew
                         then Quota.Account(true, Quota.Columns(b, 0, 0, b),
                                            [Quota.Entry(Quota.Grant, Quota.NewUserBonus, b, b)])
                         else WalletOf(s, u)
  }

  lemma FindsIff(users: seq<User>, o: nat, p: nat)
    requires OpensUnique(users) && PhonesUnique(users)
    ensures FindOpen(users, o).Some? <==> Knows(users, o)
    ensures FindPhone(users, p).Some? && FindPhone(users, p) != FindOpen(users, o) <==> OthersPhone(users, o, p)
  {
    var i, k := FindOpen(users, o), FindPhone(users, p);
    FoundIsUnique(users, o, p);
    if k.Some? && i != k {
      assert users[k.value].openId != o;
    }
  }

  lemma BindRule(s: State, cfg: Config, u: nat, o: nat, p: nat)
    requires Inv(s) && u < |s.users| && s.users[u].openId == o
    ensures var (z, reply) := Bound(s, cfg, u, o, p);
            reply.LoggedIn? && reply.user == u && SignedIn(s, z, cfg, o, p, u, reply.isNew)
  {
    assert UserRight(s, u);
    BindIsNewIffBonus(s, cfg, u, o, p);
  }

  lemma RegisterRule(s: State, cfg: Config, o: nat, p: nat)
    requires Inv(s) && !Knows(s.users, o)
    ensures var (z, reply) := Registered(s, cfg, o, p);
            if |s.users| >= cfg.maxUsers then z == s && reply == WaitlistFull
            else reply == LoggedIn(|s.users|, true) && SignedIn(s, z, cfg, o, p, |s.users|, true)
  {
    NoWalletYet(s);
    BonusIsAll(s.(users := s.users + [User(o, Book([], FillingContacts, Some(p)))]), |s.users|, cfg);
  }

  /** The rule both logins follow. */
  lemma LoginRule(s: State, cfg: Config, o: nat, p: nat)
    requires Inv(s) && o != 0
    ensures var (z, reply) := LoggedInBy(s, cfg, o, p); var free := !OthersPhone(s.users, o, p);
            && (reply == PhoneTaken <==> !free)
            && (reply == WaitlistFull <==> free && !Knows(s.users, o) && |s.users| >= cfg.maxUsers)
            && (reply.LoggedIn? <==> free && (Knows(s.users, o) || |s.users| < cfg.maxUsers))
            && (if reply.LoggedIn? then SignedIn(s, z, cfg, o, p, reply.user, reply.isNew) else z == s)
  {
    FindsIff(s.users, o, p);
    var user := FindOpen(s.users, o);
    if user.Some? {
      BindRule(s, cfg, user.value, o, p);
    } else {
      RegisterRule(s, cfg, o, p);
    }
  }

  /** Main result: a login by captcha succeeds exactly if the code fits, the open id is there, the phone is free or
      the caller's own, and the caller is known or there is room; a refused one tells why and changes nothing. */
  lemma CaptchaLoginIff(s: State, cfg: Config, o: nat, p: nat, codeFits: bool)
    requires Inv(s)
    ensures var (z, reply) := CaptchaVerified(s, cfg, o, p, codeFits); var free := !OthersPhone(s.users, o, p);
            && (reply == BadCode <==> !codeFits)
            && (reply == OpenIdMissing <==> codeFits && o == 0)
            && (reply == PhoneTaken <==> codeFits && o != 0 && !free)
            && (reply == WaitlistFull <==>
                  codeFits && o != 0 && free && !Knows(s.users, o) && |s.users| >= cfg.maxUsers)
            && (reply.LoggedIn? <==>
                  codeFits && o != 0 && free && (Knows(s.users, o) || |s.users| < cfg.maxUsers))
            && (if reply.LoggedIn? then SignedIn(s, z, cfg, o, p, reply.user, reply.isNew) else z == s)
  {
    if o != 0 {
      LoginsAgree(s, cfg, o, p);
      LoginRule(s, cfg, o, p);
    }
  }

  /** The same for a login with an Alipay code, for a phone that is well formed. */
  lemma AlipayLoginIff(s: State, cfg: Config, o: nat, p: nat, wellFormed: bool)
    requires Inv(s)
    ensures var (z, reply) := Exchanged(s, cfg, o, p, wellFormed); var free := !OthersPhone(s.users, o, p);
            && (reply == OpenIdMissing <==> o == 0)
            && (reply == Malformed <==> o != 0 && !wellFormed)
            && (reply == PhoneTaken <==> wellFormed && o != 0 && !free)
            && (reply == WaitlistFull <==>
                  wellFormed && o != 0 && free && !Knows(s.users, o) && |s.users| >= cfg.maxUsers)
            && (reply.LoggedIn? <==>
                  wellFormed && o != 0 && free && (Knows(s.users, o) || |s.users| < cfg.maxUsers))
            && (if reply.LoggedIn? then SignedIn(s, z, cfg, o, p, reply.user, reply.isNew) else z == s)
  {
    if o != 0 {
      LoginsAgree(s, cfg, o, p);
      LoginRule(s, cfg, o, p);
    }
  }

  // ----- phones are proved -----

  /** A login by the owner of the open id that proves the phone: with the right code, or a well-formed number
      from Alipay. */
  predicate Proves(a: Act, o: nat, p: nat) {
    a == CaptchaLogin(o, p, true) || a == AlipayLogin(o, p, true)
  }

  predicate HasPhone(s: State, u: nat, p: nat) {
    u < |s.users| && s.users[u].book.phone == Some(p)
  }

  lemma LoginSetsPhone(s: State, cfg: Config, a: Act, u: nat, p: nat)
    requires Inv(s) && (a.CaptchaLogin? || a.AlipayLogin?) && HasPhone(Do(s, cfg, a), u, p) && !HasPhone(s, u, p)
    ensures Proves(a, Do(s, cfg, a).users[u].openId, p)
  {
    match a
    case AlipayLogin(o, q, wellFormed) => AlipayLoginIff(s, cfg, o, q, wellFormed);
    case CaptchaLogin(o, q, codeFits) => CaptchaLoginIff(s, cfg, o, q, codeFits);
  }

  lemma PhoneIsProved(s: State, cfg: Config, a: Act, u: nat, p: nat)
    requires Inv(s) && CanDo(s, a) && HasPhone(Do(s, cfg, a), u, p) && !HasPhone(s, u, p)
    ensures Proves(a, Do(s, cfg, a).users[u].openId, p)
  {
    match a
    case EditContacts(v, e, production) =>
      assert UserRight(s, v);
      EditKeepsTidy(s.users[v].book, e, production);
    case JoinWaitlist(o) =>
    case Spend(v, op) =>
    case _ => LoginSetsPhone(s, cfg, a, u, p);
  }

  /** Main result: whoever has a phone at the end of a run and had not at its start has proved it by a login of
      the run, with the own open id: nobody gets a phone by a wrong code, an edit or the waitlist. */
  lemma {:induction false} PhonesAreProved(s: State, cfg: Config, acts: seq<Act>, u: nat, p: nat) returns (i: nat)
    requires Valid(s, cfg, acts) && Inv(s) && HasPhone(Run(s, cfg, acts), u, p) && !HasPhone(s, u, p)
    ensures i < |acts| && Proves(acts[i], Run(s, cfg, acts).users[u].openId, p)
    decreases |acts|
  {
    var z := Do(s, cfg, acts[0]);
    InvKept(s, cfg, acts[0]);
    if HasPhone(z, u, p) {
      i := 0;
      PhoneIsProved(s, cfg, acts[0], u, p);
      StatusNeverFalls(z, cfg, acts[1..], u);
    } else {
      i := PhonesAreProved(z, cfg, acts[1..], u, p);
      i := i + 1;
    }
  }

  /** A login that cannot succeed may as well not have been made. */
  lemma FailedLoginIsNothing(s: State, cfg: Config, o: nat, p: nat, acts: seq<Act>)
    requires Inv(s) && Valid(s, cfg, acts)
    ensures forall a :: a in {CaptchaLogin(o, p, false), AlipayLogin(o, p, false)} ==>
              Valid(s, cfg, [a] + acts) && Run(s, cfg, [a] + acts) == Run(s, cfg, acts)
  {
    CaptchaLoginIff(s, cfg, o, p, false);
    AlipayLoginIff(s, cfg, o, p, false);
    forall a | a in {CaptchaLogin(o, p, false), AlipayLogin(o, p, false)}
      ensures Valid(s, cfg, [a] + acts) && Run(s, cfg, [a] + acts) == Run(s, cfg, acts)
    {
      assert ([a] + acts)[1..] == acts && Do(s, cfg, a) == s;
    }
  }

  // ----- the waitlist -----

  /** Main result: an unknown open id gets a row, without phone or contacts, that is onboarding exactly if the user
      still fits under the capacity and waits otherwise; for a known one nothing changes. */
  lemma QueueAnswers(s: State, cfg: Config, o: nat)
    requires Inv(s)
    ensures var z := Queued(s, cfg, o);
            && z.wallets == s.wallets
            && (if o == 0 || Knows(s.users, o) then z.users == s.users
                else
                  var status := if |s.users| < cfg.maxUsers then Onboarding else Waitlisted;
                  z.users == s.users + [User(o, Book([], status, None))])
  {
    FindsIff(s.users, o, 0);
  }

  /** A counter or an answer that Redis still holds. */
  predicate Counting(k: WaitKeys, o: nat, now: int) {
    o in k.hits && now < k.hits[o].until
  }

  predicate Remembered(k: WaitKeys, o: nat, now: int) {
    o in k.infos && now < k.infos[o].until
  }

  /** The answer about row u, as the client sees it. */
  predicate InfoIs(info: Info, z: State, u: nat, isNew: bool) {
    && u < |z.users|
    && var b := z.users[u].book;
    && info.user == u && info.status == b.status && info.isNew == isNew && info.phoneVerified == b.phone.Some?
    && info.step == NextStep(b.status, b.phone.Some?)
  }

  /** Main result: every call counts; it is refused exactly from the thirty-first within the minute of its counter
      on.  An answer of the last five minutes is repeated and touches no row; otherwise the caller's row is
      queued and told about, and the answer kept for five minutes. */
  lemma WaitlistAnswers(s: State, k: WaitKeys, cfg: Config, o: nat, now: int)
    requires Inv(s)
    ensures var (z, k', reply) := WaitlistAsked(s, k, cfg, o, now);
            && (reply == NoOpenId <==> o == 0)
            && (reply == TooMany <==> o != 0 && Counting(k, o, now) && k.hits[o].count >= 30)
            && k'.hits == (if o == 0 then k.hits
                           else k.hits[o := if Counting(k, o, now) then Hits(k.hits[o].count + 1, k.hits[o].until)
                                            else Hits(1, now + 60 * SECOND)])
            && (if reply.Told? && !Remembered(k, o, now)
                then && z == Queued(s, cfg, o) && k'.infos == k.infos[o := Cached(reply.info, now + 300 * SECOND)]
                     && InfoIs(reply.info, z, reply.info.user, !Knows(s.users, o))
                     && z.users[reply.info.user].openId == o
                else && z == s && k'.infos == k.infos
                     && (reply.Told? ==> reply.info == k.infos[o].info))
  {
    FindsIff(s.users, o, 0);
    assert HitsAfter(k.hits, o, now).count > 30 <==> Counting(k, o, now) && k.hits[o].count >= 30;
  }

  datatype Ask = Ask(openId: nat, at: int)

  /** The tables and keys after the first n waitlist calls. */
  function AfterAsks(s: State, k: WaitKeys, cfg: Config, asks: seq<Ask>, n: nat): (State, WaitKeys)
    requires n <= |asks|
  {
    if n == 0 then (s, k)
    else
      var (x, y) := AfterAsks(s, k, cfg, asks, n - 1);
      var (z, k', _) := WaitlistAsked(x, y, cfg, asks[n - 1].openId, asks[n - 1].at);
      (z, k')
  }

  /** How many of the first n calls are by open id o. */
  function AsksOf(asks: seq<Ask>, o: nat, n: nat): nat
    requires n <= |asks|
  {
    if n == 0 then 0 else AsksOf(asks, o, n - 1) + (if asks[n - 1].openId == o then 1 else 0)
  }

  /** All within the minute that the first call opens. */
  predicate WithinAMinute(asks: seq<Ask>) {
    forall i :: 0 <= i < |asks| ==> asks[0].at <= asks[i].at < asks[0].at + 60 * SECOND
  }

  lemma {:induction false} HitsInAMinute(s: State, k: WaitKeys, cfg: Config, asks: seq<Ask>, n: nat)
    requires Inv(s) && 0 < n <= |asks| && WithinAMinute(asks)
    requires asks[0].openId != 0 && !Counting(k, asks[0].openId, asks[0].at)
    ensures var (x, y) := AfterAsks(s, k, cfg, asks, n); var o := asks[0].openId;
            Inv(x) && o in y.hits && y.hits[o] == Hits(AsksOf(asks, o, n), asks[0].at + 60 * SECOND)
  {
    var (x, y) := AfterAsks(s, k, cfg, asks, n - 1);
    var ask := asks[n - 1];
    if n > 1 {
      HitsInAMinute(s, k, cfg, asks, n - 1);
    } else {
      assert AsksOf(asks, asks[0].openId, 0) == 0;
    }
    WaitlistAnswers(x, y, cfg, ask.openId, ask.at);
    QueueKeeps(x, cfg, ask.openId);
  }

  /** Main result: of the calls an open id makes within a minute of its first after a quiet one, exactly the first
      thirty are answered, whoever else asks meanwhile and whatever Redis remembers. */
  lemma ThirtyAMinute(s: State, k: WaitKeys, cfg: Config, asks: seq<Ask>, n: nat)
    requires Inv(s) && n < |asks| && WithinAMinute(asks) && asks[n].openId == asks[0].openId
    requires asks[0].openId != 0 && !Counting(k, asks[0].openId, asks[0].at)
    ensures var (x, y) := AfterAsks(s, k, cfg, asks, n);
            WaitlistAsked(x, y, cfg, asks[n].openId, asks[n].at).2 == TooMany
            <==> AsksOf(asks, asks[n].openId, n) >= 30
  {
    var (x, y) := AfterAsks(s, k, cfg, asks, n);
    if n > 0 {
      HitsInAMinute(s, k, cfg, asks, n);
    } else {
      assert AsksOf(asks, asks[0].openId, 0) == 0;
    }
    WaitlistAnswers(x, y, cfg, asks[n].openId, asks[n].at);
  }
}
