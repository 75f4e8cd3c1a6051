/** The sliding-window rate limiter (internal/middleware/ratelimit.go), for one key.

    Redis keeps a sorted set of request times that is pruned and expires, and a block key.  The
    reference it is compared with is the plain log of every request ever made.  Times are
    nanoseconds, no two requests have the same one, and scores are exact. */
module RateLimit {

  const SECOND := 1_000_000_000

  datatype Config = Config(window: int, maxRequests: int, blockDuration: int)

  /** Windows and blocks are configured in whole seconds. */
  predicate Sensible(c: Config) {
    c.window > 0 && c.maxRequests >= 0 && c.blockDuration > 0 && c.window % SECOND == 0 && c.blockDuration % SECOND == 0
  }

  datatype Verdict = Blocked | Rejected | Admitted

  /** `count` is what the answer's headers are computed from; a blocked request has none. */
  datatype Answer = Answer(verdict: Verdict, count: int)

  // ----- what Redis holds -----

  /** The members of the sorted set, the instant its key expires and the instant the block key expires. */
  datatype Keys = Keys(zset: set<int>, expireAt: int, blockedUntil: int)

  const NO_KEYS := Keys({}, 0, 0)

  function Members(k: Keys, now: int): set<int> {
    if now < k.expireAt then k.zset else {}
  }

  /** ZREMRANGEBYSCORE is inclusive at both ends. */
  function Pruned(times: set<int>, windowStart: int): set<int> {
    set t | t in times && !(0 <= t <= windowStart)
  }

  /** One pass through the middleware. */
  function Asked(k: Keys, c: Config, now: int): (Keys, Answer) {
    if now < k.blockedUntil then (k, Answer(Blocked, 0))
    else
      var times := Pruned(Members(k, now), now - c.window) + {now};
      var keys := Keys(times, now + c.window + 10 * SECOND, k.blockedUntil);
      if |times| <= c.maxRequests then (keys, Answer(Admitted, |times|))
      else (keys.(blockedUntil := now + c.blockDuration), Answer(Rejected, |times|))
  }

  class Redis {
    var zset: set<int>
    var expireAt: int
    var blockedUntil: int

    function Contents(): Keys
      reads this
    {
      Keys(zset, expireAt, blockedUntil)
    }
  }

  class Limiter {
    const config: Config
    const redis: Redis

    constructor (c: Config, r: Redis)
      ensures config == c && redis == r
    {
      config := c;
      redis := r;
    }

    method Allow(now: int) returns (allowed: bool, count: int)
      modifies redis`zset, redis`expireAt
      ensures redis.zset == Pruned(Members(old(redis.Contents()), now), now - config.window) + {now}
      ensures redis.expireAt == now + config.window + 10 * SECOND
      ensures count == |redis.zset| && (allowed <==> count <= config.maxRequests)
    {
      if now >= redis.expireAt {
        redis.zset := {};
      }
      var windowStart := now - config.window;
      redis.zset := set t | t in redis.zset && !(0 <= t <= windowStart);
      redis.zset := redis.zset + {now};
      count := |redis.zset|;
      redis.expireAt := now + config.window + 10 * SECOND;
      allowed := count <= config.maxRequests;
    }

    method Block(now: int)
      modifies redis`blockedUntil
      ensures redis.blockedUntil == now + config.blockDuration
    {
      redis.blockedUntil := now + config.blockDuration;
    }

    method IsBlocked(now: int) returns (blocked: bool)
      ensures blocked <==> now < redis.blockedUntil
    {
      blocked := now < redis.blockedUntil;
    }

    /** The handler that RateLimitMiddleware returns. */
    method Handle(now: int) returns (answer: Answer)
      modifies redis
      ensures (redis.Contents(), answer) == Asked(old(redis.Contents()), config, now)
    {
      var blocked := IsBlocked(now);
      if blocked {
        return Answer(Blocked, 0);
      }
      var allowed, count := Allow(now);
      if !allowed {
        Block(now);
        return Answer(Rejected, count);
      }
      return Answer(Admitted, count);
    }
  }

  // ----- the reference: the whole history -----

  datatype Request = Request(at: int, config: Config)

  datatype Entry = Entry(at: int, config: Config, verdict: Verdict)

  /** Times of the requests after `since` that were not blocked. */
  function Recent(log: seq<Entry>, since: int): set<int> {
    set e | e in log && e.verdict != Blocked && since < e.at :: e.at
  }

  /** A rejection whose block is still running. */
  ghost predicate StillBlocked(log: seq<Entry>, now: int) {
    exists e :: e in log && e.verdict == Rejected && now < e.at + e.config.blockDuration
  }

  /** What the answer should be, by counting in the full history. */
  ghost function Judged(log: seq<Entry>, c: Config, now: int): Answer {
    if StillBlocked(log, now) then Answer(Blocked, 0)
    else
      var count := |Recent(log, now - c.window)| + 1;
      Answer(if count <= c.maxRequests then Admitted else Rejected, count)
  }

  // ----- runs -----

  predicate Timely(now: int, rs: seq<Request>) {
    (forall i :: 0 <= i < |rs| ==> now < rs[i].at && Sensible(rs[i].config)) &&
    (forall i, j :: 0 <= i < j < |rs| ==> rs[i].at < rs[j].at)
  }

  /** The log and the keys after a run. */
  function Run(k: Keys, log: seq<Entry>, rs: seq<Request>): (Keys, seq<Entry>)
    decreases |rs|
  {
    if rs == [] then (k, log)
    else
      var (k', answer) := Asked(k, rs[0].config, rs[0].at);
      Run(k', log + [Entry(rs[0].at, rs[0].config, answer.verdict)], rs[1..])
  }

  /** Every limiter on the key has at least this window. */
  predicate WindowsAtLeast(rs: seq<Request>, w: int) {
    forall i :: 0 <= i < |rs| ==> rs[i].config.window >= w
  }

  /** How the keys stand to the log at instant `now`, for windows of at least w. */
  ghost predicate Agrees(k: Keys, log: seq<Entry>, now: int, w: int) {
    && 0 <= now
    && (forall e :: e in log ==> 0 <= e.at <= now)
    && (forall t :: t in k.zset ==> t in Recent(log, -1))
    && (forall t :: t in Recent(log, -1) ==> (t in k.zset || t + w <= now) && t + w < k.expireAt)
    && (forall later :: now < later ==> (later < k.blockedUntil <==> StillBlocked(log, later)))
  }

  lemma RecentSince(log: seq<Entry>, since: int, t: int)
    requires forall e :: e in log ==> 0 <= e.at
    ensures t in Recent(log, since) <==> t in Recent(log, -1) && since < t
  {
    if t in Recent(log, -1) && since < t {
      var e :| e in log && e.verdict != Blocked && e.at == t;
    }
  }

  /** The pruned set is the window of the history. */
  lemma WindowIsExact(k: Keys, log: seq<Entry>, now: int, w: int, at: int)
    requires Agrees(k, log, now, w) && now < at
    ensures Pruned(Members(k, at), at - w) == Recent(log, at - w)
    ensures at !in Recent(log, at - w)
  {
    var kept, recent := Pruned(Members(k, at), at - w), Recent(log, at - w);
    forall t | t in kept + recent
      ensures t in kept && t in recent && t != at
    {
      RecentSince(log, at - w, t);
    }
  }

  /** Main result: on a key whose limiters all have at least this one's window, the pruned and expiring
      set gives the very answer, and the very count, that the full history gives. */
  lemma AnswersByHistory(k: Keys, log: seq<Entry>, now: int, c: Config, at: int)
    requires Agrees(k, log, now, c.window) && now < at
    ensures Asked(k, c, at).1 == Judged(log, c, at)
  {
    WindowIsExact(k, log, now, c.window, at);
  }

  lemma RecentAppend(log: seq<Entry>, e: Entry, since: int)
    ensures Recent(log + [e], since)
            == Recent(log, since) + (if e.verdict != Blocked && since < e.at then {e.at} else {})
  {
    var all := log + [e];
    forall t
      ensures t in Recent(all, since)
              <==> t in Recent(log, since) || (e.verdict != Blocked && since < e.at && t == e.at)
    {
      if t in Recent(log, since) {
        var x :| x in log && x.verdict != Blocked && since < x.at && x.at == t;
        assert x in all;
      }
      if e.verdict != Blocked && since < e.at && t == e.at {
        assert e in all;
      }
    }
  }

  lemma BlocksAppend(log: seq<Entry>, e: Entry, later: int)
    ensures StillBlocked(log + [e], later)
            <==> StillBlocked(log, later) || (e.verdict == Rejected && later < e.at + e.config.blockDuration)
  {
    var all := log + [e];
    if StillBlocked(log, later) {
      var x :| x in log && x.verdict == Rejected && later < x.at + x.config.blockDuration;
      assert x in all;
    }
    assert e in all;
  }

  lemma AgreesAfter(k: Keys, log: seq<Entry>, now: int, w: int, c: Config, at: int)
    requires Agrees(k, log, now, w) && now < at && Sensible(c) && w <= c.window
    ensures var (k', answer) := Asked(k, c, at); Agrees(k', log + [Entry(at, c, answer.verdict)], at, w)
  {
    var (k', answer) := Asked(k, c, at);
    var e := Entry(at, c, answer.verdict);
    RecentAppend(log, e, -1);
    forall t | t in Recent(log + [e], -1)
      ensures (t in k'.zset || t + w <= at) && t + w < k'.expireAt
    {
      if t in Recent(log, -1) {
        var x :| x in log && x.at == t;
      }
    }
    forall later | at < later
      ensures later < k'.blockedUntil <==> StillBlocked(log + [e], later)
    {
      BlocksAppend(log, e, later);
    }
  }

  lemma {:induction false} AgreesAlways(k: Keys, log: seq<Entry>, now: int, w: int, rs: seq<Request>)
    requires Agrees(k, log, now, w) && Timely(now, rs) && WindowsAtLeast(rs, w)
    ensures var (k', log') := Run(k, log, rs); Agrees(k', log', if rs == [] then now else rs[|rs| - 1].at, w)
    decreases |rs|
  {
    if rs != [] {
      var e := Entry(rs[0].at, rs[0].config, Asked(k, rs[0].config, rs[0].at).1.verdict);
      AgreesAfter(k, log, now, w, rs[0].config, rs[0].at);
      AgreesAlways(Asked(k, rs[0].config, rs[0].at).0, log + [e], rs[0].at, w, rs[1..]);
    }
  }

  lemma AgreesAtStart(w: int)
    requires w >= 0
    ensures Agrees(NO_KEYS, [], 0, w)
  {
  }

  /** Main result, from the beginning: after any run, the next request is answered as the log says. */
  lemma NextAnswer(rs: seq<Request>, c: Config, at: int)
    requires Timely(0, rs) && WindowsAtLeast(rs, c.window) && Sensible(c)
    requires 0 < at && (rs != [] ==> rs[|rs| - 1].at < at)
    ensures var (k, log) := Run(NO_KEYS, [], rs); Asked(k, c, at).1 == Judged(log, c, at)
  {
    AgreesAtStart(c.window);
    AgreesAlways(NO_KEYS, [], 0, c.window, rs);
    var (k, log) := Run(NO_KEYS, [], rs);
    AnswersByHistory(k, log, if rs == [] then 0 else rs[|rs| - 1].at, c, at);
  }

  // ----- what that gives the callers -----

  /** Times of the admitted requests in (from, to]. */
  function AdmittedIn(log: seq<Entry>, from: int, to: int): set<int> {
    set e | e in log && e.verdict == Admitted && from < e.at <= to :: e.at
  }

  /** Entry e got what its past says. */
  ghost predicate FairEntry(past: seq<Entry>, e: Entry, w: int, limit: int) {
    && (forall x :: x in past ==> x.at < e.at)
    && (e.verdict == Admitted ==> |Recent(past, e.at - w)| + 1 <= limit)
    && (e.verdict == Blocked <==> StillBlocked(past, e.at))
  }

  ghost predicate Fair(log: seq<Entry>, w: int, limit: int) {
    log == [] || (Fair(log[..|log| - 1], w, limit) && FairEntry(log[..|log| - 1], log[|log| - 1], w, limit))
  }

  lemma {:induction false} FairPrefix(log: seq<Entry>, w: int, limit: int, i: nat)
    requires Fair(log, w, limit) && i < |log|
    ensures FairEntry(log[..i], log[i], w, limit)
  {
    var k := |log| - 1;
    if i < k {
      FairPrefix(log[..k], w, limit, i);
      assert log[..k][..i] == log[..i];
    }
  }

  predicate LimitsAtMost(rs: seq<Request>, limit: int) {
    forall i :: 0 <= i < |rs| ==> rs[i].config.maxRequests <= limit
  }

  lemma SubsetIsSmaller(a: set<int>, b: set<int>)
    requires a <= b
    ensures |a| <= |b|
  {
    assert b == a + (b - a);
  }

  lemma KeptCovers(k: Keys, log: seq<Entry>, now: int, w: int, at: int, window: int)
    requires Agrees(k, log, now, w) && now < at && w <= window
    ensures Recent(log, at - w) <= Pruned(Members(k, at), at - window)
    ensures at !in Pruned(Members(k, at), at - window)
  {
    var recent := Recent(log, at - w);
    forall t | t in recent
      ensures t in Pruned(Members(k, at), at - window)
    {
      RecentSince(log, at - w, t);
    }
    assert at !in Recent(log, -1);
  }

  /** What an admission shows, though the set may hold more than the window of length w. */
  lemma AdmittedIsFair(k: Keys, log: seq<Entry>, now: int, w: int, c: Config, at: int)
    requires Agrees(k, log, now, w) && now < at && w <= c.window && Asked(k, c, at).1.verdict == Admitted
    ensures |Recent(log, at - w)| + 1 <= c.maxRequests
  {
    KeptCovers(k, log, now, w, at, c.window);
    SubsetIsSmaller(Recent(log, at - w), Pruned(Members(k, at), at - c.window));
  }

  lemma FairAfter(k: Keys, log: seq<Entry>, now: int, w: int, limit: int, c: Config, at: int)
    requires Agrees(k, log, now, w) && now < at && w <= c.window && c.maxRequests <= limit
    ensures FairEntry(log, Entry(at, c, Asked(k, c, at).1.verdict), w, limit)
  {
    if Asked(k, c, at).1.verdict == Admitted {
      AdmittedIsFair(k, log, now, w, c, at);
    }
  }

  lemma {:induction false} FairAlways(k: Keys, log: seq<Entry>, now: int, w: int, limit: int, rs: seq<Request>)
    requires Agrees(k, log, now, w) && Timely(now, rs) && WindowsAtLeast(rs, w) && LimitsAtMost(rs, limit)
    requires Fair(log, w, limit)
    ensures Fair(Run(k, log, rs).1, w, limit)
    decreases |rs|
  {
    if rs != [] {
      var c, at := rs[0].config, rs[0].at;
      var (k', answer) := Asked(k, c, at);
      var longer := log + [Entry(at, c, answer.verdict)];
      AgreesAfter(k, log, now, w, c, at);
      FairAfter(k, log, now, w, limit, c, at);
      assert longer[..|log|] == log;
      FairAlways(k', longer, at, w, limit, rs[1..]);
    }
  }

  lemma SpanAppend(past: seq<Entry>, e: Entry, from: int, to: int)
    ensures AdmittedIn(past + [e], from, to)
            == AdmittedIn(past, from, to) + (if e.verdict == Admitted && from < e.at <= to then {e.at} else {})
  {
    var all := past + [e];
    var grown := AdmittedIn(past, from, to) + (if e.verdict == Admitted && from < e.at <= to then {e.at} else {});
    forall t | t in AdmittedIn(past, from, to)
      ensures t in AdmittedIn(all, from, to)
    {
      var x :| x in past && x.verdict == Admitted && from < x.at <= to && x.at == t;
      assert x in all;
    }
    assert e in all;
    assert AdmittedIn(all, from, to) <= grown;
  }

  lemma SpanIsCounted(past: seq<Entry>, e: Entry, from: int, w: int)
    requires from < e.at <= from + w
    ensures AdmittedIn(past, from, from + w) <= Recent(past, e.at - w)
  {
  }

  /** The last admission in a span counted all the others. */
  lemma SpanStep(past: seq<Entry>, e: Entry, w: int, limit: int, from: int)
    requires FairEntry(past, e, w, limit) && |AdmittedIn(past, from, from + w)| <= limit
    ensures |AdmittedIn(past + [e], from, from + w)| <= limit
  {
    SpanAppend(past, e, from, from + w);
    if e.verdict == Admitted && from < e.at <= from + w {
      SpanIsCounted(past, e, from, w);
      SubsetIsSmaller(AdmittedIn(past, from, from + w), Recent(past, e.at - w));
    }
  }

  lemma {:induction false} SpanIsLimited(log: seq<Entry>, w: int, limit: int, from: int)
    requires Fair(log, w, limit) && limit >= 0
    ensures |AdmittedIn(log, from, from + w)| <= limit
  {
    if log != [] {
      var k := |log| - 1;
      SpanIsLimited(log[..k], w, limit, from);
      SpanStep(log[..k], log[k], w, limit, from);
      assert log == log[..k] + [log[k]];
    }
  }

  /** Request f came while the block that entry e started was running. */
  predicate InBlockOf(e: Entry, f: Entry) {
    e.verdict == Rejected && f.at < e.at + e.config.blockDuration
  }

  /** Main result: in any run, no span of one window admits more requests than the limit, and no
      request within the block after a rejection is let through. */
  lemma WindowAndBlockHold(rs: seq<Request>, w: int, limit: int, from: int)
    requires Timely(0, rs) && WindowsAtLeast(rs, w) && LimitsAtMost(rs, limit) && w >= 0 && limit >= 0
    ensures var log := Run(NO_KEYS, [], rs).1;
            && |AdmittedIn(log, from, from + w)| <= limit
            && forall i, j :: 0 <= i < j < |log| && InBlockOf(log[i], log[j]) ==> log[j].verdict == Blocked
  {
    AgreesAtStart(w);
    FairAlways(NO_KEYS, [], 0, w, limit, rs);
    var log := Run(NO_KEYS, [], rs).1;
    SpanIsLimited(log, w, limit, from);
    forall i, j | 0 <= i < j < |log| && InBlockOf(log[i], log[j])
      ensures log[j].verdict == Blocked
    {
      FairPrefix(log, w, limit, j);
      assert log[i] in log[..j];
    }
  }

  // ----- one limiter on each key, as mounted -----

  const AUTH := Config(60 * SECOND, 5, 900 * SECOND)
  const CAPTCHA := Config(60 * SECOND, 5, 1800 * SECOND)
  const JOURNEY_SETTINGS := Config(600 * SECOND, 1, 3600 * SECOND)

  predicate AllFrom(rs: seq<Request>, c: Config) {
    forall i :: 0 <= i < |rs| ==> rs[i].config == c
  }

  /** Main result: each prefix in use belongs to one mounted limiter, so on every key that can occur no window
      admits more than that limiter's limit, and its block holds. */
  lemma MountedLimitersHold(rs: seq<Request>, c: Config, from: int)
    requires c in {AUTH, CAPTCHA, JOURNEY_SETTINGS} && Timely(0, rs) && AllFrom(rs, c)
    ensures var log := Run(NO_KEYS, [], rs).1;
            && |AdmittedIn(log, from, from + c.window)| <= c.maxRequests
            && forall i, j :: 0 <= i < j < |log| && InBlockOf(log[i], log[j]) ==> log[j].verdict == Blocked
  {
    WindowAndBlockHold(rs, c.window, c.maxRequests, from);
    RunKeepsConfig(NO_KEYS, [], rs, c);
    assert Logs(Run(NO_KEYS, [], rs).1, c);
  }

  predicate Logs(log: seq<Entry>, c: Config) {
    forall i :: 0 <= i < |log| ==> log[i].config == c
  }

  lemma {:induction false} RunKeepsConfig(k: Keys, log: seq<Entry>, rs: seq<Request>, c: Config)
    requires AllFrom(rs, c) && Logs(log, c)
    ensures Logs(Run(k, log, rs).1, c)
    decreases |rs|
  {
    if rs != [] {
      var e := Entry(rs[0].at, rs[0].config, Asked(k, rs[0].config, rs[0].at).1.verdict);
      assert Logs(log + [e], c);
      RunKeepsConfig(Asked(k, rs[0].config, rs[0].at).0, log + [e], rs[1..], c);
    }
  }

  // ----- several limiters on one key: when the history is still told right -----

  predicate From(rs: seq<Request>, mounted: set<Config>) {
    forall i :: 0 <= i < |rs| ==> rs[i].config in mounted
  }

  /** A run of requests to the mounted limiters, and an instant after it. */
  predicate Scene(rs: seq<Request>, at: int, mounted: set<Config>) {
    Timely(0, rs) && From(rs, mounted) && 0 < at && (rs != [] ==> rs[|rs| - 1].at < at)
  }

  ghost predicate AnsweredRight(rs: seq<Request>, c: Config, at: int) {
    var (k, log) := Run(NO_KEYS, [], rs);
    Asked(k, c, at).1 == Judged(log, c, at)
  }

  /** After every run, a request to limiter c is answered, and counted, as the full history says. */
  ghost predicate AlwaysRight(mounted: set<Config>, c: Config) {
    forall rs, at :: Scene(rs, at, mounted) ==> AnsweredRight(rs, c, at)
  }

  lemma RunOfTwo(r1: Request, r2: Request, k1: Keys, k2: Keys, v1: Verdict, v2: Verdict)
    requires Asked(NO_KEYS, r1.config, r1.at).0 == k1 && Asked(NO_KEYS, r1.config, r1.at).1.verdict == v1
    requires Asked(k1, r2.config, r2.at).0 == k2 && Asked(k1, r2.config, r2.at).1.verdict == v2
    ensures Run(NO_KEYS, [], [r1, r2]) == (k2, [Entry(r1.at, r1.config, v1), Entry(r2.at, r2.config, v2)])
  {
    var e1, e2 := Entry(r1.at, r1.config, v1), Entry(r2.at, r2.config, v2);
    assert [r1, r2][1..] == [r2] && [] + [e1] == [e1] && [e1] + [e2] == [e1, e2];
    assert Run(k1, [e1], [r2]) == (k2, [e1, e2]);
  }

  /** The first request is admitted, whatever the limiter. */
  lemma FirstAdmitted(c: Config, at: int)
    requires Sensible(c) && c.maxRequests >= 1 && at > 0
    ensures Asked(NO_KEYS, c, at) == (Keys({at}, at + c.window + 10 * SECOND, 0), Answer(Admitted, 1))
  {
    assert Pruned({}, at - c.window) + {at} == {at};
  }

  /** One that comes when the only request before is outside the window, too. */
  lemma NextAdmitted(c: Config, t: int, expireAt: int)
    requires Sensible(c) && c.maxRequests >= 1 && 0 < t
    ensures var at := t + c.window;
            Asked(Keys({t}, expireAt, 0), c, at) == (Keys({at}, at + c.window + 10 * SECOND, 0), Answer(Admitted, 1))
  {
    assert Pruned({t}, t) == {} && Pruned({}, t) == {};
  }

  lemma CountsTwo(c: Config, t: int, expireAt: int)
    requires Sensible(c) && 0 < t && t + 1 < expireAt && c.window > 1
    ensures Asked(Keys({t}, expireAt, 0), c, t + 1).1.count == 2
  {
    assert Pruned({t}, t + 1 - c.window) + {t + 1} == {t, t + 1} && |{t, t + 1}| == 2;
  }

  lemma HistoryCountsThree(e1: Entry, e2: Entry, c: Config, at: int)
    requires e1.verdict == Admitted == e2.verdict && e1.at < e2.at && at - c.window < e1.at
    ensures Judged([e1, e2], c, at).count == 3
  {
    assert e1 in [e1, e2] && e2 in [e1, e2];
    assert Recent([e1, e2], at - c.window) == {e1.at, e2.at} && |{e1.at, e2.at}| == 2;
  }

  /** Long, then short when long's request is just outside the short window, then long at once: Redis
      has pruned the first request, the history has not. */
  lemma PrunedTooSoon(short: Config, long: Config)
    requires Sensible(short) && Sensible(long) && short.window < long.window
    requires short.maxRequests >= 1 && long.maxRequests >= 1
    ensures var rs := [Request(1, long), Request(1 + short.window, short)];
            Scene(rs, 2 + short.window, {short, long}) && !AnsweredRight(rs, long, 2 + short.window)
  {
    var t := 1 + short.window;
    var k1 := Keys({1}, 1 + long.window + 10 * SECOND, 0);
    var k2 := Keys({t}, t + short.window + 10 * SECOND, 0);
    FirstAdmitted(long, 1);
    NextAdmitted(short, 1, k1.expireAt);
    RunOfTwo(Request(1, long), Request(t, short), k1, k2, Admitted, Admitted);
    CountsTwo(long, t, k2.expireAt);
    HistoryCountsThree(Entry(1, long, Admitted), Entry(t, short, Admitted), long, t + 1);
  }

  lemma RightIfWidest(mounted: set<Config>, c: Config)
    requires Sensible(c) && forall d :: d in mounted ==> d.window >= c.window
    ensures AlwaysRight(mounted, c)
  {
    forall rs, at | Scene(rs, at, mounted)
      ensures AnsweredRight(rs, c, at)
    {
      NextAnswer(rs, c, at);
    }
  }

  /** Main result: of limiters that share a key, one answers by the history after every run exactly if
      none of the others has a shorter window. */
  lemma AlwaysRightIffNoShorter(mounted: set<Config>, c: Config)
    requires c in mounted && forall d :: d in mounted ==> Sensible(d) && d.maxRequests >= 1
    ensures AlwaysRight(mounted, c) <==> forall d :: d in mounted ==> d.window >= c.window
  {
    if forall d :: d in mounted ==> d.window >= c.window {
      RightIfWidest(mounted, c);
    } else {
      var d :| d in mounted && d.window < c.window;
      PrunedTooSoon(d, c);
      var rs := [Request(1, c), Request(1 + d.window, d)];
      assert Scene(rs, 2 + d.window, mounted);
    }
  }

  // ----- when two admissions can share one window -----

  /** Two admissions of the long limiter within one of its windows. */
  predicate Leak(log: seq<Entry>, i: int, j: int, long: Config) {
    && 0 <= i < j < |log| && log[i].config == long == log[j].config
    && log[i].verdict == Admitted == log[j].verdict && log[j].at < log[i].at + long.window
  }

  ghost predicate CanLeak(short: Config, long: Config) {
    exists rs, i, j :: Timely(0, rs) && From(rs, {short, long}) && Leak(Run(NO_KEYS, [], rs).1, i, j, long)
  }

  /** The key must expire inside the long window.  Its last request then went to the short limiter: it was
      admitted after the short window, or it was rejected at once and its block is over. */
  predicate LeavesGap(short: Config, long: Config) {
    || 2 * short.window + 10 * SECOND < long.window
    || (1 + short.window + 10 * SECOND < long.window && 1 + short.blockDuration < long.window)
  }

  lemma RunOfThree(r1: Request, r2: Request, r3: Request, k1: Keys, k2: Keys, v1: Verdict, v2: Verdict)
    requires Asked(NO_KEYS, r1.config, r1.at).0 == k1 && Asked(NO_KEYS, r1.config, r1.at).1.verdict == v1
    requires Asked(k1, r2.config, r2.at).0 == k2 && Asked(k1, r2.config, r2.at).1.verdict == v2
    ensures Run(NO_KEYS, [], [r1, r2, r3]).1
            == [Entry(r1.at, r1.config, v1), Entry(r2.at, r2.config, v2),
                Entry(r3.at, r3.config, Asked(k2, r3.config, r3.at).1.verdict)]
  {
    var e1, e2 := Entry(r1.at, r1.config, v1), Entry(r2.at, r2.config, v2);
    var e3 := Entry(r3.at, r3.config, Asked(k2, r3.config, r3.at).1.verdict);
    assert [r1, r2, r3][1..] == [r2, r3] && [r2, r3][1..] == [r3];
    assert [] + [e1] == [e1] && [e1] + [e2] == [e1, e2] && [e1, e2] + [e3] == [e1, e2, e3];
    assert Run(k2, [e1, e2], [r3]).1 == [e1, e2, e3];
    assert Run(k1, [e1], [r2, r3]).1 == [e1, e2, e3];
  }

  lemma AdmittedAfterExpiry(k: Keys, c: Config, at: int)
    requires Sensible(c) && c.maxRequests >= 1 && k.expireAt <= at && k.blockedUntil <= at
    ensures Asked(k, c, at).1 == Answer(Admitted, 1)
  {
    assert Pruned({}, at - c.window) + {at} == {at};
  }

  /** The short limiter is asked at `middle`, and the long one again when the key has expired. */
  lemma GapLeaks(short: Config, long: Config, middle: int, last: int, k2: Keys, verdict: Verdict)
    requires Sensible(short) && Sensible(long) && short.maxRequests == 1 == long.maxRequests
    requires 1 < middle < last < 1 + long.window && k2.expireAt <= last && k2.blockedUntil <= last
    requires Asked(Keys({1}, 1 + long.window + 10 * SECOND, 0), short, middle).0 == k2
    requires Asked(Keys({1}, 1 + long.window + 10 * SECOND, 0), short, middle).1.verdict == verdict
    ensures CanLeak(short, long)
  {
    var r1, r2, r3 := Request(1, long), Request(middle, short), Request(last, long);
    FirstAdmitted(long, 1);
    RunOfThree(r1, r2, r3, Keys({1}, 1 + long.window + 10 * SECOND, 0), k2, Admitted, verdict);
    AdmittedAfterExpiry(k2, long, last);
    var rs := [r1, r2, r3];
    assert Timely(0, rs) && From(rs, {short, long});
    assert Leak(Run(NO_KEYS, [], rs).1, 0, 2, long);
  }

  lemma GapCanLeak(short: Config, long: Config)
    requires Sensible(short) && Sensible(long) && short.maxRequests == 1 == long.maxRequests
    requires LeavesGap(short, long)
    ensures CanLeak(short, long)
  {
    var k1 := Keys({1}, 1 + long.window + 10 * SECOND, 0);
    if 2 * short.window + 10 * SECOND < long.window {
      var middle := 1 + short.window;
      var last := middle + short.window + 10 * SECOND;
      NextAdmitted(short, 1, k1.expireAt);
      GapLeaks(short, long, middle, last, Keys({middle}, last, 0), Admitted);
    } else {
      var expiry, block := 2 + short.window + 10 * SECOND, 2 + short.blockDuration;
      assert Pruned({1}, 2 - short.window) + {2} == {1, 2} && |{1, 2}| == 2;
      GapLeaks(short, long, 2, if expiry > block then expiry else block, Keys({1, 2}, expiry, block), Rejected);
    }
  }

  /** Since the long limiter's admission at `first`: x was the last request that was not blocked. */
  predicate Holding(k: Keys, first: int, x: int, short: Config, long: Config) {
    && first <= x && x in k.zset
    && (|| k.expireAt == x + long.window + 10 * SECOND
        || (k.expireAt == x + short.window + 10 * SECOND
            && (x >= first + short.window || (x > first && k.blockedUntil >= x + short.blockDuration))))
  }

  lemma OneLeft(times: set<int>, x: int, now: int)
    requires x in times && x != now
    ensures |times + {now}| >= 2
  {
    SubsetIsSmaller({x, now}, times + {now});
  }

  /** As long as no long window is over, each request either is blocked or becomes the last one. */
  lemma HoldingKept(k: Keys, first: int, x: int, short: Config, long: Config, c: Config, at: int) returns (y: int)
    requires Sensible(short) && Sensible(long) && short.maxRequests == 1 == long.maxRequests && c in {short, long}
    requires Holding(k, first, x, short, long) && 0 <= x < at < first + long.window
    ensures Holding(Asked(k, c, at).0, first, y, short, long) && x <= y <= at
  {
    if at < k.blockedUntil {
      y := x;
    } else {
      y := at;
      if c == short && Asked(k, c, at).1.verdict == Admitted {
        if at < k.expireAt && x > at - c.window {
          OneLeft(Pruned(Members(k, at), at - c.window), x, at);
        }
      }
    }
  }

  lemma AdmittedLeavesGap(k: Keys, first: int, x: int, short: Config, long: Config, at: int)
    requires Sensible(short) && Sensible(long) && short.maxRequests == 1 == long.maxRequests
    requires Holding(k, first, x, short, long) && 0 <= x < at < first + long.window
    requires Asked(k, long, at).1.verdict == Admitted
    ensures LeavesGap(short, long)
  {
    if at < k.expireAt {
      OneLeft(Pruned(Members(k, at), at - long.window), x, at);
    }
  }

  lemma {:induction false} RunExtends(k: Keys, log: seq<Entry>, rs: seq<Request>)
    ensures log <= Run(k, log, rs).1 && |Run(k, log, rs).1| == |log| + |rs|
    ensures rs != [] ==>
              Run(k, log, rs).1[|log|] == Entry(rs[0].at, rs[0].config, Asked(k, rs[0].config, rs[0].at).1.verdict)
    ensures forall m :: 0 <= m < |rs| ==> Run(k, log, rs).1[|log| + m].at == rs[m].at
    decreases |rs|
  {
    if rs != [] {
      var (k', answer) := Asked(k, rs[0].config, rs[0].at);
      var longer := log + [Entry(rs[0].at, rs[0].config, answer.verdict)];
      RunExtends(k', longer, rs[1..]);
      forall m | 0 <= m < |rs|
        ensures Run(k, log, rs).1[|log| + m].at == rs[m].at
      {
        if m > 0 {
          assert Run(k', longer, rs[1..]).1[|longer| + (m - 1)].at == rs[1..][m - 1].at;
        }
      }
    }
  }

  lemma {:induction false} SecondLeavesGap(k: Keys, log: seq<Entry>, rs: seq<Request>, now: int, i: int, j: int, x: int,
                                           short: Config, long: Config)
    requires Sensible(short) && Sensible(long) && short.maxRequests == 1 == long.maxRequests
    requires Timely(now, rs) && From(rs, {short, long}) && 0 <= i < |log| <= j && 0 <= x <= now
    requires Leak(Run(k, log, rs).1, i, j, long) && Holding(k, log[i].at, x, short, long)
    ensures LeavesGap(short, long)
    decreases |rs|
  {
    RunExtends(k, log, rs);
    if j == |log| {
      AdmittedLeavesGap(k, log[i].at, x, short, long, rs[0].at);
    } else {
      assert Run(k, log, rs).1[|log| + (j - |log|)].at == rs[j - |log|].at;
      var (k', answer) := Asked(k, rs[0].config, rs[0].at);
      var y := HoldingKept(k, log[i].at, x, short, long, rs[0].config, rs[0].at);
      SecondLeavesGap(k', log + [Entry(rs[0].at, rs[0].config, answer.verdict)], rs[1..], rs[0].at, i, j, y, short,
                      long);
    }
  }

  lemma {:induction false} LeakLeavesGap(k: Keys, log: seq<Entry>, rs: seq<Request>, now: int, i: int, j: int,
                                         short: Config, long: Config)
    requires Sensible(short) && Sensible(long) && short.maxRequests == 1 == long.maxRequests
    requires Timely(now, rs) && From(rs, {short, long}) && |log| <= i && 0 <= now
    requires Leak(Run(k, log, rs).1, i, j, long)
    ensures LeavesGap(short, long)
    decreases |rs|
  {
    RunExtends(k, log, rs);
    var (k', answer) := Asked(k, rs[0].config, rs[0].at);
    var longer := log + [Entry(rs[0].at, rs[0].config, answer.verdict)];
    if i == |log| {
      RunExtends(k', longer, rs[1..]);
      SecondLeavesGap(k', longer, rs[1..], rs[0].at, i, j, rs[0].at, short, long);
    } else {
      LeakLeavesGap(k', longer, rs[1..], rs[0].at, i, j, short, long);
    }
  }

  /** Main result: two limiters with a limit of one on one key can let two requests into one long window
      exactly if the key can expire inside it.  For a short block this takes no more than a window
      that is longer by ten seconds. */
  lemma TwoAdmissionsLeakIff(short: Config, long: Config)
    requires Sensible(short) && Sensible(long) && short.maxRequests == 1 == long.maxRequests
    ensures CanLeak(short, long) <==> LeavesGap(short, long)
  {
    if LeavesGap(short, long) {
      GapCanLeak(short, long);
    }
    if CanLeak(short, long) {
      var rs, i, j :| Timely(0, rs) && From(rs, {short, long}) && Leak(Run(NO_KEYS, [], rs).1, i, j, long);
      LeakLeavesGap(NO_KEYS, [], rs, 0, i, j, short, long);
    }
  }

  const USER_SETTINGS := Config(10 * SECOND, 1, 3600 * SECOND)

  /** The limiter of the user settings shares the journey limiter's prefix.  It is not mounted (its route
      has it commented out); if it were, the limit on journeys would not be kept. */
  lemma MountingSettingsWouldLeak()
    ensures CanLeak(USER_SETTINGS, JOURNEY_SETTINGS)
    ensures !AlwaysRight({USER_SETTINGS, JOURNEY_SETTINGS}, JOURNEY_SETTINGS)
  {
    TwoAdmissionsLeakIff(USER_SETTINGS, JOURNEY_SETTINGS);
    assert USER_SETTINGS in {USER_SETTINGS, JOURNEY_SETTINGS};
    AlwaysRightIffNoShorter({USER_SETTINGS, JOURNEY_SETTINGS}, JOURNEY_SETTINGS);
  }
}
