/** ValidateReminderBatch: which users of a reminder message are still to be reminded
    (internal/service/checkin.go:83-196, internal/cache/user.go:73-121). */
module ReminderFilter {
  import opened Wrappers
  import opened Decimal

  const SECOND := 1_000_000_000

  /** What the message remembers of a user's settings. */
  datatype Snapshot = Snapshot(remindAt: string, deadline: string)

  /** A cache value; `Nothing` is the placeholder for a user without settings. */
  datatype Cached = Nothing | Settings(enabled: bool, remindAt: string, deadline: string, updatedAt: int)

  /** The message's scheduled_at, in nanoseconds if it can be parsed. */
  datatype Schedule = Unset | Garbled | At(instant: int)

  datatype Lists = Lists(processNow: seq<int>, republish: seq<int>, skipped: seq<int>)

  datatype Outcome = Sorted(lists: Lists) | BadUserId

  datatype Route = ProcessNow | Republish | Skip

  /** `keys` lists the keys of the message's map in the order the runtime happens to visit them. */
  ghost predicate Visits(keys: seq<string>, snapshots: map<string, Snapshot>) {
    (forall k :: k in keys <==> k in snapshots) && (forall i, j :: 0 <= i < j < |keys| ==> keys[i] != keys[j])
  }

  /** The cached settings of user u, under the key FormatInt writes. */
  function SettingsOf(cache: map<string, Cached>, u: int): Option<Cached> {
    var k := FormatInt(u);
    if k in cache && cache[k].Settings? then Some(cache[k]) else None
  }

  /** Where a user goes. */
  function RouteOf(snapshots: map<string, Snapshot>, cache: map<string, Cached>, schedule: Schedule, u: int): Route {
    var k := FormatInt(u);
    if k !in snapshots then Skip
    else match SettingsOf(cache, u)
      case None => ProcessNow
      case Some(c) =>
        if schedule.At? && c.updatedAt * SECOND > schedule.instant then Skip
        else if !c.enabled then Skip
        else if c.remindAt != snapshots[k].remindAt then Republish
        else ProcessNow
  }

  /** The users of a list that take route r, in order. */
  function Taking(us: seq<int>, r: Route, snapshots: map<string, Snapshot>, cache: map<string, Cached>,
                  schedule: Schedule): seq<int> {
    if us == [] then []
    else
      var u := us[|us| - 1];
      Taking(us[..|us| - 1], r, snapshots, cache, schedule)
          + (if RouteOf(snapshots, cache, schedule, u) == r then [u] else [])
  }

  function Ids(keys: seq<string>): seq<int> {
    seq(|keys|, i requires 0 <= i < |keys| => ParseInt(keys[i]).value)
  }

  function Positive(us: seq<int>): seq<int> {
    if us == [] then []
    else Positive(us[..|us| - 1]) + (if us[|us| - 1] > 0 then [us[|us| - 1]] else [])
  }

  predicate AllParse(keys: seq<string>) {
    forall i :: 0 <= i < |keys| ==> ParseInt(keys[i]).ok
  }

  // ----- the calls -----

  /** What the cache answers: the keys that hit, with their values. */
  method BatchGet(cache: map<string, Cached>, keys: seq<string>) returns (hits: seq<string>)
    ensures forall k :: k in hits <==> k in keys && k in cache
  {
    hits := [];
    for i := 0 to |keys|
      invariant forall k :: k in hits <==> k in keys[..i] && k in cache
    {
      assert keys[..i + 1] == keys[..i] + [keys[i]];
      if keys[i] in cache {
        hits := hits + [keys[i]];
      }
    }
    assert keys[..|keys|] == keys;
  }

  function Formatted(us: seq<int>): seq<string> {
    seq(|us|, i requires 0 <= i < |us| => FormatInt(us[i]))
  }

  predicate AllInt64(us: seq<int>) {
    forall i :: 0 <= i < |us| ==> IsInt64(us[i])
  }

  /** Parsing a key of the cache gives the user it was formatted from. */
  lemma KeyIsUser(us: seq<int>, k: string)
    requires AllInt64(us) && k in Formatted(us)
    ensures ParseInt(k).value in us && FormatInt(ParseInt(k).value) == k
  {
    var i :| 0 <= i < |us| && Formatted(us)[i] == k;
    ParseFormat(us[i]);
  }

  ghost predicate FromCache(found: map<int, Cached>, cache: map<string, Cached>) {
    forall u :: u in found ==> SettingsOf(cache, u) == Some(found[u])
  }

  predicate Covers(found: map<int, Cached>, hits: seq<string>, cache: map<string, Cached>) {
    forall i :: 0 <= i < |hits| ==> hits[i] in cache && (cache[hits[i]].Settings? ==> ParseInt(hits[i]).value in found)
  }

  lemma CoversUsers(found: map<int, Cached>, hits: seq<string>, cache: map<string, Cached>, us: seq<int>, u: int)
    requires AllInt64(us) && Covers(found, hits, cache) && u in us && u !in found
    requires forall k :: k in hits <==> k in Formatted(us) && k in cache
    ensures SettingsOf(cache, u) == None
  {
    var i :| 0 <= i < |us| && us[i] == u;
    ParseFormat(u);
    assert Formatted(us)[i] == FormatInt(u);
  }

  /** One more hit, written back under the user its key is parsed to. */
  lemma AddFound(found: map<int, Cached>, hits: seq<string>, k: string, cache: map<string, Cached>, us: seq<int>)
    requires FromCache(found, cache) && Covers(found, hits, cache) && AllInt64(us) && k in Formatted(us) && k in cache
    ensures var more := if cache[k].Settings? then found[ParseInt(k).value := cache[k]] else found;
            FromCache(more, cache) && Covers(more, hits + [k], cache)
  {
    KeyIsUser(us, k);
  }

  /** Every user asked for whose key holds settings, and no other. */
  method BatchGetUserSettings(cache: map<string, Cached>, us: seq<int>) returns (found: map<int, Cached>)
    requires AllInt64(us)
    ensures FromCache(found, cache)
    ensures forall u :: u in us && u !in found ==> SettingsOf(cache, u) == None
  {
    var hits := BatchGet(cache, Formatted(us));
    found := map[];
    for i := 0 to |hits|
      invariant FromCache(found, cache) && Covers(found, hits[..i], cache)
    {
      var keyStr := hits[i];
      AddFound(found, hits[..i], keyStr, cache, us);
      assert hits[..i + 1] == hits[..i] + [keyStr];
      if cache[keyStr].Settings? {
        found := found[ParseInt(keyStr).value := cache[keyStr]];
      }
    }
    assert hits[..|hits|] == hits;
    forall u | u in us && u !in found
      ensures SettingsOf(cache, u) == None
    {
      CoversUsers(found, hits, cache, us, u);
    }
  }

  /** The body of the loop over users: which list the user is appended to. */
  method RouteUser(snapshots: map<string, Snapshot>, cache: map<string, Cached>, schedule: Schedule,
                   cachedSettings: map<int, Cached>, u: int)
    returns (route: Route)
    requires schedule != Garbled
    requires u in cachedSettings ==> SettingsOf(cache, u) == Some(cachedSettings[u])
    requires u !in cachedSettings ==> SettingsOf(cache, u) == None
    ensures route == RouteOf(snapshots, cache, schedule, u)
  {
    if FormatInt(u) !in snapshots {
      return Skip;
    }
    var snapshot := snapshots[FormatInt(u)];
    if u !in cachedSettings {
      return ProcessNow;
    }
    var cached := cachedSettings[u];
    if schedule != Unset && cached.updatedAt * SECOND > schedule.instant {
      return Skip;
    }
    if !cached.enabled {
      return Skip;
    }
    if cached.remindAt != snapshot.remindAt {
      return Republish;
    }
    return ProcessNow;
  }

  /** The lists after the users so far. */
  function Routed(us: seq<int>, snapshots: map<string, Snapshot>, cache: map<string, Cached>,
                  schedule: Schedule): Lists {
    Lists(Taking(us, ProcessNow, snapshots, cache, schedule),
          Taking(us, Republish, snapshots, cache, schedule),
          Taking(us, Skip, snapshots, cache, schedule))
  }

  function Appended(l: Lists, u: int, r: Route): Lists {
    match r
    case ProcessNow => l.(processNow := l.processNow + [u])
    case Republish => l.(republish := l.republish + [u])
    case Skip => l.(skipped := l.skipped + [u])
  }

  lemma RoutedAppend(us: seq<int>, u: int, snapshots: map<string, Snapshot>, cache: map<string, Cached>,
                     schedule: Schedule)
    ensures Routed(us + [u], snapshots, cache, schedule)
            == Appended(Routed(us, snapshots, cache, schedule), u, RouteOf(snapshots, cache, schedule, u))
  {
    assert (us + [u])[..|us|] == us;
  }

  method RouteUsers(snapshots: map<string, Snapshot>, us: seq<int>, schedule: Schedule, cache: map<string, Cached>)
      returns (lists: Lists)
    requires AllInt64(us) && schedule != Garbled
    ensures lists == Routed(us, snapshots, cache, schedule)
  {
    var cachedSettings := BatchGetUserSettings(cache, us);
    lists := Lists([], [], []);
    for i := 0 to |us|
      invariant lists == Routed(us[..i], snapshots, cache, schedule)
    {
      var route := RouteUser(snapshots, cache, schedule, cachedSettings, us[i]);
      assert us[..i + 1] == us[..i] + [us[i]];
      RoutedAppend(us[..i], us[i], snapshots, cache, schedule);
      lists := Appended(lists, us[i], route);
    }
    assert us[..|us|] == us;
  }

  method SkipAll(keys: seq<string>) returns (skipped: seq<int>)
    ensures skipped == Positive(Ids(keys))
  {
    skipped := [];
    for i := 0 to |keys|
      invariant skipped == Positive(Ids(keys)[..i])
    {
      var u := ParseInt(keys[i]).value;
      assert Ids(keys)[..i + 1][..i] == Ids(keys)[..i];
      if u > 0 {
        skipped := skipped + [u];
      }
    }
    assert Ids(keys)[..|keys|] == Ids(keys);
  }

  method ParseKeys(keys: seq<string>) returns (ok: bool, us: seq<int>)
    ensures ok <==> AllParse(keys)
    ensures ok ==> us == Ids(keys) && AllInt64(us)
  {
    us := [];
    for i := 0 to |keys|
      invariant us == Ids(keys[..i]) && AllParse(keys[..i]) && AllInt64(us)
    {
      var p := ParseInt(keys[i]);
      if !p.ok {
        return false, us;
      }
      assert keys[..i + 1] == keys[..i] + [keys[i]];
      us := us + [p.value];
    }
    assert keys[..|keys|] == keys;
    return true, us;
  }

  method ValidateReminderBatch(snapshots: map<string, Snapshot>, keys: seq<string>, schedule: Schedule,
                               cache: map<string, Cached>)
    returns (outcome: Outcome)
    requires Visits(keys, snapshots)
    ensures schedule == Garbled ==> outcome == Sorted(Lists([], [], Positive(Ids(keys))))
    ensures schedule != Garbled && !AllParse(keys) ==> outcome == BadUserId
    ensures schedule != Garbled && AllParse(keys) ==> outcome == Sorted(Routed(Ids(keys), snapshots, cache, schedule))
  {
    if |keys| == 0 {
      return Sorted(Lists([], [], []));
    }
    if schedule == Garbled {
      var skipped := SkipAll(keys);
      return Sorted(Lists([], [], skipped));
    }
    var ok, us := ParseKeys(keys);
    if !ok {
      return BadUserId;
    }
    var lists := RouteUsers(snapshots, us, schedule, cache);
    return Sorted(lists);
  }

  // ----- the lists are a partition -----

  function Listed(l: Lists): multiset<int> {
    multiset(l.processNow) + multiset(l.republish) + multiset(l.skipped)
  }

  lemma ListedAppend(l: Lists, u: int, r: Route)
    ensures Listed(Appended(l, u, r)) == Listed(l) + multiset{u}
  {
  }

  function AllOf(us: seq<int>, snapshots: map<string, Snapshot>, cache: map<string, Cached>,
                 schedule: Schedule): multiset<int> {
    Listed(Routed(us, snapshots, cache, schedule))
  }

  /** No user is lost, made up or listed more often than the message lists it. */
  lemma {:induction false} NobodyIsLost(us: seq<int>, snapshots: map<string, Snapshot>, cache: map<string, Cached>,
                                        schedule: Schedule)
    ensures AllOf(us, snapshots, cache, schedule) == multiset(us)
  {
    if us != [] {
      var before, u := us[..|us| - 1], us[|us| - 1];
      NobodyIsLost(before, snapshots, cache, schedule);
      assert us == before + [u];
      RoutedAppend(before, u, snapshots, cache, schedule);
      ListedAppend(Routed(before, snapshots, cache, schedule), u, RouteOf(snapshots, cache, schedule, u));
    }
  }

  lemma {:induction false} TakingIsRoute(us: seq<int>, r: Route, snapshots: map<string, Snapshot>,
                                         cache: map<string, Cached>, schedule: Schedule, u: int)
    ensures u in Taking(us, r, snapshots, cache, schedule) <==> u in us && RouteOf(snapshots, cache, schedule, u) == r
  {
    if us != [] {
      TakingIsRoute(us[..|us| - 1], r, snapshots, cache, schedule, u);
      assert us == us[..|us| - 1] + [us[|us| - 1]];
    }
  }

  predicate Distinct(us: seq<int>) {
    forall i, j :: 0 <= i < j < |us| ==> us[i] != us[j]
  }

  lemma {:induction false} DistinctIsOnce(us: seq<int>)
    ensures Distinct(us) <==> forall u :: multiset(us)[u] <= 1
  {
    if us != [] {
      var k := |us| - 1;
      DistinctIsOnce(us[..k]);
      assert us == us[..k] + [us[k]];
      if Distinct(us) {
        assert us[k] !in us[..k];
        assert multiset(us[..k])[us[k]] == 0;
      } else if Distinct(us[..k]) {
        var i :| 0 <= i < k && us[i] == us[k];
        assert us[..k][i] == us[k];
        assert us[k] in multiset(us[..k]);
        assert multiset(us)[us[k]] > 1;
      } else {
        var u :| multiset(us[..k])[u] > 1;
        assert multiset(us)[u] > 1;
      }
    }
  }

  predicate AllCanonical(keys: seq<string>) {
    forall i :: 0 <= i < |keys| ==> Canonical(keys[i])
  }

  lemma CanonicalKeys(keys: seq<string>, snapshots: map<string, Snapshot>)
    requires Visits(keys, snapshots) && AllCanonical(keys)
    ensures AllParse(keys) && Distinct(Ids(keys))
    ensures forall u :: u in Ids(keys) ==> FormatInt(u) in snapshots
    ensures forall u :: IsInt64(u) && FormatInt(u) in snapshots ==> u in Ids(keys)
  {
    var us := Ids(keys);
    forall i | 0 <= i < |keys|
      ensures FormatInt(us[i]) == keys[i] && keys[i] in snapshots
    {
      assert Canonical(keys[i]);
    }
    forall u | IsInt64(u) && FormatInt(u) in snapshots
      ensures u in us
    {
      ParseFormat(u);
      assert FormatInt(u) in keys;
      var i :| 0 <= i < |keys| && keys[i] == FormatInt(u);
      assert us[i] == u;
    }
  }

  /** The cached settings of user u, if there are any. */
  predicate IsCached(cache: map<string, Cached>, u: int) {
    FormatInt(u) in cache && cache[FormatInt(u)].Settings?
  }

  /** They were changed after the message was scheduled, by the second. */
  predicate ChangedSince(cache: map<string, Cached>, schedule: Schedule, u: int)
    requires IsCached(cache, u)
  {
    match schedule
    case At(instant) => instant < cache[FormatInt(u)].updatedAt * SECOND
    case _ => false
  }

  /** What the cache says against the user's entry in the message. */
  datatype Standing = Unlisted | Unknown | Outdated | Off | Moved | Same

  function StandingOf(snapshots: map<string, Snapshot>, cache: map<string, Cached>, schedule: Schedule,
                      u: int): Standing
  {
    if FormatInt(u) !in snapshots then Unlisted
    else if !IsCached(cache, u) then Unknown
    else if ChangedSince(cache, schedule, u) then Outdated
    else if cache[FormatInt(u)].enabled == false then Off
    else if cache[FormatInt(u)].remindAt != snapshots[FormatInt(u)].remindAt then Moved
    else Same
  }

  /** Main result: for any list of users, a user is processed exactly if nothing is cached or nothing has changed,
      republished exactly if only the remind time has changed, and skipped exactly if the settings were
      changed after the message was scheduled or check-ins are off (or no key reads as the user writes it). */
  lemma ListedIff(us: seq<int>, snapshots: map<string, Snapshot>, cache: map<string, Cached>, schedule: Schedule,
                  u: int)
    ensures var standing := StandingOf(snapshots, cache, schedule, u);
            && (u in Taking(us, ProcessNow, snapshots, cache, schedule) <==> u in us && standing in {Unknown, Same})
            && (u in Taking(us, Republish, snapshots, cache, schedule) <==> u in us && standing == Moved)
            && (u in Taking(us, Skip, snapshots, cache, schedule)
                <==> u in us && standing in {Unlisted, Outdated, Off})
  {
    TakingIsRoute(us, ProcessNow, snapshots, cache, schedule, u);
    TakingIsRoute(us, Republish, snapshots, cache, schedule, u);
    TakingIsRoute(us, Skip, snapshots, cache, schedule, u);
  }

  /** Main result: with the keys the service itself writes, every user of the message lands in exactly one list,
      once: processed exactly if nothing is cached, or what is cached is not newer than the message, enabled, and
      has the same remind time; republished exactly if it is not newer and enabled, but has another one; skipped
      exactly if it is newer or not enabled. */
  lemma CanonicalPartition(snapshots: map<string, Snapshot>, keys: seq<string>, cache: map<string, Cached>,
                           schedule: Schedule, u: int)
    requires Visits(keys, snapshots) && AllCanonical(keys) && IsInt64(u)
    ensures var us := Ids(keys); var k := FormatInt(u);
            && AllOf(us, snapshots, cache, schedule)[u] == (if k in snapshots then 1 else 0)
            && (u in Taking(us, ProcessNow, snapshots, cache, schedule) <==>
                  && k in snapshots
                  && (IsCached(cache, u) ==>
                        && !ChangedSince(cache, schedule, u) && cache[k].enabled
                        && cache[k].remindAt == snapshots[k].remindAt))
            && (u in Taking(us, Republish, snapshots, cache, schedule) <==>
                  && k in snapshots && IsCached(cache, u)
                  && !ChangedSince(cache, schedule, u) && cache[k].enabled
                  && cache[k].remindAt != snapshots[k].remindAt)
            && (u in Taking(us, Skip, snapshots, cache, schedule) <==>
                  && k in snapshots && IsCached(cache, u)
                  && (ChangedSince(cache, schedule, u) || !cache[k].enabled))
  {
    CanonicalKeys(keys, snapshots);
    NobodyIsLost(Ids(keys), snapshots, cache, schedule);
    DistinctIsOnce(Ids(keys));
    ListedIff(Ids(keys), snapshots, cache, schedule, u);
    if FormatInt(u) in snapshots {
      assert u in multiset(Ids(keys));
    } else {
      assert u !in multiset(Ids(keys));
    }
  }

  /** The ids that an unreadable schedule skips: all that are positive, as often as they are listed. */
  lemma {:induction false} PositiveIsAll(us: seq<int>, u: int)
    ensures multiset(Positive(us))[u] == (if u > 0 then multiset(us)[u] else 0)
  {
    if us != [] {
      PositiveIsAll(us[..|us| - 1], u);
      assert us == us[..|us| - 1] + [us[|us| - 1]];
    }
  }

  /** For any keys: nobody is listed twice exactly if no two keys are the same number. */
  lemma ListedOnceIff(snapshots: map<string, Snapshot>, keys: seq<string>, cache: map<string, Cached>,
                      schedule: Schedule)
    requires Visits(keys, snapshots)
    ensures (forall u :: AllOf(Ids(keys), snapshots, cache, schedule)[u] <= 1) <==> Distinct(Ids(keys))
  {
    NobodyIsLost(Ids(keys), snapshots, cache, schedule);
    DistinctIsOnce(Ids(keys));
  }
}
