/** Token buckets (internal/ratelimit/limiter.go): one bucket allows exactly what its
    rate and burst permit, and the bounded set of per-key buckets forgets a key only
    when forgetting makes no difference. */
module RateLimiter {
  import opened Text

  const ZERO_TIME := 0
  const NANOSECONDS := 1_000_000_000.0

  /** Tokens are exact reals, times nanoseconds. */
  datatype BucketState = BucketState(tokens: real, updated: int, lastSeen: int)

  const NEW_BUCKET := BucketState(0.0, ZERO_TIME, ZERO_TIME)

  datatype Settings = Settings(rate: int, burst: int)

  predicate Validated(s: Settings) {
    0 < s.rate && 0 < s.burst
  }

  /** The tokens of `elapsed` nanoseconds. */
  function Earned(s: Settings, elapsed: int): real {
    elapsed as real / NANOSECONDS * s.rate as real
  }

  lemma EarnedAdds(s: Settings, a: int, b: int)
    ensures Earned(s, a + b) == Earned(s, a) + Earned(s, b)
  {
  }

  lemma EarnedGrows(s: Settings, a: int, b: int)
    requires Validated(s) && a <= b
    ensures Earned(s, a) <= Earned(s, b)
  {
    var x, y := a as real / NANOSECONDS, b as real / NANOSECONDS;
    assert x <= y;
    assert x * s.rate as real <= y * s.rate as real;
  }

  // ---------------------------------------------------------------------
  // One bucket
  // ---------------------------------------------------------------------

  /** The bucket when a call at `now` has been credited, before it is decided. */
  function Credited(s: Settings, b: BucketState, now: int): BucketState {
    var c := if b.updated == ZERO_TIME then BucketState(s.burst as real, now, b.lastSeen) else b;
    if c.updated < now then
      var tokens := c.tokens + Earned(s, now - c.updated);
      BucketState(if tokens > s.burst as real then s.burst as real else tokens, now, c.lastSeen)
    else c
  }

  function Decided(b: BucketState, now: int): BucketState {
    BucketState(if b.tokens < 1.0 then b.tokens else b.tokens - 1.0, b.updated, now)
  }

  class Bucket {
    var tokens: real
    var updated: int
    var lastSeen: int

    function View(): BucketState
      reads this
    {
      BucketState(tokens, updated, lastSeen)
    }

    constructor ()
      ensures View() == NEW_BUCKET
    {
      tokens, updated, lastSeen := 0.0, ZERO_TIME, ZERO_TIME;
    }

    method Allow(now: int, s: Settings) returns (allowed: bool)
      modifies this
      ensures View() == Decided(Credited(s, old(View()), now), now)
      ensures allowed == (1.0 <= Credited(s, old(View()), now).tokens)
    {
      if updated == ZERO_TIME {
        tokens := s.burst as real;
        updated := now;
      }
      var elapsed := now - updated;
      if elapsed > 0 {
        tokens := tokens + Earned(s, elapsed);
        if tokens > s.burst as real {
          tokens := s.burst as real;
        }
        updated := now;
      }
      lastSeen := now;
      if tokens < 1.0 { return false; }
      tokens := tokens - 1.0;
      allowed := true;
    }
  }

  // ---------------------------------------------------------------------
  // A bucket allows exactly what rate and burst permit
  // ---------------------------------------------------------------------

  /** The bucket after calls at `times`. */
  function After(s: Settings, times: seq<int>): BucketState {
    if times == [] then NEW_BUCKET
    else
      var now := times[|times| - 1];
      Decided(Credited(s, After(s, times[..|times| - 1]), now), now)
  }

  /** The answer to call `i`. */
  predicate Answer(s: Settings, times: seq<int>, i: nat)
    requires i < |times|
  {
    1.0 <= Credited(s, After(s, times[..i]), times[i]).tokens
  }

  /** The latest time seen up to call `i`: clocks may step back. */
  function Latest(times: seq<int>, i: nat): (u: int)
    requires i < |times|
    ensures forall k :: 0 <= k <= i ==> times[k] <= u
    ensures u in times
  {
    if i == 0 then times[0]
    else
      var u := Latest(times, i - 1);
      if u < times[i] then times[i] else u
  }

  /** How many of the calls `j`, ..., `i - 1` were allowed. */
  function Allowed(s: Settings, times: seq<int>, j: nat, i: nat): nat
    requires j <= i <= |times|
  {
    if j == i then 0 else Allowed(s, times, j, i - 1) + (if Answer(s, times, i - 1) then 1 else 0)
  }

  /** What rate and burst leave of the window that starts at call `j`. */
  function Allowance(s: Settings, times: seq<int>, j: nat, i: nat): real
    requires j <= i < |times|
  {
    s.burst as real + Earned(s, Latest(times, i) - Latest(times, j)) - Allowed(s, times, j, i) as real
  }

  /** Call `i` fits into the window that starts at call `j`. */
  predicate Fits(s: Settings, times: seq<int>, j: nat, i: nat)
    requires j <= i < |times|
  {
    Allowed(s, times, j, i) as real + 1.0 <= s.burst as real + Earned(s, Latest(times, i) - Latest(times, j))
  }

  /** No window up to call `i` is full. */
  predicate FitsAll(s: Settings, times: seq<int>, i: nat)
    requires i < |times|
  {
    forall j :: 0 <= j <= i ==> Fits(s, times, j, i)
  }

  /** The bucket's level when call `i` is decided. */
  function Level(s: Settings, times: seq<int>, i: nat): real
    requires i < |times|
  {
    Credited(s, After(s, times[..i]), times[i]).tokens
  }

  predicate Clocked(times: seq<int>) {
    forall k :: 0 <= k < |times| ==> times[k] != ZERO_TIME
  }

  lemma {:induction false} UpdatedIsLatest(s: Settings, times: seq<int>, i: nat)
    requires Clocked(times) && i < |times|
    ensures Credited(s, After(s, times[..i]), times[i]).updated == Latest(times, i)
  {
    hide Earned;
    if i > 0 {
      UpdatedIsLatest(s, times, i - 1);
      assert times[..i][..i - 1] == times[..i - 1];
    }
  }

  lemma LevelStep(s: Settings, times: seq<int>, i: nat)
    requires Clocked(times) && 0 < i < |times|
    ensures var level := Level(s, times, i - 1) - (if Answer(s, times, i - 1) then 1.0 else 0.0)
        + Earned(s, Latest(times, i) - Latest(times, i - 1));
      Level(s, times, i) ==
        if Latest(times, i) == Latest(times, i - 1) || level <= s.burst as real then level else s.burst as real
  {
    UpdatedIsLatest(s, times, i - 1);
    assert Earned(s, 0) == 0.0;
    hide Earned;
    assert times[..i][..i - 1] == times[..i - 1];
    assert After(s, times[..i]) == Decided(Credited(s, After(s, times[..i - 1]), times[i - 1]), times[i - 1]);
    assert Latest(times, i - 1) in times;
  }

  lemma AllowanceStep(s: Settings, times: seq<int>, j: nat, i: nat)
    requires j < i < |times|
    ensures Allowance(s, times, j, i) == Allowance(s, times, j, i - 1)
      - (if Answer(s, times, i - 1) then 1.0 else 0.0) + Earned(s, Latest(times, i) - Latest(times, i - 1))
  {
    EarnedAdds(s, Latest(times, i - 1) - Latest(times, j), Latest(times, i) - Latest(times, i - 1));
  }

  /** The bucket's level is the least allowance of all windows; `tight` is a window that
      attains it. */
  lemma {:induction false} LevelIsLeastAllowance(s: Settings, times: seq<int>, i: nat) returns (tight: nat)
    requires Validated(s) && Clocked(times) && i < |times|
    ensures forall j :: 0 <= j <= i ==> Level(s, times, i) <= Allowance(s, times, j, i)
    ensures tight <= i && Level(s, times, i) == Allowance(s, times, tight, i)
    ensures Level(s, times, i) <= s.burst as real
  {
    tight := 0;
    assert Earned(s, 0) == 0.0;
    if i > 0 {
      tight := LevelIsLeastAllowance(s, times, i - 1);
      LevelStep(s, times, i);
      EarnedGrows(s, 0, Latest(times, i) - Latest(times, i - 1));
      hide Earned;
      forall j | 0 <= j < i
        ensures Allowance(s, times, j, i) == Allowance(s, times, j, i - 1)
          - (if Answer(s, times, i - 1) then 1.0 else 0.0) + Earned(s, Latest(times, i) - Latest(times, i - 1))
      {
        AllowanceStep(s, times, j, i);
      }
      if Level(s, times, i) != Allowance(s, times, tight, i) { tight := i; }
    }
  }

  /** Exactness: a call is allowed if and only if no window up to it is over its rate and
      burst; this holds whichever way the clock steps. */
  lemma AllowedIffNoWindowIsFull(s: Settings, times: seq<int>, i: nat)
    requires Validated(s) && Clocked(times) && i < |times|
    ensures Answer(s, times, i) <==> FitsAll(s, times, i)
  {
    hide Earned;
    var tight := LevelIsLeastAllowance(s, times, i);
    forall j | 0 <= j <= i
      ensures Fits(s, times, j, i) <==> 1.0 <= Allowance(s, times, j, i)
    {
    }
    if Answer(s, times, i) {
      forall j | 0 <= j <= i
        ensures Fits(s, times, j, i)
      {
        assert Level(s, times, i) <= Allowance(s, times, j, i);
      }
    } else {
      assert !Fits(s, times, tight, i);
    }
  }

  /** No window ever gets more than its burst and rate. */
  lemma {:induction false} NoWindowIsExceeded(s: Settings, times: seq<int>, j: nat, i: nat)
    requires Validated(s) && Clocked(times) && j <= i < |times|
    ensures Allowed(s, times, j, i + 1) as real <= s.burst as real + Earned(s, Latest(times, i) - Latest(times, j))
  {
    assert Earned(s, 0) == 0.0;
    hide Earned;
    if Answer(s, times, i) {
      AllowedIffNoWindowIsFull(s, times, i);
      assert Fits(s, times, j, i);
    } else if j < i {
      NoWindowIsExceeded(s, times, j, i - 1);
      EarnedGrows(s, Latest(times, i - 1) - Latest(times, j), Latest(times, i) - Latest(times, j));
    }
  }

  // ---------------------------------------------------------------------
  // Buckets by key
  // ---------------------------------------------------------------------

  type States = map<string, BucketState>

  const ANONYMOUS := "anonymous"

  function KeyName(key: string): string {
    if key == "" then ANONYMOUS else key
  }

  /** Empty keys share the key "anonymous"; otherwise different keys are different. */
  predicate SameKey(a: string, b: string) {
    a == b || (a in {"", "anonymous"} && b in {"", "anonymous"})
  }

  lemma SameKeyIff(a: string, b: string)
    ensures SameKey(a, b) <==> KeyName(a) == KeyName(b)
  {
  }

  function Live(states: States, now: int, idleTTL: int): States {
    map k | k in states && now - states[k].lastSeen < idleTTL :: states[k]
  }

  predicate LeastRecent(states: States, k: string) {
    k in states && forall x :: x in states ==> states[k].lastSeen <= states[x].lastSeen
  }

  /** `makeRoom`: idle keys go; if there is still no room, a least recently seen one. */
  ghost predicate RoomMade(before: States, after: States, now: int, idleTTL: int, maxKeys: int) {
    var live := Live(before, now, idleTTL);
    if |live| < maxKeys then after == live
    else exists victim :: LeastRecent(live, victim) && after == live - {victim}
  }

  function StateOf(states: States, k: string): BucketState {
    if k in states then states[k] else NEW_BUCKET
  }

  /** A call for key `k` against the states left for it. */
  function Called(s: Settings, states: States, k: string, now: int): States {
    states[k := Decided(Credited(s, StateOf(states, k), now), now)]
  }

  predicate Grants(s: Settings, states: States, k: string, now: int) {
    1.0 <= Credited(s, StateOf(states, k), now).tokens
  }

  /** A known key needs no room. */
  ghost predicate RoomFor(k: string, before: States, after: States, now: int, idleTTL: int, maxKeys: int) {
    if k in before then after == before else RoomMade(before, after, now, idleTTL, maxKeys)
  }

  datatype Call = Ask(key: string, now: int) | Release(key: string)

  /** What one call makes of the states `before` it. */
  ghost predicate CallMade(s: Settings, idleTTL: int, maxKeys: int, before: States, c: Call, after: States,
                           answer: bool)
  {
    match c
    case Release(key) => after == before - {KeyName(key)}
    case Ask(key, now) =>
      exists room :: RoomFor(KeyName(key), before, room, now, idleTTL, maxKeys) &&
        after == Called(s, room, KeyName(key), now) && answer == Grants(s, room, KeyName(key), now)
  }

  lemma SameForNew(s: Settings, room: States, asked: States, k: string, now: int)
    requires asked == room || (asked == room[k := NEW_BUCKET] && k !in room)
    ensures Called(s, asked, k, now) == Called(s, room, k, now)
    ensures Grants(s, asked, k, now) == Grants(s, room, k, now)
  {
    hide Credited, Decided;
  }

  class KeyedLimiter {
    const s: Settings
    const maxKeys: int
    const idleTTL: int
    var states: map<string, Bucket>

    ghost function View(): States
      reads this, states.Values
    {
      map k | k in states :: states[k].View()
    }

    ghost predicate Valid()
      reads this
    {
      && Validated(s) && 0 < maxKeys && 0 < idleTTL && |states| <= maxKeys && "" !in states && Apart()
    }

    /** Every key has a bucket of its own. */
    ghost predicate Apart()
      reads this
    {
      forall j, k :: j in states && k in states && j != k ==> states[j] != states[k]
    }

    constructor (s: Settings, maxKeys: int, idleTTL: int)
      requires Validated(s) && 0 < maxKeys && 0 < idleTTL
      ensures Valid() && View() == map[]
      ensures this.s == s && this.maxKeys == maxKeys && this.idleTTL == idleTTL
    {
      this.s, this.maxKeys, this.idleTTL, states := s, maxKeys, idleTTL, map[];
    }

    /** At most `maxKeys` buckets are ever kept. */
    method Allow(key: string, now: int) returns (allowed: bool)
      requires Valid()
      modifies this`states, states.Values
      ensures Valid() && CallMade(s, idleTTL, maxKeys, old(View()), Call.Ask(key, now), View(), allowed)
    {
      var k := KeyName(key);
      ghost var room;
      if k in states {
        room := View();
      } else {
        room := AddWithRoom(k, now);
      }
      hide RoomMade, Grants, Called;
      ghost var asked := View();
      SameForNew(s, room, asked, k, now);
      allowed := Ask(k, now);
    }

    method AddWithRoom(k: string, now: int) returns (ghost room: States)
      requires Valid() && k !in states && k != ""
      modifies this`states
      ensures Valid() && k in states && RoomMade(old(View()), room, now, idleTTL, maxKeys)
      ensures View() == room[k := NEW_BUCKET] && k !in room
      ensures fresh(states[k]) && states.Keys <= old(states).Keys + {k}
      ensures forall x :: x in states && x != k ==> states[x] == old(states)[x]
    {
      MakeRoom(now);
      room := View();
      Add(k);
    }

    /** A new bucket for `k`. */
    method Add(k: string)
      requires Valid() && k !in states && |states| < maxKeys && k != ""
      modifies this`states
      ensures Valid() && k in states && View() == old(View())[k := NEW_BUCKET]
      ensures fresh(states[k]) && states == old(states)[k := states[k]]
    {
      var b := new Bucket();
      states := states[k := b];
    }

    method Ask(k: string, now: int) returns (allowed: bool)
      requires Valid() && k in states
      modifies states[k]
      ensures Valid() && View() == Called(s, old(View()), k, now) && allowed == Grants(s, old(View()), k, now)
    {
      allowed := states[k].Allow(now, s);
    }

    method MakeRoom(now: int)
      requires Valid()
      modifies this`states
      ensures Valid() && |states| < maxKeys && states.Keys <= old(states.Keys)
      ensures forall k :: k in states ==> states[k] == old(states)[k]
      ensures RoomMade(old(View()), View(), now, idleTTL, maxKeys)
    {
      hide Live;
      RemoveIdle(now);
      if |states| < maxKeys { return; }
      RemoveLeastRecent();
    }

    method RemoveLeastRecent()
      requires Valid() && states != map[]
      modifies this`states
      ensures Valid() && |states| < |old(states)| && states.Keys <= old(states.Keys)
      ensures forall k :: k in states ==> states[k] == old(states)[k]
      ensures exists victim :: LeastRecent(old(View()), victim) && View() == old(View()) - {victim}
    {
      var oldest := LeastRecentKey();
      ghost var before := View();
      assert LeastRecent(before, oldest);
      Forget(oldest);
    }

    method Forget(k: string)
      requires Valid()
      modifies this`states
      ensures Valid() && states == old(states) - {k} && View() == old(View()) - {k}
      ensures states.Keys == old(states.Keys) - {k} && (k in old(states) ==> |states| < |old(states)|)
    {
      assert (states - {k}).Keys == states.Keys - {k};
      states := states - {k};
    }

    method RemoveIdle(now: int)
      requires Valid()
      modifies this`states
      ensures Valid() && states.Keys <= old(states.Keys)
      ensures forall k :: k in states ==> states[k] == old(states)[k]
      ensures View() == Live(old(View()), now, idleTTL) && |View()| == |states|
    {
      var todo := states.Keys;
      ghost var all := states;
      ghost var before := View();
      while todo != {}
        invariant SomeGone(all, before, todo, now) && |states| <= maxKeys
        decreases todo
      {
        var k :| k in todo;
        todo := todo - {k};
        ForgetIfIdle(k, now);
      }
      assert View().Keys == states.Keys;
    }

    /** `todo` are the keys still to be looked at; `all` and `before` are how it began. */
    ghost predicate SomeGone(all: map<string, Bucket>, before: States, todo: set<string>, now: int)
      reads this, all.Values
    {
      && before.Keys == all.Keys && todo <= states.Keys <= all.Keys
      && (forall k :: k in all ==> all[k].View() == before[k])
      && (forall k :: k in states ==> states[k] == all[k])
      && forall k :: k in all ==> (k in states <==> k in todo || now - before[k].lastSeen < idleTTL)
    }

    method ForgetIfIdle(k: string, now: int)
      requires k in states
      modifies this`states
      ensures states == if now - old(states)[k].lastSeen < idleTTL then old(states) else old(states) - {k}
    {
      if now - states[k].lastSeen >= idleTTL {
        states := states - {k};
      }
    }

    method LeastRecentKey() returns (oldest: string)
      requires states != map[]
      ensures oldest in states && forall k :: k in states ==> states[oldest].lastSeen <= states[k].lastSeen
    {
      oldest :| oldest in states;
      var todo := states.Keys - {oldest};
      while todo != {}
        invariant oldest in states && todo <= states.Keys
        invariant forall k :: k in states && k !in todo ==> states[oldest].lastSeen <= states[k].lastSeen
        decreases todo
      {
        var k :| k in todo;
        todo := todo - {k};
        if states[k].lastSeen < states[oldest].lastSeen {
          oldest := k;
        }
      }
    }

    method Delete(key: string)
      requires Valid()
      modifies this`states
      ensures Valid() && CallMade(s, idleTTL, maxKeys, old(View()), Release(key), View(), true)
    {
      Forget(KeyName(key));
    }
  }

  // ---------------------------------------------------------------------
  // Forgetting a key makes no difference
  // ---------------------------------------------------------------------

  /** The states left for a call while no bucket has to make way for another. */
  function Room(states: States, k: string, now: int, idleTTL: int): States {
    if k in states then states else Live(states, now, idleTTL)
  }

  predicate HasRoom(states: States, c: Call, idleTTL: int, maxKeys: int) {
    c.Ask? && KeyName(c.key) !in states ==> |Live(states, c.now, idleTTL)| < maxKeys
  }

  /** With room, `makeRoom` has no choice. */
  lemma RoomIsDetermined(states: States, room: States, c: Call, idleTTL: int, maxKeys: int)
    requires c.Ask? && HasRoom(states, c, idleTTL, maxKeys)
    ensures RoomFor(KeyName(c.key), states, room, c.now, idleTTL, maxKeys) <==>
      room == Room(states, KeyName(c.key), c.now, idleTTL)
  {
  }

  /** The limiter with its cache, after `calls`. */
  function Cached(s: Settings, idleTTL: int, calls: seq<Call>): States {
    if calls == [] then map[]
    else
      var states := Cached(s, idleTTL, calls[..|calls| - 1]);
      match calls[|calls| - 1]
      case Release(key) => states - {KeyName(key)}
      case Ask(key, now) => Called(s, Room(states, KeyName(key), now, idleTTL), KeyName(key), now)
  }

  /** A limiter that never forgets. */
  function Unforgetting(s: Settings, calls: seq<Call>): States {
    if calls == [] then map[]
    else
      var states := Unforgetting(s, calls[..|calls| - 1]);
      match calls[|calls| - 1]
      case Release(key) => states - {KeyName(key)}
      case Ask(key, now) => Called(s, states, KeyName(key), now)
  }

  predicate CachedAnswer(s: Settings, idleTTL: int, calls: seq<Call>, i: nat)
    requires i < |calls| && calls[i].Ask?
  {
    var k := KeyName(calls[i].key);
    Grants(s, Room(Cached(s, idleTTL, calls[..i]), k, calls[i].now, idleTTL), k, calls[i].now)
  }

  predicate UnforgettingAnswer(s: Settings, calls: seq<Call>, i: nat)
    requires i < |calls| && calls[i].Ask?
  {
    Grants(s, Unforgetting(s, calls[..i]), KeyName(calls[i].key), calls[i].now)
  }

  /** A clock that shows no zero time and does not step back. */
  predicate Orderly(calls: seq<Call>) {
    && (forall i :: 0 <= i < |calls| && calls[i].Ask? ==> calls[i].now != ZERO_TIME)
    && (forall i, j :: 0 <= i < j < |calls| && calls[i].Ask? && calls[j].Ask? ==> calls[i].now <= calls[j].now)
  }

  predicate RoomThroughout(s: Settings, idleTTL: int, maxKeys: int, calls: seq<Call>) {
    forall i :: 0 <= i < |calls| ==> HasRoom(Cached(s, idleTTL, calls[..i]), calls[i], idleTTL, maxKeys)
  }

  /** The states that a limiter had before and after each of `calls`, and its answers. */
  ghost predicate IsRun(s: Settings, idleTTL: int, maxKeys: int, calls: seq<Call>, states: seq<States>,
                        answers: seq<bool>)
  {
    && |states| == |calls| + 1 && |answers| == |calls| && states[0] == map[]
    && forall i :: 0 <= i < |calls| ==>
         CallMade(s, idleTTL, maxKeys, states[i], calls[i], states[i + 1], answers[i])
  }

  /** Whatever a limiter with room for its keys does, it is what `Cached` says. */
  lemma {:induction false} RunsAreCached(s: Settings, idleTTL: int, maxKeys: int, calls: seq<Call>, states: seq<States>,
                                         answers: seq<bool>, n: nat)
    requires IsRun(s, idleTTL, maxKeys, calls, states, answers) && RoomThroughout(s, idleTTL, maxKeys, calls)
    requires n <= |calls|
    ensures states[n] == Cached(s, idleTTL, calls[..n])
    ensures n < |calls| && calls[n].Ask? ==> answers[n] == CachedAnswer(s, idleTTL, calls, n)
  {
    hide Called, Grants, RoomFor, Room;
    if n > 0 {
      RunsAreCached(s, idleTTL, maxKeys, calls, states, answers, n - 1);
      assert calls[..n][..n - 1] == calls[..n - 1];
      RoomOfCall(s, idleTTL, maxKeys, states[n - 1], calls[n - 1], states[n], answers[n - 1]);
    }
    if n < |calls| {
      assert CallMade(s, idleTTL, maxKeys, states[n], calls[n], states[n + 1], answers[n]);
      assert HasRoom(Cached(s, idleTTL, calls[..n]), calls[n], idleTTL, maxKeys);
      RoomOfCall(s, idleTTL, maxKeys, states[n], calls[n], states[n + 1], answers[n]);
    }
  }

  lemma RoomOfCall(s: Settings, idleTTL: int, maxKeys: int, before: States, c: Call, after: States, answer: bool)
    requires CallMade(s, idleTTL, maxKeys, before, c, after, answer) && HasRoom(before, c, idleTTL, maxKeys)
    ensures c.Ask? ==>
      var k := KeyName(c.key);
      var room := Room(before, k, c.now, idleTTL);
      after == Called(s, room, k, c.now) && answer == Grants(s, room, k, c.now)
  {
    hide Called, Grants, RoomFor, Room;
    if c.Ask? {
      var room :| RoomFor(KeyName(c.key), before, room, c.now, idleTTL, maxKeys) &&
        after == Called(s, room, KeyName(c.key), c.now) && answer == Grants(s, room, KeyName(c.key), c.now);
      RoomIsDetermined(before, room, c, idleTTL, maxKeys);
    }
  }

  /** Same answers, with and without forgetting. */
  predicate Transparent(s: Settings, idleTTL: int, calls: seq<Call>) {
    forall i :: 0 <= i < |calls| && calls[i].Ask? ==>
      (CachedAnswer(s, idleTTL, calls, i) <==> UnforgettingAnswer(s, calls, i))
  }

  /** A bucket that is known, at `clock`; one that was forgotten has had time to fill. */
  predicate Agrees(s: Settings, cache: States, full: States, clock: int, k: string)
    requires k in full
  {
    && full[k].updated == full[k].lastSeen <= clock && full[k].updated != ZERO_TIME && 0.0 <= full[k].tokens
    && (if k in cache then cache[k] == full[k] else s.burst as real <= Earned(s, clock - full[k].updated))
  }

  predicate AllAgree(s: Settings, cache: States, full: States, clock: int) {
    cache.Keys <= full.Keys && forall k :: k in full ==> Agrees(s, cache, full, clock, k)
  }

  /** A forgotten bucket and a new one make the same decision. */
  lemma FilledIsNew(s: Settings, b: BucketState, now: int)
    requires Validated(s) && now != ZERO_TIME && b.updated != ZERO_TIME && 0.0 <= b.tokens
    requires s.burst as real <= Earned(s, now - b.updated)
    ensures Credited(s, b, now).tokens == Credited(s, NEW_BUCKET, now).tokens == s.burst as real
    ensures Decided(Credited(s, b, now), now) == Decided(Credited(s, NEW_BUCKET, now), now)
  {
    if now <= b.updated { EarnedGrows(s, now - b.updated, 0); }
  }

  lemma LaterStillAgrees(s: Settings, cache: States, full: States, clock: int, now: int, idleTTL: int, k: string)
    requires Validated(s) && s.burst as real <= Earned(s, idleTTL) && clock <= now
    requires k in full && Agrees(s, cache, full, clock, k)
    ensures Agrees(s, Live(cache, now, idleTTL), full, now, k) && Agrees(s, cache, full, now, k)
  {
    var since := full[k].updated;
    EarnedGrows(s, clock - since, now - since);
    if idleTTL <= now - since { EarnedGrows(s, idleTTL, now - since); }
  }

  /** The asked bucket, in both limiters. */
  lemma AskAgrees(s: Settings, cache: States, full: States, room: States, k: string, now: int)
    requires Validated(s) && now != ZERO_TIME && room.Keys <= full.Keys
    requires forall x :: x in full ==> Agrees(s, room, full, now, x)
    ensures Grants(s, room, k, now) == Grants(s, full, k, now)
    ensures AllAgree(s, Called(s, room, k, now), Called(s, full, k, now), now)
  {
    if k in full && k !in room { FilledIsNew(s, full[k], now); }
    hide Earned;
    var after, fullAfter := Called(s, room, k, now), Called(s, full, k, now);
    assert after[k] == fullAfter[k];
    forall x | x in fullAfter
      ensures Agrees(s, after, fullAfter, now, x)
    {
      assert x != k ==> Agrees(s, room, full, now, x);
    }
  }

  lemma RoomAgrees(s: Settings, cache: States, full: States, now: int, idleTTL: int, k: string)
    requires Validated(s) && s.burst as real <= Earned(s, idleTTL) && AllAgree(s, cache, full, now)
    ensures var room := Room(cache, k, now, idleTTL);
      room.Keys <= full.Keys && forall x :: x in full ==> Agrees(s, room, full, now, x)
  {
    forall x | x in full
      ensures Agrees(s, Room(cache, k, now, idleTTL), full, now, x)
    {
      LaterStillAgrees(s, cache, full, now, now, idleTTL, x);
    }
  }

  lemma {:induction false} CacheAgrees(s: Settings, idleTTL: int, calls: seq<Call>, clock: int)
    requires Validated(s) && s.burst as real <= Earned(s, idleTTL) && Orderly(calls)
    requires forall i :: 0 <= i < |calls| && calls[i].Ask? ==> calls[i].now <= clock
    ensures AllAgree(s, Cached(s, idleTTL, calls), Unforgetting(s, calls), clock)
  {
    if calls != [] {
      var before, last := calls[..|calls| - 1], calls[|calls| - 1];
      var now := if last.Ask? then last.now else clock;
      CacheAgrees(s, idleTTL, before, now);
      var cache, full := Cached(s, idleTTL, before), Unforgetting(s, before);
      if last.Ask? {
        RoomAgrees(s, cache, full, now, idleTTL, KeyName(last.key));
        AskAgrees(s, cache, full, Room(cache, KeyName(last.key), now, idleTTL), KeyName(last.key), now);
      }
      hide Earned;
      cache, full := Cached(s, idleTTL, calls), Unforgetting(s, calls);
      assert AllAgree(s, cache, full, now);
      forall x | x in full
        ensures Agrees(s, cache, full, clock, x)
      {
        LaterStillAgrees(s, cache, full, now, clock, idleTTL, x);
      }
    }
  }

  /** A limiter whose time to live lets every bucket fill answers as if it never forgot. */
  lemma ForgettingIsInvisible(s: Settings, idleTTL: int, calls: seq<Call>)
    requires Validated(s) && s.burst as real <= Earned(s, idleTTL) && Orderly(calls)
    ensures Transparent(s, idleTTL, calls)
  {
    forall i | 0 <= i < |calls| && calls[i].Ask?
      ensures CachedAnswer(s, idleTTL, calls, i) <==> UnforgettingAnswer(s, calls, i)
    {
      var k, now := KeyName(calls[i].key), calls[i].now;
      CacheAgrees(s, idleTTL, calls[..i], now);
      var cache, full := Cached(s, idleTTL, calls[..i]), Unforgetting(s, calls[..i]);
      RoomAgrees(s, cache, full, now, idleTTL, k);
      AskAgrees(s, cache, full, Room(cache, k, now, idleTTL), k, now);
    }
  }

  // ---------------------------------------------------------------------
  // Every key gets exactly its own rate and burst
  // ---------------------------------------------------------------------

  /** The times of the calls for `k` since it was last released. */
  function TimesOf(calls: seq<Call>, k: string): seq<int> {
    if calls == [] then []
    else
      var earlier := TimesOf(calls[..|calls| - 1], k);
      match calls[|calls| - 1]
      case Release(key) => if SameKey(key, k) then [] else earlier
      case Ask(key, now) => if SameKey(key, k) then earlier + [now] else earlier
  }

  lemma {:induction false} UnforgettingIsPerKey(s: Settings, calls: seq<Call>, k: string)
    ensures KeyName(k) in Unforgetting(s, calls) <==> TimesOf(calls, k) != []
    ensures StateOf(Unforgetting(s, calls), KeyName(k)) == After(s, TimesOf(calls, k))
  {
    if calls != [] {
      var before := calls[..|calls| - 1];
      UnforgettingIsPerKey(s, before, k);
      SameKeyIff(calls[|calls| - 1].key, k);
      hide Credited, Decided, KeyName, SameKey;
      var times := TimesOf(before, k);
      assert calls[|calls| - 1].Ask? ==> (times + [calls[|calls| - 1].now])[..|times|] == times;
    }
  }

  lemma {:induction false} TimesAreClocked(calls: seq<Call>, k: string)
    requires Orderly(calls)
    ensures Clocked(TimesOf(calls, k))
  {
    if calls != [] { TimesAreClocked(calls[..|calls| - 1], k); }
  }

  lemma AskedLast(calls: seq<Call>, i: nat)
    requires i < |calls| && calls[i].Ask?
    ensures TimesOf(calls[..i + 1], calls[i].key) == TimesOf(calls[..i], calls[i].key) + [calls[i].now]
  {
    assert calls[..i + 1][..i] == calls[..i];
  }

  lemma UnforgettingAnswers(s: Settings, calls: seq<Call>, i: nat, times: seq<int>)
    requires i < |calls| && calls[i].Ask? && times == TimesOf(calls[..i], calls[i].key) + [calls[i].now]
    ensures UnforgettingAnswer(s, calls, i) <==> Answer(s, times, |times| - 1)
  {
    UnforgettingIsPerKey(s, calls[..i], calls[i].key);
    hide Credited, Unforgetting, After, TimesOf, KeyName;
    assert times[..|times| - 1] == TimesOf(calls[..i], calls[i].key);
  }

  /** The bounded limiter allows a call if and only if no window of calls for its own key
      is full. */
  lemma KeyedAnswersAreExact(s: Settings, idleTTL: int, calls: seq<Call>, i: nat)
    requires Validated(s) && s.burst as real <= Earned(s, idleTTL) && Orderly(calls)
    requires i < |calls| && calls[i].Ask?
    ensures var times := TimesOf(calls[..i + 1], calls[i].key);
      times != [] && (CachedAnswer(s, idleTTL, calls, i) <==> FitsAll(s, times, |times| - 1))
  {
    var times := TimesOf(calls[..i + 1], calls[i].key);
    ForgettingIsInvisible(s, idleTTL, calls);
    TimesAreClocked(calls[..i + 1], calls[i].key);
    hide Earned, Clocked, TimesOf, CachedAnswer, UnforgettingAnswer, Answer, FitsAll;
    AskedLast(calls, i);
    UnforgettingAnswers(s, calls, i, times);
    AllowedIffNoWindowIsFull(s, times, |times| - 1);
  }

  /** So in every run of the limiter, whichever way it makes room. */
  lemma RunAnswersAreExact(s: Settings, idleTTL: int, maxKeys: int, calls: seq<Call>, states: seq<States>,
                           answers: seq<bool>, i: nat)
    requires Validated(s) && s.burst as real <= Earned(s, idleTTL) && Orderly(calls)
    requires IsRun(s, idleTTL, maxKeys, calls, states, answers) && RoomThroughout(s, idleTTL, maxKeys, calls)
    requires i < |calls| && calls[i].Ask?
    ensures answers[i] == UnforgettingAnswer(s, calls, i)
    ensures var times := TimesOf(calls[..i + 1], calls[i].key);
      times != [] && (answers[i] <==> FitsAll(s, times, |times| - 1))
  {
    hide Earned, CallMade, Grants, Called, FitsAll, CachedAnswer, UnforgettingAnswer;
    RunsAreCached(s, idleTTL, maxKeys, calls, states, answers, i);
    ForgettingIsInvisible(s, idleTTL, calls);
    KeyedAnswersAreExact(s, idleTTL, calls, i);
  }

  // ---------------------------------------------------------------------
  // What a limiter without room forgets
  // ---------------------------------------------------------------------

  /** The times of the calls for `key` among the first `n`, since its bucket was last
      missing. */
  function KeptTimes(calls: seq<Call>, states: seq<States>, key: string, n: nat): seq<int>
    requires n <= |calls| && |calls| < |states|
  {
    if n == 0 then []
    else
      var kept := if KeyName(key) in states[n - 1] then KeptTimes(calls, states, key, n - 1) else [];
      if calls[n - 1].Ask? && SameKey(calls[n - 1].key, key) then kept + [calls[n - 1].now] else kept
  }

  /** Whatever a call makes of the other keys, a key that is kept keeps its bucket, and the
      bucket that is asked is the one kept, or a new one. */
  lemma CallKeepsBuckets(s: Settings, idleTTL: int, maxKeys: int, before: States, c: Call, after: States, answer: bool,
                         key: string)
    requires CallMade(s, idleTTL, maxKeys, before, c, after, answer)
    ensures var k := KeyName(key);
      if c.Ask? && SameKey(c.key, key) then
        && k in after && after[k] == Decided(Credited(s, StateOf(before, k), c.now), c.now)
        && answer == (1.0 <= Credited(s, StateOf(before, k), c.now).tokens)
      else k in after ==> k in before && after[k] == before[k]
  {
    SameKeyIff(c.key, key);
    hide Credited, Decided, KeyName, SameKey;
  }

  lemma {:induction false} BucketIsKept(s: Settings, idleTTL: int, maxKeys: int, calls: seq<Call>, states: seq<States>,
                                        answers: seq<bool>, key: string, n: nat)
    requires IsRun(s, idleTTL, maxKeys, calls, states, answers) && n <= |calls|
    ensures KeyName(key) in states[n] ==> states[n][KeyName(key)] == After(s, KeptTimes(calls, states, key, n))
  {
    if n > 0 {
      BucketIsKept(s, idleTTL, maxKeys, calls, states, answers, key, n - 1);
      CallKeepsBuckets(s, idleTTL, maxKeys, states[n - 1], calls[n - 1], states[n], answers[n - 1], key);
      hide Credited, Decided, KeyName, SameKey, CallMade;
      var kept := if KeyName(key) in states[n - 1] then KeptTimes(calls, states, key, n - 1) else [];
      assert calls[n - 1].Ask? ==> (kept + [calls[n - 1].now])[..|kept|] == kept;
    }
  }

  lemma {:induction false} KeptTimesAreClocked(calls: seq<Call>, states: seq<States>, key: string, n: nat)
    requires n <= |calls| && |calls| < |states|
    requires forall i :: 0 <= i < |calls| && calls[i].Ask? ==> calls[i].now != ZERO_TIME
    ensures Clocked(KeptTimes(calls, states, key, n))
  {
    if n > 0 { KeptTimesAreClocked(calls, states, key, n - 1); }
  }

  /** Every answer of every run, with or without room, whichever way the clock steps: a
      call is allowed if and only if no window of the calls for its own key is full, from
      the moment the key was last unknown. */
  lemma AnswersAreExactWhileKept(s: Settings, idleTTL: int, maxKeys: int, calls: seq<Call>, states: seq<States>,
                                 answers: seq<bool>, i: nat)
    requires Validated(s) && IsRun(s, idleTTL, maxKeys, calls, states, answers)
    requires forall i :: 0 <= i < |calls| && calls[i].Ask? ==> calls[i].now != ZERO_TIME
    requires i < |calls| && calls[i].Ask?
    ensures var times := KeptTimes(calls, states, calls[i].key, i + 1);
      times != [] && (answers[i] <==> FitsAll(s, times, |times| - 1))
  {
    var times := KeptTimes(calls, states, calls[i].key, i + 1);
    KeptTimesAreClocked(calls, states, calls[i].key, i + 1);
    hide *;
    KeptAnswers(s, idleTTL, maxKeys, calls, states, answers, i);
    AllowedIffNoWindowIsFull(s, times, |times| - 1);
  }

  lemma KeptAnswers(s: Settings, idleTTL: int, maxKeys: int, calls: seq<Call>, states: seq<States>, answers: seq<bool>,
                    i: nat)
    requires IsRun(s, idleTTL, maxKeys, calls, states, answers) && i < |calls| && calls[i].Ask?
    ensures var times := KeptTimes(calls, states, calls[i].key, i + 1);
      times != [] && (answers[i] <==> Answer(s, times, |times| - 1))
  {
    var key, now := calls[i].key, calls[i].now;
    var kept := if KeyName(key) in states[i] then KeptTimes(calls, states, key, i) else [];
    assert KeptTimes(calls, states, key, i + 1) == kept + [now];
    BucketIsKept(s, idleTTL, maxKeys, calls, states, answers, key, i);
    CallKeepsBuckets(s, idleTTL, maxKeys, states[i], calls[i], states[i + 1], answers[i], key);
    hide Credited, KeyName, CallMade, KeptTimes;
    assert (kept + [now])[..|kept|] == kept;
    assert After(s, []) == NEW_BUCKET;
  }

  /** When `key` was asked for last. */
  function LastAsked(calls: seq<Call>, key: string): int {
    if calls == [] then ZERO_TIME
    else
      var last := calls[|calls| - 1];
      if last.Ask? && SameKey(last.key, key) then last.now else LastAsked(calls[..|calls| - 1], key)
  }

  lemma {:induction false} LastSeenIsTheLastAsk(s: Settings, idleTTL: int, maxKeys: int, calls: seq<Call>,
                                                states: seq<States>, answers: seq<bool>, k: string, n: nat)
    requires IsRun(s, idleTTL, maxKeys, calls, states, answers) && n <= |calls| && k in states[n] && k != ""
    ensures states[n][k].lastSeen == LastAsked(calls[..n], k)
  {
    CallKeepsBuckets(s, idleTTL, maxKeys, states[n - 1], calls[n - 1], states[n], answers[n - 1], k);
    hide CallMade, SameKey, Credited;
    assert calls[..n][..n - 1] == calls[..n - 1];
    if !(calls[n - 1].Ask? && SameKey(calls[n - 1].key, k)) {
      LastSeenIsTheLastAsk(s, idleTTL, maxKeys, calls, states, answers, k, n - 1);
    }
  }

  lemma {:induction false} NamesAreNotEmpty(s: Settings, idleTTL: int, maxKeys: int, calls: seq<Call>,
                                            states: seq<States>, answers: seq<bool>, n: nat)
    requires IsRun(s, idleTTL, maxKeys, calls, states, answers) && n <= |calls|
    ensures "" !in states[n]
  {
    if n > 0 {
      NamesAreNotEmpty(s, idleTTL, maxKeys, calls, states, answers, n - 1);
      hide Credited, Decided;
      assert CallMade(s, idleTTL, maxKeys, states[n - 1], calls[n - 1], states[n], answers[n - 1]);
    }
  }

  /** The known keys that were asked for within the time to live. */
  function Recent(calls: seq<Call>, known: set<string>, now: int, idleTTL: int): set<string> {
    set k | k in known && now - LastAsked(calls, k) < idleTTL
  }

  /** Which keys are known after each call of any run: a known key makes nothing go; a new
      one makes the idle keys go, and if there is still no room one key that was asked for
      no later than all that stay. */
  lemma KnownKeys(s: Settings, idleTTL: int, maxKeys: int, calls: seq<Call>, states: seq<States>,
                  answers: seq<bool>, n: nat)
    requires IsRun(s, idleTTL, maxKeys, calls, states, answers) && n < |calls|
    ensures var before, after, c := states[n].Keys, states[n + 1].Keys, calls[n];
      var k := if c.key == "" then "anonymous" else c.key;
      if c.Release? then after == before - {k}
      else if k in before then after == before
      else
        var recent := Recent(calls[..n], before, c.now, idleTTL);
        if |recent| < maxKeys then after == recent + {k}
        else exists victim :: victim in recent && after == recent - {victim} + {k} &&
               forall x :: x in recent ==> LastAsked(calls[..n], victim) <= LastAsked(calls[..n], x)
  {
    var before, c := states[n], calls[n];
    NamesAreNotEmpty(s, idleTTL, maxKeys, calls, states, answers, n);
    forall k | k in before
      ensures before[k].lastSeen == LastAsked(calls[..n], k)
    {
      LastSeenIsTheLastAsk(s, idleTTL, maxKeys, calls, states, answers, k, n);
    }
    assert CallMade(s, idleTTL, maxKeys, before, c, states[n + 1], answers[n]);
    if c.Ask? { KeysAfterAsk(s, idleTTL, maxKeys, before, c, states[n + 1], answers[n], calls[..n]); }
  }

  lemma KeysAfterAsk(s: Settings, idleTTL: int, maxKeys: int, before: States, c: Call, after: States, answer: bool,
                     earlier: seq<Call>)
    requires c.Ask? && CallMade(s, idleTTL, maxKeys, before, c, after, answer)
    requires forall k :: k in before ==> before[k].lastSeen == LastAsked(earlier, k)
    ensures var k := if c.key == "" then "anonymous" else c.key;
      if k in before then after.Keys == before.Keys
      else
        var recent := Recent(earlier, before.Keys, c.now, idleTTL);
        if |recent| < maxKeys then after.Keys == recent + {k}
        else exists victim :: victim in recent && after.Keys == recent - {victim} + {k} &&
               forall x :: x in recent ==> LastAsked(earlier, victim) <= LastAsked(earlier, x)
  {
    hide Credited, Decided, LastAsked, Called, RoomMade, Live, Recent, Grants;
    var k := KeyName(c.key);
    var room :| RoomFor(k, before, room, c.now, idleTTL, maxKeys) && after == Called(s, room, k, c.now);
    CalledKeys(s, room, k, c.now);
    if k in before {
      assert room.Keys + {k} == before.Keys;
    } else {
      RoomKeys(before, room, c.now, idleTTL, maxKeys, earlier, k);
    }
  }

  lemma CalledKeys(s: Settings, states: States, k: string, now: int)
    ensures Called(s, states, k, now).Keys == states.Keys + {k}
  {
  }

  lemma RoomKeys(before: States, room: States, now: int, idleTTL: int, maxKeys: int, earlier: seq<Call>, k: string)
    requires RoomMade(before, room, now, idleTTL, maxKeys)
    requires forall x :: x in before ==> before[x].lastSeen == LastAsked(earlier, x)
    ensures var recent := Recent(earlier, before.Keys, now, idleTTL);
      if |recent| < maxKeys then room.Keys + {k} == recent + {k}
      else exists victim :: victim in recent && room.Keys + {k} == recent - {victim} + {k} &&
             forall x :: x in recent ==> LastAsked(earlier, victim) <= LastAsked(earlier, x)
  {
    hide LastAsked;
    var live := Live(before, now, idleTTL);
    var recent := Recent(earlier, before.Keys, now, idleTTL);
    assert live.Keys == recent && |live| == |live.Keys|;
    if maxKeys <= |live| {
      var victim :| LeastRecent(live, victim) && room == live - {victim};
      assert room.Keys == recent - {victim};
      forall x | x in recent
        ensures LastAsked(earlier, victim) <= LastAsked(earlier, x)
      {
        assert x in live;
      }
    }
  }

  // ---------------------------------------------------------------------
  // A shorter time to live would show
  // ---------------------------------------------------------------------

  function Times(t: int, n: nat): seq<int> {
    seq(n, _ => t)
  }

  function Asks(key: string, t: int, n: nat): seq<Call> {
    seq(n, _ => Ask(key, t))
  }

  /** A burst at one moment is granted in full. */
  lemma {:induction false} BurstIsGranted(s: Settings, t: int, n: nat)
    requires Validated(s) && t != ZERO_TIME && n <= s.burst
    ensures 0 < n ==> After(s, Times(t, n)) == BucketState((s.burst - n) as real, t, t)
    ensures n < s.burst ==> 1.0 <= Credited(s, After(s, Times(t, n)), t).tokens
  {
    if n > 0 {
      BurstIsGranted(s, t, n - 1);
      assert Times(t, n)[..n - 1] == Times(t, n - 1);
    }
  }

  /** Two bursts of key "a"; between them, "b" is asked for and released. */
  function TwoBursts(s: Settings, idleTTL: int, n: nat): seq<Call>
    requires Validated(s)
  {
    Asks("a", 1, s.burst) + [Ask("b", 1 + idleTTL), Release("b")] + Asks("a", 1 + idleTTL, n)
  }

  lemma {:induction false} FirstBurst(s: Settings, idleTTL: int, n: nat)
    requires Validated(s) && 0 < idleTTL
    ensures Cached(s, idleTTL, Asks("a", 1, n)) == if n == 0 then map[] else map["a" := After(s, Times(1, n))]
    ensures TimesOf(Asks("a", 1, n), "a") == Times(1, n)
  {
    if n > 0 {
      FirstBurst(s, idleTTL, n - 1);
      hide Credited, Decided;
      assert Asks("a", 1, n)[..n - 1] == Asks("a", 1, n - 1);
      assert Times(1, n)[..n - 1] == Times(1, n - 1);
      assert Live(map[], 1, idleTTL) == map[];
    }
  }

  /** The call for "b" finds "a" idle. */
  lemma BetweenBursts(s: Settings, idleTTL: int)
    requires Validated(s) && 0 < idleTTL
    ensures var calls := Asks("a", 1, s.burst) + [Ask("b", 1 + idleTTL)];
      Cached(s, idleTTL, calls) == map["b" := After(s, [1 + idleTTL])] && TimesOf(calls, "a") == Times(1, s.burst)
  {
    var first, t := Asks("a", 1, s.burst), 1 + idleTTL;
    FirstBurst(s, idleTTL, s.burst);
    BurstIsGranted(s, 1, s.burst);
    hide Credited, Decided;
    assert (first + [Ask("b", t)])[..|first|] == first;
    assert Live(Cached(s, idleTTL, first), t, idleTTL) == map[];
    assert [t][..0] == [];
  }

  lemma NoSecondBurst(s: Settings, idleTTL: int)
    requires Validated(s) && 0 < idleTTL
    ensures Cached(s, idleTTL, TwoBursts(s, idleTTL, 0)) == map[]
    ensures TimesOf(TwoBursts(s, idleTTL, 0), "a") == Times(1, s.burst)
  {
    BetweenBursts(s, idleTTL);
    hide Credited, Decided, After, Live;
    var calls := TwoBursts(s, idleTTL, 0);
    assert calls[..|calls| - 1] == Asks("a", 1, s.burst) + [Ask("b", 1 + idleTTL)];
    assert calls[|calls| - 1] == Release("b");
  }

  /** The second burst finds the first forgotten. */
  lemma {:induction false} SecondBurst(s: Settings, idleTTL: int, n: nat)
    requires Validated(s) && 0 < idleTTL
    ensures Cached(s, idleTTL, TwoBursts(s, idleTTL, n)) ==
      if n == 0 then map[] else map["a" := After(s, Times(1 + idleTTL, n))]
    ensures TimesOf(TwoBursts(s, idleTTL, n), "a") == Times(1, s.burst) + Times(1 + idleTTL, n)
  {
    hide Credited, Decided;
    var t := 1 + idleTTL;
    if n == 0 {
      NoSecondBurst(s, idleTTL);
    } else {
      SecondBurst(s, idleTTL, n - 1);
      var calls := TwoBursts(s, idleTTL, n);
      assert calls[..|calls| - 1] == TwoBursts(s, idleTTL, n - 1);
      assert Times(t, n)[..n - 1] == Times(t, n - 1);
      assert Live(map[], t, idleTTL) == map[];
    }
  }

  /** The states before call `i` of the two bursts. */
  lemma TwoBurstsPrefix(s: Settings, idleTTL: int, i: nat)
    requires Validated(s) && 0 < idleTTL && i < 2 * s.burst + 2 && i != s.burst + 1
    ensures var calls := TwoBursts(s, idleTTL, s.burst);
      calls[..i] == (if i <= s.burst then Asks("a", 1, i) else TwoBursts(s, idleTTL, i - s.burst - 2)) &&
      calls[i] ==
        if i < s.burst then Ask("a", 1) else if i == s.burst then Ask("b", 1 + idleTTL) else Ask("a", 1 + idleTTL)
  {
  }

  lemma TwoBurstsAreOrderly(s: Settings, idleTTL: int)
    requires Validated(s) && 0 < idleTTL
    ensures Orderly(TwoBursts(s, idleTTL, s.burst))
  {
  }

  lemma TwoBurstsHaveRoom(s: Settings, idleTTL: int, maxKeys: int)
    requires Validated(s) && 0 < idleTTL && 0 < maxKeys
    ensures RoomThroughout(s, idleTTL, maxKeys, TwoBursts(s, idleTTL, s.burst))
  {
    hide Credited, Decided, Cached;
    var calls := TwoBursts(s, idleTTL, s.burst);
    forall i | 0 <= i < |calls|
      ensures HasRoom(Cached(s, idleTTL, calls[..i]), calls[i], idleTTL, maxKeys)
    {
      if i != s.burst + 1 {
        TwoBurstsPrefix(s, idleTTL, i);
        if i <= s.burst {
          FirstBurst(s, idleTTL, i);
          BurstIsGranted(s, 1, i);
        } else {
          SecondBurst(s, idleTTL, i - s.burst - 2);
        }
        var live := Live(Cached(s, idleTTL, calls[..i]), calls[i].now, idleTTL);
        assert KeyName(calls[i].key) !in Cached(s, idleTTL, calls[..i]) ==> live == map[];
      }
    }
  }

  /** The second burst is granted by the limiter that forgot the first. */
  lemma SecondBurstIsGranted(s: Settings, idleTTL: int, m: nat)
    requires Validated(s) && 0 < idleTTL && m < s.burst
    ensures CachedAnswer(s, idleTTL, TwoBursts(s, idleTTL, s.burst), s.burst + 2 + m)
  {
    TwoBurstsPrefix(s, idleTTL, s.burst + 2 + m);
    SecondBurst(s, idleTTL, m);
    BurstIsGranted(s, 1 + idleTTL, m);
    var states := Cached(s, idleTTL, TwoBursts(s, idleTTL, m));
    hide Credited, Decided;
    assert StateOf(Room(states, "a", 1 + idleTTL, idleTTL), "a") == After(s, Times(1 + idleTTL, m));
  }

  function BothTimes(s: Settings, idleTTL: int): seq<int>
    requires Validated(s)
  {
    Times(1, s.burst) + Times(1 + idleTTL, s.burst)
  }

  /** Without forgetting, the second burst is decided by the times of both. */
  lemma SecondBurstIsRemembered(s: Settings, idleTTL: int, m: nat)
    requires Validated(s) && 0 < idleTTL && m < s.burst
    ensures UnforgettingAnswer(s, TwoBursts(s, idleTTL, s.burst), s.burst + 2 + m) <==>
      Answer(s, BothTimes(s, idleTTL), s.burst + m)
  {
    TwoBurstsPrefix(s, idleTTL, s.burst + 2 + m);
    SecondBurst(s, idleTTL, m);
    UnforgettingIsPerKey(s, TwoBursts(s, idleTTL, m), "a");
    hide Credited, After, Unforgetting, TimesOf, Cached;
    assert BothTimes(s, idleTTL)[..s.burst + m] == Times(1, s.burst) + Times(1 + idleTTL, m);
  }

  lemma {:induction false} AllAllowed(s: Settings, times: seq<int>, n: nat)
    requires n <= |times| && forall k :: 0 <= k < n ==> Answer(s, times, k)
    ensures Allowed(s, times, 0, n) == n
  {
    if n > 0 { AllAllowed(s, times, n - 1); }
  }

  lemma {:induction false} LatestOfTwo(t: int, u: int, n: nat, i: nat)
    requires t <= u && i < 2 * n
    ensures Latest(Times(t, n) + Times(u, n), i) == if i < n then t else u
  {
    if i > 0 { LatestOfTwo(t, u, n, i - 1); }
  }

  lemma AllWouldBeGranted(s: Settings, idleTTL: int, k: nat)
    requires Validated(s) && 0 < idleTTL && k < 2 * s.burst
    requires Transparent(s, idleTTL, TwoBursts(s, idleTTL, s.burst))
    ensures Answer(s, BothTimes(s, idleTTL), k)
  {
    hide CachedAnswer, UnforgettingAnswer, Answer;
    if k < s.burst {
      FirstBurstIsGranted(s, idleTTL, k);
    } else {
      SecondBurstIsGranted(s, idleTTL, k - s.burst);
      SecondBurstIsRemembered(s, idleTTL, k - s.burst);
      assert TwoBursts(s, idleTTL, s.burst)[k + 2].Ask?;
    }
  }

  lemma FirstBurstIsGranted(s: Settings, idleTTL: int, k: nat)
    requires Validated(s) && k < s.burst
    ensures Answer(s, BothTimes(s, idleTTL), k)
  {
    BurstIsGranted(s, 1, k);
    hide Credited, After;
    assert BothTimes(s, idleTTL)[..k] == Times(1, k);
  }

  lemma TwoBurstsAreTooMany(s: Settings, idleTTL: int) returns (k: nat)
    requires Validated(s) && 0 < idleTTL && Earned(s, idleTTL) < s.burst as real
    ensures k < 2 * s.burst && !Answer(s, BothTimes(s, idleTTL), k)
  {
    hide Credited, Decided, Earned, Answer;
    var times := BothTimes(s, idleTTL);
    LatestOfTwo(1, 1 + idleTTL, s.burst, 0);
    LatestOfTwo(1, 1 + idleTTL, s.burst, 2 * s.burst - 1);
    NoWindowIsExceeded(s, times, 0, 2 * s.burst - 1);
    if forall x :: 0 <= x < 2 * s.burst ==> Answer(s, times, x) {
      AllAllowed(s, times, 2 * s.burst);
      assert false;
    }
    k :| k < 2 * s.burst && !Answer(s, times, k);
  }

  /** If a bucket cannot fill in the time to live, the two bursts tell. */
  lemma ForgettingShows(s: Settings, idleTTL: int)
    requires Validated(s) && 0 < idleTTL && Earned(s, idleTTL) < s.burst as real
    ensures !Transparent(s, idleTTL, TwoBursts(s, idleTTL, s.burst))
  {
    hide Credited, Decided, Earned, Answer;
    var k := TwoBurstsAreTooMany(s, idleTTL);
    if Transparent(s, idleTTL, TwoBursts(s, idleTTL, s.burst)) { AllWouldBeGranted(s, idleTTL, k); }
  }

  /** Forgetting idle keys makes no difference to any orderly run with room for its keys,
      if and only if a bucket can fill within the time to live. */
  lemma TransparentIffBucketsFill(s: Settings, idleTTL: int, maxKeys: int)
    requires Validated(s) && 0 < idleTTL && 0 < maxKeys
    ensures (forall calls :: Orderly(calls) && RoomThroughout(s, idleTTL, maxKeys, calls) ==>
               Transparent(s, idleTTL, calls)) <==> s.burst as real <= Earned(s, idleTTL)
  {
    if s.burst as real <= Earned(s, idleTTL) {
      forall calls | Orderly(calls)
        ensures Transparent(s, idleTTL, calls)
      {
        ForgettingIsInvisible(s, idleTTL, calls);
      }
    } else {
      ForgettingShows(s, idleTTL);
      TwoBurstsAreOrderly(s, idleTTL);
      TwoBurstsHaveRoom(s, idleTTL, maxKeys);
    }
  }
}