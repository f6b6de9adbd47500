/** The long-lived session cache of LinuxConnetionHelper.java: the static
    map `cache` from a login key to an open session, `longConnect`, which
    reuses a live cached session or replaces a dead one, the two ways of
    evicting an entry, and the `SessionMonitor` sweep with its start-once
    creation. Sessions are numbered in the order they are opened; whether a
    session answers the `true` probe is the set `live`, and whether a new
    connection fails is `connectError`. */
module SessionCache {
  import opened JavaLang

  /** An open JSch session, by the order in which it was opened. */
  type SessionId = nat

  /** `host + userName + password + port` (line 61): no separator. */
  function CacheKey(host: string, userName: string, password: string, port: int): (k: string)
    ensures StartsWith(k, host) && EndsWith(k, IntToString(port))
    ensures |k| == |host| + |userName| + |password| + |IntToString(port)|
  {
    host + userName + password + IntToString(port)
  }

  /** The key has no separator, so moving characters from the end of the host
      to the start of the user name gives the same key: two different logins
      then share one cached session. */
  lemma CacheKeyShift(host: string, moved: string, userName: string, password: string, port: int)
    ensures CacheKey(host + moved, userName, password, port) == CacheKey(host, moved + userName, password, port)
  {
    Assoc(host, moved, userName);
  }

  /** The static state of the helper: the cache, the next session number,
      the sessions disconnected so far in order, and whether the session
      monitor exists, with the number of times one was started. */
  datatype Registry = Registry(cache: map<string, SessionId>, nextId: SessionId,
                               disconnected: seq<SessionId>, monitorStarted: bool, monitorStarts: nat)

  /** Every cached session was opened, no session is cached under two keys,
      and the monitor was started once exactly when it exists. */
  predicate Valid(g: Registry) {
    (forall k :: k in g.cache ==> g.cache[k] < g.nextId)
    && (forall k1, k2 :: k1 in g.cache && k2 in g.cache && g.cache[k1] == g.cache[k2] ==> k1 == k2)
    && g.monitorStarts == (if g.monitorStarted then 1 else 0)
  }

  const Empty: Registry := Registry(map[], 0, [], false, 0)

  /** `createSessionMonitor` (lines 516-526): construct and start the monitor
      when there is none. */
  function StartMonitor(g: Registry): (r: Registry)
    ensures r.monitorStarted
    ensures r.monitorStarts == if g.monitorStarted then g.monitorStarts else g.monitorStarts + 1
    ensures r.cache == g.cache && r.nextId == g.nextId && r.disconnected == g.disconnected
  {
    if g.monitorStarted then g else g.(monitorStarted := true, monitorStarts := g.monitorStarts + 1)
  }

  /** However often `createSessionMonitor` runs, the monitor is started
      exactly once. */
  lemma StartMonitorOnce(g: Registry)
    requires Valid(g)
    ensures var g1 := StartMonitor(g);
            Valid(g1) && g1.monitorStarted && g1.monitorStarts == 1 && StartMonitor(g1) == g1
            && g1.cache == g.cache && g1.disconnected == g.disconnected
  {
  }

  /** `closeLongSessionByKey` (lines 142-148): disconnect and remove the
      session cached under `key`, if any. */
  function EvictKey(g: Registry, key: string): (r: Registry)
    ensures key !in r.cache && r.cache.Keys == g.cache.Keys - {key}
    ensures forall k :: k in r.cache ==> r.cache[k] == g.cache[k]
    ensures r.disconnected == g.disconnected + (if key in g.cache then [g.cache[key]] else [])
    ensures r.nextId == g.nextId && r.monitorStarted == g.monitorStarted && r.monitorStarts == g.monitorStarts
  {
    if key in g.cache then g.(cache := g.cache - {key}, disconnected := g.disconnected + [g.cache[key]])
    else g
  }

  /** Evicting by key removes that key and touches no other; evicting it
      again does nothing. */
  lemma EvictKeyIdempotent(g: Registry, key: string)
    ensures var g1 := EvictKey(g, key);
            key !in g1.cache && g1.cache == g.cache - {key}
            && EvictKey(g1, key) == g1
            && g1.disconnected == g.disconnected + (if key in g.cache then [g.cache[key]] else [])
  {
  }

  lemma EvictKeyValid(g: Registry, key: string)
    requires Valid(g)
    ensures Valid(EvictKey(g, key))
  {
  }

  /** `session.connect()` and `cache.put(key, session)` for a new session;
      a failing connect throws before the put. */
  function Open(g: Registry, key: string, connectError: Option<string>): (r: (Result<SessionId>, Registry))
    ensures r.0.Ok? <==> connectError.None?
    ensures r.0.Fail? ==> r.0.error == Remote(connectError.value) && r.1 == g
    ensures r.0.Ok? ==> r.0.value == g.nextId && r.1.nextId == g.nextId + 1
                        && key in r.1.cache && r.1.cache[key] == r.0.value
                        && r.1.cache - {key} == g.cache - {key} && r.1.disconnected == g.disconnected
  {
    if connectError.Some? then (Fail(Remote(connectError.value)), g)
    else (Ok(g.nextId), g.(cache := g.cache[key := g.nextId], nextId := g.nextId + 1))
  }

  /** `longConnect` (lines 60-97): an absent key opens and caches a new
      session; a cached session that answers the probe is returned as it is;
      a dead one is evicted and the call repeats, which then finds the key
      absent. Every successful call ends by creating the monitor. */
  function LongConnected(g: Registry, host: string, userName: string, password: string, port: int,
                       live: set<SessionId>, connectError: Option<string>): (r: (Result<SessionId>, Registry))
    ensures var key := CacheKey(host, userName, password, port);
            r.1.cache - {key} == g.cache - {key}
            && (r.0.Ok? ==> key in r.1.cache && r.1.cache[key] == r.0.value && r.1.monitorStarted)
            && (key in g.cache && g.cache[key] in live ==> r == (Ok(g.cache[key]), StartMonitor(g)))
            && (key !in g.cache || g.cache[key] !in live ==>
                  (r.0.Ok? <==> connectError.None?)
                  && (r.0.Ok? ==> r.0.value == g.nextId && r.1.nextId == g.nextId + 1)
                  && (r.0.Fail? ==> r.0 == Fail(Remote(connectError.value)) && key !in r.1.cache
                                    && r.1.monitorStarted == g.monitorStarted)
                  && r.1.disconnected == g.disconnected + (if key in g.cache then [g.cache[key]] else []))
    decreases if CacheKey(host, userName, password, port) in g.cache then 1 else 0
  {
    var key := CacheKey(host, userName, password, port);
    if key !in g.cache then
      var (s, g1) := Open(g, key, connectError);
      if s.Fail? then (s, g1) else (s, StartMonitor(g1))
    else if g.cache[key] in live then (Ok(g.cache[key]), StartMonitor(g))
    else
      var (s, g1) := LongConnected(EvictKey(g, key), host, userName, password, port, live, connectError);
      if s.Fail? then (s, g1) else (s, StartMonitor(g1))
  }

  /** `longConnect` keeps the registry consistent: a new session gets a number
      no cached session has. */
  lemma {:induction false} LongConnectValid(g: Registry, host: string, userName: string, password: string,
                                            port: int, live: set<SessionId>, connectError: Option<string>)
    requires Valid(g)
    ensures Valid(LongConnected(g, host, userName, password, port, live, connectError).1)
    decreases if CacheKey(host, userName, password, port) in g.cache then 1 else 0
  {
    var key := CacheKey(host, userName, password, port);
    if key !in g.cache {
      if connectError.None? {
        var g1 := Open(g, key, connectError).1;
        assert Valid(g1);
        StartMonitorOnce(g1);
      }
    } else if g.cache[key] in live {
      StartMonitorOnce(g);
    } else {
      EvictKeyValid(g, key);
      LongConnectValid(EvictKey(g, key), host, userName, password, port, live, connectError);
      var r := LongConnected(EvictKey(g, key), host, userName, password, port, live, connectError);
      if r.0.Ok? {
        StartMonitorOnce(r.1);
      }
    }
  }

  /** The entries other than those holding `s`. */
  function WithoutSession(cache: map<string, SessionId>, s: SessionId): map<string, SessionId> {
    map k | k in cache && cache[k] != s :: cache[k]
  }

  /** `closeLongSessionBySession` (lines 155-166): disconnect `s` and remove
      the entry holding it, if one does. */
  function EvictSession(g: Registry, s: SessionId): (r: Registry)
    ensures s !in r.cache.Values
    ensures forall k :: k in r.cache <==> k in g.cache && g.cache[k] != s
    ensures forall k :: k in r.cache ==> r.cache[k] == g.cache[k]
    ensures r.disconnected == g.disconnected + (if s in g.cache.Values then [s] else [])
  {
    if s in g.cache.Values then g.(cache := WithoutSession(g.cache, s), disconnected := g.disconnected + [s])
    else g
  }

  /** Evicting by session removes at most one entry, one that held exactly
      that session, and leaves the registry consistent. */
  lemma EvictSessionRemovesOne(g: Registry, s: SessionId)
    requires Valid(g)
    ensures Valid(EvictSession(g, s))
    ensures s !in g.cache.Values ==> EvictSession(g, s) == g
    ensures s in g.cache.Values ==>
              exists k :: k in g.cache && g.cache[k] == s && EvictSession(g, s) == EvictKey(g, k)
  {
    if s in g.cache.Values {
      var k :| k in g.cache && g.cache[k] == s;
      assert WithoutSession(g.cache, s) == g.cache - {k};
    }
  }

  /** One run of `SessionMonitor.run` (lines 680-691) as written. The keys are
      visited in the map's iteration order `order`; the first key whose
      session is down is evicted with `closeLongSessionByKey`, which changes
      the map under its key-set iterator, so the iterator's next `next()`
      throws ConcurrentModificationException unless that key was the last. */
  function SweepAsWritten(g: Registry, order: seq<string>, live: set<SessionId>): (r: (Registry, Option<JavaException>))
    ensures r.0.cache.Keys <= g.cache.Keys && forall k :: k in r.0.cache ==> r.0.cache[k] == g.cache[k]
    ensures forall k :: k in g.cache && g.cache[k] in live ==> k in r.0.cache
    ensures |g.cache| - 1 <= |r.0.cache|
  {
    if order == [] then (g, None)
    else
      var key := order[0];
      if key in g.cache && g.cache[key] !in live then
        (EvictKey(g, key), if |order| > 1 then Some(ConcurrentModification) else None)
      else SweepAsWritten(g, order[1..], live)
  }

  /** The sweep as written never evicts a live session and evicts at most one
      dead one; it throws exactly when it evicted a key that was not the last
      visited. */
  lemma {:induction false} SweepAsWrittenEvictsAtMostOne(g: Registry, order: seq<string>, live: set<SessionId>)
    ensures var r := SweepAsWritten(g, order, live);
            (r.0 == g && r.1.None?)
            || exists i :: 0 <= i < |order| && order[i] in g.cache && g.cache[order[i]] !in live
                           && r.0 == EvictKey(g, order[i])
                           && r.1 == (if i < |order| - 1 then Some(ConcurrentModification) else None)
  {
    if order != [] && !(order[0] in g.cache && g.cache[order[0]] !in live) {
      SweepAsWrittenEvictsAtMostOne(g, order[1..], live);
      var r := SweepAsWritten(g, order, live);
      if r.0 != g || r.1.Some? {
        var i :| 0 <= i < |order[1..]| && order[1..][i] in g.cache && g.cache[order[1..][i]] !in live
                 && r.0 == EvictKey(g, order[1..][i])
                 && r.1 == (if i < |order[1..]| - 1 then Some(ConcurrentModification) else None);
        assert order[i + 1] == order[1..][i];
      }
    }
  }

  /** Two dead sessions: the sweep as written evicts the first it visits,
      keeps the other one cached, and throws. */
  lemma SweepLeavesDeadSession()
    ensures var g := Registry(map["a" := 0, "b" := 1], 2, [], true, 1);
            var r := SweepAsWritten(g, ["a", "b"], {});
            Valid(g) && r.1 == Some(ConcurrentModification)
            && "b" in r.0.cache && r.0.cache["b"] !in {} && r.0.disconnected == [0]
  {
    var g := Registry(map["a" := 0, "b" := 1], 2, [], true, 1);
    assert "a" in g.cache && g.cache["a"] == 0;
    assert "b" != "a";
  }

  /** The sweep the monitor is evidently meant to perform: every key is
      visited, and each dead session is evicted through the iterator itself,
      so nothing throws. */
  function SweptAll(g: Registry, order: seq<string>, live: set<SessionId>): (r: Registry)
    ensures r.cache.Keys <= g.cache.Keys && forall k :: k in r.cache ==> r.cache[k] == g.cache[k]
    ensures forall k :: k in g.cache && g.cache[k] in live ==> k in r.cache
    ensures forall k :: k in r.cache && k in order ==> r.cache[k] in live
  {
    if order == [] then g
    else
      var g1 := SweptAll(g, order[..|order| - 1], live);
      var key := order[|order| - 1];
      if key in g1.cache && g1.cache[key] !in live then EvictKey(g1, key) else g1
  }

  /** The entries of `cache` that survive a visit of the keys in `visited`. */
  function Survivors(cache: map<string, SessionId>, visited: seq<string>, live: set<SessionId>): map<string, SessionId> {
    map k | k in cache && (k in visited ==> cache[k] in live) :: cache[k]
  }

  lemma {:induction false} SweepAllSurvivors(g: Registry, order: seq<string>, live: set<SessionId>)
    ensures SweptAll(g, order, live).cache == Survivors(g.cache, order, live)
  {
    if order == [] {
      assert Survivors(g.cache, order, live) == g.cache;
    } else {
      var init := order[..|order| - 1];
      SweepAllSurvivors(g, init, live);
      var key := order[|order| - 1];
      assert order == init + [key];
      forall k ensures k in order <==> k in init || k == key {
        assert k in init ==> k in order;
      }
    }
  }

  /** A sweep over all the keys evicts exactly the dead sessions and keeps
      every live one. */
  lemma SweepAllEvictsDead(g: Registry, order: seq<string>, live: set<SessionId>)
    requires forall k :: k in g.cache ==> k in order
    ensures SweptAll(g, order, live).cache == map k | k in g.cache && g.cache[k] in live :: g.cache[k]
  {
    SweepAllSurvivors(g, order, live);
  }

  lemma {:induction false} SweepAllValid(g: Registry, order: seq<string>, live: set<SessionId>)
    requires Valid(g)
    ensures Valid(SweptAll(g, order, live))
  {
    if order != [] {
      SweepAllValid(g, order[..|order| - 1], live);
      EvictKeyValid(SweptAll(g, order[..|order| - 1], live), order[|order| - 1]);
    }
  }

  /** The helper's static fields. */
  class LongSessions {
    var cache: map<string, SessionId>
    var nextId: SessionId
    var disconnected: seq<SessionId>
    /** `sessionMonitor != null`. */
    var monitorStarted: bool
    var monitorStarts: nat

    function State(): Registry
      reads this
    {
      Registry(cache, nextId, disconnected, monitorStarted, monitorStarts)
    }

    /** Line 19: an empty cache, and no monitor yet. */
    constructor ()
      ensures State() == Empty
    {
      cache, nextId, disconnected, monitorStarted, monitorStarts := map[], 0, [], false, 0;
    }

    method CreateSessionMonitor()
      modifies this
      ensures State() == StartMonitor(old(State()))
    {
      if !monitorStarted {
        monitorStarted := true;
        monitorStarts := monitorStarts + 1;
      }
    }

    /** `testSessionIsDown` (lines 116-135): an absent key counts as down, and
        so does a session whose exec channel cannot run `true`. */
    predicate TestSessionIsDown(key: string, live: set<SessionId>)
      reads this
      ensures !TestSessionIsDown(key, live) <==> key in State().cache && State().cache[key] in live
    {
      key !in cache || cache[key] !in live
    }

    method CloseLongSessionByKey(key: string)
      modifies this
      ensures State() == EvictKey(old(State()), key)
    {
      if key in cache {
        disconnected := disconnected + [cache[key]];
        cache := cache - {key};
      }
    }

    method LongConnect(host: string, userName: string, password: string, port: int,
                       live: set<SessionId>, connectError: Option<string>) returns (r: Result<SessionId>)
      modifies this
      ensures (r, State()) == LongConnected(old(State()), host, userName, password, port, live, connectError)
      decreases if CacheKey(host, userName, password, port) in cache then 1 else 0
    {
      var key := CacheKey(host, userName, password, port);
      if key !in cache {
        if connectError.Some? {
          return Fail(Remote(connectError.value));
        }
        r := Ok(nextId);
        cache := cache[key := nextId];
        nextId := nextId + 1;
      } else {
        r := Ok(cache[key]);
        if TestSessionIsDown(key, live) {
          CloseLongSessionByKey(key);
          r := LongConnect(host, userName, password, port, live, connectError);
          if r.Fail? {
            return;
          }
        }
      }
      CreateSessionMonitor();
    }

    /** The iterator loop of lines 155-166, in an unspecified key order. */
    method CloseLongSessionBySession(s: SessionId)
      requires Valid(State())
      modifies this
      ensures State() == EvictSession(old(State()), s)
    {
      var keys := cache.Keys;
      while keys != {}
        invariant keys <= cache.Keys
        invariant forall k :: k in cache && k !in keys ==> cache[k] != s
        invariant State() == old(State())
        decreases keys
      {
        var key :| key in keys;
        if cache[key] == s {
          assert WithoutSession(cache, s) == cache - {key};
          disconnected := disconnected + [s];
          cache := cache - {key};
          return;
        }
        keys := keys - {key};
      }
    }

    /** `SessionMonitor.run` (lines 680-691) as written, visiting the keys in
        the order `order` the map's iterator yields. */
    method SessionMonitorRun(order: seq<string>, live: set<SessionId>) returns (thrown: Option<JavaException>)
      modifies this
      ensures (State(), thrown) == SweepAsWritten(old(State()), order, live)
    {
      var i := 0;
      while i < |order|
        invariant i <= |order|
        invariant State() == old(State())
        invariant SweepAsWritten(State(), order, live) == SweepAsWritten(State(), order[i..], live)
      {
        var key := order[i];
        assert order[i..][1..] == order[i + 1..];
        i := i + 1;
        if TestSessionIsDown(key, live) && key in cache {
          CloseLongSessionByKey(key);
          if i < |order| {
            return Some(ConcurrentModification);
          }
          return None;
        }
      }
      return None;
    }

    /** The sweep with each dead session removed through the iterator. */
    method SweepAll(order: seq<string>, live: set<SessionId>)
      modifies this
      ensures State() == SweptAll(old(State()), order, live)
    {
      for i := 0 to |order|
        invariant State() == SweptAll(old(State()), order[..i], live)
      {
        var key := order[i];
        assert order[..i + 1][..i] == order[..i];
        if TestSessionIsDown(key, live) && key in cache {
          CloseLongSessionByKey(key);
        }
      }
      assert order[..|order|] == order;
    }
  }
}
