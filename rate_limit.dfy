/** The contact endpoint's sliding-window rate limiter, on values: a map from
    caller identity to the timestamps (milliseconds) of its recent accepted
    attempts, pruned lazily at each request. */
module RateLimit {

  const WINDOW_MS: int := 60 * 1000
  const MAX_REQ: nat := 3

  /** A timestamp `t` still counts at time `now` (a clock that moves back makes
      every later stored timestamp count). */
  predicate InWindow(t: int, now: int) {
    now - t < WINDOW_MS
  }

  /** `timestamps.filter((t) => now - t < WINDOW_MS)`: stored timestamps that still count. */
  function Recent(ts: seq<int>, now: int): (r: seq<int>)
    ensures |r| <= |ts|
    ensures forall t :: t in r <==> t in ts && InWindow(t, now)
  {
    if ts == [] then []
    else Recent(ts[..|ts| - 1], now) + (if InWindow(ts[|ts| - 1], now) then [ts[|ts| - 1]] else [])
  }

  /** `rateLimit.get(ip) || []`. */
  function Stored(m: map<string, seq<int>>, ip: string): seq<int> {
    if ip in m then m[ip] else []
  }

  /** What one request does to the map: whether it is let through, and the map after it. */
  datatype Admission = Admission(allowed: bool, windows: map<string, seq<int>>)

  /** Every stored window holds at most `MAX_REQ` timestamps. */
  predicate Bounded(m: map<string, seq<int>>) {
    forall k :: k in m ==> |m[k]| <= MAX_REQ
  }

  /** Prune, check, record: the request is refused when `MAX_REQ` stored timestamps
      still count; a refused request leaves the map as it was; an accepted one stores
      the timestamps that still count followed by `now`. No other caller's entry changes. */
  function Admit(m: map<string, seq<int>>, ip: string, now: int): (a: Admission)
    ensures a.allowed <==> |Recent(Stored(m, ip), now)| < MAX_REQ
    ensures !a.allowed ==> a.windows == m
    ensures a.allowed ==> ip in a.windows && a.windows[ip] == Recent(Stored(m, ip), now) + [now]
    ensures forall k :: k != ip ==> (k in a.windows <==> k in m) && Stored(a.windows, k) == Stored(m, k)
    ensures Bounded(m) ==> Bounded(a.windows)
  {
    var recent := Recent(Stored(m, ip), now);
    if |recent| >= MAX_REQ then Admission(false, m)
    else Admission(true, m[ip := recent + [now]])
  }

  /** Pruning twice, the second time later, is the same as pruning once at the later time. */
  lemma {:induction false} RecentLater(ts: seq<int>, earlier: int, later: int)
    requires earlier <= later
    ensures Recent(Recent(ts, earlier), later) == Recent(ts, later)
  {
    if ts != [] {
      var init, last := ts[..|ts| - 1], ts[|ts| - 1];
      RecentLater(init, earlier, later);
      RecentAppend(Recent(init, earlier), if InWindow(last, earlier) then [last] else [], later);
    }
  }

  lemma {:induction false} RecentAppend(a: seq<int>, b: seq<int>, now: int)
    ensures Recent(a + b, now) == Recent(a, now) + Recent(b, now)
    decreases |b|
  {
    if b != [] {
      assert (a + b)[..|a + b| - 1] == a + b[..|b| - 1];
      RecentAppend(a, b[..|b| - 1], now);
    } else {
      assert a + b == a;
    }
  }

  /** A timestamp that no longer counts frees a place. */
  lemma {:induction false} RecentDropsStale(ts: seq<int>, now: int, k: nat)
    requires k < |ts| && !InWindow(ts[k], now)
    ensures |Recent(ts, now)| < |ts|
  {
    if k < |ts| - 1 {
      RecentDropsStale(ts[..|ts| - 1], now, k);
    } else {
      assert |Recent(ts[..|ts| - 1], now)| <= |ts| - 1;
    }
  }

  /** Once any stored timestamp of a caller has left the window (in particular its
      oldest), that caller's next request is accepted again. */
  lemma WindowReopens(m: map<string, seq<int>>, ip: string, now: int, k: nat)
    requires Bounded(m) && ip in m && k < |m[ip]| && !InWindow(m[ip][k], now)
    ensures Admit(m, ip, now).allowed
  {
    RecentDropsStale(m[ip], now, k);
  }

  /** One request reaching the endpoint: the caller identity and the clock value. */
  datatype Request = Request(ip: string, now: int)

  predicate NonDecreasing(reqs: seq<Request>) {
    forall i, j :: 0 <= i < j < |reqs| ==> reqs[i].now <= reqs[j].now
  }

  /** The map and the accepted requests after a sequence of requests from an empty map. */
  datatype Replay = Replay(windows: map<string, seq<int>>, accepted: seq<Request>)

  /** One request on top of a replay. */
  function Step(prev: Replay, req: Request): (r: Replay)
    ensures Bounded(prev.windows) ==> Bounded(r.windows)
  {
    var a := Admit(prev.windows, req.ip, req.now);
    Replay(a.windows, prev.accepted + if a.allowed then [req] else [])
  }

  function Run(reqs: seq<Request>): (r: Replay)
    ensures Bounded(r.windows)
  {
    if reqs == [] then Replay(map[], []) else Step(Run(reqs[..|reqs| - 1]), reqs[|reqs| - 1])
  }

  /** Timestamps of the accepted requests of one caller, in order. */
  function TimesOf(acc: seq<Request>, ip: string): seq<int>
  {
    if acc == [] then []
    else TimesOf(acc[..|acc| - 1], ip) + if acc[|acc| - 1].ip == ip then [acc[|acc| - 1].now] else []
  }

  /** Number of timestamps in the span `[start, start + WINDOW_MS)`. */
  function CountSpan(ts: seq<int>, start: int): nat {
    if ts == [] then 0
    else CountSpan(ts[..|ts| - 1], start) + if start <= ts[|ts| - 1] < start + WINDOW_MS then 1 else 0
  }

  /** No timestamp is later than `last`. */
  predicate NotAfter(ts: seq<int>, last: int) {
    forall i :: 0 <= i < |ts| ==> ts[i] <= last
  }

  /** If no timestamp is after `now` and the span ends after `now`, the span holds
      no more timestamps than still count at `now`. */
  lemma {:induction false} SpanWithinRecent(ts: seq<int>, start: int, now: int)
    requires NotAfter(ts, now)
    requires now < start + WINDOW_MS
    ensures CountSpan(ts, start) <= |Recent(ts, now)|
  {
    if ts != [] {
      var init := ts[..|ts| - 1];
      assert forall i :: 0 <= i < |init| ==> init[i] == ts[i];
      SpanWithinRecent(init, start, now);
    }
  }

  /** From time `last` on, the stored window of `ip` still counts the same timestamps
      as the accepted requests of `ip` do. */
  ghost predicate Tracks(r: Replay, ip: string, last: int) {
    forall now :: now >= last ==> Recent(Stored(r.windows, ip), now) == Recent(TimesOf(r.accepted, ip), now)
  }

  ghost predicate SpanBounded(ts: seq<int>) {
    forall start :: CountSpan(ts, start) <= MAX_REQ
  }

  /** One more request changes only the accepted timestamps of its own caller, and only if accepted. */
  lemma TimesOfStep(acc: seq<Request>, req: Request, allowed: bool, ip: string)
    ensures TimesOf(acc + if allowed then [req] else [], ip)
         == TimesOf(acc, ip) + if allowed && ip == req.ip then [req.now] else []
  {
    if allowed {
      assert (acc + [req])[..|acc + [req]| - 1] == acc;
    } else {
      assert acc + [] == acc;
    }
  }

  /** Appending one timestamp to both sides keeps a window tracking a history. */
  lemma TracksAppend(stored: seq<int>, history: seq<int>, t: int, last: int)
    requires forall now :: now >= t ==> Recent(stored, now) == Recent(history, now)
    requires t <= last
    ensures forall now :: now >= last ==> Recent(Recent(stored, t) + [t], now) == Recent(history + [t], now)
  {
    forall now | now >= last
      ensures Recent(Recent(stored, t) + [t], now) == Recent(history + [t], now)
    {
      RecentAppend(Recent(stored, t), [t], now);
      RecentLater(stored, t, now);
      RecentAppend(history, [t], now);
    }
  }

  /** Each request keeps every caller's window tracking that caller's accepted requests. */
  lemma StepTracks(prev: Replay, req: Request, ip: string, last: int)
    requires Tracks(prev, ip, req.now) && req.now <= last
    ensures Tracks(Step(prev, req), ip, last)
  {
    var a := Admit(prev.windows, req.ip, req.now);
    var r := Step(prev, req);
    TimesOfStep(prev.accepted, req, a.allowed, ip);
    if a.allowed && ip == req.ip {
      assert Stored(r.windows, ip) == Recent(Stored(prev.windows, ip), req.now) + [req.now];
      assert TimesOf(r.accepted, ip) == TimesOf(prev.accepted, ip) + [req.now];
      TracksAppend(Stored(prev.windows, ip), TimesOf(prev.accepted, ip), req.now, last);
    } else {
      assert Stored(r.windows, ip) == Stored(prev.windows, ip);
      assert TimesOf(r.accepted, ip) == TimesOf(prev.accepted, ip);
    }
  }

  lemma StepNotAfter(prev: Replay, req: Request, ip: string, last: int)
    requires NotAfter(TimesOf(prev.accepted, ip), req.now) && req.now <= last
    ensures NotAfter(TimesOf(Step(prev, req).accepted, ip), last)
  {
    TimesOfStep(prev.accepted, req, Admit(prev.windows, req.ip, req.now).allowed, ip);
  }

  /** An accepted request lands in a span only when fewer than `MAX_REQ` earlier ones
      still counted, and all of those lie in the span's reach. */
  lemma StepSpanBounded(prev: Replay, req: Request, ip: string)
    requires Tracks(prev, ip, req.now)
    requires NotAfter(TimesOf(prev.accepted, ip), req.now)
    requires SpanBounded(TimesOf(prev.accepted, ip))
    ensures SpanBounded(TimesOf(Step(prev, req).accepted, ip))
  {
    var a := Admit(prev.windows, req.ip, req.now);
    TimesOfStep(prev.accepted, req, a.allowed, ip);
    var oldTs := TimesOf(prev.accepted, ip);
    if a.allowed && ip == req.ip {
      var newTs := oldTs + [req.now];
      assert TimesOf(Step(prev, req).accepted, ip) == newTs;
      assert Recent(Stored(prev.windows, ip), req.now) == Recent(oldTs, req.now);
      assert |Recent(oldTs, req.now)| < MAX_REQ;
      assert newTs[..|newTs| - 1] == oldTs;
      forall start ensures CountSpan(newTs, start) <= MAX_REQ {
        assert CountSpan(oldTs, start) <= MAX_REQ;
        if start <= req.now < start + WINDOW_MS {
          SpanWithinRecent(oldTs, start, req.now);
          assert CountSpan(newTs, start) == CountSpan(oldTs, start) + 1;
        } else {
          assert CountSpan(newTs, start) == CountSpan(oldTs, start);
        }
      }
    } else {
      assert TimesOf(Step(prev, req).accepted, ip) == oldTs;
    }
  }

  /** What the map remembers about caller `ip` after the requests `reqs`, from any time
      `last` no earlier than the last request: its window tracks its accepted requests,
      none of them is later than `last`, and no span holds more than `MAX_REQ` of them. */
  lemma {:induction false} RunRemembers(reqs: seq<Request>, ip: string, last: int)
    requires NonDecreasing(reqs)
    requires reqs != [] ==> reqs[|reqs| - 1].now <= last
    ensures Tracks(Run(reqs), ip, last)
    ensures NotAfter(TimesOf(Run(reqs).accepted, ip), last)
    ensures SpanBounded(TimesOf(Run(reqs).accepted, ip))
  {
    if reqs != [] {
      var init := reqs[..|reqs| - 1];
      var req := reqs[|reqs| - 1];
      assert NonDecreasing(init);
      RunRemembers(init, ip, req.now);
      StepTracks(Run(init), req, ip, last);
      StepNotAfter(Run(init), req, ip, last);
      StepSpanBounded(Run(init), req, ip);
    }
  }

  /** The limiter's promise: with a clock that never moves back, no caller has more
      than `MAX_REQ` requests accepted in any span of `WINDOW_MS` milliseconds. */
  lemma AtMostMaxPerWindow(reqs: seq<Request>, ip: string, start: int)
    requires NonDecreasing(reqs)
    ensures CountSpan(TimesOf(Run(reqs).accepted, ip), start) <= MAX_REQ
  {
    var last := if reqs == [] then 0 else reqs[|reqs| - 1].now;
    RunRemembers(reqs, ip, last);
  }

  /** With three timestamps all still counting, a fourth request is refused; once the
      oldest is `WINDOW_MS` old, the caller is let through again. */
  lemma FullWindowScenario(ip: string, t: int)
    ensures !Admit(map[ip := [t, t + 1, t + 2]], ip, t + 3).allowed
    ensures Admit(map[ip := [t, t + 1, t + 2]], ip, t + WINDOW_MS).allowed
  {
    var w := [t, t + 1, t + 2];
    assert w[..2] == [t, t + 1] && w[..2][..1] == [t];
    assert [t][..0] == [];
    assert Recent([t], t + 3) == [t];
    assert Recent([t, t + 1], t + 3) == [t, t + 1];
    assert Recent(w, t + 3) == w;
    WindowReopens(map[ip := w], ip, t + WINDOW_MS, 0);
  }
}
