/** Per-address token buckets with eviction of idle entries. Times are seconds on the server's
    monotonic clock. */
module RateLimit {

  datatype Visitor = Visitor(tokens: real, lastSeen: real)

  /** time.Since of the zero time saturates at the largest Duration: 2^63 - 1 nanoseconds. */
  const MAX_ELAPSED := 9223372036.854775807
  /** Entries idle for longer than this are dropped by the cleanup. */
  const IDLE_LIMIT := 300.0

  /** Tokens earned in a period. */
  function Gain(period: real, rate: real): real {
    period * rate
  }

  function Refill(tokens: real, elapsed: real, rate: real, burst: int): real {
    var t := tokens + Gain(elapsed, rate);
    if t > burst as real then burst as real else t
  }

  /** The bucket a request finds when the clock reads now. */
  function Available(m: map<string, Visitor>, ip: string, now: real, rate: real, burst: int): real {
    if ip in m then Refill(m[ip].tokens, now - m[ip].lastSeen, rate, burst)
    else Refill(burst as real, MAX_ELAPSED, rate, burst)
  }

  /** A request reads the clock to compute the elapsed time and again to stamp the entry. */
  datatype Event = Request(ip: string, read: real, stamp: real) | Cleanup(ip: string, at: real)

  predicate Admits(m: map<string, Visitor>, e: Event, rate: real, burst: int)
    requires e.Request?
  {
    Available(m, e.ip, e.read, rate, burst) >= 1.0
  }

  function Served(m: map<string, Visitor>, e: Event, rate: real, burst: int): map<string, Visitor>
    requires e.Request?
  {
    var tokens := Available(m, e.ip, e.read, rate, burst);
    m[e.ip := Visitor(if tokens < 1.0 then tokens else tokens - 1.0, e.stamp)]
  }

  predicate Idle(v: Visitor, now: real) {
    now - v.lastSeen > IDLE_LIMIT
  }

  /** One event; with evict false the cleanup does nothing. */
  function After(m: map<string, Visitor>, e: Event, rate: real, burst: int, evict: bool): map<string, Visitor> {
    match e
    case Request(_, _, _) => Served(m, e, rate, burst)
    case Cleanup(ip, at) => if evict && ip in m && Idle(m[ip], at) then m - {ip} else m
  }

  /** The answers to the requests of a trace, in order. */
  function Decisions(m: map<string, Visitor>, es: seq<Event>, rate: real, burst: int, evict: bool): seq<bool>
    decreases |es|
  {
    if es == [] then []
    else (if es[0].Request? then [Admits(m, es[0], rate, burst)] else [])
         + Decisions(After(m, es[0], rate, burst, evict), es[1..], rate, burst, evict)
  }

  function End(e: Event): real {
    if e.Request? then e.stamp else e.at
  }

  /** The clock never goes back, and no reading is before t. */
  predicate Timed(es: seq<Event>, t: real) {
    es != [] ==>
      && (es[0].Request? ==> t <= es[0].read <= es[0].stamp)
      && (es[0].Cleanup? ==> t <= es[0].at)
      && Timed(es[1..], End(es[0]))
  }

  // ---------------------------------------------------------------- buckets stay in range

  /** A bucket holds between 0 and burst tokens; with no positive burst it simply holds burst. */
  predicate InRange(tokens: real, burst: int) {
    tokens <= burst as real && (tokens >= 0.0 || tokens == burst as real)
  }

  predicate Sane(m: map<string, Visitor>, now: real, burst: int) {
    forall ip | ip in m :: InRange(m[ip].tokens, burst) && m[ip].lastSeen <= now
  }

  lemma GainMonotone(a: real, b: real, rate: real)
    requires a <= b && rate > 0.0
    ensures Gain(0.0, rate) == 0.0
    ensures Gain(a, rate) <= Gain(b, rate)
    ensures a < b ==> Gain(a, rate) < Gain(b, rate)
  {
  }

  lemma GainAdds(a: real, b: real, c: real, rate: real)
    ensures Gain(c - a, rate) == Gain(b - a, rate) + Gain(c - b, rate)
  {
  }

  lemma AvailableInRange(m: map<string, Visitor>, ip: string, now: real, rate: real, burst: int)
    requires rate > 0.0 && Sane(m, now, burst)
    ensures InRange(Available(m, ip, now, rate, burst), burst)
    ensures ip !in m ==> Available(m, ip, now, rate, burst) == burst as real
  {
    if ip in m { GainMonotone(0.0, now - m[ip].lastSeen, rate); } else { GainMonotone(0.0, MAX_ELAPSED, rate); }
  }

  lemma AfterSane(m: map<string, Visitor>, e: Event, t: real, rate: real, burst: int, evict: bool)
    requires rate > 0.0 && Sane(m, t, burst) && Timed([e], t)
    ensures Sane(After(m, e, rate, burst, evict), End(e), burst)
  {
    if e.Request? {
      assert Sane(m, e.read, burst);
      AvailableInRange(m, e.ip, e.read, rate, burst);
    }
  }

  lemma TimedParts(es: seq<Event>, t: real)
    requires Timed(es, t) && es != []
    ensures Timed([es[0]], t) && Timed(es[1..], End(es[0])) && t <= End(es[0])
  {
    assert [es[0]][1..] == [];
  }

  function Final(m: map<string, Visitor>, es: seq<Event>, rate: real, burst: int, evict: bool): map<string, Visitor>
    decreases |es|
  {
    if es == [] then m else Final(After(m, es[0], rate, burst, evict), es[1..], rate, burst, evict)
  }

  function LastTime(es: seq<Event>, t: real): real {
    if es == [] then t else LastTime(es[1..], End(es[0]))
  }

  /** Along every trace, with or without eviction, each bucket stays in range. */
  lemma {:induction false} TokensStayInRange(m: map<string, Visitor>, es: seq<Event>, t: real,
                                             rate: real, burst: int, evict: bool)
    requires rate > 0.0 && Sane(m, t, burst) && Timed(es, t)
    ensures Sane(Final(m, es, rate, burst, evict), LastTime(es, t), burst)
    decreases |es|
  {
    if es != [] {
      TimedParts(es, t);
      AfterSane(m, es[0], t, rate, burst, evict);
      TokensStayInRange(After(m, es[0], rate, burst, evict), es[1..], End(es[0]), rate, burst, evict);
    }
  }

  // ---------------------------------------------------------------- admissions in a window

  /** Requests of ip admitted with both clock readings inside [lo, hi]. */
  function AdmittedIn(m: map<string, Visitor>, es: seq<Event>, ip: string, lo: real, hi: real,
                      rate: real, burst: int, evict: bool): nat
    decreases |es|
  {
    if es == [] then 0
    else (if es[0].Request? && es[0].ip == ip && lo <= es[0].read && es[0].stamp <= hi && Admits(m, es[0], rate, burst)
          then 1 else 0)
         + AdmittedIn(After(m, es[0], rate, burst, evict), es[1..], ip, lo, hi, rate, burst, evict)
  }

  /** Tokens available later are at most those available now plus what the time between brings. */
  lemma AvailableLater(m: map<string, Visitor>, ip: string, t: real, u: real, rate: real, burst: int)
    requires rate > 0.0 && t <= u && Sane(m, t, burst)
    ensures Available(m, ip, u, rate, burst) <= Available(m, ip, t, rate, burst) + Gain(u - t, rate)
  {
    GainMonotone(0.0, u - t, rate);
    if ip in m {
      var v := m[ip];
      GainAdds(v.lastSeen, t, u, rate);
    }
  }

  /** What a request leaves in its own bucket. */
  lemma ServedAvailable(m: map<string, Visitor>, e: Event, rate: real, burst: int)
    requires rate > 0.0 && e.Request? && e.read <= e.stamp && Sane(m, e.read, burst)
    ensures var left := Available(m, e.ip, e.read, rate, burst);
            Available(Served(m, e, rate, burst), e.ip, e.stamp, rate, burst)
            == left - (if Admits(m, e, rate, burst) then 1.0 else 0.0)
  {
    AvailableInRange(m, e.ip, e.read, rate, burst);
  }

  function NonNegative(x: real): real {
    if x < 0.0 then 0.0 else x
  }

  lemma {:induction false} AdmittedBound(m: map<string, Visitor>, es: seq<Event>, ip: string, t: real, lo: real,
                                         hi: real, rate: real, burst: int)
    requires rate > 0.0 && Sane(m, t, burst) && Timed(es, t) && t <= hi
    ensures AdmittedIn(m, es, ip, lo, hi, rate, burst, false) as real
            <= NonNegative(Available(m, ip, t, rate, burst)) + Gain(hi - t, rate)
    decreases |es|
  {
    GainMonotone(0.0, hi - t, rate);
    if es != [] {
      var e, m' := es[0], After(m, es[0], rate, burst, false);
      TimedParts(es, t);
      AfterSane(m, e, t, rate, burst, false);
      if End(e) > hi {
        NoneAfter(m', es[1..], ip, End(e), lo, hi, rate, burst);
      } else {
        AdmittedBound(m', es[1..], ip, End(e), lo, hi, rate, burst);
        GainMonotone(0.0, End(e) - t, rate);
        GainAdds(t, End(e), hi, rate);
        if e.Request? && e.ip == ip {
          AvailableLater(m, ip, t, e.read, rate, burst);
          assert Sane(m, e.read, burst);
          ServedAvailable(m, e, rate, burst);
          GainMonotone(e.read - t, End(e) - t, rate);
          GainMonotone(0.0, e.read - t, rate);
        } else {
          AvailableLater(m, ip, t, End(e), rate, burst);
          assert Available(m', ip, End(e), rate, burst) == Available(m, ip, End(e), rate, burst);
        }
      }
    }
  }

  lemma {:induction false} NoneAfter(m: map<string, Visitor>, es: seq<Event>, ip: string, t: real, lo: real, hi: real,
                                     rate: real, burst: int)
    requires Timed(es, t) && t > hi
    ensures AdmittedIn(m, es, ip, lo, hi, rate, burst, false) == 0
    decreases |es|
  {
    if es != [] {
      TimedParts(es, t);
      NoneAfter(After(m, es[0], rate, burst, false), es[1..], ip, End(es[0]), lo, hi, rate, burst);
    }
  }

  /** Without eviction, any window admits at most burst + rate * length requests of one address. */
  lemma {:induction false} WindowBound(m: map<string, Visitor>, es: seq<Event>, ip: string, t: real, lo: real, hi: real,
                                       rate: real, burst: int)
    requires rate > 0.0 && Sane(m, t, burst) && Timed(es, t) && lo <= hi
    ensures AdmittedIn(m, es, ip, lo, hi, rate, burst, false) as real
            <= NonNegative(burst as real) + Gain(hi - lo, rate)
    decreases |es|
  {
    GainMonotone(0.0, hi - lo, rate);
    if es != [] {
      var e := es[0];
      TimedParts(es, t);
      AfterSane(m, e, t, rate, burst, false);
      if e.Request? && lo <= e.read <= hi {
        assert Sane(m, e.read, burst);
        AvailableInRange(m, ip, e.read, rate, burst);
        AdmittedBound(m, es, ip, e.read, lo, hi, rate, burst);
        GainMonotone(hi - e.read, hi - lo, rate);
      } else {
        WindowBound(After(m, e, rate, burst, false), es[1..], ip, End(e), lo, hi, rate, burst);
      }
    }
  }

  // ---------------------------------------------------------------- eviction

  /** An evicted bucket would have been full by now. */
  predicate Full(v: Visitor, now: real, rate: real, burst: int) {
    v.tokens + Gain(now - v.lastSeen, rate) >= burst as real
  }

  /** The evicting table a agrees with the never-evicting table b wherever it still has an entry;
      what it has dropped is full. */
  predicate Simulates(a: map<string, Visitor>, b: map<string, Visitor>, now: real, rate: real, burst: int) {
    && Sane(b, now, burst)
    && (forall ip | ip in a :: ip in b && a[ip] == b[ip])
    && (forall ip | ip in b && ip !in a :: Full(b[ip], now, rate, burst))
  }

  lemma FullLater(v: Visitor, t: real, u: real, rate: real, burst: int)
    requires rate > 0.0 && t <= u && Full(v, t, rate, burst)
    ensures Full(v, u, rate, burst)
  {
    GainMonotone(t - v.lastSeen, u - v.lastSeen, rate);
  }

  lemma SimulatesLater(a: map<string, Visitor>, b: map<string, Visitor>, t: real, u: real, rate: real, burst: int)
    requires rate > 0.0 && t <= u && Simulates(a, b, t, rate, burst)
    ensures Simulates(a, b, u, rate, burst)
  {
    forall ip | ip in b && ip !in a
      ensures Full(b[ip], u, rate, burst)
    {
      FullLater(b[ip], t, u, rate, burst);
    }
  }

  lemma SameBucket(a: map<string, Visitor>, b: map<string, Visitor>, ip: string, now: real, rate: real, burst: int)
    requires rate > 0.0 && Simulates(a, b, now, rate, burst)
    ensures Available(a, ip, now, rate, burst) == Available(b, ip, now, rate, burst)
  {
    if ip !in a { GainMonotone(0.0, MAX_ELAPSED, rate); }
  }

  lemma SimulationStep(a: map<string, Visitor>, b: map<string, Visitor>, e: Event, t: real, rate: real, burst: int)
    requires rate > 0.0 && rate * 300.0 >= burst as real
    requires Simulates(a, b, t, rate, burst) && Timed([e], t)
    ensures Simulates(After(a, e, rate, burst, true), After(b, e, rate, burst, false), End(e), rate, burst)
    ensures e.Request? ==> Admits(a, e, rate, burst) == Admits(b, e, rate, burst)
  {
    AfterSane(b, e, t, rate, burst, false);
    match e
    case Request(ip, read, stamp) =>
      SimulatesLater(a, b, t, read, rate, burst);
      SameBucket(a, b, ip, read, rate, burst);
      SimulatesLater(a, b, t, stamp, rate, burst);
    case Cleanup(ip, at) =>
      SimulatesLater(a, b, t, at, rate, burst);
      if ip in a && Idle(a[ip], at) { GainMonotone(IDLE_LIMIT, at - a[ip].lastSeen, rate); }
  }

  lemma {:induction false} EvictionSimulated(a: map<string, Visitor>, b: map<string, Visitor>, es: seq<Event>, t: real,
                                             ip: string, lo: real, hi: real, rate: real, burst: int)
    requires rate > 0.0 && rate * 300.0 >= burst as real
    requires Simulates(a, b, t, rate, burst) && Timed(es, t)
    ensures Decisions(a, es, rate, burst, true) == Decisions(b, es, rate, burst, false)
    ensures AdmittedIn(a, es, ip, lo, hi, rate, burst, true) == AdmittedIn(b, es, ip, lo, hi, rate, burst, false)
    decreases |es|
  {
    if es != [] {
      TimedParts(es, t);
      SimulationStep(a, b, es[0], t, rate, burst);
      EvictionSimulated(After(a, es[0], rate, burst, true), After(b, es[0], rate, burst, false), es[1..], End(es[0]),
                        ip, lo, hi, rate, burst);
    }
  }

  /** The evicting limiter keeps the window bound over whole runs when idle entries are full. */
  lemma EvictingWindowBound(es: seq<Event>, t: real, ip: string, lo: real, hi: real, rate: real, burst: int)
    requires rate > 0.0 && rate * 300.0 >= burst as real
    requires Timed(es, t) && lo <= hi
    ensures AdmittedIn(map[], es, ip, lo, hi, rate, burst, true) as real
            <= NonNegative(burst as real) + (hi - lo) * rate
  {
    EvictionSimulated(map[], map[], es, t, ip, lo, hi, rate, burst);
    WindowBound(map[], es, ip, t, lo, hi, rate, burst);
  }

  // ---------------------------------------------------------------- when eviction shows

  /** n requests of one address at one instant. */
  function Volley(ip: string, t: real, n: nat): seq<Event> {
    if n == 0 then [] else [Request(ip, t, t)] + Volley(ip, t, n - 1)
  }

  lemma {:induction false} VolleyTimed(ip: string, t: real, n: nat, more: seq<Event>)
    requires Timed(more, t)
    ensures Timed(Volley(ip, t, n) + more, t)
  {
    if n == 0 {
      assert [] + more == more;
    } else {
      VolleyTimed(ip, t, n - 1, more);
      assert (Volley(ip, t, n) + more)[1..] == Volley(ip, t, n - 1) + more;
    }
  }

  lemma {:induction false} DecisionsConcat(m: map<string, Visitor>, a: seq<Event>, b: seq<Event>,
                                           rate: real, burst: int, evict: bool)
    ensures Decisions(m, a + b, rate, burst, evict)
            == Decisions(m, a, rate, burst, evict) + Decisions(Final(m, a, rate, burst, evict), b, rate, burst, evict)
    decreases |a|
  {
    if a == [] {
      assert a + b == b;
    } else {
      assert (a + b)[1..] == a[1..] + b;
      DecisionsConcat(After(m, a[0], rate, burst, evict), a[1..], b, rate, burst, evict);
    }
  }

  function Yes(n: nat): seq<bool> {
    if n == 0 then [] else [true] + Yes(n - 1)
  }

  /** A volley no larger than the bucket is admitted whole and uses that many tokens. */
  lemma {:induction false} VolleyAdmitted(m: map<string, Visitor>, ip: string, t: real, n: nat,
                                          rate: real, burst: int, evict: bool)
    requires rate > 0.0 && Sane(m, t, burst) && Available(m, ip, t, rate, burst) >= n as real
    ensures Decisions(m, Volley(ip, t, n), rate, burst, evict) == Yes(n)
    ensures var m' := Final(m, Volley(ip, t, n), rate, burst, evict);
            && Sane(m', t, burst)
            && Available(m', ip, t, rate, burst) == Available(m, ip, t, rate, burst) - n as real
            && (n > 0 ==> ip in m' && m'[ip] == Visitor(Available(m, ip, t, rate, burst) - n as real, t))
    decreases n
  {
    if n > 0 {
      var e := Request(ip, t, t);
      var m1 := After(m, e, rate, burst, evict);
      assert Volley(ip, t, n)[1..] == Volley(ip, t, n - 1);
      assert [e][1..] == [] && Timed([e], t);
      AfterSane(m, e, t, rate, burst, evict);
      ServedAvailable(m, e, rate, burst);
      VolleyAdmitted(m1, ip, t, n - 1, rate, burst, evict);
    }
  }

  /** A larger volley is not admitted whole. */
  lemma {:induction false} VolleyRefused(m: map<string, Visitor>, ip: string, t: real, n: nat, rate: real, burst: int)
    requires rate > 0.0 && Sane(m, t, burst) && n > 0 && Available(m, ip, t, rate, burst) < n as real
    ensures Decisions(m, Volley(ip, t, n), rate, burst, false) != Yes(n)
    decreases n
  {
    var e := Request(ip, t, t);
    var m1 := After(m, e, rate, burst, false);
    assert Volley(ip, t, n)[1..] == Volley(ip, t, n - 1);
    assert [e][1..] == [] && Timed([e], t);
    AfterSane(m, e, t, rate, burst, false);
    ServedAvailable(m, e, rate, burst);
    if Admits(m, e, rate, burst) {
      VolleyRefused(m1, ip, t, n - 1, rate, burst);
      assert ([true] + Decisions(m1, Volley(ip, t, n - 1), rate, burst, false))[1..]
          == Decisions(m1, Volley(ip, t, n - 1), rate, burst, false);
      assert Yes(n)[1..] == Yes(n - 1);
    } else {
      assert !Decisions(m, Volley(ip, t, n), rate, burst, false)[0] && Yes(n)[0];
    }
  }

  /** A period longer than the idle limit that still does not refill an empty bucket. */
  lemma ShortIdlePeriod(rate: real, burst: int) returns (at: real)
    requires rate > 0.0 && rate * 300.0 < burst as real
    ensures at > 300.0 && Gain(at, rate) < burst as real && burst > 0
  {
    GainMonotone(0.0, IDLE_LIMIT, rate);
    var refill := burst as real / rate;
    assert Gain(refill, rate) == burst as real;
    if refill <= IDLE_LIMIT { GainMonotone(refill, IDLE_LIMIT, rate); }
    at := (IDLE_LIMIT + refill) / 2.0;
    GainMonotone(at, refill, rate);
  }

  /** A full volley on an empty table leaves one empty bucket. */
  lemma FirstVolley(ip: string, n: nat, rate: real, evict: bool)
    requires rate > 0.0 && n > 0
    ensures Decisions(map[], Volley(ip, 0.0, n), rate, n, evict) == Yes(n)
    ensures var m := Final(map[], Volley(ip, 0.0, n), rate, n, evict);
            Sane(m, 0.0, n) && ip in m && m[ip] == Visitor(0.0, 0.0)
  {
    GainMonotone(0.0, MAX_ELAPSED, rate);
    VolleyAdmitted(map[], ip, 0.0, n, rate, n, evict);
  }

  /** After the cleanup a second volley is admitted whole; without it, not. */
  lemma SecondVolley(a: map<string, Visitor>, ip: string, at: real, n: nat, rate: real, evict: bool)
    requires rate > 0.0 && n > 0 && at > IDLE_LIMIT && Gain(at, rate) < n as real
    requires Sane(a, 0.0, n) && ip in a && a[ip] == Visitor(0.0, 0.0)
    ensures (Decisions(a, [Cleanup(ip, at)] + Volley(ip, at, n), rate, n, evict) == Yes(n)) <==> evict
  {
    var e, volley := Cleanup(ip, at), Volley(ip, at, n);
    assert ([e] + volley)[1..] == volley;
    if evict {
      GainMonotone(0.0, MAX_ELAPSED, rate);
      VolleyAdmitted(a - {ip}, ip, at, n, rate, n, true);
    } else {
      VolleyRefused(a, ip, at, n, rate, n);
    }
  }

  /** burst requests, an idle period just too short to refill, a cleanup, and burst requests again. */
  lemma EvictionShows(ip: string, rate: real, burst: int) returns (es: seq<Event>)
    requires rate > 0.0 && rate * 300.0 < burst as real
    ensures Timed(es, 0.0)
    ensures Decisions(map[], es, rate, burst, true) != Decisions(map[], es, rate, burst, false)
  {
    hide Gain;
    var at := ShortIdlePeriod(rate, burst);
    var first, second := Volley(ip, 0.0, burst), [Cleanup(ip, at)] + Volley(ip, at, burst);
    es := first + second;
    VolleyTimed(ip, at, burst, []);
    assert Volley(ip, at, burst) + [] == Volley(ip, at, burst);
    assert second[1..] == Volley(ip, at, burst);
    VolleyTimed(ip, 0.0, burst, second);
    FirstVolley(ip, burst, rate, true);
    FirstVolley(ip, burst, rate, false);
    var a, b := Final(map[], first, rate, burst, true), Final(map[], first, rate, burst, false);
    SecondVolley(a, ip, at, burst, rate, true);
    SecondVolley(b, ip, at, burst, rate, false);
    DecisionsConcat(map[], first, second, rate, burst, true);
    DecisionsConcat(map[], first, second, rate, burst, false);
    hide Decisions;
    Cancel(Yes(burst), Decisions(a, second, rate, burst, true), Decisions(b, second, rate, burst, false));
  }

  lemma Cancel<T>(a: seq<T>, b: seq<T>, c: seq<T>)
    requires b != c
    ensures a + b != a + c
  {
    assert (a + b)[|a|..] == b && (a + c)[|a|..] == c;
  }

  ghost predicate EvictionInvisible(rate: real, burst: int) {
    forall es, t :: Timed(es, t) ==>
      Decisions(map[], es, rate, burst, true) == Decisions(map[], es, rate, burst, false)
  }

  /** Eviction changes no decision in any run exactly when an empty bucket refills within the idle
      limit. */
  lemma EvictionInvisibleIff(rate: real, burst: int)
    requires rate > 0.0
    ensures EvictionInvisible(rate, burst) <==> rate * 300.0 >= burst as real
  {
    assert Gain(IDLE_LIMIT, rate) == rate * 300.0;
    if Gain(IDLE_LIMIT, rate) >= burst as real {
      forall es, t | Timed(es, t)
        ensures Decisions(map[], es, rate, burst, true) == Decisions(map[], es, rate, burst, false)
      {
        EvictionSimulated(map[], map[], es, t, "", 0.0, 0.0, rate, burst);
      }
    } else {
      var es := EvictionShows("", rate, burst);
    }
  }

  // ---------------------------------------------------------------- exactly which requests pass

  /** Time that counts for an address from its first request in a stretch of events until now: the
      periods between the stamp of one of its requests and the reading of the next. `last` is the
      stamp of its latest request, if there has been one. */
  function Counted(es: seq<Event>, ip: string, last: real, seen: bool, now: real): real {
    if es == [] then (if seen then now - last else 0.0)
    else if es[0].Request? && es[0].ip == ip
    then (if seen then es[0].read - last else 0.0) + Counted(es[1..], ip, es[0].stamp, true, now)
    else Counted(es[1..], ip, last, seen, now)
  }

  /** How many requests of an address are admitted, without eviction. */
  function Admitted(m: map<string, Visitor>, es: seq<Event>, ip: string, rate: real, burst: int): nat
    decreases |es|
  {
    if es == [] then 0
    else (if es[0].Request? && es[0].ip == ip && Admits(m, es[0], rate, burst) then 1 else 0)
         + Admitted(After(m, es[0], rate, burst, false), es[1..], ip, rate, burst)
  }

  /** What a full bucket at the first request of a stretch would have left now. */
  function Room(m: map<string, Visitor>, es: seq<Event>, ip: string, now: real, rate: real, burst: int): real {
    burst as real + Gain(Counted(es, ip, 0.0, false, now), rate) - Admitted(m, es, ip, rate, burst) as real
  }

  lemma GainSum(a: real, b: real, rate: real)
    ensures Gain(a + b, rate) == Gain(a, rate) + Gain(b, rate) && Gain(0.0, rate) == 0.0
  {
  }

  /** Where a known bucket ends, if it never overflows. */
  function Drained(m: map<string, Visitor>, es: seq<Event>, ip: string, now: real, rate: real, burst: int): real
    requires ip in m
  {
    m[ip].tokens + Gain(Counted(es, ip, m[ip].lastSeen, true, now), rate) - Admitted(m, es, ip, rate, burst) as real
  }

  lemma {:induction false} DrainedIsMore(
    m: map<string, Visitor>, es: seq<Event>, ip: string, now: real, rate: real, burst: int)
    requires ip in m
    ensures Available(Final(m, es, rate, burst, false), ip, now, rate, burst) <= Drained(m, es, ip, now, rate, burst)
    decreases |es|
  {
    hide Gain;
    if es != [] {
      var e, m' := es[0], After(m, es[0], rate, burst, false);
      DrainedIsMore(m', es[1..], ip, now, rate, burst);
      if e.Request? && e.ip == ip {
        GainSum(e.read - m[ip].lastSeen, Counted(es[1..], ip, e.stamp, true, now), rate);
      }
    }
  }

  /** A bucket holds at most what any stretch leaves room for. */
  lemma {:induction false} RoomIsMore(
    m: map<string, Visitor>, es: seq<Event>, ip: string, now: real, rate: real, burst: int)
    ensures Available(Final(m, es, rate, burst, false), ip, now, rate, burst) <= Room(m, es, ip, now, rate, burst)
    decreases |es|
  {
    hide Gain;
    GainSum(0.0, 0.0, rate);
    if es != [] {
      var e, m' := es[0], After(m, es[0], rate, burst, false);
      if e.Request? && e.ip == ip {
        DrainedIsMore(m', es[1..], ip, now, rate, burst);
      } else {
        RoomIsMore(m', es[1..], ip, now, rate, burst);
      }
    }
  }

  /** Stretch k of a trace: what is left of it, and the table it starts from. */
  function RoomFrom(m: map<string, Visitor>, es: seq<Event>, k: nat, ip: string, now: real, rate: real, burst: int)
    : real
    requires k <= |es|
  {
    Room(Final(m, es[..k], rate, burst, false), es[k..], ip, now, rate, burst)
  }

  lemma RoomShifts(m: map<string, Visitor>, es: seq<Event>, k: nat, ip: string, now: real, rate: real, burst: int)
    requires es != [] && k < |es|
    ensures RoomFrom(m, es, k + 1, ip, now, rate, burst)
            == RoomFrom(After(m, es[0], rate, burst, false), es[1..], k, ip, now, rate, burst)
  {
    hide Room, After;
    assert es[..k + 1][1..] == es[1..][..k] && es[..k + 1][0] == es[0];
    assert es[k + 1..] == es[1..][k..];
  }

  /** And it holds exactly what some stretch leaves room for, or what a known bucket is drained to. */
  lemma {:induction false} SomeRoomIsAll(
    m: map<string, Visitor>, es: seq<Event>, ip: string, now: real, rate: real, burst: int)
    requires rate > 0.0
    ensures var left := Available(Final(m, es, rate, burst, false), ip, now, rate, burst);
            || (ip in m && left == Drained(m, es, ip, now, rate, burst))
            || exists k: nat | k <= |es| :: left == RoomFrom(m, es, k, ip, now, rate, burst)
    decreases |es|
  {
    hide Gain;
    GainSum(0.0, 0.0, rate);
    RoomAtStart(m, es, ip, now, rate, burst);
    if es == [] {
      GainPositive(rate);
    } else {
      var e, m' := es[0], After(m, es[0], rate, burst, false);
      var left := Available(Final(m, es, rate, burst, false), ip, now, rate, burst);
      SomeRoomIsAll(m', es[1..], ip, now, rate, burst);
      if exists k: nat | k <= |es[1..]| :: left == RoomFrom(m', es[1..], k, ip, now, rate, burst) {
        var k: nat :| k <= |es[1..]| && left == RoomFrom(m', es[1..], k, ip, now, rate, burst);
        RoomShifts(m, es, k, ip, now, rate, burst);
      } else if e.Request? && e.ip == ip {
        GainPositive(rate);
        if ip in m {
          GainSum(e.read - m[ip].lastSeen, Counted(es[1..], ip, e.stamp, true, now), rate);
        }
      }
    }
  }

  lemma GainPositive(rate: real)
    requires rate > 0.0
    ensures Gain(MAX_ELAPSED, rate) > 0.0
  {
  }

  lemma RoomAtStart(m: map<string, Visitor>, es: seq<Event>, ip: string, now: real, rate: real, burst: int)
    ensures RoomFrom(m, es, 0, ip, now, rate, burst) == Room(m, es, ip, now, rate, burst)
  {
    assert es[..0] == [] && es[0..] == es;
  }

  /** The stretch from event k on has room for the request that ends it: burst plus rate times the
      time that counts exceeds the requests of that address admitted in the stretch by one or more. */
  predicate HasRoom(es: seq<Event>, k: nat, e: Event, rate: real, burst: int)
    requires k <= |es| && e.Request?
  {
    var before := Final(map[], es[..k], rate, burst, false);
    burst as real + rate * Counted(es[k..], e.ip, 0.0, false, e.read)
    >= Admitted(before, es[k..], e.ip, rate, burst) as real + 1.0
  }

  lemma HasRoomIff(es: seq<Event>, k: nat, e: Event, rate: real, burst: int)
    requires k <= |es| && e.Request?
    ensures HasRoom(es, k, e, rate, burst) <==> RoomFrom(map[], es, k, e.ip, e.read, rate, burst) >= 1.0
  {
    hide Final, Counted, Admitted;
  }

  /** The limiter is exactly a token bucket: after any trace a request passes if and only if every
      stretch of events that ends with it has room for it. */
  lemma AdmitsIff(es: seq<Event>, e: Event, rate: real, burst: int)
    requires rate > 0.0 && e.Request?
    ensures Admits(Final(map[], es, rate, burst, false), e, rate, burst)
            <==> forall k: nat | k <= |es| :: HasRoom(es, k, e, rate, burst)
  {
    hide Final, Available, RoomFrom, HasRoom;
    var left := Available(Final(map[], es, rate, burst, false), e.ip, e.read, rate, burst);
    forall k: nat | k <= |es|
      ensures left <= RoomFrom(map[], es, k, e.ip, e.read, rate, burst)
      ensures HasRoom(es, k, e, rate, burst) <==> RoomFrom(map[], es, k, e.ip, e.read, rate, burst) >= 1.0
    {
      LeftWithinRoom(es, k, e, rate, burst);
      HasRoomIff(es, k, e, rate, burst);
    }
    SomeRoomIsAll(map[], es, e.ip, e.read, rate, burst);
  }

  lemma TimedPrefix(es: seq<Event>, e: Event, t: real)
    requires Timed(es + [e], t)
    ensures Timed(es, t)
  {
    if es != [] {
      assert (es + [e])[1..] == es[1..] + [e];
      TimedPrefix(es[1..], e, End(es[0]));
    }
  }

  lemma LastDecision(es: seq<Event>, e: Event, rate: real, burst: int, evict: bool)
    requires e.Request?
    ensures Decisions(map[], es + [e], rate, burst, evict)
            == Decisions(map[], es, rate, burst, evict) + [Admits(Final(map[], es, rate, burst, evict), e, rate, burst)]
  {
    DecisionsConcat(map[], es, [e], rate, burst, evict);
    assert [e][1..] == [];
  }

  /** So is the limiter that evicts, as long as an idle bucket refills before it is dropped. */
  lemma EvictingAdmitsIff(es: seq<Event>, e: Event, t: real, rate: real, burst: int)
    requires rate > 0.0 && rate * 300.0 >= burst as real && e.Request? && Timed(es + [e], t)
    ensures Admits(Final(map[], es, rate, burst, true), e, rate, burst)
            <==> forall k: nat | k <= |es| :: HasRoom(es, k, e, rate, burst)
  {
    hide Final, Admits, HasRoom, Decisions, AdmittedIn;
    TimedPrefix(es, e, t);
    EvictionSimulated(map[], map[], es, t, "", 0.0, 0.0, rate, burst);
    EvictionSimulated(map[], map[], es + [e], t, "", 0.0, 0.0, rate, burst);
    LastDecision(es, e, rate, burst, true);
    LastDecision(es, e, rate, burst, false);
    AdmitsIff(es, e, rate, burst);
    var d := Decisions(map[], es, rate, burst, false);
    assert (d + [Admits(Final(map[], es, rate, burst, true), e, rate, burst)])[|d|]
        == (d + [Admits(Final(map[], es, rate, burst, false), e, rate, burst)])[|d|];
  }

  lemma LeftWithinRoom(es: seq<Event>, k: nat, e: Event, rate: real, burst: int)
    requires k <= |es| && e.Request?
    ensures Available(Final(map[], es, rate, burst, false), e.ip, e.read, rate, burst)
            <= RoomFrom(map[], es, k, e.ip, e.read, rate, burst)
  {
    hide Final, Available, Room;
    FinalConcat(map[], es[..k], es[k..], rate, burst);
    assert es[..k] + es[k..] == es;
    RoomIsMore(Final(map[], es[..k], rate, burst, false), es[k..], e.ip, e.read, rate, burst);
  }

  lemma {:induction false} FinalConcat(m: map<string, Visitor>, a: seq<Event>, b: seq<Event>, rate: real, burst: int)
    ensures Final(m, a + b, rate, burst, false) == Final(Final(m, a, rate, burst, false), b, rate, burst, false)
    decreases |a|
  {
    hide After;
    if a == [] {
      assert a + b == b;
    } else {
      assert (a + b)[1..] == a[1..] + b;
      FinalConcat(After(m, a[0], rate, burst, false), a[1..], b, rate, burst);
    }
  }

  // ---------------------------------------------------------------- the middleware

  /** RateLimit(cfg): the visitors table behind its mutex. */
  class Limiter {
    const rate: real
    const burst: int
    var visitors: map<string, Visitor>

    constructor (rate: real, burst: int)
      ensures this.rate == rate && this.burst == burst && visitors == map[]
    {
      this.rate, this.burst, visitors := rate, burst, map[];
    }

    method Handle(path: string, ip: string, read: real, stamp: real) returns (admitted: bool)
      modifies this`visitors
      ensures rate <= 0.0 || path in {"/api/v1/health", "/api/v1/ws"} ==> admitted && visitors == old(visitors)
      ensures rate > 0.0 && path !in {"/api/v1/health", "/api/v1/ws"} ==>
                var e := Request(ip, read, stamp);
                && admitted == Admits(old(visitors), e, rate, burst)
                && visitors == After(old(visitors), e, rate, burst, true)
    {
      if rate <= 0.0 {
        return true;
      }
      if path == "/api/v1/health" || path == "/api/v1/ws" {
        return true;
      }
      var tokens, elapsed := burst as real, MAX_ELAPSED;
      if ip in visitors {
        tokens, elapsed := visitors[ip].tokens, read - visitors[ip].lastSeen;
      }
      tokens := tokens + elapsed * rate;
      if tokens > burst as real {
        tokens := burst as real;
      }
      if tokens < 1.0 {
        visitors := visitors[ip := Visitor(tokens, stamp)];
        return false;
      }
      visitors := visitors[ip := Visitor(tokens - 1.0, stamp)];
      return true;
    }

    /** One pass of the background cleanup; clock gives the reading at which each entry is looked at. */
    method Sweep(clock: string -> real)
      modifies this`visitors
      ensures visitors
              == map ip | ip in old(visitors) && clock(ip) - old(visitors)[ip].lastSeen <= 300.0 :: old(visitors)[ip]
    {
      var left := visitors.Keys;
      while left != {}
        invariant left <= old(visitors).Keys
        invariant visitors == map ip | ip in old(visitors)
                                       && (ip in left || !Idle(old(visitors)[ip], clock(ip))) :: old(visitors)[ip]
        decreases left
      {
        var ip :| ip in left;
        left := left - {ip};
        if clock(ip) - visitors[ip].lastSeen > IDLE_LIMIT {
          visitors := visitors - {ip};
        }
      }
    }
  }

  /** A pass is the same as its clean-up events taken one address at a time, in any order. */
  lemma {:induction false} SweepIsCleanups(m: map<string, Visitor>, ips: seq<string>, clock: string -> real,
                                           rate: real, burst: int)
    requires forall i, j | 0 <= i < j < |ips| :: ips[i] != ips[j]
    ensures var es := seq(|ips|, i requires 0 <= i < |ips| => Cleanup(ips[i], clock(ips[i])));
            Final(m, es, rate, burst, true)
            == map ip | ip in m && !(ip in ips && clock(ip) - m[ip].lastSeen > 300.0) :: m[ip]
    decreases |ips|
  {
    var es := seq(|ips|, i requires 0 <= i < |ips| => Cleanup(ips[i], clock(ips[i])));
    if ips != [] {
      var rest := ips[1..];
      var es' := seq(|rest|, i requires 0 <= i < |rest| => Cleanup(rest[i], clock(rest[i])));
      assert es[1..] == es';
      var m' := After(m, es[0], rate, burst, true);
      SweepIsCleanups(m', rest, clock, rate, burst);
      assert ips[0] !in rest;
    }
  }
}
