/** The fixed-window limiter of the login endpoints: one Redis counter per key, armed with a time to
    live by its first hit. Times are milliseconds of the Redis clock. */
module RateLimit {

  datatype Counter = Counter(hits: nat, expiresAt: int)

  type Counters = map<string, Counter>

  /** What goes wrong with a script call: nothing, it never ran, or its reply got lost. */
  datatype Fault = NoFault | NotRun | ReplyLost

  /** A key is gone once the clock has passed its expiry. */
  predicate Alive(cs: Counters, key: string, now: int) {
    key in cs && now <= cs[key].expiresAt
  }

  /** INCR, then PEXPIRE on the first hit; a time to live that is not positive deletes the key. */
  function Script(cs: Counters, key: string, ttl: int, now: int): (Counters, nat) {
    var n := if Alive(cs, key, now) then cs[key].hits + 1 else 1;
    if n > 1 then (cs[key := cs[key].(hits := n)], n)
    else if ttl <= 0 then (cs - {key}, 1)
    else (cs[key := Counter(1, now + ttl)], 1)
  }

  datatype Hit = Hit(key: string, max: int, ttl: int, at: int, fault: Fault)

  function After(cs: Counters, x: Hit): Counters {
    if x.max <= 0 || x.fault == NotRun then cs else Script(cs, x.key, x.ttl, x.at).0
  }

  /** The script ran, its reply came back, and it was within the limit. */
  predicate Admits(cs: Counters, x: Hit) {
    x.max > 0 && x.fault == NoFault && Script(cs, x.key, x.ttl, x.at).1 <= x.max
  }

  predicate Over(cs: Counters, x: Hit) {
    x.max > 0 && x.fault == NoFault && Script(cs, x.key, x.ttl, x.at).1 > x.max
  }

  function Exec(cs: Counters, hits: seq<Hit>): Counters {
    if hits == [] then cs else After(Exec(cs, hits[..|hits| - 1]), hits[|hits| - 1])
  }

  // --- The limiter as it runs -------------------------------------------------------------------

  class Redis {
    var counters: Counters

    constructor ()
      ensures counters == map[]
    {
      counters := map[];
    }

    method RunScript(key: string, ttl: int, now: int) returns (n: nat)
      modifies this
      ensures (counters, n) == Script(old(counters), key, ttl, now)
      ensures key in old(counters) && now <= old(counters)[key].expiresAt && old(counters)[key].hits > 0 ==>
                && n == old(counters)[key].hits + 1
                && counters == old(counters)[key := Counter(hits := n, expiresAt := old(counters)[key].expiresAt)]
      ensures key !in old(counters) || old(counters)[key].expiresAt < now ==>
                && n == 1
                && counters == if ttl > 0 then old(counters)[key := Counter(hits := 1, expiresAt := now + ttl)]
                               else old(counters) - {key}
    {
      if key in counters && now > counters[key].expiresAt {
        counters := counters - {key};
      }
      n := 1;
      if key in counters {
        n := counters[key].hits + 1;
        counters := counters[key := counters[key].(hits := n)];
      }
      if n == 1 {
        if ttl <= 0 {
          counters := counters - {key};
        } else {
          counters := counters[key := Counter(1, now + ttl)];
        }
      }
      assert counters == Script(old(counters), key, ttl, now).0;
    }

    /** Disabled by a limit that is not positive; an error lets the request through. */
    method CheckOver(key: string, max: int, ttl: int, now: int, fault: Fault) returns (over: bool)
      modifies this
      ensures counters == After(old(counters), Hit(key, max, ttl, now, fault))
      ensures over == Over(old(counters), Hit(key, max, ttl, now, fault))
      ensures max <= 0 || fault == NotRun ==> counters == old(counters)
      ensures over <==>
                && max > 0 && fault == NoFault
                && max < 1 + if key in old(counters) && now <= old(counters)[key].expiresAt then old(counters)[key].hits else 0
    {
      if max <= 0 || fault == NotRun {
        return false;
      }
      var n := RunScript(key, ttl, now);
      if fault == ReplyLost {
        return false;
      }
      over := n > max;
    }

    /** Counts on the client address always, then on the username when the body has one: a request
        stopped by the first limit does not use up the second. */
    method AuthRateLimit(
        path: string, ip: string, user: string, maxPerIp: int, maxPerUser: int, ttl: int, now: int,
        ipFault: Fault, userFault: Fault)
      returns (admitted: bool)
      modifies this
      ensures var byIp := Hit("rl:ip:" + path + ":" + ip, maxPerIp, ttl, now, ipFault);
              var byUser := Hit("rl:user:" + path + ":" + user, maxPerUser, ttl, now, userFault);
              var mid := After(old(counters), byIp);
              && (admitted <==> !Over(old(counters), byIp) && (user == "" || !Over(mid, byUser)))
              && counters == if Over(old(counters), byIp) || user == "" then mid else After(mid, byUser)
    {
      var over := CheckOver("rl:ip:" + path + ":" + ip, maxPerIp, ttl, now, ipFault);
      if over {
        return false;
      }
      if maxPerUser > 0 && user != "" {
        over := CheckOver("rl:user:" + path + ":" + user, maxPerUser, ttl, now, userFault);
        if over {
          return false;
        }
      }
      admitted := true;
    }
  }

  // --- Over whole runs --------------------------------------------------------------------------

  ghost predicate Ordered(hits: seq<Hit>) {
    forall i, j :: 0 <= i < j < |hits| ==> hits[i].at <= hits[j].at
  }

  /** Every hit on the key uses one limit and one window. */
  predicate Uniform(hits: seq<Hit>, key: string, max: int, ttl: int) {
    forall k :: 0 <= k < |hits| && hits[k].key == key ==> hits[k].max == max && hits[k].ttl == ttl
  }

  /** How many hits on the key were answered within the limit at times lo <= t < hi. */
  ghost function Admitted(hits: seq<Hit>, key: string, lo: int, hi: int): nat {
    if hits == [] then 0
    else
      var front, x := hits[..|hits| - 1], hits[|hits| - 1];
      Admitted(front, key, lo, hi) + if x.key == key && lo <= x.at < hi && Admits(Exec(map[], front), x) then 1 else 0
  }

  function Min(a: int, b: int): int {
    if a < b then a else b
  }

  /** The count of an interval [lo, lo + ttl), by where the key's current window began. Only windows
      that began before `lo` precede one that begins inside, and the first hit of such a window is
      outside the interval. */
  ghost predicate Bounded(hits: seq<Hit>, key: string, max: int, ttl: int, lo: int) {
    var n, cs := Admitted(hits, key, lo, lo + ttl), Exec(map[], hits);
    && (key in cs ==> hits != [])
    && (n > 0 ==> key in cs && hits[|hits| - 1].at >= lo)
    && (key in cs ==>
          var start := cs[key].expiresAt - ttl;
          && cs[key].hits >= 1 && start <= hits[|hits| - 1].at
          && n <= (if start < lo then Min(cs[key].hits, max) - 1
                   else if start < lo + ttl then max - 1 + Min(cs[key].hits, max)
                   else 2 * max - 1))
  }

  lemma {:induction false} RunIsBounded(hits: seq<Hit>, key: string, max: int, ttl: int, lo: int)
    requires Ordered(hits) && Uniform(hits, key, max, ttl) && max > 0 && ttl > 0
    ensures Bounded(hits, key, max, ttl, lo)
  {
    if hits == [] {
    } else {
      var front, x := hits[..|hits| - 1], hits[|hits| - 1];
      RunIsBounded(front, key, max, ttl, lo);
      StepIsBounded(front, x, key, max, ttl, lo);
      assert front + [x] == hits;
    }
  }

  lemma StepIsBounded(front: seq<Hit>, x: Hit, key: string, max: int, ttl: int, lo: int)
    requires Ordered(front + [x]) && Uniform(front + [x], key, max, ttl) && max > 0 && ttl > 0
    requires Bounded(front, key, max, ttl, lo)
    ensures Bounded(front + [x], key, max, ttl, lo)
  {
    var hits, cs := front + [x], Exec(map[], front);
    OneMore(front, x, key, lo, lo + ttl);
    assert x == hits[|front|];
    if front != [] {
      assert hits[|front| - 1] == front[|front| - 1] && hits[|front| - 1].at <= hits[|front|].at;
    }
    hide Exec, Admitted, Ordered;
    assert x.key == key ==> x.max == max && x.ttl == ttl;
  }

  lemma OneMore(front: seq<Hit>, x: Hit, key: string, lo: int, hi: int)
    ensures Exec(map[], front + [x]) == After(Exec(map[], front), x)
    ensures Admitted(front + [x], key, lo, hi)
         == Admitted(front, key, lo, hi) + if x.key == key && lo <= x.at < hi && Admits(Exec(map[], front), x) then 1 else 0
  {
    assert (front + [x])[..|front|] == front;
  }

  /** At most 2 * max - 1 hits on a key get an answer within the limit in any half-open interval of the
      window's length, whatever happens on other keys. */
  lemma IntervalBound(hits: seq<Hit>, key: string, max: int, ttl: int, lo: int)
    requires Ordered(hits) && Uniform(hits, key, max, ttl) && max > 0 && ttl > 0
    ensures Admitted(hits, key, lo, lo + ttl) <= 2 * max - 1
  {
    RunIsBounded(hits, key, max, ttl, lo);
  }

  /** How many hits on the key the limiter let through at times lo <= t < hi, errors included: it fails
      open. */
  ghost function LetThrough(hits: seq<Hit>, key: string, lo: int, hi: int): nat {
    if hits == [] then 0
    else
      var front, x := hits[..|hits| - 1], hits[|hits| - 1];
      LetThrough(front, key, lo, hi) + if x.key == key && lo <= x.at < hi && !Over(Exec(map[], front), x) then 1 else 0
  }

  /** How many of them met an error: the script did not run, or its reply got lost. */
  function Faulty(hits: seq<Hit>, key: string, lo: int, hi: int): nat {
    if hits == [] then 0
    else
      var front, x := hits[..|hits| - 1], hits[|hits| - 1];
      Faulty(front, key, lo, hi) + if x.key == key && lo <= x.at < hi && x.fault != NoFault then 1 else 0
  }

  lemma {:induction false} LetThroughIs(hits: seq<Hit>, key: string, max: int, ttl: int, lo: int, hi: int)
    requires Uniform(hits, key, max, ttl) && max > 0
    ensures LetThrough(hits, key, lo, hi) == Admitted(hits, key, lo, hi) + Faulty(hits, key, lo, hi)
  {
    if hits == [] {
    } else {
      LetThroughIs(hits[..|hits| - 1], key, max, ttl, lo, hi);
      assert hits[|hits| - 1].key == key ==> hits[|hits| - 1].max == max;
    }
  }

  /** Of the requests the limiter really lets through there are at most 2 * max - 1 plus those that met
      an error, which it never stops. */
  lemma LetThroughBound(hits: seq<Hit>, key: string, max: int, ttl: int, lo: int)
    requires Ordered(hits) && Uniform(hits, key, max, ttl) && max > 0 && ttl > 0
    ensures LetThrough(hits, key, lo, lo + ttl) <= 2 * max - 1 + Faulty(hits, key, lo, lo + ttl)
  {
    IntervalBound(hits, key, max, ttl, lo);
    LetThroughIs(hits, key, max, ttl, lo, lo + ttl);
  }

  // --- The bound is reached ---------------------------------------------------------------------

  function Burst(key: string, max: int, ttl: int, at: int, n: nat): seq<Hit> {
    if n == 0 then [] else Burst(key, max, ttl, at, n - 1) + [Hit(key, max, ttl, at, NoFault)]
  }

  /** One hit at 0, max - 1 hits as the window closes, max hits just after. */
  function Worst(key: string, max: int, ttl: int): seq<Hit>
    requires max > 0
  {
    Burst(key, max, ttl, 0, 1) + Burst(key, max, ttl, ttl, max - 1) + Burst(key, max, ttl, ttl + 1, max)
  }

  /** What n more hits at one moment leave of the key's counter, if n > 0. */
  function Filled(cs: Counters, key: string, ttl: int, at: int, n: nat): Counter {
    if Alive(cs, key, at) then cs[key].(hits := cs[key].hits + n) else Counter(n, at + ttl)
  }

  /** A burst that fits the window is admitted whole. */
  lemma {:induction false} BurstAdmitted(
      hits: seq<Hit>, key: string, max: int, ttl: int, at: int, n: nat, lo: int, hi: int)
    requires lo <= at < hi && max > 0 && ttl > 0
    requires key in Exec(map[], hits) ==> Exec(map[], hits)[key].hits > 0
    requires Filled(Exec(map[], hits), key, ttl, at, n).hits <= max
    ensures var all := hits + Burst(key, max, ttl, at, n);
            && Admitted(all, key, lo, hi) == Admitted(hits, key, lo, hi) + n
            && (n > 0 ==> key in Exec(map[], all) && Exec(map[], all)[key] == Filled(Exec(map[], hits), key, ttl, at, n))
  {
    hide Exec, Admitted;
    if n == 0 {
      assert hits + Burst(key, max, ttl, at, n) == hits;
    } else {
      BurstAdmitted(hits, key, max, ttl, at, n - 1, lo, hi);
      var x := Hit(key, max, ttl, at, NoFault);
      var before := hits + Burst(key, max, ttl, at, n - 1);
      Assoc(hits, Burst(key, max, ttl, at, n - 1), x);
      OneMore(before, x, key, lo, hi);
      if n == 1 {
        assert before == hits;
      }
      hide Burst;
      FillOne(Exec(map[], hits), Exec(map[], before), key, max, ttl, at, n);
    }
  }

  lemma Assoc(hits: seq<Hit>, burst: seq<Hit>, x: Hit)
    ensures hits + (burst + [x]) == (hits + burst) + [x]
  {
  }

  lemma FillOne(cs: Counters, mid: Counters, key: string, max: int, ttl: int, at: int, n: nat)
    requires n > 0 && max > 0 && ttl > 0 && Filled(cs, key, ttl, at, n).hits <= max
    requires key in cs ==> cs[key].hits > 0
    requires if n == 1 then mid == cs else key in mid && mid[key] == Filled(cs, key, ttl, at, n - 1)
    ensures var x := Hit(key, max, ttl, at, NoFault);
            && Admits(mid, x)
            && key in After(mid, x) && After(mid, x)[key] == Filled(cs, key, ttl, at, n)
  {
  }

  lemma BurstTimes(key: string, max: int, ttl: int, at: int, n: nat)
    ensures |Burst(key, max, ttl, at, n)| == n
    ensures forall k :: 0 <= k < n ==> Burst(key, max, ttl, at, n)[k] == Hit(key, max, ttl, at, NoFault)
  {
  }

  lemma WorstIsOrdered(key: string, max: int, ttl: int)
    requires max > 0 && ttl > 0
    ensures Ordered(Worst(key, max, ttl)) && Uniform(Worst(key, max, ttl), key, max, ttl)
  {
    hide Burst;
    BurstTimes(key, max, ttl, 0, 1);
    BurstTimes(key, max, ttl, ttl, max - 1);
    BurstTimes(key, max, ttl, ttl + 1, max);
  }

  /** For windows of at least two ticks the bound is exact. */
  lemma IntervalBoundIsTight(key: string, max: int, ttl: int)
    requires max > 0 && ttl > 1
    ensures Ordered(Worst(key, max, ttl)) && Uniform(Worst(key, max, ttl), key, max, ttl)
    ensures Admitted(Worst(key, max, ttl), key, ttl, ttl + ttl) == 2 * max - 1
  {
    hide Exec, Admitted, Burst, Ordered, Uniform;
    var a := Burst(key, max, ttl, 0, 1);
    var b := Burst(key, max, ttl, ttl, max - 1);
    var lo, hi := ttl, ttl + ttl;
    WorstIsOrdered(key, max, ttl);
    OneHit(key, max, ttl, lo, hi);
    BurstAdmitted(a, key, max, ttl, ttl, max - 1, lo, hi);
    if max == 1 {
      BurstTimes(key, max, ttl, ttl, max - 1);
      assert a + b == a;
    }
    BurstAdmitted(a + b, key, max, ttl, ttl + 1, max, lo, hi);
  }

  lemma OneHit(key: string, max: int, ttl: int, lo: int, hi: int)
    requires max > 0 && ttl > 0 && lo > 0
    ensures Exec(map[], Burst(key, max, ttl, 0, 1)) == map[key := Counter(1, ttl)]
    ensures Admitted(Burst(key, max, ttl, 0, 1), key, lo, hi) == 0
  {
    assert Burst(key, max, ttl, 0, 0) == [];
    assert Burst(key, max, ttl, 0, 1) == [] + [Hit(key, max, ttl, 0, NoFault)];
    OneMore([], Hit(key, max, ttl, 0, NoFault), key, lo, hi);
  }

  // --- Within one window, and after it ----------------------------------------------------------

  /** Hits of one window: the first opens it, the others come before it closes. */
  ghost predicate OneWindow(cs: Counters, hits: seq<Hit>, key: string, max: int, ttl: int, start: int) {
    && !Alive(cs, key, start) && ttl > 0 && max > 0 && Uniform(hits, key, max, ttl)
    && hits != [] && hits[0].key == key && hits[0].at == start && hits[0].fault != NotRun
    && forall k :: 0 <= k < |hits| ==> hits[k].at <= start + ttl
  }

  /** The counter is the number of hits so far, and expires when the window closes. */
  lemma {:induction false} WindowCounter(cs: Counters, hits: seq<Hit>, key: string, max: int, ttl: int, start: int)
    requires OneWindow(cs, hits, key, max, ttl, start)
    ensures Ran(hits, key) >= 1
    ensures key in Exec(cs, hits) && Exec(cs, hits)[key] == Counter(Ran(hits, key), start + ttl)
  {
    var front, x := hits[..|hits| - 1], hits[|hits| - 1];
    if front == [] {
      assert Ran([], key) == 0;
    } else {
      WindowCounter(cs, front, key, max, ttl, start);
      hide Exec, Ran, Uniform;
      ExecSnoc(cs, front, x, key);
      assert front + [x] == hits;
      if x.key == key {
        UniformAt(hits, key, max, ttl, |front|);
      }
    }
  }

  /** A window admits its first max hits and no other. */
  lemma WindowAdmitsFirstMax(cs: Counters, hits: seq<Hit>, key: string, max: int, ttl: int, start: int, k: nat)
    requires OneWindow(cs, hits, key, max, ttl, start)
    requires k < |hits| && hits[k].key == key && hits[k].fault == NoFault
    ensures Admits(Exec(cs, hits[..k]), hits[k]) <==> Ran(hits[..k], key) < max
  {
    UniformAt(hits, key, max, ttl, k);
    if k == 0 {
      assert hits[..0] == [];
    } else {
      WindowCounter(cs, hits[..k], key, max, ttl, start);
    }
  }

  lemma UniformAt(hits: seq<Hit>, key: string, max: int, ttl: int, k: nat)
    requires Uniform(hits, key, max, ttl) && k < |hits| && hits[k].key == key
    ensures hits[k].max == max && hits[k].ttl == ttl
  {
  }

  lemma ExecSnoc(cs: Counters, front: seq<Hit>, x: Hit, key: string)
    ensures Exec(cs, front + [x]) == After(Exec(cs, front), x)
    ensures Ran(front + [x], key) == Ran(front, key) + if x.key == key && x.fault != NotRun then 1 else 0
  {
    assert (front + [x])[..|front|] == front;
  }

  /** How many of the hits on the key reached Redis. */
  function Ran(hits: seq<Hit>, key: string): nat {
    if hits == [] then 0
    else Ran(hits[..|hits| - 1], key) + if hits[|hits| - 1].key == key && hits[|hits| - 1].fault != NotRun then 1 else 0
  }

  /** No counter outlives its window: a key is never blocked longer than one window after the hit
      that opened it, however many hits keep coming. */
  lemma {:induction false} CountersExpire(hits: seq<Hit>, key: string, max: int, ttl: int)
    requires Ordered(hits) && Uniform(hits, key, max, ttl) && max > 0 && ttl > 0
    ensures key in Exec(map[], hits) ==> hits != [] && Exec(map[], hits)[key].expiresAt <= hits[|hits| - 1].at + ttl
  {
    if hits == [] {
    } else {
      var front := hits[..|hits| - 1];
      CountersExpire(front, key, max, ttl);
      if front != [] {
        assert hits[|front| - 1].at <= hits[|hits| - 1].at;
      }
      assert hits[|hits| - 1].key == key ==> hits[|hits| - 1].ttl == ttl;
    }
  }

  lemma AdmittedAfterWindow(hits: seq<Hit>, x: Hit)
    requires Ordered(hits) && Uniform(hits, x.key, x.max, x.ttl) && x.max > 0 && x.ttl > 0 && x.fault == NoFault
    requires hits != [] ==> x.at > hits[|hits| - 1].at + x.ttl
    ensures Admits(Exec(map[], hits), x)
  {
    CountersExpire(hits, x.key, x.max, x.ttl);
  }
}
