/** The shared lease manager: its table of leases and its keep-alive loop.  Time is
    real-valued; how long a round takes, when in the round each lease is refreshed,
    which refreshes fail and how late a sleep wakes up are parameters. */
module KeepAlive {
  import opened Wrappers

  function Max(a: real, b: real): real { if a < b then b else a }

  // The keep-alive interval one lease asks for.
  function Interval(ttl: int): real { Max(ttl as real / 3.0 - 0.5, 0.5) }

  datatype Round = Round(took: real, at: map<int, real>, failed: set<int>, oversleep: real)

  ghost predicate Timed(r: Round) {
    && r.took >= 0.0 && r.oversleep >= 0.0
    && (forall l :: l in r.at ==> 0.0 <= r.at[l] <= r.took)
  }

  function Offset(r: Round, l: int): real { if l in r.at then r.at[l] else 0.0 }

  // Every lease has the TTL that the keep-alive arithmetic counts on.
  ghost predicate Admits(ttls: map<int, int>) { forall l :: l in ttls ==> ttls[l] >= 10 }

  predicate Positive(ttls: map<int, int>, keys: set<int>, l: int) { l in keys && l in ttls && ttls[l] > 0 }

  // The interval of the lease with the least positive TTL; one second without such a lease.
  ghost predicate LeastInterval(ttls: map<int, int>, keys: set<int>, m: real) {
    && (forall l :: Positive(ttls, keys, l) ==> m <= Interval(ttls[l]))
    && (if exists l :: Positive(ttls, keys, l)
        then exists l :: Positive(ttls, keys, l) && m == Interval(ttls[l]) else m == 1.0)
  }

  class LeaseManager {
    var leases: map<int, int>  // lease id to TTL in seconds

    constructor ()
      ensures leases == map[]
    {
      leases := map[];
    }

    // A lease with a TTL below ten seconds is refused.
    method AddLease(id: int, ttl: int) returns (ok: bool)
      modifies this
      ensures ok <==> ttl >= 10
      ensures leases == if ok then old(leases)[id := ttl] else old(leases)
      ensures Admits(old(leases)) ==> Admits(leases)
    {
      ok := ttl >= 10;
      if ok { leases := leases[id := ttl]; }
    }

    // The smallest interval any lease asks for; one second if no lease has a positive TTL.
    method MinInterval() returns (m: real)
      ensures LeastInterval(leases, leases.Keys, m) && m >= 0.5
    {
      m := 1.0;
      var rest := leases.Keys;
      var found := false;
      ghost var least := 0;
      while rest != {}
        invariant rest <= leases.Keys
        invariant forall l :: Positive(leases, leases.Keys - rest, l) ==> found && m <= Interval(leases[l])
        invariant if found then Positive(leases, leases.Keys, least) && m == Interval(leases[least]) else m == 1.0
        invariant m >= 0.5
        decreases rest
      {
        var l := Pick(rest);
        rest := rest - {l};
        if leases[l] > 0 && (!found || Interval(leases[l]) < m) {
          m := Interval(leases[l]);
          found, least := true, l;
        }
      }
      assert leases.Keys - rest == leases.Keys;
    }

    // One round: refresh every lease and list those whose refresh failed, then drop those.
    // Every lease that is left was refreshed within the round.
    method RefreshAll(start: real, r: Round) returns (times: map<int, real>)
      modifies this
      ensures times.Keys == leases.Keys == old(leases).Keys - r.failed
      ensures forall l :: l in leases ==> leases[l] == old(leases)[l] && times[l] == start + Offset(r, l)
      ensures Timed(r) ==> forall l :: l in leases ==> start <= times[l] <= start + r.took
      ensures Admits(old(leases)) ==> Admits(leases)
    {
      times := map[];
      var expired: seq<int> := [];
      var rest := leases.Keys;
      while rest != {}
        invariant rest <= leases.Keys && leases == old(leases)
        invariant forall l :: l in times <==> l in old(leases) && l !in rest && l !in r.failed
        invariant forall l :: l in times ==> times[l] == start + Offset(r, l)
        invariant forall l :: l in expired <==> l in old(leases) && l !in rest && l in r.failed
        decreases rest
      {
        var l := Pick(rest);
        rest := rest - {l};
        if l in r.failed {
          expired := expired + [l];
        } else {
          times := times[l := start + Offset(r, l)];
        }
      }
      for i := 0 to |expired|
        invariant forall l :: l in leases <==> l in old(leases) && l !in expired[..i]
        invariant forall l :: l in leases ==> leases[l] == old(leases)[l]
      {
        assert expired[..i + 1] == expired[..i] + [expired[i]];
        leases := leases - {expired[i]};
      }
      assert expired[..|expired|] == expired;
      forall l
        ensures l in leases <==> l in old(leases).Keys - r.failed
        ensures l in leases <==> l in times
      {
        assert l in expired <==> l in old(leases) && l in r.failed;
      }
    }

    // The loop, over any number of rounds.
    method Loop(t0: real, rounds: seq<Round>) returns (trace: seq<Tick>)
      modifies this
      ensures |trace| == |rounds| && forall i :: 0 <= i < |trace| ==> trace[i].round == rounds[i]
      ensures Scheduled(old(leases), t0, trace)
    {
      trace := [];
      var clock, lastTick := t0, 0.0;
      while |trace| < |rounds|
        invariant |trace| <= |rounds| && forall i :: 0 <= i < |trace| ==> trace[i].round == rounds[i]
        invariant Scheduled(old(leases), t0, trace)
        invariant leases.Keys <= old(leases).Keys && forall l :: l in leases ==> leases[l] == old(leases)[l]
        invariant trace != [] ==> leases.Keys == trace[|trace| - 1].times.Keys
        invariant clock == StartOf(t0, trace, |trace|) && lastTick == EndBefore(trace, |trace|)
        decreases |rounds| - |trace|
      {
        var r := rounds[|trace|];
        var times := RefreshAll(clock, r);
        var now := clock + r.took;
        var interval := MinInterval();
        LeastOfSame(leases, old(leases), times.Keys, interval);
        ghost var before := trace;
        trace := trace + [Tick(r, clock, now, interval, times)];
        Extends(old(leases), t0, before, trace);
        clock := now + Max(0.0, interval - (now - lastTick)) + r.oversleep;
        lastTick := now;
      }
    }
  }

  // ----- the schedule --------------------------------------------------------------

  // One round of the loop: when it started and ended, the interval it computed, and when
  // each lease was refreshed.
  datatype Tick = Tick(round: Round, start: real, end: real, interval: real, times: map<int, real>)

  function EndBefore(trace: seq<Tick>, i: nat): real
    requires i <= |trace|
  {
    if i == 0 then 0.0 else trace[i - 1].end
  }

  // The loop records its tick before it sleeps, so a round begins at the later of the end of
  // the round before it and one interval after the end of the round before that.
  function StartOf(t0: real, trace: seq<Tick>, i: nat): real
    requires i <= |trace|
  {
    if i == 0 then t0
    else Max(trace[i - 1].end, EndBefore(trace, i - 1) + trace[i - 1].interval) + trace[i - 1].round.oversleep
  }

  ghost predicate TickOk(ttls: map<int, int>, t0: real, trace: seq<Tick>, i: nat)
    requires i < |trace|
  {
    var k := trace[i];
    && k.start == StartOf(t0, trace, i) && k.end == k.start + k.round.took
    && k.times.Keys <= ttls.Keys && (i > 0 ==> k.times.Keys <= trace[i - 1].times.Keys)
    && (forall l :: l in k.times ==> k.times[l] == k.start + Offset(k.round, l))
    && LeastInterval(ttls, k.times.Keys, k.interval)
  }

  ghost predicate Scheduled(ttls: map<int, int>, t0: real, trace: seq<Tick>) {
    forall i: nat :: i < |trace| ==> TickOk(ttls, t0, trace, i)
  }

  lemma LeastOfSame(ttls: map<int, int>, ttls': map<int, int>, keys: set<int>, m: real)
    requires LeastInterval(ttls, keys, m) && keys <= ttls.Keys && keys <= ttls'.Keys
    requires forall l :: l in keys ==> ttls[l] == ttls'[l]
    ensures LeastInterval(ttls', keys, m)
  {
    assert forall l :: Positive(ttls', keys, l) <==> Positive(ttls, keys, l);
  }

  lemma Extends(ttls: map<int, int>, t0: real, before: seq<Tick>, trace: seq<Tick>)
    requires before != trace && before <= trace && |trace| == |before| + 1
    requires Scheduled(ttls, t0, before) && TickOk(ttls, t0, trace, |before|)
    ensures Scheduled(ttls, t0, trace)
  {
    forall i: nat | i < |trace|
      ensures TickOk(ttls, t0, trace, i)
    {
      assert i < |before| ==> TickOk(ttls, t0, before, i);
    }
  }

  ghost predicate Sensible(t0: real, trace: seq<Tick>) {
    t0 >= 0.0 && forall i :: 0 <= i < |trace| ==> Timed(trace[i].round)
  }

  // ----- theorems --------------------------------------------------------------------

  // Between two refreshes of any lease that both succeed there is at most the interval of any
  // lease m refreshed in the first round, in particular the least one, or the length of that
  // round if it is longer, plus the second round and the late wake-up.
  lemma GapBound(ttls: map<int, int>, t0: real, trace: seq<Tick>, i: nat, l: int, m: int)
    requires Sensible(t0, trace) && Scheduled(ttls, t0, trace)
    requires i + 1 < |trace| && l in trace[i + 1].times
    requires m in trace[i].times && m in ttls && ttls[m] > 0
    ensures l in trace[i].times
    ensures var a, b := trace[i], trace[i + 1];
            0.0 <= b.times[l] - a.times[l]
                <= Max(Interval(ttls[m]), a.round.took) + a.round.oversleep + b.round.took
  {
    assert TickOk(ttls, t0, trace, i) && TickOk(ttls, t0, trace, i + 1);
    if i > 0 { assert TickOk(ttls, t0, trace, i - 1); }
  }

  // The same with the lease's own interval.
  lemma OwnGapBound(ttls: map<int, int>, t0: real, trace: seq<Tick>, i: nat, l: int)
    requires Sensible(t0, trace) && Scheduled(ttls, t0, trace)
    requires i + 1 < |trace| && l in trace[i + 1].times && l in ttls && ttls[l] > 0
    ensures l in trace[i].times
    ensures var a, b := trace[i], trace[i + 1];
            b.times[l] - a.times[l] <= Max(Interval(ttls[l]), a.round.took) + a.round.oversleep + b.round.took
  {
    assert TickOk(ttls, t0, trace, i + 1);
    GapBound(ttls, t0, trace, i, l, l);
  }

  // A lease is never refreshed late as long as a round and a late wake-up fit into what a
  // third of its TTL leaves: rounds of at most r and wake-ups late by at most d.
  lemma LeasesDoNotLapse(ttls: map<int, int>, t0: real, trace: seq<Tick>, i: nat, l: int, r: real, d: real)
    requires Sensible(t0, trace) && Scheduled(ttls, t0, trace)
    requires i + 1 < |trace| && l in trace[i + 1].times && l in ttls && ttls[l] >= 10
    requires forall j :: 0 <= j < |trace| ==> trace[j].round.took <= r && trace[j].round.oversleep <= d
    requires r + d < 2.0 * (ttls[l] as real) / 3.0 + 0.5 && 2.0 * r + d < ttls[l] as real
    ensures l in trace[i].times && trace[i + 1].times[l] - trace[i].times[l] < ttls[l] as real
  {
    OwnGapBound(ttls, t0, trace, i, l);
  }

  // The TTLs that the manager admits leave room for rounds of at most r and wake-ups late by at
  // most d whenever r + d stays below 43/6 and 2r + d below ten seconds: then no lease of any
  // loop is ever refreshed late.
  lemma AdmittedDoNotLapse(ttls: map<int, int>, t0: real, trace: seq<Tick>, r: real, d: real)
    requires Admits(ttls) && Sensible(t0, trace) && Scheduled(ttls, t0, trace)
    requires forall j :: 0 <= j < |trace| ==> trace[j].round.took <= r && trace[j].round.oversleep <= d
    requires r + d < 43.0 / 6.0 && 2.0 * r + d < 10.0
    ensures forall i, l :: 0 < i < |trace| && l in trace[i].times ==>
              l in ttls && l in trace[i - 1].times && trace[i].times[l] - trace[i - 1].times[l] < ttls[l] as real
  {
    forall i, l | 0 < i < |trace| && l in trace[i].times
      ensures l in ttls && l in trace[i - 1].times && trace[i].times[l] - trace[i - 1].times[l] < ttls[l] as real
    {
      assert TickOk(ttls, t0, trace, i);
      LeasesDoNotLapse(ttls, t0, trace, i - 1, l, r, d);
    }
  }

  // For the lease that sets the interval the bound is met exactly when it comes first in the
  // one round and last in the next, and the first round either follows without sleep or
  // outlasts the interval.
  lemma GapIsAttained(ttls: map<int, int>, t0: real, trace: seq<Tick>, i: nat, l: int)
    requires Sensible(t0, trace) && Scheduled(ttls, t0, trace)
    requires i + 1 < |trace| && l in trace[i + 1].times && l in ttls
    requires trace[i].interval == Interval(ttls[l])
    ensures l in trace[i].times
    ensures var a, b := trace[i], trace[i + 1];
            (b.times[l] - a.times[l] == Max(Interval(ttls[l]), a.round.took) + a.round.oversleep + b.round.took)
            <==> (Offset(a.round, l) == 0.0 && Offset(b.round, l) == b.round.took
                  && (a.start == EndBefore(trace, i) || a.round.took >= Interval(ttls[l])))
  {
    assert TickOk(ttls, t0, trace, i) && TickOk(ttls, t0, trace, i + 1);
    if i > 0 { assert TickOk(ttls, t0, trace, i - 1); }
  }

  // The loop never runs more than two rounds in one interval, which is that of the lease with the
  // least TTL, and never more than two in half a second.
  lemma RoundsArePaced(ttls: map<int, int>, t0: real, trace: seq<Tick>, i: nat)
    requires Sensible(t0, trace) && Scheduled(ttls, t0, trace) && 0 < i && i + 1 < |trace|
    ensures trace[i + 1].start >= trace[i].end >= trace[i].start >= trace[i - 1].end
    ensures trace[i + 1].start >= trace[i - 1].end + trace[i].interval >= trace[i - 1].end + 0.5
    ensures (exists l :: Positive(ttls, trace[i].times.Keys, l)) ==>
              exists l :: Positive(ttls, trace[i].times.Keys, l) && trace[i].interval == Interval(ttls[l])
                          && trace[i + 1].start >= trace[i - 1].end + ttls[l] as real / 3.0 - 0.5
    ensures forall l :: Positive(ttls, trace[i].times.Keys, l) ==> trace[i].interval <= Interval(ttls[l])
  {
    assert TickOk(ttls, t0, trace, i) && TickOk(ttls, t0, trace, i + 1) && TickOk(ttls, t0, trace, i - 1);
  }
}
