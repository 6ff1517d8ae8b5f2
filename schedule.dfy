/**
 * The observer's pending timers (doLater over setTimeout), the coalescing
 * set of scheduleMatchUpdate and the timing rule of autoUpdateMatchUntilEnd
 * (src/observer.js), as values. The Observer class keeps a timer list and
 * the coalescing set as fields and updates them as these functions say.
 */
module Schedule {
  import opened Keys
  import opened Records

  /** What a pending timer does when it fires. */
  datatype Job =
    | RefreshMatch(matchId: nat)    // the callback armed by scheduleMatchUpdate
    | AutoUpdate(m: Match)          // one run of autoUpdateMatchUntilEnd's `update(match)`
    | AutoUpdateOfId(matchId: nat)  // autoUpdateMatchUntilEnd handed a bare match id instead of a match

  /** A pending timer: the clock reading (in milliseconds) at which it is due, and its job. */
  datatype Timer = Timer(due: int, job: Job)

  function Max(a: int, b: int): int
  {
    if a < b then b else a
  }

  /** A match's kick-off in milliseconds (the contract stores seconds). */
  function KickOff(m: Match): int
  {
    SecondsToMilli(m.startTime)
  }

  /**
   * autoUpdateMatchUntilEnd's first delay: the first run is due ten minutes
   * before kick-off, or straight away once that moment has passed.
   */
  function InitialDelay(startTime: nat, now: int): (d: int)
    ensures d >= 0
    ensures now + d == Max(now, SecondsToMilli(startTime) - Minutes(10))
    ensures d == 0 <==> now >= SecondsToMilli(startTime) - Minutes(10)
  {
    var t := startTime * 1000 - Minutes(10) - now;
    if t < 0 then 0 else t
  }

  /**
   * After a run, the updater arms another run five minutes later exactly
   * when fewer than four hours have passed since kick-off, the match is not
   * cancelled and no winner is set.
   */
  predicate ShouldReschedule(m: Match, now: int)
  {
    now < KickOff(m) + Hours(4) && !m.cancelled && m.winner == 0
  }

  /** The interval between two runs of the updater. */
  function PollInterval(): int
  {
    Minutes(5)
  }

  /** Run j of a chain of runs is at least j poll intervals after the first. */
  lemma {:induction false} RunsSpread(runs: seq<int>, j: nat)
    requires j < |runs|
    requires forall i :: 0 <= i < |runs| - 1 ==> runs[i + 1] >= runs[i] + PollInterval()
    ensures runs[j] >= runs[0] + j * PollInterval()
  {
    if j > 0 {
      RunsSpread(runs, j - 1);
    }
  }

  /**
   * The updater stops: in a chain of runs of one match (runs[j] the clock
   * reading at run j's reschedule check, none earlier than ten minutes
   * before kick-off, each at least a poll interval after the one before,
   * and every run but the last having rescheduled), there are at most 51 runs.
   */
  lemma PollRunsBounded(ms: seq<Match>, runs: seq<int>)
    requires |runs| == |ms| > 0
    requires forall j :: 0 <= j < |ms| ==> ms[j].startTime == ms[0].startTime
    requires runs[0] >= KickOff(ms[0]) - Minutes(10)
    requires forall i :: 0 <= i < |runs| - 1 ==> runs[i + 1] >= runs[i] + PollInterval()
    requires forall j :: 0 <= j < |runs| - 1 ==> ShouldReschedule(ms[j], runs[j])
    ensures |runs| <= 51
  {
    var n := |runs|;
    if n > 1 {
      RunsSpread(runs, n - 2);
      assert runs[n - 2] < KickOff(ms[0]) + Hours(4) by {
        assert ShouldReschedule(ms[n - 2], runs[n - 2]);
      }
    }
  }

  /** The timers a run of the updater leaves behind it: the next run, five minutes on, when it reschedules. */
  function Rearm(m: Match, now: int): (r: seq<Timer>)
    ensures |r| <= 1
    ensures |r| == 1 <==> ShouldReschedule(m, now)
    ensures forall i :: 0 <= i < |r| ==> r[i] == Timer(now + PollInterval(), AutoUpdate(m))
  {
    if ShouldReschedule(m, now) then [Timer(now + PollInterval(), AutoUpdate(m))] else []
  }

  // ----- Coalescing of scheduleMatchUpdate -----

  /** How many pending timers will refresh match `id`. */
  function CountFor(ts: seq<Timer>, id: nat): nat
    decreases |ts|
  {
    if ts == [] then 0
    else CountFor(ts[..|ts| - 1], id) + (if ts[|ts| - 1].job == RefreshMatch(id) then 1 else 0)
  }

  lemma {:induction false} CountForAppend(a: seq<Timer>, b: seq<Timer>, id: nat)
    ensures CountFor(a + b, id) == CountFor(a, id) + CountFor(b, id)
    decreases |b|
  {
    if b == [] {
      assert a + b == a;
    } else {
      var b' := b[..|b| - 1];
      assert (a + b)[..|a + b| - 1] == a + b';
      assert (a + b)[|a + b| - 1] == b[|b| - 1];
      CountForAppend(a, b', id);
    }
  }

  /** The timer list without its k-th timer, as when that timer fires. */
  function Remove(ts: seq<Timer>, k: nat): (r: seq<Timer>)
    requires k < |ts|
    ensures |r| == |ts| - 1
  {
    ts[..k] + ts[k + 1..]
  }

  lemma RemoveCount(ts: seq<Timer>, k: nat, id: nat)
    requires k < |ts|
    ensures CountFor(ts, id) == CountFor(Remove(ts, k), id) + (if ts[k].job == RefreshMatch(id) then 1 else 0)
  {
    assert ts == ts[..k] + [ts[k]] + ts[k + 1..];
    CountForAppend(ts[..k] + [ts[k]], ts[k + 1..], id);
    CountForAppend(ts[..k], [ts[k]], id);
    CountForAppend(ts[..k], ts[k + 1..], id);
    assert CountFor([ts[k]], id) == (if ts[k].job == RefreshMatch(id) then 1 else 0) by {
      assert [ts[k]][..0] == [];
    }
  }

  /**
   * What always holds: at most one pending refresh per match, and a match
   * with a pending refresh is marked in the coalescing set.
   */
  ghost predicate Coalesced(sched: set<nat>, ts: seq<Timer>)
  {
    forall id :: CountFor(ts, id) <= 1 && (CountFor(ts, id) == 1 ==> id in sched)
  }

  /** What holds until the timers are cancelled: the marked matches are exactly those with one pending refresh. */
  ghost predicate Coherent(sched: set<nat>, ts: seq<Timer>)
  {
    forall id :: CountFor(ts, id) == (if id in sched then 1 else 0)
  }

  /** scheduleMatchUpdate(id, delay) at clock reading `now`. */
  function Request(sched: set<nat>, ts: seq<Timer>, id: nat, due: int): (set<nat>, seq<Timer>)
  {
    if id in sched then (sched, ts) else (sched + {id}, ts + [Timer(due, RefreshMatch(id))])
  }

  /** A request changes only match `id`'s refresh count, by one exactly when `id` was not marked. */
  lemma RequestCount(sched: set<nat>, ts: seq<Timer>, id: nat, due: int, other: nat)
    ensures var (sched', ts') := Request(sched, ts, id, due);
      CountFor(ts', other) == CountFor(ts, other) + (if other == id && id !in sched then 1 else 0)
  {
    if id !in sched {
      CountForAppend(ts, [Timer(due, RefreshMatch(id))], other);
      assert [Timer(due, RefreshMatch(id))][..0] == [];
    }
  }

  lemma RequestKeepsCoalesced(sched: set<nat>, ts: seq<Timer>, id: nat, due: int)
    requires Coalesced(sched, ts)
    ensures Coalesced(Request(sched, ts, id, due).0, Request(sched, ts, id, due).1)
  {
    var (sched', ts') := Request(sched, ts, id, due);
    forall other ensures CountFor(ts', other) <= 1 && (CountFor(ts', other) == 1 ==> other in sched') {
      RequestCount(sched, ts, id, due, other);
    }
  }

  lemma RequestKeepsCoherent(sched: set<nat>, ts: seq<Timer>, id: nat, due: int)
    requires Coherent(sched, ts)
    ensures Coherent(Request(sched, ts, id, due).0, Request(sched, ts, id, due).1)
  {
    var (sched', ts') := Request(sched, ts, id, due);
    forall other ensures CountFor(ts', other) == (if other in sched' then 1 else 0) {
      RequestCount(sched, ts, id, due, other);
    }
  }

  /** A request, as the pair it leaves, keeps either invariant. */
  lemma RequestKeeps(sched: set<nat>, ts: seq<Timer>, id: nat, due: int, sched': set<nat>, ts': seq<Timer>)
    requires (sched', ts') == Request(sched, ts, id, due)
    ensures Coalesced(sched, ts) ==> Coalesced(sched', ts')
    ensures Coherent(sched, ts) ==> Coherent(sched', ts')
  {
    if Coalesced(sched, ts) {
      RequestKeepsCoalesced(sched, ts, id, due);
    }
    if Coherent(sched, ts) {
      RequestKeepsCoherent(sched, ts, id, due);
    }
  }

  /** Repeated requests for one match collapse into the first: the second changes nothing, whatever its delay. */
  lemma RequestCoalesces(sched: set<nat>, ts: seq<Timer>, id: nat, due1: int, due2: int)
    ensures var (s1, t1) := Request(sched, ts, id, due1);
      Request(s1, t1, id, due2) == (s1, t1)
  {
  }

  /** When match `id`'s refresh fires, its timer goes and `id` is unmarked; this keeps either invariant. */
  lemma {:induction false} FireRefreshKeeps(sched: set<nat>, ts: seq<Timer>, k: nat)
    requires k < |ts| && ts[k].job.RefreshMatch?
    ensures Coalesced(sched, ts) ==> Coalesced(sched - {ts[k].job.matchId}, Remove(ts, k))
    ensures Coherent(sched, ts) ==> Coherent(sched - {ts[k].job.matchId}, Remove(ts, k))
  {
    var id := ts[k].job.matchId;
    forall other
      ensures CountFor(Remove(ts, k), other) == CountFor(ts, other) - (if other == id then 1 else 0)
    {
      RemoveCount(ts, k, other);
    }
    if Coherent(sched, ts) {
      assert CountFor(ts, id) >= 1 by { RemoveCount(ts, k, id); }
    }
  }

  /** Any other timer firing, and possibly re-arming an auto-update, leaves every refresh count alone. */
  lemma {:induction false} FireOtherKeeps(sched: set<nat>, ts: seq<Timer>, k: nat, rearm: seq<Timer>)
    requires k < |ts| && !ts[k].job.RefreshMatch?
    requires forall i :: 0 <= i < |rearm| ==> !rearm[i].job.RefreshMatch?
    ensures forall id :: CountFor(Remove(ts, k) + rearm, id) == CountFor(ts, id)
  {
    forall id ensures CountFor(Remove(ts, k) + rearm, id) == CountFor(ts, id) {
      RemoveCount(ts, k, id);
      CountForAppend(Remove(ts, k), rearm, id);
      NoRefreshCount(rearm, id);
    }
  }

  lemma {:induction false} NoRefreshCount(ts: seq<Timer>, id: nat)
    requires forall i :: 0 <= i < |ts| ==> !ts[i].job.RefreshMatch?
    ensures CountFor(ts, id) == 0
    decreases |ts|
  {
    if ts != [] {
      NoRefreshCount(ts[..|ts| - 1], id);
    }
  }

  /** Arming timers that refresh nothing leaves every refresh count, and so either invariant, as it was. */
  lemma {:induction false} AppendOtherKeeps(sched: set<nat>, ts: seq<Timer>, more: seq<Timer>)
    requires forall i :: 0 <= i < |more| ==> !more[i].job.RefreshMatch?
    ensures forall id :: CountFor(ts + more, id) == CountFor(ts, id)
    ensures Coalesced(sched, ts) ==> Coalesced(sched, ts + more)
    ensures Coherent(sched, ts) ==> Coherent(sched, ts + more)
  {
    forall id ensures CountFor(ts + more, id) == CountFor(ts, id) {
      CountForAppend(ts, more, id);
      NoRefreshCount(more, id);
    }
  }

  /**
   * cancelAllLaters clears the timers but not the coalescing set. The
   * result is still coalesced, but coherent only if nothing was marked:
   * a match marked at that moment keeps its mark, and each later request
   * for it is a no-op, so it is never refreshed by request again.
   */
  lemma CancelAllStrandsMarks(sched: set<nat>, id: nat, due: int)
    ensures Coalesced(sched, [])
    ensures Coherent(sched, []) <==> sched == {}
    ensures id in sched ==> Request(sched, [], id, due) == (sched, []) && CountFor([], id) == 0
  {
    if sched != {} {
      var x :| x in sched;
      assert CountFor([], x) == 0;
    }
  }
}
