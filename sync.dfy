/**
 * The backfill and the end of syncing (src/observer.js seedBets, seedMatches
 * and finishedSyncingHandler) as values: the strict-`>` filters over each
 * past-event log, the sequential replays of the guarded cache updates, and
 * what each pass leaves in the cache and hands to the durable store. The
 * Observer class's methods are proved to do what these functions say.
 */
module Sync {
  import opened Wrappers
  import opened Keys
  import opened Store
  import opened Records
  import opened Cache
  import opened Schedule

  // ----- The seedBets filters -----

  /** The past BetPlaced events strictly above block w, in log order. */
  function AbovePlaced(evs: seq<BetPlacedEvent>, w: int): (r: seq<BetPlacedEvent>)
    ensures forall i :: 0 <= i < |r| ==> r[i].blockNumber > w
    ensures forall e :: e in r <==> e in evs && e.blockNumber > w
    ensures |r| <= |evs|
    decreases |evs|
  {
    if evs == [] then []
    else (if evs[0].blockNumber > w then [evs[0]] else []) + AbovePlaced(evs[1..], w)
  }

  /** The past BetCancelled or BetClaimed events strictly above block w, in log order. */
  function AboveRefs(evs: seq<BetRefEvent>, w: int): (r: seq<BetRefEvent>)
    ensures forall i :: 0 <= i < |r| ==> r[i].blockNumber > w
    ensures forall e :: e in r <==> e in evs && e.blockNumber > w
    ensures |r| <= |evs|
    decreases |evs|
  {
    if evs == [] then []
    else (if evs[0].blockNumber > w then [evs[0]] else []) + AboveRefs(evs[1..], w)
  }

  /**
   * A log is replayed only when it is not empty and its last event lies
   * strictly above a numeric watermark; against NaN the comparison is false.
   */
  predicate ReplaysPlaced(log: seq<BetPlacedEvent>, w: Watermark)
  {
    |log| > 0 && w.At? && log[|log| - 1].blockNumber > w.block
  }

  predicate ReplaysRefs(log: seq<BetRefEvent>, w: Watermark)
  {
    |log| > 0 && w.At? && log[|log| - 1].blockNumber > w.block
  }

  /** The events seedBets replays from a placed log. */
  function ChosenPlaced(log: seq<BetPlacedEvent>, w: Watermark): (r: seq<BetPlacedEvent>)
    ensures |r| > 0 <==> ReplaysPlaced(log, w)
    ensures forall i :: 0 <= i < |r| ==> w.At? && r[i].blockNumber > w.block
  {
    if ReplaysPlaced(log, w) then
      assert log[|log| - 1] in AbovePlaced(log, w.block);
      AbovePlaced(log, w.block)
    else []
  }

  function ChosenRefs(log: seq<BetRefEvent>, w: Watermark): (r: seq<BetRefEvent>)
    ensures |r| > 0 <==> ReplaysRefs(log, w)
    ensures forall i :: 0 <= i < |r| ==> w.At? && r[i].blockNumber > w.block
  {
    if ReplaysRefs(log, w) then
      assert log[|log| - 1] in AboveRefs(log, w.block);
      AboveRefs(log, w.block)
    else []
  }

  predicate Ascending(evs: seq<BetPlacedEvent>)
  {
    forall i, j :: 0 <= i < j < |evs| ==> evs[i].blockNumber <= evs[j].blockNumber
  }

  /** Filtering keeps the log's block order. */
  lemma {:induction false} AbovePlacedAscending(evs: seq<BetPlacedEvent>, w: int)
    requires Ascending(evs)
    ensures Ascending(AbovePlaced(evs, w))
    decreases |evs|
  {
    if evs != [] {
      AbovePlacedAscending(evs[1..], w);
      var rest := AbovePlaced(evs[1..], w);
      forall j | 0 <= j < |rest| ensures evs[0].blockNumber <= rest[j].blockNumber {
        assert rest[j] in evs[1..];
      }
    }
  }

  function ParseAll(evs: seq<BetPlacedEvent>): (bets: seq<Bet>)
    ensures |bets| == |evs| && forall i :: 0 <= i < |evs| ==> bets[i] == ParseBetPlacedEvent(evs[i])
  {
    seq(|evs|, i requires 0 <= i < |evs| => ParseBetPlacedEvent(evs[i]))
  }

  function RefsOf(evs: seq<BetRefEvent>): (refs: seq<BetRef>)
    ensures |refs| == |evs| && forall i :: 0 <= i < |evs| ==> refs[i] == RefOf(evs[i])
  {
    seq(|evs|, i requires 0 <= i < |evs| => RefOf(evs[i]))
  }

  // ----- Sequential replays -----

  /** One unforced placed-bet update per event, at the event's own block, in order. */
  function ReplaySeeded(s: Store, evs: seq<BetPlacedEvent>, now: int): Store
    decreases |evs|
  {
    if evs == [] then s
    else
      var e := evs[0];
      ReplaySeeded(StoreAfter(s, PlacedBetStep(s, ParseBetPlacedEvent(e), e.blockNumber, false, now)), evs[1..], now)
  }

  /** No step of an unforced replay is skipped by the watermark guard. */
  ghost predicate NoneSkipped(s: Store, evs: seq<BetPlacedEvent>, now: int)
    decreases |evs|
  {
    evs == [] ||
      var e := evs[0];
      var o := PlacedBetStep(s, ParseBetPlacedEvent(e), e.blockNumber, false, now);
      !o.Skipped? && NoneSkipped(StoreAfter(s, o), evs[1..], now)
  }

  /**
   * Replaying events whose blocks ascend from at or above a numeric
   * watermark skips none of them: each applied update moves the watermark
   * to its own block, which the next event does not fall below, and a
   * failed one leaves it where it was.
   */
  lemma {:induction false} AscendingReplayNeverSkips(s: Store, evs: seq<BetPlacedEvent>, now: int)
    requires Ascending(evs)
    requires ReadWatermark(s, LastBetPlacedBlock).At?
    requires |evs| > 0 ==> ReadWatermark(s, LastBetPlacedBlock).block <= evs[0].blockNumber
    ensures NoneSkipped(s, evs, now)
    decreases |evs|
  {
    if evs != [] {
      var e := evs[0];
      var o := PlacedBetStep(s, ParseBetPlacedEvent(e), e.blockNumber, false, now);
      PlacedBetApplied(s, ParseBetPlacedEvent(e), e.blockNumber, false, now);
      var s1 := StoreAfter(s, o);
      var w1 := ReadWatermark(s1, LastBetPlacedBlock);
      assert w1.At? && w1.block <= e.blockNumber;
      if |evs| > 1 {
        assert evs[1..][0] == evs[1];
      }
      AscendingReplayNeverSkips(s1, evs[1..], now);
    }
  }

  /** What seedBets replays from the placed log skips nothing, given the log in block order. */
  lemma SeededPlacedNeverSkipped(s: Store, log: seq<BetPlacedEvent>, now: int)
    requires Ascending(log)
    ensures NoneSkipped(s, ChosenPlaced(log, ReadWatermark(s, LastBetPlacedBlock)), now)
  {
    var w := ReadWatermark(s, LastBetPlacedBlock);
    var evs := ChosenPlaced(log, w);
    if evs != [] {
      AbovePlacedAscending(log, w.block);
      AscendingReplayNeverSkips(s, evs, now);
    }
  }

  /** The keys no placed-bet update writes: the other two watermarks and the contract's total won. */
  predicate OutsideBetKeys(k: Key)
  {
    k == LastBetCancelledBlock || k == LastBetClaimedBlock || k == ContractTotalWon
  }

  /** A replay of past placed bets leaves the cancelled and claimed watermarks and the total won alone. */
  lemma {:induction false} ReplaySeededKeepsKey(s: Store, evs: seq<BetPlacedEvent>, now: int, k: Key)
    requires OutsideBetKeys(k)
    ensures SameAt(s, ReplaySeeded(s, evs, now), k)
    decreases |evs|
  {
    if evs != [] {
      var e := evs[0];
      PlacedBetKeepsKey(s, ParseBetPlacedEvent(e), e.blockNumber, false, now, k);
      ReplaySeededKeepsKey(StoreAfter(s, PlacedBetStep(s, ParseBetPlacedEvent(e), e.blockNumber, false, now)),
        evs[1..], now, k);
    }
  }

  /**
   * An ascending replay from a numeric watermark at or below its first
   * block, on well-typed counters, applies every event: numBets grows by
   * their number and totalBet by their amounts.
   */
  lemma {:induction false} AscendingReplayCountsAll(s: Store, evs: seq<BetPlacedEvent>, now: int)
    requires Ascending(evs) && CountersTyped(s)
    requires ReadWatermark(s, LastBetPlacedBlock).At?
    requires |evs| > 0 ==> ReadWatermark(s, LastBetPlacedBlock).block <= evs[0].blockNumber
    ensures var r := ReplaySeeded(s, evs, now);
      && CounterOf(r, ContractNumBets) == CounterOf(s, ContractNumBets) + |evs|
      && CounterOf(r, ContractTotalBet) == CounterOf(s, ContractTotalBet) + Sum(ParseAll(evs))
    decreases |evs|
  {
    if evs != [] {
      var e := evs[0];
      TypedStepCounts(s, ParseBetPlacedEvent(e), e.blockNumber, now);
      var s1 := PlacedBetStep(s, ParseBetPlacedEvent(e), e.blockNumber, false, now).after;
      AscendingTail(evs);
      AscendingReplayCountsAll(s1, evs[1..], now);
      SumParseAllCons(evs);
    }
  }

  lemma AscendingTail(evs: seq<BetPlacedEvent>)
    requires Ascending(evs) && |evs| > 0
    ensures Ascending(evs[1..])
    ensures |evs| > 1 ==> evs[0].blockNumber <= evs[1..][0].blockNumber
  {
    if |evs| > 1 {
      assert evs[1..][0] == evs[1];
    }
  }

  lemma SumParseAllCons(evs: seq<BetPlacedEvent>)
    requires evs != []
    ensures Sum(ParseAll(evs)) == evs[0].amount + Sum(ParseAll(evs[1..]))
  {
    assert ParseAll(evs)[1..] == ParseAll(evs[1..]);
  }

  /** One unforced cancelled or claimed update per event, at the event's own block, in order. */
  function ReplayMarked(s: Store, stream: BetStream, evs: seq<BetRefEvent>, now: int): Store
    requires !stream.Placed?
    decreases |evs|
  {
    if evs == [] then s
    else
      var e := evs[0];
      ReplayMarked(StoreAfter(s, MarkBetStep(s, stream, e.matchId, e.blockNumber, false, now)), stream, evs[1..], now)
  }

  /** Replaying cancellations or claims leaves the contract's and every user's totals and bet sets alone. */
  lemma {:induction false} ReplayMarkedKeepsTotals(s: Store, stream: BetStream, evs: seq<BetRefEvent>, now: int, address: string)
    requires !stream.Placed?
    ensures var r := ReplayMarked(s, stream, evs, now);
      && CounterOf(r, ContractNumBets) == CounterOf(s, ContractNumBets)
      && CounterOf(r, ContractTotalBet) == CounterOf(s, ContractTotalBet)
      && CounterOf(r, UserKeys(address)[0]) == CounterOf(s, UserKeys(address)[0])
      && MembersOf(r, UserKeys(address)[1]) == MembersOf(s, UserKeys(address)[1])
    decreases |evs|
  {
    if evs != [] {
      var e := evs[0];
      MarkBetKeepsTotals(s, stream, e.matchId, e.blockNumber, false, now, address);
      ReplayMarkedKeepsTotals(StoreAfter(s, MarkBetStep(s, stream, e.matchId, e.blockNumber, false, now)),
        stream, evs[1..], now, address);
    }
  }

  /** A replay of cancellations or claims leaves every key outside its own watermark and the match families alone. */
  lemma {:induction false} ReplayMarkedKeepsKey(s: Store, stream: BetStream, evs: seq<BetRefEvent>, now: int, k: Key)
    requires !stream.Placed? && !k.MatchField? && k != WatermarkKey(stream)
    ensures SameAt(s, ReplayMarked(s, stream, evs, now), k)
    decreases |evs|
  {
    if evs != [] {
      var e := evs[0];
      MarkBetKeepsKey(s, stream, e.matchId, e.blockNumber, false, now, k);
      ReplayMarkedKeepsKey(StoreAfter(s, MarkBetStep(s, stream, e.matchId, e.blockNumber, false, now)),
        stream, evs[1..], now, k);
    }
  }

  function Sum(bets: seq<Bet>): nat
    decreases |bets|
  {
    if bets == [] then 0 else bets[0].amount + Sum(bets[1..])
  }

  /**
   * finishedSyncingHandler's replay: one forced placed-bet update per
   * buffered bet, all at the same block; the flag tells whether none failed.
   */
  function ReplayForced(s: Store, bets: seq<Bet>, block: int, now: int): (Store, bool)
    decreases |bets|
  {
    if bets == [] then (s, true)
    else
      var o := PlacedBetStep(s, bets[0], block, true, now);
      var (r, ok) := ReplayForced(StoreAfter(s, o), bets[1..], block, now);
      (r, ok && !o.Failed?)
  }

  /**
   * A forced replay with no failure counts every buffered bet: numBets
   * grows by their number, totalBet by their amounts, and the placed
   * watermark ends at the replay block (unchanged if nothing was buffered).
   */
  lemma {:induction false} ForcedReplayCountsAll(s: Store, bets: seq<Bet>, block: int, now: int)
    requires ReplayForced(s, bets, block, now).1
    ensures var r := ReplayForced(s, bets, block, now).0;
      && CounterOf(r, ContractNumBets) == CounterOf(s, ContractNumBets) + |bets|
      && CounterOf(r, ContractTotalBet) == CounterOf(s, ContractTotalBet) + Sum(bets)
      && (bets != [] ==> ReadWatermark(r, LastBetPlacedBlock) == At(block))
      && (bets == [] ==> r == s)
    decreases |bets|
  {
    if bets != [] {
      var o := PlacedBetStep(s, bets[0], block, true, now);
      assert o.Applied?;
      PlacedBetCounts(s, bets[0], block, true, now);
      var s1 := o.after;
      ForcedReplayCountsAll(s1, bets[1..], block, now);
    }
  }

  /** A forced replay, whether or not every update went through, leaves the other watermarks and the total won alone. */
  lemma {:induction false} ReplayForcedKeepsKey(s: Store, bets: seq<Bet>, block: int, now: int, k: Key)
    requires OutsideBetKeys(k)
    ensures SameAt(s, ReplayForced(s, bets, block, now).0, k)
    decreases |bets|
  {
    if bets != [] {
      PlacedBetKeepsKey(s, bets[0], block, true, now, k);
      ReplayForcedKeepsKey(StoreAfter(s, PlacedBetStep(s, bets[0], block, true, now)), bets[1..], block, now, k);
    }
  }

  // ----- Match families -----

  /** seedMatches' parse: the i-th details read from the contract become the match with id i. */
  function ParseMatches(ds: seq<MatchData>): (ms: seq<Match>)
    requires forall i :: 0 <= i < |ds| ==> WellFormed(ds[i])
    ensures |ms| == |ds| && forall i :: 0 <= i < |ds| ==> ms[i] == ParseMatch(i, ds[i]) && ms[i].id == i
  {
    seq(|ds|, i requires 0 <= i < |ds| => ParseMatch(i, ds[i]))
  }

  /** seedRedisMatchKeysX for each match, in order. */
  function SeedFamilies(s: Store, ms: seq<Match>, now: int): Store
    decreases |ms|
  {
    if ms == [] then s else SeedFamilies(SeedMatchKeys(s, ms[0], now), ms[1..], now)
  }

  /** updateMatchMetaTimestamp for each match, in order. */
  function TouchMetaAll(s: Store, ms: seq<Match>, now: int): Store
    decreases |ms|
  {
    if ms == [] then s else TouchMetaAll(MatchMetaTimestamp(s, ms[0].id, now), ms[1..], now)
  }

  /** Only keys of the matches' own families change: no other key appears, disappears or changes value. */
  lemma {:induction false} SeedFamiliesKeepsOtherKeys(s: Store, ms: seq<Match>, now: int, k: Key)
    requires !k.MatchField?
    ensures SameAt(s, SeedFamilies(s, ms, now), k)
    decreases |ms|
  {
    if ms != [] {
      assert k !in MatchKeys(ms[0].id);
      SeedFamiliesKeepsOtherKeys(SeedMatchKeys(s, ms[0], now), ms[1..], now, k);
    }
  }

  /** Touching the matches' timestamps leaves every key outside the match families as it was. */
  lemma {:induction false} TouchMetaAllKeepsOtherKeys(s: Store, ms: seq<Match>, now: int, k: Key)
    requires !k.MatchField?
    ensures SameAt(s, TouchMetaAll(s, ms, now), k)
    decreases |ms|
  {
    if ms != [] {
      TouchMetaAllKeepsOtherKeys(MatchMetaTimestamp(s, ms[0].id, now), ms[1..], now, k);
    }
  }

  /** The first auto-update timer of each match, in order. */
  function AutoTimers(ms: seq<Match>, now: int): (ts: seq<Timer>)
    ensures |ts| == |ms|
    ensures forall i :: 0 <= i < |ms| ==> ts[i] == Timer(now + InitialDelay(ms[i].startTime, now), AutoUpdate(ms[i]))
  {
    seq(|ms|, i requires 0 <= i < |ms| => Timer(now + InitialDelay(ms[i].startTime, now), AutoUpdate(ms[i])))
  }

  /** The timers autoUpdateMatchUntilEnd arms when handed bare ids: a NaN delay, due at once. */
  function IdTimers(ms: seq<Match>, now: int): (ts: seq<Timer>)
    ensures |ts| == |ms|
    ensures forall i :: 0 <= i < |ms| ==> ts[i] == Timer(now, AutoUpdateOfId(ms[i].id))
  {
    seq(|ms|, i requires 0 <= i < |ms| => Timer(now, AutoUpdateOfId(ms[i].id)))
  }

  // ----- seedBets -----

  /** Whether seedBets finished, the cache it leaves, and what it handed to the durable store per stream. */
  datatype SeedBetsResult = SeedBetsResult(
    ok: bool, store: Store, placed: seq<Bet>, cancels: seq<BetRef>, claims: seq<BetRef>)

  /**
   * seedBets: read the three watermarks, fetch the three logs, then per
   * stream in turn replay the chosen events (queue them, save, then one
   * guarded update each). A failed read or fetch aborts before any change;
   * a failed save aborts after that stream's events were queued.
   */
  function SeedBetsSpec(s: Store, placedLog: Option<seq<BetPlacedEvent>>, cancelLog: Option<seq<BetRefEvent>>,
                        claimLog: Option<seq<BetRefEvent>>, savePlaced: bool, saveCancels: bool, saveClaims: bool,
                        now: int): (r: SeedBetsResult)
    ensures r.ok || r.placed != [] ==>
      && placedLog.Some? && !ReadWatermark(s, LastBetPlacedBlock).Unreadable?
      && r.placed == ParseAll(ChosenPlaced(placedLog.value, ReadWatermark(s, LastBetPlacedBlock)))
    ensures r.ok || r.cancels != [] ==>
      && cancelLog.Some? && !ReadWatermark(s, LastBetCancelledBlock).Unreadable?
      && r.cancels == RefsOf(ChosenRefs(cancelLog.value, ReadWatermark(s, LastBetCancelledBlock)))
    ensures r.ok || r.claims != [] ==>
      && claimLog.Some? && !ReadWatermark(s, LastBetClaimedBlock).Unreadable?
      && r.claims == RefsOf(ChosenRefs(claimLog.value, ReadWatermark(s, LastBetClaimedBlock)))
  {
    var wp := ReadWatermark(s, LastBetPlacedBlock);
    var wc := ReadWatermark(s, LastBetCancelledBlock);
    var wl := ReadWatermark(s, LastBetClaimedBlock);
    if wp.Unreadable? || wc.Unreadable? || wl.Unreadable? || placedLog.None? || cancelLog.None? || claimLog.None?
    then SeedBetsResult(false, s, [], [], [])
    else
      var ep := ChosenPlaced(placedLog.value, wp);
      var ec := ChosenRefs(cancelLog.value, wc);
      var el := ChosenRefs(claimLog.value, wl);
      if ep != [] && !savePlaced then SeedBetsResult(false, s, ParseAll(ep), [], [])
      else
        var s1 := ReplaySeeded(s, ep, now);
        if ec != [] && !saveCancels then SeedBetsResult(false, s1, ParseAll(ep), RefsOf(ec), [])
        else
          var s2 := ReplayMarked(s1, Cancelled, ec, now);
          if el != [] && !saveClaims then SeedBetsResult(false, s2, ParseAll(ep), RefsOf(ec), RefsOf(el))
          else SeedBetsResult(true, ReplayMarked(s2, Claimed, el, now), ParseAll(ep), RefsOf(ec), RefsOf(el))
  }

  /**
   * Of a stream's log, seedBets hands exactly the events strictly above its
   * watermark to the durable store, and none when the last event is not
   * above it or the watermark is NaN.
   */
  lemma SeedBetsQueuesOnlyAbove(s: Store, placedLog: seq<BetPlacedEvent>, cancelLog: seq<BetRefEvent>,
                                claimLog: seq<BetRefEvent>, sp: bool, sc: bool, sl: bool, now: int, e: BetPlacedEvent)
    requires var r := SeedBetsSpec(s, Some(placedLog), Some(cancelLog), Some(claimLog), sp, sc, sl, now);
      r.ok || |r.placed| > 0
    ensures var r := SeedBetsSpec(s, Some(placedLog), Some(cancelLog), Some(claimLog), sp, sc, sl, now);
      var w := ReadWatermark(s, LastBetPlacedBlock);
      ParseBetPlacedEvent(e) in r.placed <== (ReplaysPlaced(placedLog, w) && e in placedLog && e.blockNumber > w.block)
    ensures var r := SeedBetsSpec(s, Some(placedLog), Some(cancelLog), Some(claimLog), sp, sc, sl, now);
      var w := ReadWatermark(s, LastBetPlacedBlock);
      forall i :: 0 <= i < |r.placed| ==> w.At? && r.placed[i].block > w.block
  {
    var w := ReadWatermark(s, LastBetPlacedBlock);
    var ep := ChosenPlaced(placedLog, w);
    if ReplaysPlaced(placedLog, w) && e in placedLog && e.blockNumber > w.block {
      var i :| 0 <= i < |ep| && ep[i] == e;
      assert ParseAll(ep)[i] == ParseBetPlacedEvent(e);
    }
  }

  /**
   * A failed watermark read or log fetch aborts seedBets before any write.
   * A failed save writes nothing of its own stream or of the streams after
   * it: a failed placed save leaves the cache as it was, a failed
   * cancellation save leaves the cancelled and claimed watermarks, and a
   * failed claim save the claimed watermark, as they were.
   */
  lemma SeedBetsFailedSaveWritesNothingLater(s: Store, placedLog: Option<seq<BetPlacedEvent>>,
                                             cancelLog: Option<seq<BetRefEvent>>, claimLog: Option<seq<BetRefEvent>>,
                                             sp: bool, sc: bool, sl: bool, now: int)
    ensures var r := SeedBetsSpec(s, placedLog, cancelLog, claimLog, sp, sc, sl, now);
      (ReadWatermark(s, LastBetPlacedBlock).Unreadable? || ReadWatermark(s, LastBetCancelledBlock).Unreadable? ||
       ReadWatermark(s, LastBetClaimedBlock).Unreadable? || placedLog.None? || cancelLog.None? || claimLog.None?)
      ==> r == SeedBetsResult(false, s, [], [], [])
    ensures var r := SeedBetsSpec(s, placedLog, cancelLog, claimLog, sp, sc, sl, now);
      !r.ok && r.cancels == [] && r.claims == [] ==> r.store == s
    ensures var r := SeedBetsSpec(s, placedLog, cancelLog, claimLog, sp, sc, sl, now);
      !r.ok && r.claims == [] ==> SameAt(s, r.store, LastBetCancelledBlock) && SameAt(s, r.store, LastBetClaimedBlock)
    ensures var r := SeedBetsSpec(s, placedLog, cancelLog, claimLog, sp, sc, sl, now);
      !r.ok ==> SameAt(s, r.store, LastBetClaimedBlock)
  {
    var wp := ReadWatermark(s, LastBetPlacedBlock);
    var wc := ReadWatermark(s, LastBetCancelledBlock);
    var wl := ReadWatermark(s, LastBetClaimedBlock);
    if !(wp.Unreadable? || wc.Unreadable? || wl.Unreadable? || placedLog.None? || cancelLog.None? || claimLog.None?) {
      var ep := ChosenPlaced(placedLog.value, wp);
      var ec := ChosenRefs(cancelLog.value, wc);
      var s1 := ReplaySeeded(s, ep, now);
      ReplaySeededKeepsKey(s, ep, now, LastBetCancelledBlock);
      ReplaySeededKeepsKey(s, ep, now, LastBetClaimedBlock);
      ReplayMarkedKeepsKey(s1, Cancelled, ec, now, LastBetClaimedBlock);
    }
  }

  /**
   * With the placed log in block order, well-typed counters, readable
   * watermarks and every save going through, seedBets finishes and counts
   * every bet it hands to the durable store: numBets grows by their number
   * and totalBet by their amounts. Cancellations and claims take nothing back.
   */
  lemma SeedBetsCountsEveryPlacedBet(s: Store, placedLog: seq<BetPlacedEvent>, cancelLog: seq<BetRefEvent>,
                                     claimLog: seq<BetRefEvent>, now: int)
    requires Ascending(placedLog) && CountersTyped(s)
    requires !ReadWatermark(s, LastBetPlacedBlock).Unreadable? && !ReadWatermark(s, LastBetCancelledBlock).Unreadable?
    requires !ReadWatermark(s, LastBetClaimedBlock).Unreadable?
    ensures var r := SeedBetsSpec(s, Some(placedLog), Some(cancelLog), Some(claimLog), true, true, true, now);
      && r.ok
      && CounterOf(r.store, ContractNumBets) == CounterOf(s, ContractNumBets) + |r.placed|
      && CounterOf(r.store, ContractTotalBet) == CounterOf(s, ContractTotalBet) + Sum(r.placed)
  {
    var ep := ChosenPlaced(placedLog, ReadWatermark(s, LastBetPlacedBlock));
    var ec := ChosenRefs(cancelLog, ReadWatermark(s, LastBetCancelledBlock));
    var s1 := ReplaySeeded(s, ep, now);
    SeededPlacedCountsAll(s, placedLog, now);
    ReplayMarkedKeepsTotals(s1, Cancelled, ec, now, "");
    ReplayMarkedKeepsTotals(ReplayMarked(s1, Cancelled, ec, now), Claimed,
      ChosenRefs(claimLog, ReadWatermark(s, LastBetClaimedBlock)), now, "");
  }

  /** What seedBets replays from a placed log in block order, on well-typed counters, is counted in full. */
  lemma SeededPlacedCountsAll(s: Store, log: seq<BetPlacedEvent>, now: int)
    requires Ascending(log) && CountersTyped(s)
    ensures var ep := ChosenPlaced(log, ReadWatermark(s, LastBetPlacedBlock));
      var r := ReplaySeeded(s, ep, now);
      && CounterOf(r, ContractNumBets) == CounterOf(s, ContractNumBets) + |ep|
      && CounterOf(r, ContractTotalBet) == CounterOf(s, ContractTotalBet) + Sum(ParseAll(ep))
  {
    var w := ReadWatermark(s, LastBetPlacedBlock);
    var ep := ChosenPlaced(log, w);
    if ep != [] {
      AbovePlacedAscending(log, w.block);
      AscendingReplayCountsAll(s, ep, now);
    }
  }

  // ----- finishedSyncingHandler -----

  /**
   * What finishedSyncingHandler reads and changes: the cache, the pending
   * timers, the four durable queues (matches, unpersisted bets, cancelled
   * and claimed bets), the five buffers filled while syncing and the last
   * buffered placed and claimed blocks.
   */
  datatype SyncState = SyncState(
    store: Store, timers: seq<Timer>,
    dbMatches: seq<Match>, dbBets: seq<Bet>, dbCancels: seq<BetRef>, dbClaims: seq<BetRef>,
    creates: seq<Match>, updates: seq<Match>, bets: seq<Bet>, cancels: seq<BetRef>, claims: seq<BetRef>,
    lastPlaced: int, lastClaimed: int)

  /** Whether a step went through, and the state it leaves. */
  datatype StepResult = StepResult(ok: bool, st: SyncState)

  /** How many steps went through (5 when the handler finished), and the state they leave. */
  datatype SyncOutcome = SyncOutcome(reached: nat, st: SyncState)

  /**
   * Step 1: queue the buffered creations and empty that buffer; after the
   * save, seed each one's family and arm an auto-update by id for each.
   */
  function FlushCreates(st: SyncState, saveOk: bool, now: int): (r: StepResult)
    ensures r.st.creates == []
    ensures r.st.dbBets == st.dbBets && r.st.dbCancels == st.dbCancels && r.st.dbClaims == st.dbClaims && r.st.updates == st.updates
    ensures r.st.bets == st.bets && r.st.cancels == st.cancels && r.st.claims == st.claims && r.st.lastPlaced == st.lastPlaced
    ensures r.st.lastClaimed == st.lastClaimed
  {
    var queued := st.(dbMatches := st.dbMatches + st.creates, creates := []);
    if !saveOk then StepResult(false, queued)
    else StepResult(true, queued.(store := SeedFamilies(st.store, st.creates, now), timers := st.timers + IdTimers(st.creates, now)))
  }

  /**
   * Step 2, reached only when step 1 went through (`previousOk`): queue the
   * buffered updates and empty that buffer; after the save, touch each
   * one's key 8.
   */
  function FlushUpdates(st: SyncState, previousOk: bool, saveOk: bool, now: int): (r: StepResult)
    ensures r.st.timers == st.timers && r.st.dbBets == st.dbBets && r.st.dbCancels == st.dbCancels && r.st.dbClaims == st.dbClaims
    ensures r.st.creates == st.creates && r.st.bets == st.bets && r.st.cancels == st.cancels && r.st.claims == st.claims
    ensures r.st.lastPlaced == st.lastPlaced && r.st.lastClaimed == st.lastClaimed
  {
    if !previousOk then StepResult(false, st)
    else
      var queued := st.(dbMatches := st.dbMatches + st.updates, updates := []);
      if !saveOk then StepResult(false, queued)
      else StepResult(true, queued.(store := TouchMetaAll(st.store, st.updates, now)))
  }

  /**
   * Step 3, reached only when step 2 went through: queue the buffered
   * bets; after the save, replay every one forced at the last buffered
   * placed block. Only when no replay failed is the buffer emptied.
   */
  function FlushBets(st: SyncState, previousOk: bool, saveOk: bool, now: int): (r: StepResult)
    ensures r.st.timers == st.timers && r.st.dbMatches == st.dbMatches && r.st.dbCancels == st.dbCancels && r.st.dbClaims == st.dbClaims
    ensures r.st.creates == st.creates && r.st.updates == st.updates && r.st.cancels == st.cancels && r.st.claims == st.claims
    ensures r.st.lastPlaced == st.lastPlaced && r.st.lastClaimed == st.lastClaimed
  {
    if !previousOk then StepResult(false, st)
    else
      var queued := st.(dbBets := st.dbBets + st.bets);
      if !saveOk then StepResult(false, queued)
      else
        var replayed := ReplayForced(st.store, st.bets, st.lastPlaced, now);
        if !replayed.1 then StepResult(false, queued.(store := replayed.0))
        else StepResult(true, queued.(store := replayed.0, bets := []))
  }

  /**
   * Step 4, reached only when step 3 went through: queue the buffered
   * cancellations; after the save, set the cancelled watermark, from the
   * last buffered PLACED block, and empty the buffer.
   */
  function FlushCancels(st: SyncState, previousOk: bool, saveOk: bool): (r: StepResult)
    ensures r.st.timers == st.timers && r.st.dbMatches == st.dbMatches && r.st.dbBets == st.dbBets && r.st.dbClaims == st.dbClaims
    ensures r.st.creates == st.creates && r.st.updates == st.updates && r.st.bets == st.bets && r.st.claims == st.claims
    ensures r.st.lastPlaced == st.lastPlaced && r.st.lastClaimed == st.lastClaimed
  {
    if !previousOk then StepResult(false, st)
    else
      var queued := st.(dbCancels := st.dbCancels + st.cancels);
      if !saveOk then StepResult(false, queued)
      else StepResult(true, queued.(store := st.store[LastBetCancelledBlock := Int(st.lastPlaced)], cancels := []))
  }

  /**
   * Step 5, reached only when step 4 went through: queue the buffered
   * claims; after the save, set the claimed watermark and empty the buffer.
   */
  function FlushClaims(st: SyncState, previousOk: bool, saveOk: bool): (r: StepResult)
    ensures r.st.timers == st.timers && r.st.dbMatches == st.dbMatches && r.st.dbBets == st.dbBets && r.st.dbCancels == st.dbCancels
    ensures r.st.creates == st.creates && r.st.updates == st.updates && r.st.bets == st.bets && r.st.cancels == st.cancels
    ensures r.st.lastPlaced == st.lastPlaced && r.st.lastClaimed == st.lastClaimed
  {
    if !previousOk then StepResult(false, st)
    else
      var queued := st.(dbClaims := st.dbClaims + st.claims);
      if !saveOk then StepResult(false, queued)
      else StepResult(true, queued.(store := st.store[LastBetClaimedBlock := Int(st.lastClaimed)], claims := []))
  }

  /** How many of the five steps went through, from whether each did (a step goes through only after the one before). */
  function StepsReached(ok1: bool, ok2: bool, ok3: bool, ok4: bool, ok5: bool): nat
  {
    if ok5 then 5 else if ok4 then 4 else if ok3 then 3 else if ok2 then 2 else if ok1 then 1 else 0
  }

  /**
   * finishedSyncingHandler after the phase flag is set: steps 1 to 5 in
   * turn, save1 to save5 telling whether each step's save goes through.
   * The first failed step stops it (the later steps change nothing); the
   * result is the number of steps that went through (5 when it finished)
   * and the state it leaves.
   */
  function SyncSpec(st: SyncState, save1: bool, save2: bool, save3: bool, save4: bool, save5: bool, now: int): (r: SyncOutcome)
    ensures r.reached <= 5
    ensures r.reached >= 1 <==> save1
    ensures r.reached >= 2 <==> save1 && save2
    ensures r.reached >= 3 <==>
      r.reached >= 2 && save3 &&
      ReplayForced(TouchMetaAll(SeedFamilies(st.store, st.creates, now), st.updates, now), st.bets, st.lastPlaced, now).1
    ensures r.reached >= 4 <==> r.reached >= 3 && save4
    ensures r.reached == 5 <==> r.reached >= 4 && save5
  {
    var r1 := FlushCreates(st, save1, now);
    var r2 := FlushUpdates(r1.st, r1.ok, save2, now);
    var r3 := FlushBets(r2.st, r2.ok, save3, now);
    var r4 := FlushCancels(r3.st, r3.ok, save4);
    var r5 := FlushClaims(r4.st, r4.ok, save5);
    SyncOutcome(StepsReached(r1.ok, r2.ok, r3.ok, r4.ok, r5.ok), r5.st)
  }

  /**
   * However far it gets, the handler loses no buffered match: every one
   * ends up queued for the durable store exactly once or still buffered,
   * in the order it arrived.
   */
  lemma SyncLosesNoMatch(st: SyncState, save1: bool, save2: bool, save3: bool, save4: bool, save5: bool, now: int)
    ensures var r := SyncSpec(st, save1, save2, save3, save4, save5, now).st;
      r.dbMatches + r.creates + r.updates == st.dbMatches + st.creates + st.updates
  {
    var r1 := FlushCreates(st, save1, now);
    assert r1.st.dbMatches + r1.st.creates + r1.st.updates == st.dbMatches + st.creates + st.updates;
    var r2 := FlushUpdates(r1.st, r1.ok, save2, now);
    assert r2.st.dbMatches + r2.st.creates + r2.st.updates == st.dbMatches + st.creates + st.updates;
  }

  /**
   * However far it gets, the handler loses no buffered bet, cancellation or
   * claim: each ends up queued for the durable store or still buffered, and
   * a buffer is emptied only once its step went through.
   */
  lemma SyncLosesNoBet(st: SyncState, save1: bool, save2: bool, save3: bool, save4: bool, save5: bool, now: int)
    ensures var reached, r := SyncSpec(st, save1, save2, save3, save4, save5, now).reached,
                              SyncSpec(st, save1, save2, save3, save4, save5, now).st;
      && (forall b :: b in st.bets ==> b in r.dbBets || b in r.bets)
      && (forall c :: c in st.cancels ==> c in r.dbCancels || c in r.cancels)
      && (forall c :: c in st.claims ==> c in r.dbClaims || c in r.claims)
      && (r.bets == [] || r.bets == st.bets) && (r.bets == [] <==> reached >= 3 || st.bets == [])
      && (r.cancels == [] <==> reached >= 4 || st.cancels == []) && (r.cancels == [] || r.cancels == st.cancels)
      && (r.claims == [] <==> reached == 5 || st.claims == []) && (r.claims == [] || r.claims == st.claims)
  {
  }

  /** When every step goes through, every buffer is emptied into its durable queue. */
  lemma SyncFinishedDrainsAll(st: SyncState, now: int)
    requires SyncSpec(st, true, true, true, true, true, now).reached == 5
    ensures var r := SyncSpec(st, true, true, true, true, true, now).st;
      && r.dbMatches == st.dbMatches + st.creates + st.updates && r.dbBets == st.dbBets + st.bets
      && r.dbCancels == st.dbCancels + st.cancels && r.dbClaims == st.dbClaims + st.claims
      && r.creates == [] && r.updates == [] && r.bets == [] && r.cancels == [] && r.claims == []
  {
    var r1 := FlushCreates(st, true, now);
    var r2 := FlushUpdates(r1.st, true, true, now);
    assert r2.st.dbMatches == st.dbMatches + st.creates + st.updates;
  }

  /**
   * When every step goes through, every buffered bet is counted, and the
   * cancelled watermark ends at the last buffered placed block (not the
   * cancelled one), the claimed watermark at the last buffered claimed block.
   */
  lemma SyncFinishedCounts(st: SyncState, now: int)
    requires SyncSpec(st, true, true, true, true, true, now).reached == 5
    ensures var r := SyncSpec(st, true, true, true, true, true, now).st;
      var s2 := TouchMetaAll(SeedFamilies(st.store, st.creates, now), st.updates, now);
      && r.store[LastBetCancelledBlock] == Int(st.lastPlaced)
      && r.store[LastBetClaimedBlock] == Int(st.lastClaimed)
      && CounterOf(r.store, ContractNumBets) == CounterOf(s2, ContractNumBets) + |st.bets|
      && CounterOf(r.store, ContractTotalBet) == CounterOf(s2, ContractTotalBet) + Sum(st.bets)
  {
    var r1 := FlushCreates(st, true, now);
    var r2 := FlushUpdates(r1.st, r1.ok, true, now);
    assert r2.st.store == TouchMetaAll(SeedFamilies(st.store, st.creates, now), st.updates, now);
    BetStepsCount(r2.st, now);
  }

  /**
   * However far it gets, the handler leaves the cancelled watermark as it
   * was unless step 4 went through, and the claimed watermark as it was
   * unless step 5 did: no earlier step writes either.
   */
  lemma SyncKeepsUnreachedWatermarks(st: SyncState, save1: bool, save2: bool, save3: bool, save4: bool, save5: bool, now: int)
    ensures var r := SyncSpec(st, save1, save2, save3, save4, save5, now);
      r.reached < 4 ==> SameAt(st.store, r.st.store, LastBetCancelledBlock)
    ensures var r := SyncSpec(st, save1, save2, save3, save4, save5, now);
      r.reached < 5 ==> SameAt(st.store, r.st.store, LastBetClaimedBlock)
  {
    FirstStepsKeepWatermark(st, save1, save2, save3, now, LastBetCancelledBlock);
    FirstStepsKeepWatermark(st, save1, save2, save3, now, LastBetClaimedBlock);
  }

  /** Steps 1 to 3, however far they get, leave the cancelled and claimed watermarks and the total won alone. */
  lemma FirstStepsKeepWatermark(st: SyncState, save1: bool, save2: bool, save3: bool, now: int, k: Key)
    requires OutsideBetKeys(k)
    ensures var r1 := FlushCreates(st, save1, now);
      var r2 := FlushUpdates(r1.st, r1.ok, save2, now);
      SameAt(st.store, FlushBets(r2.st, r2.ok, save3, now).st.store, k)
  {
    var r1 := FlushCreates(st, save1, now);
    var r2 := FlushUpdates(r1.st, r1.ok, save2, now);
    SeedFamiliesKeepsOtherKeys(st.store, st.creates, now, k);
    TouchMetaAllKeepsOtherKeys(r1.st.store, r1.st.updates, now, k);
    ReplayForcedKeepsKey(r2.st.store, r2.st.bets, r2.st.lastPlaced, now, k);
  }

  /** Steps 3 to 5 going through, on the state step 2 leaves: the counts and the two watermarks they write. */
  lemma BetStepsCount(st: SyncState, now: int)
    requires FlushClaims(FlushCancels(FlushBets(st, true, true, now).st, FlushBets(st, true, true, now).ok, true).st,
                         FlushCancels(FlushBets(st, true, true, now).st, FlushBets(st, true, true, now).ok, true).ok, true).ok
    ensures var r3 := FlushBets(st, true, true, now);
      var r4 := FlushCancels(r3.st, r3.ok, true);
      var r := FlushClaims(r4.st, r4.ok, true).st;
      && r.store[LastBetCancelledBlock] == Int(st.lastPlaced)
      && r.store[LastBetClaimedBlock] == Int(st.lastClaimed)
      && CounterOf(r.store, ContractNumBets) == CounterOf(st.store, ContractNumBets) + |st.bets|
      && CounterOf(r.store, ContractTotalBet) == CounterOf(st.store, ContractTotalBet) + Sum(st.bets)
  {
    var r3 := FlushBets(st, true, true, now);
    var (s3, allOk) := ReplayForced(st.store, st.bets, st.lastPlaced, now);
    assert r3.ok == allOk && r3.st.store == s3;
    ForcedReplayCountsAll(st.store, st.bets, st.lastPlaced, now);
    var s4 := s3[LastBetCancelledBlock := Int(st.lastPlaced)];
    CounterOfOtherKey(s3, LastBetCancelledBlock, Int(st.lastPlaced), ContractNumBets);
    CounterOfOtherKey(s3, LastBetCancelledBlock, Int(st.lastPlaced), ContractTotalBet);
    CounterOfOtherKey(s4, LastBetClaimedBlock, Int(st.lastClaimed), ContractNumBets);
    CounterOfOtherKey(s4, LastBetClaimedBlock, Int(st.lastClaimed), ContractTotalBet);
  }
}
