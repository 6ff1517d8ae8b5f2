/**
 * The observer process (src/observer.js) as one object: its Redis cache,
 * the phase flag, the buffers that hold chain events until the history is
 * synced, the batches handed to the durable store, and the pending timers
 * with scheduleMatchUpdate's coalescing set. Every outside answer (a chain
 * read, a save of the durable store, the fixture feed, the clock) is a
 * parameter; each method is proved to do what a function of Cache, Schedule
 * or Sync says.
 */
module Observer {
  import opened Wrappers
  import opened Keys
  import opened Store
  import opened Records
  import opened Cache
  import opened Schedule
  import opened Sync

  /** The contract's match events; only a creation is told apart from the rest. */
  datatype MatchEventKind = MatchCreated | MatchUpdated | MatchFailedPayoutRelease

  /** A match event as the handler sees it: its name and the match id in its first return value. */
  datatype MatchEvent = MatchEvent(kind: MatchEventKind, matchId: nat)

  /** `parseInt` of a watermark as a block: NaN leaves the block as it was (see README). */
  function BlockOr(w: Watermark, previous: int): int
  {
    if w.At? then w.block else previous
  }

  class Observer {
    /** brokerConfig.StartBlockHeight, the watermarks' default. */
    const startBlockHeight: int
    /** The Redis cache. */
    var store: Store
    /** Set once the past history has been replayed; until then events are buffered. */
    var finishedSyncing: bool
    var pendingMatchCreates: seq<Match>
    var pendingMatchUpdates: seq<Match>
    var pendingBetPlaces: seq<Bet>
    var pendingLastBetPlacedBlock: int
    var pendingBetCancels: seq<BetRef>
    var pendingLastBetCancelledBlock: int
    var pendingBetClaims: seq<BetRef>
    var pendingLastBetClaimedBlock: int
    /** What was pushed onto the durable store's queues (postgres.matches, unpersistedBets, cancelledBets, claimedBets). */
    var dbMatches: seq<Match>
    var dbUnpersistedBets: seq<Bet>
    var dbCancelledBets: seq<BetRef>
    var dbClaimedBets: seq<BetRef>
    /** The match ids with a refresh requested through scheduleMatchUpdate. */
    var matchUpdateSchedule: set<nat>
    /** The timers armed by doLater that have neither fired nor been cleared. */
    var timeouts: seq<Timer>

    /** At most one pending refresh per match, and only for a marked match. */
    ghost predicate Valid()
      reads this`matchUpdateSchedule, this`timeouts
    {
      Coalesced(matchUpdateSchedule, timeouts)
    }

    /** The part of the state finishedSyncingHandler reads and changes. */
    ghost function SyncView(): SyncState
      reads this`store, this`timeouts, this`dbMatches, this`dbUnpersistedBets, this`dbCancelledBets, this`dbClaimedBets
      reads this`pendingMatchCreates, this`pendingMatchUpdates, this`pendingBetPlaces, this`pendingBetCancels
      reads this`pendingBetClaims, this`pendingLastBetPlacedBlock, this`pendingLastBetClaimedBlock
    {
      SyncState(store, timeouts, dbMatches, dbUnpersistedBets, dbCancelledBets, dbClaimedBets,
                pendingMatchCreates, pendingMatchUpdates, pendingBetPlaces, pendingBetCancels, pendingBetClaims,
                pendingLastBetPlacedBlock, pendingLastBetClaimedBlock)
    }

    /** The fields hold `st`, field by field. */
    ghost predicate ViewIs(st: SyncState)
      reads this`store, this`timeouts, this`dbMatches, this`dbUnpersistedBets, this`dbCancelledBets, this`dbClaimedBets
      reads this`pendingMatchCreates, this`pendingMatchUpdates, this`pendingBetPlaces, this`pendingBetCancels
      reads this`pendingBetClaims, this`pendingLastBetPlacedBlock, this`pendingLastBetClaimedBlock
    {
      && store == st.store && timeouts == st.timers
      && dbMatches == st.dbMatches && dbUnpersistedBets == st.dbBets
      && dbCancelledBets == st.dbCancels && dbClaimedBets == st.dbClaims
      && pendingMatchCreates == st.creates && pendingMatchUpdates == st.updates
      && pendingBetPlaces == st.bets && pendingBetCancels == st.cancels && pendingBetClaims == st.claims
      && pendingLastBetPlacedBlock == st.lastPlaced && pendingLastBetClaimedBlock == st.lastClaimed
    }

    /** The module's initial state: nothing synced, every buffer empty, every pending block 0. */
    constructor(startBlockHeight: int, store: Store)
      ensures this.startBlockHeight == startBlockHeight && this.store == store
      ensures !finishedSyncing
      ensures pendingMatchCreates == [] && pendingMatchUpdates == []
      ensures pendingBetPlaces == [] && pendingBetCancels == [] && pendingBetClaims == []
      ensures pendingLastBetPlacedBlock == 0 && pendingLastBetCancelledBlock == 0 && pendingLastBetClaimedBlock == 0
      ensures dbMatches == [] && dbUnpersistedBets == [] && dbCancelledBets == [] && dbClaimedBets == []
      ensures matchUpdateSchedule == {} && timeouts == []
      ensures Valid() && Coherent(matchUpdateSchedule, timeouts)
    {
      this.startBlockHeight := startBlockHeight;
      this.store := store;
      finishedSyncing := false;
      pendingMatchCreates, pendingMatchUpdates := [], [];
      pendingBetPlaces, pendingBetCancels, pendingBetClaims := [], [], [];
      pendingLastBetPlacedBlock, pendingLastBetCancelledBlock, pendingLastBetClaimedBlock := 0, 0, 0;
      dbMatches, dbUnpersistedBets, dbCancelledBets, dbClaimedBets := [], [], [], [];
      matchUpdateSchedule, timeouts := {}, [];
      new;
      CancelAllStrandsMarks({}, 0, 0);
    }

    /** seedRedisKeys: each default in turn, written only where the key does not exist. */
    method SeedRedisKeys()
      modifies this`store
      ensures store == SeedDefaults(old(store), Defaults(startBlockHeight))
    {
      SeedEach(Defaults(startBlockHeight));
    }

    /** The loop of seedRedisKeys over a list of defaults. */
    method SeedEach(defaults: seq<(Key, Value)>)
      modifies this`store
      ensures store == SeedDefaults(old(store), defaults)
    {
      for i := 0 to |defaults|
        invariant SeedDefaults(store, defaults[i..]) == SeedDefaults(old(store), defaults)
      {
        assert defaults[i..][1..] == defaults[i + 1..];
        var (key, value) := defaults[i];
        var present := Exists(store, key);
        if !present {
          store := store[key := value];
        }
      }
    }

    /**
     * setLastBlocks: load the three watermarks into the pending blocks, in
     * order; a read that throws stops there and reports the failure.
     */
    method SetLastBlocks() returns (ok: bool)
      modifies this`pendingLastBetPlacedBlock, this`pendingLastBetCancelledBlock, this`pendingLastBetClaimedBlock
      ensures var wp, wc, wl := ReadWatermark(store, LastBetPlacedBlock), ReadWatermark(store, LastBetCancelledBlock),
                                ReadWatermark(store, LastBetClaimedBlock);
        && (ok <==> !wp.Unreadable? && !wc.Unreadable? && !wl.Unreadable?)
        && pendingLastBetPlacedBlock == BlockOr(wp, old(pendingLastBetPlacedBlock))
        && pendingLastBetCancelledBlock == (if wp.Unreadable? then old(pendingLastBetCancelledBlock)
                                            else BlockOr(wc, old(pendingLastBetCancelledBlock)))
        && pendingLastBetClaimedBlock == (if wp.Unreadable? || wc.Unreadable? then old(pendingLastBetClaimedBlock)
                                          else BlockOr(wl, old(pendingLastBetClaimedBlock)))
    {
      var tempA := ReadWatermark(store, LastBetPlacedBlock);
      if tempA.Unreadable? {
        return false;
      }
      pendingLastBetPlacedBlock := BlockOr(tempA, pendingLastBetPlacedBlock);
      var tempB := ReadWatermark(store, LastBetCancelledBlock);
      if tempB.Unreadable? {
        return false;
      }
      pendingLastBetCancelledBlock := BlockOr(tempB, pendingLastBetCancelledBlock);
      var tempC := ReadWatermark(store, LastBetClaimedBlock);
      if tempC.Unreadable? {
        return false;
      }
      pendingLastBetClaimedBlock := BlockOr(tempC, pendingLastBetClaimedBlock);
      ok := true;
    }

    /** setPlacedBetRedisKeys(bet, block, force): the guarded six-command transaction. */
    method SetPlacedBetRedisKeys(bet: Bet, block: int, force: bool, now: int) returns (o: Outcome)
      modifies this`store
      ensures o == PlacedBetStep(old(store), bet, block, force, now)
      ensures store == StoreAfter(old(store), o)
    {
      var redisLastBetBlock := ReadWatermark(store, LastBetPlacedBlock);
      if redisLastBetBlock.Unreadable? {
        return Failed;
      }
      if Skips(block, redisLastBetBlock, force) {
        return Skipped;
      }
      var r := Transaction(store, PlacedBetCommands(bet, block, now));
      if r.None? {
        return Failed;
      }
      store := r.value;
      o := Applied(r.value);
    }

    /**
     * setCancelledBetRedisKeys (stream Cancelled) and setClaimedBetRedisKeys
     * (stream Claimed): the same guard on their own watermark, then its new
     * value and the match's key 8.
     */
    method SetMarkedBetRedisKeys(stream: BetStream, matchId: nat, block: int, force: bool, now: int) returns (o: Outcome)
      requires !stream.Placed?
      modifies this`store
      ensures o == MarkBetStep(old(store), stream, matchId, block, force, now)
      ensures store == StoreAfter(old(store), o)
    {
      var redisLastBlock := ReadWatermark(store, WatermarkKey(stream));
      if redisLastBlock.Unreadable? {
        return Failed;
      }
      if Skips(block, redisLastBlock, force) {
        return Skipped;
      }
      var cmds := MarkBetCommands(stream, matchId, block, now);
      SetsSucceed(store, cmds);
      store := Transaction(store, cmds).value;
      o := Applied(store);
    }

    /** scheduleMatchUpdate(matchId, delay): arm one refresh unless one is already marked. */
    method ScheduleMatchUpdate(matchId: nat, delay: int, now: int)
      requires Valid()
      modifies this`matchUpdateSchedule, this`timeouts
      ensures Valid()
      ensures old(Coherent(matchUpdateSchedule, timeouts)) ==> Coherent(matchUpdateSchedule, timeouts)
      ensures (matchUpdateSchedule, timeouts) == Request(old(matchUpdateSchedule), old(timeouts), matchId, now + delay)
    {
      ghost var sched0, ts0 := matchUpdateSchedule, timeouts;
      if matchId !in matchUpdateSchedule {
        matchUpdateSchedule := matchUpdateSchedule + {matchId};
        timeouts := timeouts + [Timer(now + delay, RefreshMatch(matchId))];
      }
      RequestKeeps(sched0, ts0, matchId, now + delay, matchUpdateSchedule, timeouts);
    }

    /** autoUpdateMatchUntilEnd(match): its first run is due ten minutes before kick-off, or now if that has passed. */
    method AutoUpdateMatchUntilEnd(m: Match, now: int)
      requires Valid()
      modifies this`timeouts
      ensures Valid()
      ensures old(Coherent(matchUpdateSchedule, timeouts)) ==> Coherent(matchUpdateSchedule, timeouts)
      ensures timeouts == old(timeouts) + [Timer(Max(now, KickOff(m) - Minutes(10)), AutoUpdate(m))]
    {
      var startTime := m.startTime * 1000 - Minutes(10) - now;
      if startTime < 0 {
        startTime := 0;
      }
      assert startTime == InitialDelay(m.startTime, now);
      AppendOtherKeeps(matchUpdateSchedule, timeouts, [Timer(now + startTime, AutoUpdate(m))]);
      timeouts := timeouts + [Timer(now + startTime, AutoUpdate(m))];
    }

    /**
     * autoUpdateMatchUntilEnd handed a match id instead of a match: the start
     * time is NaN, so the one run is due at once, and after it nothing is
     * rescheduled.
     */
    method AutoUpdateMatchUntilEndOfId(matchId: nat, now: int)
      requires Valid()
      modifies this`timeouts
      ensures Valid()
      ensures old(Coherent(matchUpdateSchedule, timeouts)) ==> Coherent(matchUpdateSchedule, timeouts)
      ensures timeouts == old(timeouts) + [Timer(now, AutoUpdateOfId(matchId))]
    {
      AppendOtherKeeps(matchUpdateSchedule, timeouts, [Timer(now, AutoUpdateOfId(matchId))]);
      timeouts := timeouts + [Timer(now, AutoUpdateOfId(matchId))];
    }

    /**
     * updateMatchCache(matchId): read the match from the chain, queue and
     * save it, ask the feed for its fixture, then write keys 0 to 7 of its
     * family; any step that fails ends it with None.
     */
    method UpdateMatchCache(matchId: nat, chain: Option<MatchData>, saveOk: bool, feed: FeedReply, now: int)
      returns (r: Option<Match>)
      requires chain.Some? ==> WellFormed(chain.value)
      modifies this`store, this`dbMatches
      ensures (r, store) == Refresh(old(store), matchId, chain, saveOk, feed, now)
      ensures dbMatches == old(dbMatches) + (if chain.Some? then [ParseMatch(matchId, chain.value)] else [])
    {
      if chain.None? {
        return None;
      }
      var m := ParseMatch(matchId, chain.value);
      dbMatches := dbMatches + [m];
      if !saveOk {
        return None;
      }
      if !feed.Fixture? {
        return None;
      }
      store := WriteMatchCache(store, matchId, m, feed.status, feed.goalsHome, feed.goalsAway, now);
      r := Some(m);
    }

    /**
     * The k-th pending timer fires; `chain`, `saveOk` and `feed` are what the
     * refresh it runs gets back. A refresh unmarks its match; a run of the
     * updater keeps the match it refreshed (or the one it had, when the
     * refresh failed) and arms the next run while the match is live.
     */
    method FireTimer(k: nat, chain: Option<MatchData>, saveOk: bool, feed: FeedReply, now: int)
      requires Valid() && k < |timeouts|
      requires chain.Some? ==> WellFormed(chain.value)
      modifies this`store, this`dbMatches, this`matchUpdateSchedule, this`timeouts
      ensures Valid()
      ensures old(Coherent(matchUpdateSchedule, timeouts)) ==> Coherent(matchUpdateSchedule, timeouts)
      ensures match old(timeouts[k].job)
        case RefreshMatch(id) =>
          && store == Refresh(old(store), id, chain, saveOk, feed, now).1
          && dbMatches == old(dbMatches) + (if chain.Some? then [ParseMatch(id, chain.value)] else [])
          && matchUpdateSchedule == old(matchUpdateSchedule) - {id}
          && timeouts == Remove(old(timeouts), k)
        case AutoUpdate(m) =>
          var (refreshed, s) := Refresh(old(store), m.id, chain, saveOk, feed, now);
          && store == s
          && dbMatches == old(dbMatches) + (if chain.Some? then [ParseMatch(m.id, chain.value)] else [])
          && matchUpdateSchedule == old(matchUpdateSchedule)
          && timeouts == Remove(old(timeouts), k) + Rearm(refreshed.GetOr(m), now)
        case AutoUpdateOfId(_) =>
          && store == old(store) && dbMatches == old(dbMatches)
          && matchUpdateSchedule == old(matchUpdateSchedule)
          && timeouts == Remove(old(timeouts), k)
    {
      var job := timeouts[k].job;
      ghost var sched0, ts0 := matchUpdateSchedule, timeouts;
      timeouts := Remove(timeouts, k);
      match job {
        case RefreshMatch(id) =>
          FireRefreshKeeps(sched0, ts0, k);
          var _ := UpdateMatchCache(id, chain, saveOk, feed, now);
          matchUpdateSchedule := matchUpdateSchedule - {id};
        case AutoUpdate(m) =>
          var refreshed := UpdateMatchCache(m.id, chain, saveOk, feed, now);
          var current := if refreshed.Some? then refreshed.value else m;
          if ShouldReschedule(current, now) {
            timeouts := timeouts + [Timer(now + PollInterval(), AutoUpdate(current))];
          } else {
            assert timeouts == Remove(ts0, k) + [];
          }
          assert timeouts == Remove(ts0, k) + Rearm(current, now);
          FireOtherKeeps(sched0, ts0, k, Rearm(current, now));
        case AutoUpdateOfId(_) =>
          FireOtherKeeps(sched0, ts0, k, []);
          assert Remove(ts0, k) + [] == Remove(ts0, k);
      }
    }

    /** cancelAllLaters: every pending timer is cleared; the coalescing set is left as it is. */
    method CancelAllLaters()
      requires Valid()
      modifies this`timeouts
      ensures Valid()
      ensures timeouts == []
      ensures Coherent(matchUpdateSchedule, timeouts) <==> matchUpdateSchedule == {}
    {
      timeouts := [];
      CancelAllStrandsMarks(matchUpdateSchedule, 0, 0);
    }

    /** seedRedisMatchKeysX for each match, in order. */
    method SeedMatchFamilies(ms: seq<Match>, now: int)
      modifies this`store
      ensures store == SeedFamilies(old(store), ms, now)
    {
      for i := 0 to |ms|
        invariant SeedFamilies(store, ms[i..], now) == SeedFamilies(old(store), ms, now)
      {
        assert ms[i..][1..] == ms[i + 1..];
        store := SeedMatchKeys(store, ms[i], now);
      }
    }

    /** autoUpdateMatchUntilEnd for each match, in order. */
    method AutoUpdateAll(ms: seq<Match>, now: int)
      requires Valid()
      modifies this`timeouts
      ensures Valid()
      ensures old(Coherent(matchUpdateSchedule, timeouts)) ==> Coherent(matchUpdateSchedule, timeouts)
      ensures timeouts == old(timeouts) + AutoTimers(ms, now)
    {
      for i := 0 to |ms|
        invariant Valid()
        invariant old(Coherent(matchUpdateSchedule, timeouts)) ==> Coherent(matchUpdateSchedule, timeouts)
        invariant timeouts == old(timeouts) + AutoTimers(ms[..i], now)
      {
        assert AutoTimers(ms[..i + 1], now) == AutoTimers(ms[..i], now) + [AutoTimers(ms, now)[i]];
        AutoUpdateMatchUntilEnd(ms[i], now);
      }
      assert ms[..|ms|] == ms;
    }

    /** autoUpdateMatchUntilEnd(match.Id) for each match, in order, as finishedSyncingHandler calls it. */
    method AutoUpdateAllOfId(ms: seq<Match>, now: int)
      requires Valid()
      modifies this`timeouts
      ensures Valid()
      ensures old(Coherent(matchUpdateSchedule, timeouts)) ==> Coherent(matchUpdateSchedule, timeouts)
      ensures timeouts == old(timeouts) + IdTimers(ms, now)
    {
      for i := 0 to |ms|
        invariant Valid()
        invariant old(Coherent(matchUpdateSchedule, timeouts)) ==> Coherent(matchUpdateSchedule, timeouts)
        invariant timeouts == old(timeouts) + IdTimers(ms[..i], now)
      {
        assert IdTimers(ms[..i + 1], now) == IdTimers(ms[..i], now) + [IdTimers(ms, now)[i]];
        AutoUpdateMatchUntilEndOfId(ms[i].id, now);
      }
      assert ms[..|ms|] == ms;
    }

    /** updateMatchMetaTimestamp for each match, in order. */
    method TouchMeta(ms: seq<Match>, now: int)
      modifies this`store
      ensures store == TouchMetaAll(old(store), ms, now)
    {
      for i := 0 to |ms|
        invariant TouchMetaAll(store, ms[i..], now) == TouchMetaAll(old(store), ms, now)
      {
        assert ms[i..][1..] == ms[i + 1..];
        store := MatchMetaTimestamp(store, ms[i].id, now);
      }
    }

    /**
     * matchEventHandler: `ev` is None for an event the subscription reports
     * as an error, `chain` None when the match read fails; in either case
     * nothing changes. Otherwise the match joins the creations or the
     * updates; once synced both buffers are flushed to the durable store,
     * and after each save its matches are seeded (and auto-updated) or
     * touched, a successful update save also requesting a refresh of this match.
     */
    method MatchEventHandler(ev: Option<MatchEvent>, chain: Option<MatchData>, saveCreates: bool, saveUpdates: bool, now: int)
      requires Valid()
      requires chain.Some? ==> WellFormed(chain.value)
      modifies this`store, this`pendingMatchCreates, this`pendingMatchUpdates, this`dbMatches
      modifies this`matchUpdateSchedule, this`timeouts
      ensures Valid()
      ensures old(Coherent(matchUpdateSchedule, timeouts)) ==> Coherent(matchUpdateSchedule, timeouts)
      ensures ev.None? || chain.None? ==>
        && store == old(store) && dbMatches == old(dbMatches)
        && pendingMatchCreates == old(pendingMatchCreates) && pendingMatchUpdates == old(pendingMatchUpdates)
        && matchUpdateSchedule == old(matchUpdateSchedule) && timeouts == old(timeouts)
      ensures ev.Some? && chain.Some? ==>
        var m := ParseMatch(ev.value.matchId, chain.value);
        var creates := old(pendingMatchCreates) + (if ev.value.kind.MatchCreated? then [m] else []);
        var updates := old(pendingMatchUpdates) + (if ev.value.kind.MatchCreated? then [] else [m]);
        if !finishedSyncing then
          && pendingMatchCreates == creates && pendingMatchUpdates == updates
          && store == old(store) && dbMatches == old(dbMatches)
          && matchUpdateSchedule == old(matchUpdateSchedule) && timeouts == old(timeouts)
        else
          var s1 := if saveCreates then SeedFamilies(old(store), creates, now) else old(store);
          var t1 := old(timeouts) + (if saveCreates then AutoTimers(creates, now) else []);
          && pendingMatchCreates == [] && pendingMatchUpdates == []
          && dbMatches == old(dbMatches) + creates + updates
          && store == (if saveUpdates then TouchMetaAll(s1, updates, now) else s1)
          && (matchUpdateSchedule, timeouts) ==
             (if saveUpdates then Request(old(matchUpdateSchedule), t1, m.id, now + Seconds(5))
              else (old(matchUpdateSchedule), t1))
    {
      if ev.None? || chain.None? {
        return;
      }
      var m := ParseMatch(ev.value.matchId, chain.value);
      if ev.value.kind.MatchCreated? {
        pendingMatchCreates := pendingMatchCreates + [m];
      } else {
        pendingMatchUpdates := pendingMatchUpdates + [m];
      }
      if !finishedSyncing {
        return;
      }
      ghost var creates, updates := pendingMatchCreates, pendingMatchUpdates;
      assert creates == old(pendingMatchCreates) + (if ev.value.kind.MatchCreated? then [m] else []);
      assert updates == old(pendingMatchUpdates) + (if ev.value.kind.MatchCreated? then [] else [m]);
      FlushMatchCreates(saveCreates, now);
      ghost var s1, t1 := store, timeouts;
      FlushMatchUpdates(saveUpdates, m.id, now);
      assert store == (if saveUpdates then TouchMetaAll(s1, updates, now) else s1);
      assert (matchUpdateSchedule, timeouts) ==
        (if saveUpdates then Request(old(matchUpdateSchedule), t1, m.id, now + Seconds(5))
         else (old(matchUpdateSchedule), t1));
    }

    /** The handler's first flush: queue the buffered creations; after the save seed and auto-update each. */
    method FlushMatchCreates(saveOk: bool, now: int)
      requires Valid()
      modifies this`store, this`pendingMatchCreates, this`dbMatches, this`timeouts
      ensures Valid()
      ensures old(Coherent(matchUpdateSchedule, timeouts)) ==> Coherent(matchUpdateSchedule, timeouts)
      ensures pendingMatchCreates == [] && dbMatches == old(dbMatches) + old(pendingMatchCreates)
      ensures store == (if saveOk then SeedFamilies(old(store), old(pendingMatchCreates), now) else old(store))
      ensures timeouts == old(timeouts) + (if saveOk then AutoTimers(old(pendingMatchCreates), now) else [])
    {
      dbMatches := dbMatches + pendingMatchCreates;
      var extra := pendingMatchCreates;
      pendingMatchCreates := [];
      if saveOk {
        SeedMatchFamilies(extra, now);
        AutoUpdateAll(extra, now);
      } else {
        assert timeouts == old(timeouts) + [];
      }
    }

    /**
     * The handler's second flush: queue the buffered updates; after the save
     * touch each one and request a refresh of the event's match.
     */
    method FlushMatchUpdates(saveOk: bool, matchId: nat, now: int)
      requires Valid()
      modifies this`store, this`pendingMatchUpdates, this`dbMatches, this`matchUpdateSchedule, this`timeouts
      ensures Valid()
      ensures old(Coherent(matchUpdateSchedule, timeouts)) ==> Coherent(matchUpdateSchedule, timeouts)
      ensures pendingMatchUpdates == [] && dbMatches == old(dbMatches) + old(pendingMatchUpdates)
      ensures store == (if saveOk then TouchMetaAll(old(store), old(pendingMatchUpdates), now) else old(store))
      ensures (matchUpdateSchedule, timeouts) ==
        (if saveOk then Request(old(matchUpdateSchedule), old(timeouts), matchId, now + Seconds(5))
         else (old(matchUpdateSchedule), old(timeouts)))
    {
      dbMatches := dbMatches + pendingMatchUpdates;
      var extra2 := pendingMatchUpdates;
      pendingMatchUpdates := [];
      if saveOk {
        TouchMeta(extra2, now);
        ScheduleMatchUpdate(matchId, Seconds(5), now);
      }
    }

    /**
     * betPlacedEventHandler: the bet joins the buffer and its block becomes
     * the pending placed block; once synced the buffer is flushed to the
     * durable store, a refresh of the match is requested, and after the save
     * the bet goes through the unforced placed-bet update at its block.
     */
    method BetPlacedEventHandler(ev: Option<BetPlacedEvent>, saveOk: bool, now: int)
      requires Valid()
      modifies this`store, this`pendingBetPlaces, this`pendingLastBetPlacedBlock, this`dbUnpersistedBets
      modifies this`matchUpdateSchedule, this`timeouts
      ensures Valid()
      ensures old(Coherent(matchUpdateSchedule, timeouts)) ==> Coherent(matchUpdateSchedule, timeouts)
      ensures ev.None? ==>
        && store == old(store) && pendingBetPlaces == old(pendingBetPlaces)
        && pendingLastBetPlacedBlock == old(pendingLastBetPlacedBlock) && dbUnpersistedBets == old(dbUnpersistedBets)
        && matchUpdateSchedule == old(matchUpdateSchedule) && timeouts == old(timeouts)
      ensures ev.Some? ==>
        var bet := ParseBetPlacedEvent(ev.value);
        && pendingLastBetPlacedBlock == ev.value.blockNumber
        && if !finishedSyncing then
             && pendingBetPlaces == old(pendingBetPlaces) + [bet]
             && store == old(store) && dbUnpersistedBets == old(dbUnpersistedBets)
             && matchUpdateSchedule == old(matchUpdateSchedule) && timeouts == old(timeouts)
           else
             && pendingBetPlaces == []
             && dbUnpersistedBets == old(dbUnpersistedBets) + old(pendingBetPlaces) + [bet]
             && (matchUpdateSchedule, timeouts) ==
                Request(old(matchUpdateSchedule), old(timeouts), bet.matchId, now + Seconds(3))
             && store == (if saveOk then StoreAfter(old(store), PlacedBetStep(old(store), bet, ev.value.blockNumber, false, now))
                          else old(store))
    {
      if ev.None? {
        return;
      }
      var bet := ParseBetPlacedEvent(ev.value);
      var eventBlock := ev.value.blockNumber;
      pendingBetPlaces := pendingBetPlaces + [bet];
      pendingLastBetPlacedBlock := eventBlock;
      if !finishedSyncing {
        return;
      }
      dbUnpersistedBets := dbUnpersistedBets + pendingBetPlaces;
      pendingBetPlaces := [];
      ScheduleMatchUpdate(bet.matchId, Seconds(3), now);
      if saveOk {
        var _ := SetPlacedBetRedisKeys(bet, eventBlock, false, now);
      }
    }

    /**
     * betCancelledEventHandler: as the placed handler, for the pair
     * (match id, bet id), with a five-second refresh and the unforced
     * cancelled update at the event's block.
     */
    method BetCancelledEventHandler(ev: Option<BetRefEvent>, saveOk: bool, now: int)
      requires Valid()
      modifies this`store, this`pendingBetCancels, this`pendingLastBetCancelledBlock, this`dbCancelledBets
      modifies this`matchUpdateSchedule, this`timeouts
      ensures Valid()
      ensures old(Coherent(matchUpdateSchedule, timeouts)) ==> Coherent(matchUpdateSchedule, timeouts)
      ensures ev.None? ==>
        && store == old(store) && pendingBetCancels == old(pendingBetCancels)
        && pendingLastBetCancelledBlock == old(pendingLastBetCancelledBlock) && dbCancelledBets == old(dbCancelledBets)
        && matchUpdateSchedule == old(matchUpdateSchedule) && timeouts == old(timeouts)
      ensures ev.Some? ==>
        var e := ev.value;
        && pendingLastBetCancelledBlock == e.blockNumber
        && if !finishedSyncing then
             && pendingBetCancels == old(pendingBetCancels) + [RefOf(e)]
             && store == old(store) && dbCancelledBets == old(dbCancelledBets)
             && matchUpdateSchedule == old(matchUpdateSchedule) && timeouts == old(timeouts)
           else
             && pendingBetCancels == []
             && dbCancelledBets == old(dbCancelledBets) + old(pendingBetCancels) + [RefOf(e)]
             && (matchUpdateSchedule, timeouts) ==
                Request(old(matchUpdateSchedule), old(timeouts), e.matchId, now + Seconds(5))
             && store == (if saveOk then StoreAfter(old(store), MarkBetStep(old(store), Cancelled, e.matchId, e.blockNumber, false, now))
                          else old(store))
    {
      if ev.None? {
        return;
      }
      var bet := RefOf(ev.value);
      var eventBlock := ev.value.blockNumber;
      pendingBetCancels := pendingBetCancels + [bet];
      pendingLastBetCancelledBlock := eventBlock;
      if !finishedSyncing {
        return;
      }
      dbCancelledBets := dbCancelledBets + pendingBetCancels;
      pendingBetCancels := [];
      ScheduleMatchUpdate(bet.matchId, Seconds(5), now);
      if saveOk {
        var _ := SetMarkedBetRedisKeys(Cancelled, bet.matchId, eventBlock, false, now);
      }
    }

    /** betClaimedEventHandler: the cancelled handler's twin on the claim buffer and the claimed watermark. */
    method BetClaimedEventHandler(ev: Option<BetRefEvent>, saveOk: bool, now: int)
      requires Valid()
      modifies this`store, this`pendingBetClaims, this`pendingLastBetClaimedBlock, this`dbClaimedBets
      modifies this`matchUpdateSchedule, this`timeouts
      ensures Valid()
      ensures old(Coherent(matchUpdateSchedule, timeouts)) ==> Coherent(matchUpdateSchedule, timeouts)
      ensures ev.None? ==>
        && store == old(store) && pendingBetClaims == old(pendingBetClaims)
        && pendingLastBetClaimedBlock == old(pendingLastBetClaimedBlock) && dbClaimedBets == old(dbClaimedBets)
        && matchUpdateSchedule == old(matchUpdateSchedule) && timeouts == old(timeouts)
      ensures ev.Some? ==>
        var e := ev.value;
        && pendingLastBetClaimedBlock == e.blockNumber
        && if !finishedSyncing then
             && pendingBetClaims == old(pendingBetClaims) + [RefOf(e)]
             && store == old(store) && dbClaimedBets == old(dbClaimedBets)
             && matchUpdateSchedule == old(matchUpdateSchedule) && timeouts == old(timeouts)
           else
             && pendingBetClaims == []
             && dbClaimedBets == old(dbClaimedBets) + old(pendingBetClaims) + [RefOf(e)]
             && (matchUpdateSchedule, timeouts) ==
                Request(old(matchUpdateSchedule), old(timeouts), e.matchId, now + Seconds(5))
             && store == (if saveOk then StoreAfter(old(store), MarkBetStep(old(store), Claimed, e.matchId, e.blockNumber, false, now))
                          else old(store))
    {
      if ev.None? {
        return;
      }
      var bet := RefOf(ev.value);
      var eventBlock := ev.value.blockNumber;
      pendingBetClaims := pendingBetClaims + [bet];
      pendingLastBetClaimedBlock := eventBlock;
      if !finishedSyncing {
        return;
      }
      dbClaimedBets := dbClaimedBets + pendingBetClaims;
      pendingBetClaims := [];
      ScheduleMatchUpdate(bet.matchId, Seconds(5), now);
      if saveOk {
        var _ := SetMarkedBetRedisKeys(Claimed, bet.matchId, eventBlock, false, now);
      }
    }

    /** seedBets' placed replay: one unforced update per event, at the event's block. */
    method ReplayPlacedEvents(evs: seq<BetPlacedEvent>, now: int)
      modifies this`store
      ensures store == ReplaySeeded(old(store), evs, now)
    {
      for i := 0 to |evs|
        invariant ReplaySeeded(store, evs[i..], now) == ReplaySeeded(old(store), evs, now)
      {
        assert evs[i..][1..] == evs[i + 1..];
        var _ := SetPlacedBetRedisKeys(ParseBetPlacedEvent(evs[i]), evs[i].blockNumber, false, now);
      }
    }

    /** seedBets' cancelled or claimed replay: one unforced update per event, at the event's block. */
    method ReplayMarkedEvents(stream: BetStream, evs: seq<BetRefEvent>, now: int)
      requires !stream.Placed?
      modifies this`store
      ensures store == ReplayMarked(old(store), stream, evs, now)
    {
      for i := 0 to |evs|
        invariant ReplayMarked(store, stream, evs[i..], now) == ReplayMarked(old(store), stream, evs, now)
      {
        assert evs[i..][1..] == evs[i + 1..];
        var _ := SetMarkedBetRedisKeys(stream, evs[i].matchId, evs[i].blockNumber, false, now);
      }
    }

    /**
     * seedBets: the three logs are what the chain returns from each
     * stream's watermark (None when a fetch throws); the saves are the
     * durable store's answers, one per stream.
     */
    method SeedBets(placedLog: Option<seq<BetPlacedEvent>>, cancelLog: Option<seq<BetRefEvent>>,
                    claimLog: Option<seq<BetRefEvent>>, savePlaced: bool, saveCancels: bool, saveClaims: bool, now: int)
      returns (ok: bool)
      modifies this`store, this`dbUnpersistedBets, this`dbCancelledBets, this`dbClaimedBets
      ensures var r := SeedBetsSpec(old(store), placedLog, cancelLog, claimLog, savePlaced, saveCancels, saveClaims, now);
        && ok == r.ok && store == r.store
        && dbUnpersistedBets == old(dbUnpersistedBets) + r.placed
        && dbCancelledBets == old(dbCancelledBets) + r.cancels
        && dbClaimedBets == old(dbClaimedBets) + r.claims
    {
      var lastBetBlock := ReadWatermark(store, LastBetPlacedBlock);
      if lastBetBlock.Unreadable? {
        return false;
      }
      var lastCancelBlock := ReadWatermark(store, LastBetCancelledBlock);
      if lastCancelBlock.Unreadable? {
        return false;
      }
      var lastClaimBlock := ReadWatermark(store, LastBetClaimedBlock);
      if lastClaimBlock.Unreadable? {
        return false;
      }
      if placedLog.None? || cancelLog.None? || claimLog.None? {
        return false;
      }
      var placedOk := SeedPlacedStream(placedLog.value, lastBetBlock, savePlaced, now);
      if !placedOk {
        return false;
      }
      var cancelsOk, cancelled := SeedMarkedStream(Cancelled, cancelLog.value, lastCancelBlock, saveCancels, now);
      dbCancelledBets := dbCancelledBets + cancelled;
      if !cancelsOk {
        return false;
      }
      var claimsOk, claimed := SeedMarkedStream(Claimed, claimLog.value, lastClaimBlock, saveClaims, now);
      dbClaimedBets := dbClaimedBets + claimed;
      ok := claimsOk;
    }

    /**
     * seedBets on the placed stream: when the log's last event lies above
     * the watermark, queue the events above it, save, and replay them.
     */
    method SeedPlacedStream(log: seq<BetPlacedEvent>, w: Watermark, saveOk: bool, now: int) returns (ok: bool)
      modifies this`store, this`dbUnpersistedBets
      ensures var ep := ChosenPlaced(log, w);
        && ok == (ep == [] || saveOk)
        && dbUnpersistedBets == old(dbUnpersistedBets) + ParseAll(ep)
        && store == (if ok then ReplaySeeded(old(store), ep, now) else old(store))
    {
      if |log| > 0 && w.At? && log[|log| - 1].blockNumber > w.block {
        var evs := AbovePlaced(log, w.block);
        dbUnpersistedBets := dbUnpersistedBets + ParseAll(evs);
        if !saveOk {
          return false;
        }
        ReplayPlacedEvents(evs, now);
      } else {
        assert ParseAll([]) == [];
      }
      ok := true;
    }

    /**
     * seedBets on the cancelled or the claimed stream: the same, returning
     * the (match id, bet id) pairs it hands to the durable store.
     */
    method SeedMarkedStream(stream: BetStream, log: seq<BetRefEvent>, w: Watermark, saveOk: bool, now: int)
      returns (ok: bool, queued: seq<BetRef>)
      requires !stream.Placed?
      modifies this`store
      ensures var ev := ChosenRefs(log, w);
        && queued == RefsOf(ev)
        && ok == (ev == [] || saveOk)
        && store == (if ok then ReplayMarked(old(store), stream, ev, now) else old(store))
    {
      queued := [];
      if |log| > 0 && w.At? && log[|log| - 1].blockNumber > w.block {
        var evs := AboveRefs(log, w.block);
        queued := RefsOf(evs);
        if !saveOk {
          return false, queued;
        }
        ReplayMarkedEvents(stream, evs, now);
      } else {
        assert RefsOf([]) == [];
      }
      ok := true;
    }

    /** finishedSyncingHandler's bet replay: every buffered bet forced through at one block; false when one failed. */
    method ReplayBufferedBets(bets: seq<Bet>, block: int, now: int) returns (allOk: bool)
      modifies this`store
      ensures (store, allOk) == ReplayForced(old(store), bets, block, now)
    {
      allOk := true;
      for i := 0 to |bets|
        invariant ReplayForced(store, bets[i..], block, now).0 == ReplayForced(old(store), bets, block, now).0
        invariant (allOk && ReplayForced(store, bets[i..], block, now).1) == ReplayForced(old(store), bets, block, now).1
      {
        assert bets[i..][1..] == bets[i + 1..];
        var o := SetPlacedBetRedisKeys(bets[i], block, true, now);
        allOk := allOk && !o.Failed?;
      }
    }

    /**
     * finishedSyncingHandler: the phase flag is set, then each buffer in
     * turn is flushed and applied behind its save (save1 to save5); the
     * first failure stops it, and `ok` tells whether all five went through.
     * `st` is the part of the state the handler works on, as it is at the call.
     */
    method FinishedSyncingHandler(ghost st: SyncState, save1: bool, save2: bool, save3: bool, save4: bool, save5: bool, now: int)
      returns (ok: bool)
      requires Valid() && ViewIs(st)
      modifies this`finishedSyncing, this`store, this`timeouts
      modifies this`pendingMatchCreates, this`pendingMatchUpdates, this`pendingBetPlaces, this`pendingBetCancels, this`pendingBetClaims
      modifies this`dbMatches, this`dbUnpersistedBets, this`dbCancelledBets, this`dbClaimedBets
      ensures finishedSyncing && Valid()
      ensures old(Coherent(matchUpdateSchedule, timeouts)) ==> Coherent(matchUpdateSchedule, timeouts)
      ensures var r := SyncSpec(st, save1, save2, save3, save4, save5, now);
        (ok <==> r.reached == 5) && ViewIs(r.st)
    {
      finishedSyncing := true;
      ghost var r1 := FlushCreates(st, save1, now);
      var ok1 := FlushCreatesOnSync(st, save1, now);
      ghost var ts1, sched1 := timeouts, matchUpdateSchedule;
      ghost var r2 := FlushUpdates(r1.st, ok1, save2, now);
      var ok2 := FlushUpdatesOnSync(r1.st, ok1, save2, now);
      ghost var r3 := FlushBets(r2.st, ok2, save3, now);
      var ok3 := FlushBetsOnSync(r2.st, ok2, save3, now);
      ghost var r4 := FlushCancels(r3.st, ok3, save4);
      var ok4 := FlushCancelsOnSync(r3.st, ok3, save4);
      ok := FlushClaimsOnSync(r4.st, ok4, save5);
      assert timeouts == ts1 && matchUpdateSchedule == sched1;
    }

    /** finishedSyncingHandler's first step: the buffered creations. */
    method FlushCreatesOnSync(ghost st: SyncState, saveOk: bool, now: int) returns (ok: bool)
      requires Valid() && ViewIs(st)
      modifies this`store, this`timeouts, this`pendingMatchCreates, this`dbMatches
      ensures Valid()
      ensures old(Coherent(matchUpdateSchedule, timeouts)) ==> Coherent(matchUpdateSchedule, timeouts)
      ensures var r := FlushCreates(st, saveOk, now); ok == r.ok && ViewIs(r.st)
    {
      dbMatches := dbMatches + pendingMatchCreates;
      var extra := pendingMatchCreates;
      pendingMatchCreates := [];
      if !saveOk {
        assert ViewIs(FlushCreates(st, saveOk, now).st);
        return false;
      }
      SaveCreates(extra, now);
      ok := true;
    }

    /** What follows a successful save of buffered creations: seed each family, then arm its auto-update. */
    method SaveCreates(ms: seq<Match>, now: int)
      requires Valid()
      modifies this`store, this`timeouts
      ensures Valid()
      ensures old(Coherent(matchUpdateSchedule, timeouts)) ==> Coherent(matchUpdateSchedule, timeouts)
      ensures store == SeedFamilies(old(store), ms, now) && timeouts == old(timeouts) + IdTimers(ms, now)
    {
      SeedMatchFamilies(ms, now);
      AutoUpdateAllOfId(ms, now);
    }

    /** finishedSyncingHandler's second step: the buffered updates. */
    method FlushUpdatesOnSync(ghost st: SyncState, previousOk: bool, saveOk: bool, now: int) returns (ok: bool)
      requires ViewIs(st)
      modifies this`store, this`pendingMatchUpdates, this`dbMatches
      ensures var r := FlushUpdates(st, previousOk, saveOk, now); ok == r.ok && ViewIs(r.st)
    {
      if !previousOk {
        return false;
      }
      dbMatches := dbMatches + pendingMatchUpdates;
      var extra := pendingMatchUpdates;
      pendingMatchUpdates := [];
      if !saveOk {
        return false;
      }
      TouchMeta(extra, now);
      ok := true;
    }

    /** finishedSyncingHandler's third step: the buffered bets, forced through at the last buffered placed block. */
    method FlushBetsOnSync(ghost st: SyncState, previousOk: bool, saveOk: bool, now: int) returns (ok: bool)
      requires ViewIs(st)
      modifies this`store, this`pendingBetPlaces, this`dbUnpersistedBets
      ensures var r := FlushBets(st, previousOk, saveOk, now); ok == r.ok && ViewIs(r.st)
    {
      if !previousOk {
        return false;
      }
      dbUnpersistedBets := dbUnpersistedBets + pendingBetPlaces;
      if !saveOk {
        return false;
      }
      ghost var replayed := ReplayForced(store, pendingBetPlaces, pendingLastBetPlacedBlock, now);
      ok := ReplayBufferedBets(pendingBetPlaces, pendingLastBetPlacedBlock, now);
      assert store == replayed.0 && ok == replayed.1;
      if ok {
        pendingBetPlaces := [];
      }
    }

    /** finishedSyncingHandler's fourth step: the buffered cancellations; the watermark comes from the placed block. */
    method FlushCancelsOnSync(ghost st: SyncState, previousOk: bool, saveOk: bool) returns (ok: bool)
      requires ViewIs(st)
      modifies this`store, this`pendingBetCancels, this`dbCancelledBets
      ensures var r := FlushCancels(st, previousOk, saveOk); ok == r.ok && ViewIs(r.st)
    {
      if !previousOk {
        return false;
      }
      dbCancelledBets := dbCancelledBets + pendingBetCancels;
      if !saveOk {
        return false;
      }
      store := store[LastBetCancelledBlock := Int(pendingLastBetPlacedBlock)];
      pendingBetCancels := [];
      ok := true;
    }

    /** finishedSyncingHandler's last step: the buffered claims. */
    method FlushClaimsOnSync(ghost st: SyncState, previousOk: bool, saveOk: bool) returns (ok: bool)
      requires ViewIs(st)
      modifies this`store, this`pendingBetClaims, this`dbClaimedBets
      ensures var r := FlushClaims(st, previousOk, saveOk); ok == r.ok && ViewIs(r.st)
    {
      if !previousOk {
        return false;
      }
      dbClaimedBets := dbClaimedBets + pendingBetClaims;
      if !saveOk {
        return false;
      }
      store := store[LastBetClaimedBlock := Int(pendingLastBetClaimedBlock)];
      pendingBetClaims := [];
      ok := true;
    }

    /**
     * seedMatches: `details` is the contract's answer for match ids 0 to
     * n-1, None when the count or any read throws. The matches are queued
     * and saved, then each family is seeded and each match auto-updated.
     */
    method SeedMatches(details: Option<seq<MatchData>>, saveOk: bool, now: int) returns (ok: bool)
      requires Valid()
      requires details.Some? ==> forall i :: 0 <= i < |details.value| ==> WellFormed(details.value[i])
      modifies this`store, this`dbMatches, this`timeouts
      ensures Valid()
      ensures old(Coherent(matchUpdateSchedule, timeouts)) ==> Coherent(matchUpdateSchedule, timeouts)
      ensures ok <==> details.Some? && saveOk
      ensures dbMatches == old(dbMatches) + (if details.Some? then ParseMatches(details.value) else [])
      ensures store == (if ok then SeedFamilies(old(store), ParseMatches(details.value), now) else old(store))
      ensures timeouts == old(timeouts) + (if ok then AutoTimers(ParseMatches(details.value), now) else [])
    {
      if details.None? {
        return false;
      }
      var matches := ParseMatches(details.value);
      dbMatches := dbMatches + matches;
      if !saveOk {
        return false;
      }
      SeedMatchFamilies(matches, now);
      AutoUpdateAll(matches, now);
      ok := true;
    }

    /**
     * seedAll, the reconnect handler: clear every timer, then seed the
     * matches and, if that went through, the bets; a failure is swallowed.
     */
    method SeedAllAfterReconnect(details: Option<seq<MatchData>>, saveMatchesOk: bool,
                                 placedLog: Option<seq<BetPlacedEvent>>, cancelLog: Option<seq<BetRefEvent>>,
                                 claimLog: Option<seq<BetRefEvent>>, savePlaced: bool, saveCancels: bool,
                                 saveClaims: bool, now: int)
      requires Valid()
      requires details.Some? ==> forall i :: 0 <= i < |details.value| ==> WellFormed(details.value[i])
      modifies this`store, this`dbMatches, this`timeouts, this`dbUnpersistedBets, this`dbCancelledBets, this`dbClaimedBets
      ensures Valid()
      ensures matchUpdateSchedule == {} ==> Coherent(matchUpdateSchedule, timeouts)
      ensures var seeded := details.Some? && saveMatchesOk;
        && timeouts == (if seeded then AutoTimers(ParseMatches(details.value), now) else [])
        && dbMatches == old(dbMatches) + (if details.Some? then ParseMatches(details.value) else [])
        && if !seeded then
             && store == old(store) && dbUnpersistedBets == old(dbUnpersistedBets)
             && dbCancelledBets == old(dbCancelledBets) && dbClaimedBets == old(dbClaimedBets)
           else
             var r := SeedBetsSpec(SeedFamilies(old(store), ParseMatches(details.value), now),
                                   placedLog, cancelLog, claimLog, savePlaced, saveCancels, saveClaims, now);
             && store == r.store
             && dbUnpersistedBets == old(dbUnpersistedBets) + r.placed
             && dbCancelledBets == old(dbCancelledBets) + r.cancels
             && dbClaimedBets == old(dbClaimedBets) + r.claims
    {
      CancelAllLaters();
      var ok := SeedMatches(details, saveMatchesOk, now);
      if ok {
        ok := SeedBets(placedLog, cancelLog, claimLog, savePlaced, saveCancels, saveClaims, now);
      }
    }
  }
}
