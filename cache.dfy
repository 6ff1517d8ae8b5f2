/**
 * What each of the observer's cache writes does to the store, as functions
 * of the store before it (src/observer.js): seeding the defaults, the three
 * watermark-guarded bet updates, a match's key family and its timestamps.
 */
module Cache {
  import opened Wrappers
  import opened Text
  import opened Keys
  import opened Store
  import opened Records

  // ----- Transactions whose commands touch pairwise different keys -----

  predicate DistinctKeys(cmds: seq<Command>)
  {
    forall i, j :: 0 <= i < j < |cmds| ==> cmds[i].key != cmds[j].key
  }

  /** The value a command leaves at its key, computed from the store before it. */
  function NewValue(s: Store, c: Command): Value
  {
    match c
    case Set(_, v) => v
    case Incr(k) => Int(CounterOf(s, k) + 1)
    case IncrBy(k, d) => Int(CounterOf(s, k) + d)
    case SAdd(k, m) => Members(MembersOf(s, k) + {m})
  }

  /**
   * When no two commands share a key, a transaction succeeds exactly when no
   * command fails on the store it starts from, and each key ends up with the
   * value its command computes from that store.
   */
  lemma {:induction false} DistinctTransaction(s: Store, cmds: seq<Command>)
    requires DistinctKeys(cmds)
    ensures Transaction(s, cmds).Some? <==> forall i :: 0 <= i < |cmds| ==> !Fails(s, cmds[i])
    ensures Transaction(s, cmds).Some? ==>
      forall i :: 0 <= i < |cmds| ==> Transaction(s, cmds).value[cmds[i].key] == NewValue(s, cmds[i])
    decreases |cmds|
  {
    if cmds != [] {
      var c := cmds[0];
      var rest := cmds[1..];
      assert DistinctKeys(rest) by {
        forall i, j | 0 <= i < j < |rest| ensures rest[i].key != rest[j].key {
          assert rest[i] == cmds[i + 1] && rest[j] == cmds[j + 1];
        }
      }
      forall i | 0 <= i < |rest| ensures rest[i].key != c.key {
        assert rest[i] == cmds[i + 1];
      }
      if Fails(s, c) {
        assert Transaction(s, cmds).None?;
      } else {
        var s1 := Exec(s, c).value;
        assert s1 == s[c.key := NewValue(s, c)];
        forall i | 0 <= i < |rest|
          ensures Fails(s1, rest[i]) == Fails(s, rest[i]) && NewValue(s1, rest[i]) == NewValue(s, rest[i])
        {
        }
        DistinctTransaction(s1, rest);
        assert Transaction(s, cmds) == Transaction(s1, rest);
        assert (forall i :: 0 <= i < |cmds| ==> !Fails(s, cmds[i])) <==>
               (forall i :: 0 <= i < |rest| ==> !Fails(s, rest[i])) by {
          forall i | 0 <= i < |cmds| && i > 0 ensures cmds[i] == rest[i - 1] { }
        }
        if Transaction(s1, rest).Some? {
          var r := Transaction(s1, rest).value;
          assert c.key !in KeysOf(rest);
          assert r[c.key] == NewValue(s, c);
          forall i | 0 <= i < |cmds| ensures r[cmds[i].key] == NewValue(s, cmds[i]) {
            if i > 0 { assert cmds[i] == rest[i - 1]; }
          }
        }
      }
    }
  }

  // ----- seedRedisKeys -----

  /** REDIS_KEY_DEFAULTS: the three watermarks start at the configured block height, the counters at 0. */
  function Defaults(startBlockHeight: int): seq<(Key, Value)>
  {
    [(LastBetPlacedBlock, Int(startBlockHeight)), (LastBetCancelledBlock, Int(startBlockHeight)),
     (LastBetClaimedBlock, Int(startBlockHeight)), (ContractTotalBet, Int(0)),
     (ContractTotalWon, Int(0)), (ContractNumBets, Int(0))]
  }

  /** One iteration of seedRedisKeys: write the default only if the key does not exist. */
  function SeedKey(s: Store, key: Key, v: Value): Store
  {
    if Exists(s, key) then s else s[key := v]
  }

  function DefaultKeys(defs: seq<(Key, Value)>): set<Key>
  {
    set i | 0 <= i < |defs| :: defs[i].0
  }

  /** seedRedisKeys over a list of defaults, in order. */
  function SeedDefaults(s: Store, defs: seq<(Key, Value)>): (r: Store)
    ensures r.Keys == s.Keys + DefaultKeys(defs)
    ensures forall k :: k in s && k !in DefaultKeys(defs) ==> r[k] == s[k]
    decreases |defs|
  {
    if defs == [] then s
    else
      assert DefaultKeys(defs) == {defs[0].0} + DefaultKeys(defs[1..]) by {
        forall k | k in DefaultKeys(defs[1..]) ensures k in DefaultKeys(defs) {
          var i :| 0 <= i < |defs[1..]| && defs[1..][i].0 == k;
          assert defs[i + 1].0 == k;
        }
        forall k | k in DefaultKeys(defs) ensures k in {defs[0].0} + DefaultKeys(defs[1..]) {
          var i :| 0 <= i < |defs| && defs[i].0 == k;
          if i > 0 { assert defs[1..][i - 1].0 == k; }
        }
      }
      SeedDefaults(SeedKey(s, defs[0].0, defs[0].1), defs[1..])
  }

  predicate NoSetDefaults(defs: seq<(Key, Value)>)
  {
    forall i :: 0 <= i < |defs| ==> !defs[i].1.Members?
  }

  /** A value that exists is never overwritten by seeding. */
  lemma {:induction false} SeedKeepsExisting(s: Store, defs: seq<(Key, Value)>, k: Key)
    requires Exists(s, k)
    ensures k in SeedDefaults(s, defs) && SeedDefaults(s, defs)[k] == s[k]
    decreases |defs|
  {
    if defs != [] {
      SeedKeepsExisting(SeedKey(s, defs[0].0, defs[0].1), defs[1..], k);
    }
  }

  /** After seeding, every default key exists. */
  lemma {:induction false} SeedMakesAllExist(s: Store, defs: seq<(Key, Value)>)
    requires NoSetDefaults(defs)
    ensures forall i :: 0 <= i < |defs| ==> Exists(SeedDefaults(s, defs), defs[i].0)
    decreases |defs|
  {
    if defs != [] {
      var s1 := SeedKey(s, defs[0].0, defs[0].1);
      assert NoSetDefaults(defs[1..]) by {
        forall i | 0 <= i < |defs[1..]| ensures !defs[1..][i].1.Members? { assert defs[1..][i] == defs[i + 1]; }
      }
      SeedMakesAllExist(s1, defs[1..]);
      SeedKeepsExisting(s1, defs[1..], defs[0].0);
      forall i | 0 <= i < |defs| ensures Exists(SeedDefaults(s, defs), defs[i].0) {
        if i > 0 { assert defs[i] == defs[1..][i - 1]; }
      }
    }
  }

  /** A key that is missing gets its default (the first one listed for it). */
  lemma {:induction false} SeedFillsMissing(s: Store, defs: seq<(Key, Value)>, i: nat)
    requires i < |defs| && !Exists(s, defs[i].0)
    requires forall j :: 0 <= j < i ==> defs[j].0 != defs[i].0
    requires NoSetDefaults(defs)
    ensures defs[i].0 in SeedDefaults(s, defs) && SeedDefaults(s, defs)[defs[i].0] == defs[i].1
    decreases |defs|
  {
    var s1 := SeedKey(s, defs[0].0, defs[0].1);
    if i == 0 {
      assert Exists(s1, defs[0].0);
      SeedKeepsExisting(s1, defs[1..], defs[0].0);
    } else {
      assert defs[1..][i - 1] == defs[i];
      assert !Exists(s1, defs[i].0);
      assert NoSetDefaults(defs[1..]) by {
        forall j | 0 <= j < |defs[1..]| ensures !defs[1..][j].1.Members? { assert defs[1..][j] == defs[j + 1]; }
      }
      forall j | 0 <= j < i - 1 ensures defs[1..][j].0 != defs[i].0 {
        assert defs[1..][j] == defs[j + 1];
      }
      SeedFillsMissing(s1, defs[1..], i - 1);
    }
  }

  /** Seeding is idempotent: seeding a seeded store changes nothing. */
  lemma {:induction false} SeedIdempotent(s: Store, defs: seq<(Key, Value)>)
    requires NoSetDefaults(defs)
    ensures SeedDefaults(SeedDefaults(s, defs), defs) == SeedDefaults(s, defs)
  {
    SeedMakesAllExist(s, defs);
    SeedOfExisting(SeedDefaults(s, defs), defs);
  }

  lemma {:induction false} SeedOfExisting(s: Store, defs: seq<(Key, Value)>)
    requires forall i :: 0 <= i < |defs| ==> Exists(s, defs[i].0)
    ensures SeedDefaults(s, defs) == s
    decreases |defs|
  {
    if defs != [] {
      assert SeedKey(s, defs[0].0, defs[0].1) == s;
      forall i | 0 <= i < |defs[1..]| ensures Exists(s, defs[1..][i].0) { assert defs[1..][i] == defs[i + 1]; }
      SeedOfExisting(s, defs[1..]);
    }
  }

  lemma DefaultsKeySet(startBlockHeight: int)
    ensures DefaultKeys(Defaults(startBlockHeight)) == set k | k in GlobalKeys
  {
    var defs := Defaults(startBlockHeight);
    assert defs[0].0 in DefaultKeys(defs) && defs[1].0 in DefaultKeys(defs) && defs[2].0 in DefaultKeys(defs);
    assert defs[3].0 in DefaultKeys(defs) && defs[4].0 in DefaultKeys(defs) && defs[5].0 in DefaultKeys(defs);
    forall k | k in DefaultKeys(defs) ensures k in GlobalKeys {
      var i :| 0 <= i < 6 && defs[i].0 == k;
      assert i == 0 || i == 1 || i == 2 || i == 3 || i == 4 || i == 5;
    }
  }

  /**
   * On a cache where none of the global keys exists (an empty one, say),
   * seeding gives the three watermarks the start height and the counters 0.
   */
  lemma SeedFreshCache(s: Store, startBlockHeight: int, r: Store)
    requires forall k :: k in GlobalKeys ==> !Exists(s, k)
    requires r == SeedDefaults(s, Defaults(startBlockHeight))
    ensures ReadWatermark(r, LastBetPlacedBlock) == At(startBlockHeight)
    ensures ReadWatermark(r, LastBetCancelledBlock) == At(startBlockHeight)
    ensures ReadWatermark(r, LastBetClaimedBlock) == At(startBlockHeight)
    ensures ContractTotalBet in r && r[ContractTotalBet] == Int(0)
    ensures ContractTotalWon in r && r[ContractTotalWon] == Int(0)
    ensures ContractNumBets in r && r[ContractNumBets] == Int(0)
  {
    SeedFreshKey(s, startBlockHeight, 0);
    SeedFreshKey(s, startBlockHeight, 1);
    SeedFreshKey(s, startBlockHeight, 2);
    SeedFreshKey(s, startBlockHeight, 3);
    SeedFreshKey(s, startBlockHeight, 4);
    SeedFreshKey(s, startBlockHeight, 5);
  }

  lemma SeedFreshKey(s: Store, startBlockHeight: int, i: nat)
    requires i < 6 && forall k :: k in GlobalKeys ==> !Exists(s, k)
    ensures var defs := Defaults(startBlockHeight);
      defs[i].0 in SeedDefaults(s, defs) && SeedDefaults(s, defs)[defs[i].0] == defs[i].1
  {
    var defs := Defaults(startBlockHeight);
    assert defs[i].0 == GlobalKeys[i];
    assert NoSetDefaults(defs);
    SeedFillsMissing(s, defs, i);
  }

  // ----- The watermark guard -----

  datatype BetStream = Placed | Cancelled | Claimed

  function WatermarkKey(stream: BetStream): Key
  {
    match stream
    case Placed => LastBetPlacedBlock
    case Cancelled => LastBetCancelledBlock
    case Claimed => LastBetClaimedBlock
  }

  /** `block < parseInt(watermark) && !force`: only a number strictly above the event's block skips it. */
  predicate Skips(block: int, w: Watermark, force: bool)
  {
    !force && w.At? && block < w.block
  }

  /** What one guarded update did: skipped, threw (nothing written), or wrote the new store. */
  datatype Outcome = Skipped | Failed | Applied(after: Store)

  function StoreAfter(s: Store, o: Outcome): Store
  {
    if o.Applied? then o.after else s
  }

  /** The transaction setPlacedBetRedisKeys issues. */
  function PlacedBetCommands(bet: Bet, block: int, now: int): seq<Command>
  {
    var user := UserKeys(ToLower(bet.address));
    [Set(LastBetPlacedBlock, Int(block)),
     Incr(ContractNumBets),
     IncrBy(ContractTotalBet, bet.amount),
     IncrBy(user[0], bet.amount),
     SAdd(user[1], BetMember(bet.matchId, bet.id)),
     Set(MatchKeys(bet.matchId)[LastMatchBetUpdate], Int(now))]
  }

  /** The counters and the set the placed-bet transaction adds to hold the right kinds of value. */
  predicate CanPlace(s: Store, bet: Bet)
  {
    var user := UserKeys(ToLower(bet.address));
    && !Fails(s, Incr(ContractNumBets))
    && !Fails(s, IncrBy(ContractTotalBet, 0))
    && !Fails(s, IncrBy(user[0], 0))
    && !Fails(s, SAdd(user[1], ""))
  }

  /** The six keys the placed-bet transaction writes. */
  function PlacedBetKeys(bet: Bet): set<Key>
  {
    var user := UserKeys(ToLower(bet.address));
    {LastBetPlacedBlock, ContractNumBets, ContractTotalBet, user[0], user[1],
     MatchKeys(bet.matchId)[LastMatchBetUpdate]}
  }

  /** The store after an applied placed-bet update, in terms of the store before it. */
  predicate PlacedBetEffect(s: Store, r: Store, bet: Bet, block: int, now: int)
  {
    var user := UserKeys(ToLower(bet.address));
    && r.Keys == s.Keys + PlacedBetKeys(bet)
    && r[LastBetPlacedBlock] == Int(block)
    && r[ContractNumBets] == Int(CounterOf(s, ContractNumBets) + 1)
    && r[ContractTotalBet] == Int(CounterOf(s, ContractTotalBet) + bet.amount)
    && r[user[0]] == Int(CounterOf(s, user[0]) + bet.amount)
    && r[user[1]] == Members(MembersOf(s, user[1]) + {BetMember(bet.matchId, bet.id)})
    && r[MatchKeys(bet.matchId)[LastMatchBetUpdate]] == Int(now)
    && forall k :: k in s && k !in PlacedBetKeys(bet) ==> r[k] == s[k]
  }

  lemma PlacedBetCommandsDistinct(bet: Bet, block: int, now: int)
    ensures DistinctKeys(PlacedBetCommands(bet, block, now))
    ensures KeysOf(PlacedBetCommands(bet, block, now)) == PlacedBetKeys(bet)
  {
    var a := ToLower(bet.address);
    var cmds := PlacedBetCommands(bet, block, now);
    assert forall i :: 0 <= i < 6 ==> cmds[i].key in PlacedBetKeys(bet);
    assert cmds[0].key in KeysOf(cmds) && cmds[1].key in KeysOf(cmds) && cmds[2].key in KeysOf(cmds);
    assert cmds[3].key in KeysOf(cmds) && cmds[4].key in KeysOf(cmds) && cmds[5].key in KeysOf(cmds);
  }

  /** The placed-bet transaction succeeds exactly when the store admits it, and then has the effect stated above. */
  lemma PlacedBetTransaction(s: Store, bet: Bet, block: int, now: int)
    ensures Transaction(s, PlacedBetCommands(bet, block, now)).Some? <==> CanPlace(s, bet)
    ensures Transaction(s, PlacedBetCommands(bet, block, now)).Some? ==>
      PlacedBetEffect(s, Transaction(s, PlacedBetCommands(bet, block, now)).value, bet, block, now)
  {
    var cmds := PlacedBetCommands(bet, block, now);
    PlacedBetCommandsDistinct(bet, block, now);
    DistinctTransaction(s, cmds);
    CanPlaceCommands(s, bet, block, now);
    if Transaction(s, cmds).Some? {
      PlacedBetValues(s, bet, block, now, Transaction(s, cmds).value);
    }
  }

  /** CanPlace says exactly that none of the placed-bet commands fails. */
  lemma CanPlaceCommands(s: Store, bet: Bet, block: int, now: int)
    ensures var cmds := PlacedBetCommands(bet, block, now);
      CanPlace(s, bet) <==> forall i :: 0 <= i < |cmds| ==> !Fails(s, cmds[i])
  {
    var cmds := PlacedBetCommands(bet, block, now);
    assert !Fails(s, cmds[0]) && !Fails(s, cmds[5]);
    assert CanPlace(s, bet) <==> !Fails(s, cmds[1]) && !Fails(s, cmds[2]) && !Fails(s, cmds[3]) && !Fails(s, cmds[4]);
    assert (forall i :: 0 <= i < |cmds| ==> !Fails(s, cmds[i])) <==>
      !Fails(s, cmds[0]) && !Fails(s, cmds[1]) && !Fails(s, cmds[2]) && !Fails(s, cmds[3]) && !Fails(s, cmds[4]) && !Fails(s, cmds[5]);
  }

  lemma PlacedBetValues(s: Store, bet: Bet, block: int, now: int, r: Store)
    requires DistinctKeys(PlacedBetCommands(bet, block, now))
    requires KeysOf(PlacedBetCommands(bet, block, now)) == PlacedBetKeys(bet)
    requires r.Keys == s.Keys + KeysOf(PlacedBetCommands(bet, block, now))
    requires forall k :: k in s && k !in KeysOf(PlacedBetCommands(bet, block, now)) ==> r[k] == s[k]
    requires var cmds := PlacedBetCommands(bet, block, now);
      forall i :: 0 <= i < |cmds| ==> r[cmds[i].key] == NewValue(s, cmds[i])
    ensures PlacedBetEffect(s, r, bet, block, now)
  {
    var cmds := PlacedBetCommands(bet, block, now);
    assert r[cmds[0].key] == NewValue(s, cmds[0]);
    assert r[cmds[1].key] == NewValue(s, cmds[1]);
    assert r[cmds[2].key] == NewValue(s, cmds[2]);
    assert r[cmds[3].key] == NewValue(s, cmds[3]);
    assert r[cmds[4].key] == NewValue(s, cmds[4]);
    assert r[cmds[5].key] == NewValue(s, cmds[5]);
  }

  /**
   * setPlacedBetRedisKeys. It throws when the watermark cannot be read,
   * skips an event strictly below the stored watermark unless forced, and
   * otherwise writes, in one transaction, the event's block as the
   * watermark, one more bet, the amount on the contract's and the user's
   * totals, the bet in the user's set and the match's lastMatchBetUpdate.
   */
  function PlacedBetStep(s: Store, bet: Bet, block: int, force: bool, now: int): (o: Outcome)
    ensures ReadWatermark(s, LastBetPlacedBlock).Unreadable? ==> o.Failed?
    ensures o.Skipped? <==> !ReadWatermark(s, LastBetPlacedBlock).Unreadable?
                            && Skips(block, ReadWatermark(s, LastBetPlacedBlock), force)
    ensures o.Applied? <==> !ReadWatermark(s, LastBetPlacedBlock).Unreadable?
                            && !Skips(block, ReadWatermark(s, LastBetPlacedBlock), force) && CanPlace(s, bet)
  {
    var w := ReadWatermark(s, LastBetPlacedBlock);
    if w.Unreadable? then Failed
    else if Skips(block, w, force) then Skipped
    else
      PlacedBetTransaction(s, bet, block, now);
      match Transaction(s, PlacedBetCommands(bet, block, now))
      case None => Failed
      case Some(r) => Applied(r)
  }

  /** An applied placed-bet update has the effect PlacedBetEffect states. */
  lemma PlacedBetApplied(s: Store, bet: Bet, block: int, force: bool, now: int)
    ensures var o := PlacedBetStep(s, bet, block, force, now);
      o.Applied? ==> PlacedBetEffect(s, o.after, bet, block, now)
  {
    PlacedBetTransaction(s, bet, block, now);
  }

  /** A key outside the six the transaction names is left as it was by a placed-bet update, whatever it did. */
  lemma PlacedBetKeepsKey(s: Store, bet: Bet, block: int, force: bool, now: int, k: Key)
    requires k !in PlacedBetKeys(bet)
    ensures SameAt(s, StoreAfter(s, PlacedBetStep(s, bet, block, force, now)), k)
  {
    PlacedBetApplied(s, bet, block, force, now);
  }

  /** The contract's counters and every user's total hold numbers, and every user's bet-id key holds a set. */
  predicate CountersTyped(s: Store)
  {
    && !Fails(s, Incr(ContractNumBets))
    && !Fails(s, IncrBy(ContractTotalBet, 0))
    && (forall k :: k in s && k.UserTotalBet? ==> s[k].Int?)
    && (forall k :: k in s && k.UserBetIds? ==> s[k].Members?)
  }

  /**
   * On well-typed counters the placed-bet transaction cannot fail, and an
   * applied update leaves the counters well typed.
   */
  lemma TypedCountersPlace(s: Store, bet: Bet, block: int, force: bool, now: int)
    requires CountersTyped(s)
    ensures CanPlace(s, bet)
    ensures var o := PlacedBetStep(s, bet, block, force, now);
      o.Applied? ==> CountersTyped(o.after)
  {
    var o := PlacedBetStep(s, bet, block, force, now);
    PlacedBetApplied(s, bet, block, force, now);
    if o.Applied? {
      EffectKeepsTyped(s, o.after, bet, block, now);
    }
  }

  /**
   * On well-typed counters an unforced update at or above a numeric
   * watermark is applied: the counters stay well typed, one more bet with
   * its amount, and the watermark at the update's block.
   */
  lemma TypedStepCounts(s: Store, bet: Bet, block: int, now: int)
    requires CountersTyped(s) && ReadWatermark(s, LastBetPlacedBlock).At?
    requires ReadWatermark(s, LastBetPlacedBlock).block <= block
    ensures var o := PlacedBetStep(s, bet, block, false, now);
      && o.Applied? && CountersTyped(o.after)
      && ReadWatermark(o.after, LastBetPlacedBlock) == At(block)
      && CounterOf(o.after, ContractNumBets) == CounterOf(s, ContractNumBets) + 1
      && CounterOf(o.after, ContractTotalBet) == CounterOf(s, ContractTotalBet) + bet.amount
  {
    TypedCountersPlace(s, bet, block, false, now);
    PlacedBetCounts(s, bet, block, false, now);
  }

  lemma EffectKeepsTyped(s: Store, r: Store, bet: Bet, block: int, now: int)
    requires CountersTyped(s) && PlacedBetEffect(s, r, bet, block, now)
    ensures CountersTyped(r)
  {
    var a0 := ToLower(bet.address);
    assert r[ContractNumBets].Int? && r[ContractTotalBet].Int?;
    forall k | k in r && k.UserTotalBet? ensures r[k].Int? {
      if k.address != a0 { assert k !in PlacedBetKeys(bet); } else { assert k == UserKeys(a0)[0]; }
    }
    forall k | k in r && k.UserBetIds? ensures r[k].Members? {
      if k.address != a0 { assert k !in PlacedBetKeys(bet); } else { assert k == UserKeys(a0)[1]; }
    }
  }

  /**
   * The guard is `<`, not `<=`: the same event delivered again at the block
   * the watermark now holds is applied a second time, and counts as a
   * second bet, although the bet-id set does not grow.
   */
  lemma ReplayAtWatermarkCountsTwice(s: Store, bet: Bet, block: int, now: int, later: int)
    requires PlacedBetStep(s, bet, block, false, now).Applied?
    ensures var s1 := PlacedBetStep(s, bet, block, false, now).after;
      && PlacedBetStep(s1, bet, block, false, later).Applied?
      && var s2 := PlacedBetStep(s1, bet, block, false, later).after;
      && CounterOf(s2, ContractNumBets) == CounterOf(s, ContractNumBets) + 2
      && CounterOf(s2, ContractTotalBet) == CounterOf(s, ContractTotalBet) + 2 * bet.amount
      && MembersOf(s2, UserKeys(ToLower(bet.address))[1]) == MembersOf(s1, UserKeys(ToLower(bet.address))[1])
  {
    PlacedBetCounts(s, bet, block, false, now);
    var s1 := PlacedBetStep(s, bet, block, false, now).after;
    PlacedBetCounts(s1, bet, block, false, later);
    var u1, member := UserKeys(ToLower(bet.address))[1], BetMember(bet.matchId, bet.id);
    assert MembersOf(s1, u1) + {member} == MembersOf(s1, u1);
  }

  /**
   * An applied placed-bet update as the counters and the set read it: one
   * more bet, the amount on the contract's total, the bet in the user's set,
   * the watermark at the event's block; the update can be applied again.
   */
  lemma PlacedBetCounts(s: Store, bet: Bet, block: int, force: bool, now: int)
    requires PlacedBetStep(s, bet, block, force, now).Applied?
    ensures var r, u1 := PlacedBetStep(s, bet, block, force, now).after, UserKeys(ToLower(bet.address))[1];
      && CounterOf(r, ContractNumBets) == CounterOf(s, ContractNumBets) + 1
      && CounterOf(r, ContractTotalBet) == CounterOf(s, ContractTotalBet) + bet.amount
      && MembersOf(r, u1) == MembersOf(s, u1) + {BetMember(bet.matchId, bet.id)}
      && ReadWatermark(r, LastBetPlacedBlock) == At(block)
      && CanPlace(r, bet)
  {
    PlacedBetApplied(s, bet, block, force, now);
  }

  /** An event strictly below a numeric watermark, unforced, changes nothing. */
  lemma StalePlacedBetSkipped(s: Store, bet: Bet, block: int, now: int)
    requires LastBetPlacedBlock in s && s[LastBetPlacedBlock].Int? && block < s[LastBetPlacedBlock].n
    ensures StoreAfter(s, PlacedBetStep(s, bet, block, false, now)) == s
  {
  }

  /** Unforced updates never move the placed watermark backwards. */
  lemma PlacedWatermarkMonotone(s: Store, bet: Bet, block: int, now: int)
    requires ReadWatermark(s, LastBetPlacedBlock).At?
    ensures var r := StoreAfter(s, PlacedBetStep(s, bet, block, false, now));
      ReadWatermark(r, LastBetPlacedBlock).At? &&
      ReadWatermark(r, LastBetPlacedBlock).block >= ReadWatermark(s, LastBetPlacedBlock).block
  {
    PlacedBetApplied(s, bet, block, false, now);
  }

  /** The transaction setCancelledBetRedisKeys / setClaimedBetRedisKeys issue. */
  function MarkBetCommands(stream: BetStream, matchId: nat, block: int, now: int): seq<Command>
  {
    [Set(WatermarkKey(stream), Int(block)), Set(MatchKeys(matchId)[LastMatchBetUpdate], Int(now))]
  }

  /** The mark transaction writes the watermark and the match's lastMatchBetUpdate, and nothing else. */
  lemma MarkBetTransaction(s: Store, stream: BetStream, matchId: nat, block: int, now: int)
    ensures Transaction(s, MarkBetCommands(stream, matchId, block, now)).Some?
    ensures var r := Transaction(s, MarkBetCommands(stream, matchId, block, now)).value;
      && r.Keys == s.Keys + {WatermarkKey(stream), MatchKeys(matchId)[LastMatchBetUpdate]}
      && r[WatermarkKey(stream)] == Int(block)
      && r[MatchKeys(matchId)[LastMatchBetUpdate]] == Int(now)
      && forall k :: k in s && k != WatermarkKey(stream) && k != MatchKeys(matchId)[LastMatchBetUpdate] ==> r[k] == s[k]
  {
    var cmds := MarkBetCommands(stream, matchId, block, now);
    var w, t := WatermarkKey(stream), MatchKeys(matchId)[LastMatchBetUpdate];
    var s1 := s[w := Int(block)];
    assert w != t && cmds[1..] == [Set(t, Int(now))];
    assert Exec(s, cmds[0]) == Some(s1);
    assert Transaction(s1, cmds[1..]) == Some(s1[t := Int(now)]) by {
      assert cmds[1..][1..] == [];
    }
    assert Transaction(s, cmds) == Some(s1[t := Int(now)]);
  }

  /**
   * setCancelledBetRedisKeys and setClaimedBetRedisKeys: the same guard on
   * their own watermark; it throws only when the watermark cannot be read.
   */
  function MarkBetStep(s: Store, stream: BetStream, matchId: nat, block: int, force: bool, now: int): (o: Outcome)
    requires !stream.Placed?
    ensures ReadWatermark(s, WatermarkKey(stream)).Unreadable? <==> o.Failed?
    ensures o.Skipped? <==> !o.Failed? && Skips(block, ReadWatermark(s, WatermarkKey(stream)), force)
  {
    var w := ReadWatermark(s, WatermarkKey(stream));
    if w.Unreadable? then Failed
    else if Skips(block, w, force) then Skipped
    else
      MarkBetTransaction(s, stream, matchId, block, now);
      Applied(Transaction(s, MarkBetCommands(stream, matchId, block, now)).value)
  }

  /** When applied, a mark moves only its own watermark and the match's lastMatchBetUpdate, and no counter or total. */
  lemma MarkBetApplied(s: Store, stream: BetStream, matchId: nat, block: int, force: bool, now: int)
    requires !stream.Placed?
    ensures var o := MarkBetStep(s, stream, matchId, block, force, now);
      o.Applied? ==>
      && o.after.Keys == s.Keys + {WatermarkKey(stream), MatchKeys(matchId)[LastMatchBetUpdate]}
      && o.after[WatermarkKey(stream)] == Int(block)
      && o.after[MatchKeys(matchId)[LastMatchBetUpdate]] == Int(now)
      && forall k :: k in s && k != WatermarkKey(stream) && k != MatchKeys(matchId)[LastMatchBetUpdate] ==>
           o.after[k] == s[k]
  {
    MarkBetTransaction(s, stream, matchId, block, now);
  }

  /** Cancelling or claiming a bet reverses nothing: the contract's and every user's totals stay as they were. */
  lemma MarkBetKeepsTotals(s: Store, stream: BetStream, matchId: nat, block: int, force: bool, now: int, address: string)
    requires !stream.Placed?
    ensures var r := StoreAfter(s, MarkBetStep(s, stream, matchId, block, force, now));
      && CounterOf(r, ContractNumBets) == CounterOf(s, ContractNumBets)
      && CounterOf(r, ContractTotalBet) == CounterOf(s, ContractTotalBet)
      && CounterOf(r, UserKeys(address)[0]) == CounterOf(s, UserKeys(address)[0])
      && MembersOf(r, UserKeys(address)[1]) == MembersOf(s, UserKeys(address)[1])
  {
    MarkBetKeepsKey(s, stream, matchId, block, force, now, ContractNumBets);
    MarkBetKeepsKey(s, stream, matchId, block, force, now, ContractTotalBet);
    MarkBetKeepsKey(s, stream, matchId, block, force, now, UserTotalBet(address));
    MarkBetKeepsKey(s, stream, matchId, block, force, now, UserBetIds(address));
  }

  /** A key outside the mark's own watermark and the match families is left as it was by a mark. */
  lemma MarkBetKeepsKey(s: Store, stream: BetStream, matchId: nat, block: int, force: bool, now: int, k: Key)
    requires !stream.Placed? && !k.MatchField? && k != WatermarkKey(stream)
    ensures var r := StoreAfter(s, MarkBetStep(s, stream, matchId, block, force, now));
      (k in r <==> k in s) && (k in s ==> r[k] == s[k])
  {
    MarkBetApplied(s, stream, matchId, block, force, now);
  }

  // ----- A match's key family -----

  predicate DistinctSeq(keys: seq<Key>)
  {
    forall i, j :: 0 <= i < j < |keys| ==> keys[i] != keys[j]
  }

  function SetCommands(keys: seq<Key>, vals: seq<Value>): (cmds: seq<Command>)
    requires |keys| == |vals|
    ensures |cmds| == |keys| && forall i :: 0 <= i < |cmds| ==> cmds[i] == Set(keys[i], vals[i])
  {
    seq(|keys|, i requires 0 <= i < |keys| => Set(keys[i], vals[i]))
  }

  /** A transaction of `set` commands on pairwise different keys: each key gets its value, nothing else changes. */
  function WriteKeys(s: Store, keys: seq<Key>, vals: seq<Value>): (r: Store)
    requires |keys| == |vals| && DistinctSeq(keys)
    ensures forall i :: 0 <= i < |keys| ==> keys[i] in r && r[keys[i]] == vals[i]
    ensures forall k :: k in s && k !in keys ==> k in r && r[k] == s[k]
    ensures r.Keys == s.Keys + (set k | k in keys)
  {
    var cmds := SetCommands(keys, vals);
    DistinctTransaction(s, cmds);
    assert forall k :: k in KeysOf(cmds) ==> k in keys;
    assert KeysOf(cmds) == set k | k in keys by {
      forall i | 0 <= i < |keys| ensures keys[i] in KeysOf(cmds) { assert cmds[i].key == keys[i]; }
    }
    Transaction(s, cmds).value
  }

  lemma FamilyDistinct(matchId: nat, n: nat)
    requires n <= 9
    ensures DistinctSeq(MatchKeys(matchId)[..n])
  {
    assert forall i, j :: 0 <= i < j < n ==> MatchKeys(matchId)[i] != MatchKeys(matchId)[j];
  }

  /** The values seedRedisMatchKeysX writes into keys 0 to 8 of a new match's family. */
  function SeedMatchValues(m: Match, now: int): seq<Value>
  {
    [Str("TIMED"), Str("0-0"), Int(m.numBets), Int(m.totalTeamABets), Int(m.totalTeamBBets),
     Int(m.totalDrawBets), Int(m.numPayoutAttempts), Int(now), Int(now)]
  }

  /**
   * seedRedisMatchKeysX: a new match's status is TIMED, its score 0-0, its
   * aggregates those the contract reports, both timestamps `now`, and only
   * its own nine keys change.
   */
  function SeedMatchKeys(s: Store, m: Match, now: int): (r: Store)
    ensures forall i :: 0 <= i < 9 ==> MatchKeys(m.id)[i] in r && r[MatchKeys(m.id)[i]] == SeedMatchValues(m, now)[i]
    ensures forall k :: k in s && k !in MatchKeys(m.id) ==> k in r && r[k] == s[k]
    ensures r.Keys == s.Keys + (set k | k in MatchKeys(m.id))
  {
    FamilyDistinct(m.id, 9);
    assert MatchKeys(m.id)[..9] == MatchKeys(m.id);
    WriteKeys(s, MatchKeys(m.id), SeedMatchValues(m, now))
  }

  /** The fixture feed's answer: the HTTP call failing, an error body, or a fixture with nullable goal counts. */
  datatype FeedReply = Unreachable | ApiError | Fixture(status: string, goalsHome: Option<nat>, goalsAway: Option<nat>)

  /** The values updateMatchCache writes into keys 0 to 7 of the match's family. */
  function MatchCacheValues(m: Match, status: string, home: Option<nat>, away: Option<nat>, now: int): seq<Value>
  {
    [Str(status), Str(ScoreString(home, away)), Int(m.numBets), Int(m.totalTeamABets),
     Int(m.totalTeamBBets), Int(m.totalDrawBets), Int(m.numPayoutAttempts), Int(now)]
  }

  /**
   * The cache write of updateMatchCache: the feed's status, the score as
   * "home-away" (a goal count the feed leaves null shows as 0), the chain's
   * aggregates and key 7 = now. Key 8 of the match and every key outside
   * the match's family keep their values.
   */
  function WriteMatchCache(s: Store, matchId: nat, m: Match, status: string, home: Option<nat>, away: Option<nat>, now: int): (r: Store)
    ensures forall i :: 0 <= i < 8 ==>
      MatchKeys(matchId)[i] in r && r[MatchKeys(matchId)[i]] == MatchCacheValues(m, status, home, away, now)[i]
    ensures forall k :: k in s && k !in MatchKeys(matchId)[..8] ==> k in r && r[k] == s[k]
    ensures r.Keys == s.Keys + (set k | k in MatchKeys(matchId)[..8])
    ensures MatchKeys(matchId)[LastMatchBetUpdate] in s ==>
      r[MatchKeys(matchId)[LastMatchBetUpdate]] == s[MatchKeys(matchId)[LastMatchBetUpdate]]
  {
    var keys := MatchKeys(matchId)[..8];
    var vals := MatchCacheValues(m, status, home, away, now);
    FamilyDistinct(matchId, 8);
    var r := WriteKeys(s, keys, vals);
    assert forall i :: 0 <= i < 8 ==> keys[i] == MatchKeys(matchId)[i] && r[keys[i]] == vals[i];
    assert MatchKeys(matchId)[LastMatchBetUpdate] !in keys;
    r
  }

  /** The score key updateMatchCache leaves reads back as the two goal counts, a null count as 0. */
  lemma MatchCacheScore(s: Store, matchId: nat, m: Match, status: string, home: Option<nat>, away: Option<nat>, now: int)
    ensures var r := WriteMatchCache(s, matchId, m, status, home, away, now);
      r[MatchKeys(matchId)[Score]].Str? &&
      ParseScore(r[MatchKeys(matchId)[Score]].s) == Some((GoalsOrZero(home), GoalsOrZero(away)))
  {
    ScoreStringRoundTrip(home, away);
  }

  /**
   * updateMatchCache as a value: the match it returns, None when a step
   * threw (chain read, durable save, feed call or feed error), and the cache
   * after it. Nothing is written unless every step before the write went through.
   */
  function Refresh(s: Store, matchId: nat, chain: Option<MatchData>, saveOk: bool, feed: FeedReply, now: int): (r: (Option<Match>, Store))
    requires chain.Some? ==> WellFormed(chain.value)
    ensures r.0.Some? <==> chain.Some? && saveOk && feed.Fixture?
    ensures r.0.Some? ==>
      (r.0.value == ParseMatch(matchId, chain.value) &&
       r.1 == WriteMatchCache(s, matchId, r.0.value, feed.status, feed.goalsHome, feed.goalsAway, now))
    ensures r.0.None? ==> r.1 == s
  {
    if chain.None? || !saveOk || !feed.Fixture? then (None, s)
    else
      var m := ParseMatch(matchId, chain.value);
      (Some(m), WriteMatchCache(s, matchId, m, feed.status, feed.goalsHome, feed.goalsAway, now))
  }

  /** updateMatchMetaTimestamp: as written it sets key 8, lastMatchBetUpdate, and not lastMatchMetaUpdate. */
  function MatchMetaTimestamp(s: Store, matchId: nat, now: int): (r: Store)
    ensures KeyName(MatchKeys(matchId)[8]) == MatchPrefix(matchId) + "lastMatchBetUpdate"
    ensures r == s[MatchKeys(matchId)[LastMatchBetUpdate] := Int(now)]
  {
    s[MatchKeys(matchId)[8] := Int(now)]
  }

  /** updateMatchBettingTimestamp: as written it sets key 7, lastMatchMetaUpdate. */
  function MatchBettingTimestamp(s: Store, matchId: nat, now: int): (r: Store)
    ensures KeyName(MatchKeys(matchId)[7]) == MatchPrefix(matchId) + "lastMatchMetaUpdate"
    ensures r == s[MatchKeys(matchId)[LastMatchMetaUpdate] := Int(now)]
  {
    s[MatchKeys(matchId)[7] := Int(now)]
  }
}
