/**
 * The cache's key naming scheme, the observer's time helpers and the score
 * string written into a match's `score` key (src/observer.js).
 */
module Keys {
  import opened Wrappers
  import opened Text

  /** The index of a field within a match's key family. */
  type FieldIndex = i: nat | i < 9

  /**
   * A key of the cache. The observer writes six global keys, nine keys for
   * each match and two for each user; KeyName renders each as the string
   * the cache stores it under.
   */
  datatype Key =
    | LastBetPlacedBlock | LastBetCancelledBlock | LastBetClaimedBlock
    | ContractTotalBet | ContractTotalWon | ContractNumBets
    | MatchField(matchId: nat, field: FieldIndex)
    | UserTotalBet(address: string)
    | UserBetIds(address: string)

  /** The field names of a match's key family, in the order the key list has them. */
  const MatchFields: seq<string> := ["status", "score", "totalNumBets", "totalTeamA", "totalTeamB",
                                     "totalDraw", "numPayoutAttempts", "lastMatchMetaUpdate", "lastMatchBetUpdate"]

  // Indices into the list of match keys.
  const Status: FieldIndex := 0
  const Score: FieldIndex := 1
  const LastMatchMetaUpdate: FieldIndex := 7
  const LastMatchBetUpdate: FieldIndex := 8

  function MatchPrefix(matchId: nat): string
  {
    "match:" + NatToString(matchId) + ":"
  }

  function UserPrefix(address: string): string
  {
    "user:" + address + ":"
  }

  /** The name of key i of a match's family. */
  function MatchKeyName(matchId: nat, i: FieldIndex): string
  {
    MatchPrefix(matchId) + MatchFields[i]
  }

  /** The string a key is stored under. */
  function KeyName(k: Key): string
  {
    match k
    case LastBetPlacedBlock => "lastBetPlacedBlock"
    case LastBetCancelledBlock => "lastBetCancelledBlock"
    case LastBetClaimedBlock => "lastBetClaimedBlock"
    case ContractTotalBet => "contract:totalBet"
    case ContractTotalWon => "contract:totalWon"
    case ContractNumBets => "contract:numBets"
    case MatchField(matchId, i) => MatchKeyName(matchId, i)
    case UserTotalBet(address) => UserPrefix(address) + "totalBet"
    case UserBetIds(address) => UserPrefix(address) + "betIds"
  }

  /** getRedisMatchKeys. */
  function MatchKeys(matchId: nat): (keys: seq<Key>)
    ensures |keys| == |MatchFields| == 9
    ensures forall i :: 0 <= i < 9 ==> keys[i] == MatchField(matchId, i)
    ensures forall i :: 0 <= i < 9 ==> KeyName(keys[i]) == MatchPrefix(matchId) + MatchFields[i]
  {
    seq(9, i requires 0 <= i < 9 => MatchField(matchId, i))
  }

  /** getRedisUserkeys. */
  function UserKeys(address: string): (keys: seq<Key>)
    ensures |keys| == 2
    ensures KeyName(keys[0]) == UserPrefix(address) + "totalBet" && KeyName(keys[1]) == UserPrefix(address) + "betIds"
  {
    [UserTotalBet(address), UserBetIds(address)]
  }

  /** The member `${match}:${betId}` that names a bet in a user's bet-id set. */
  function BetMember(matchId: nat, betId: nat): string
  {
    NatToString(matchId) + (":" + NatToString(betId))
  }

  /** The global keys a fresh cache is seeded with. */
  const GlobalKeys: seq<Key> := [LastBetPlacedBlock, LastBetCancelledBlock, LastBetClaimedBlock,
                                 ContractTotalBet, ContractTotalWon, ContractNumBets]

  /** Every match key's name starts with `match:`. */
  predicate IsMatchKeyName(name: string)
  {
    |name| >= 6 && name[..6] == "match:"
  }

  /** The id a match key was built from, read back by parsing what follows `match:`. */
  function MatchIdOfKeyName(name: string): Option<nat>
    requires IsMatchKeyName(name)
  {
    ParseInt(name[6..])
  }

  /** A match key's name names its match: the id can be read back from it. */
  lemma MatchKeyNamesItsMatch(matchId: nat, i: FieldIndex)
    ensures IsMatchKeyName(MatchKeyName(matchId, i))
    ensures MatchIdOfKeyName(MatchKeyName(matchId, i)) == Some(matchId)
  {
    MatchKeyNameSplits(matchId, i);
    ParseIntOfNatToStringThen(matchId, ":" + MatchFields[i]);
  }

  lemma MatchKeyNameSplits(matchId: nat, i: FieldIndex)
    ensures |MatchKeyName(matchId, i)| >= 6 && MatchKeyName(matchId, i)[..6] == "match:"
    ensures MatchKeyName(matchId, i)[6..] == NatToString(matchId) + (":" + MatchFields[i])
  {
    PrefixedSplits(NatToString(matchId), MatchFields[i]);
  }

  lemma PrefixedSplits(id: string, field: string)
    ensures "match:" + id + ":" + field == "match:" + (id + (":" + field))
    ensures ("match:" + id + ":" + field)[..6] == "match:"
    ensures ("match:" + id + ":" + field)[6..] == id + (":" + field)
  {
    assert "match:" + id + ":" + field == "match:" + (id + (":" + field));
  }

  /** Two match keys with the same name are the same key. */
  lemma MatchKeyNamesInjective(a: nat, i: FieldIndex, b: nat, j: FieldIndex)
    requires MatchKeyName(a, i) == MatchKeyName(b, j)
    ensures a == b && i == j
  {
    MatchKeyNamesItsMatch(a, i);
    MatchKeyNamesItsMatch(b, j);
    var p := MatchPrefix(a);
    assert MatchKeyName(a, i)[|p|..] == MatchFields[i];
    assert MatchKeyName(a, j)[|p|..] == MatchFields[j];
  }

  /** What follows `user:<address>` in a user key's name. */
  function UserSuffix(k: Key): string
  {
    if k.UserTotalBet? then ":totalBet" else ":betIds"
  }

  lemma UserKeyNameSplits(k: Key)
    requires k.UserTotalBet? || k.UserBetIds?
    ensures |KeyName(k)| >= 5 && KeyName(k)[5..] == k.address + UserSuffix(k)
  {
    assert KeyName(k) == "user:" + (k.address + UserSuffix(k));
  }

  /** Two user keys with the same name are the same key. */
  lemma UserKeyNamesInjective(k1: Key, k2: Key)
    requires (k1.UserTotalBet? || k1.UserBetIds?) && (k2.UserTotalBet? || k2.UserBetIds?)
    requires KeyName(k1) == KeyName(k2)
    ensures k1 == k2
  {
    UserKeyNameSplits(k1);
    UserKeyNameSplits(k2);
    var tail := KeyName(k1)[5..];
    var sa, sb := UserSuffix(k1), UserSuffix(k2);
    assert tail[|tail| - 1] == sa[|sa| - 1] && tail[|tail| - 1] == sb[|sb| - 1];
    assert tail[..|k1.address|] == k1.address && tail[..|k2.address|] == k2.address;
  }

  /** Different keys are stored under different names. */
  lemma KeyNameInjective(k1: Key, k2: Key)
    requires KeyName(k1) == KeyName(k2)
    ensures k1 == k2
  {
    var n := KeyName(k1);
    if k1.MatchField? && k2.MatchField? {
      MatchKeyNamesInjective(k1.matchId, k1.field, k2.matchId, k2.field);
    } else if (k1.UserTotalBet? || k1.UserBetIds?) && (k2.UserTotalBet? || k2.UserBetIds?) {
      UserKeyNamesInjective(k1, k2);
    } else {
      assert KeyName(k1)[0] == KeyName(k2)[0];
      assert KeyName(k1)[4] == KeyName(k2)[4];
      assert KeyName(k1)[9] == KeyName(k2)[9];
    }
  }

  lemma BetMemberSplits(matchId: nat, betId: nat)
    ensures BetMember(matchId, betId)[|NatToString(matchId)| + 1..] == NatToString(betId)
  {
    var a, t := NatToString(matchId), ":" + NatToString(betId);
    assert (a + t)[|a|..] == t;
    assert t[1..] == NatToString(betId);
  }

  /** Distinct bets are distinct members of a bet-id set. */
  lemma BetMemberInjective(m1: nat, b1: nat, m2: nat, b2: nat)
    requires BetMember(m1, b1) == BetMember(m2, b2)
    ensures m1 == m2 && b1 == b2
  {
    BetMemberSplits(m1, b1);
    BetMemberSplits(m2, b2);
    ParseIntOfNatToStringThen(m1, ":" + NatToString(b1));
    ParseIntOfNatToStringThen(m2, ":" + NatToString(b2));
    NatToStringInjective(b1, b2);
  }

  // Time helpers, in milliseconds.

  function SecondsToMilli(secs: int): int
  {
    secs * 1000
  }

  function Seconds(n: int): int
  {
    SecondsToMilli(n)
  }

  function Minutes(n: int): (ms: int)
    ensures ms == 60 * Seconds(n)
  {
    SecondsToMilli(n * 60)
  }

  function Hours(n: int): (ms: int)
    ensures ms == 60 * Minutes(n)
  {
    SecondsToMilli(n * 3600)
  }

  /** A goal count the feed reports as `null` is shown as 0. */
  function GoalsOrZero(goals: Option<nat>): nat
  {
    goals.GetOr(0)
  }

  /** The `"home-away"` score string updateMatchCache writes. */
  function ScoreString(home: Option<nat>, away: Option<nat>): string
  {
    NatToString(GoalsOrZero(home)) + "-" + NatToString(GoalsOrZero(away))
  }

  /** Reads a `"home-away"` score string back into its two goal counts. */
  function ParseScore(s: string): Option<(nat, nat)>
  {
    var p := DigitPrefixLen(s);
    if 0 < p && p + 1 < |s| && s[p] == '-' && AllDigits(s[p + 1..])
    then Some((DigitsValue(s[..p]), DigitsValue(s[p + 1..])))
    else None
  }

  /** The score string records both goal counts (missing ones as 0) and nothing else. */
  lemma ScoreStringRoundTrip(home: Option<nat>, away: Option<nat>)
    ensures ParseScore(ScoreString(home, away)) == Some((GoalsOrZero(home), GoalsOrZero(away)))
  {
    var h, a := NatToString(GoalsOrZero(home)), NatToString(GoalsOrZero(away));
    var s := ScoreString(home, away);
    assert s == h + ("-" + a);
    DigitPrefixLenOfDigits(h, "-" + a);
    assert DigitPrefixLen("-" + a) == 0;
    assert s[..|h|] == h;
    assert s[|h| + 1..] == a;
    DigitsValueOfNatToString(GoalsOrZero(home));
    DigitsValueOfNatToString(GoalsOrZero(away));
  }
}
