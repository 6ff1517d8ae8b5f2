/**
 * The records the broker decodes from contract reads and events
 * (src/lib/web3/broker.js, parseMatch and parseBetPlacedEvent).
 */
module Records {
  import opened Wrappers
  import opened Text

  /** One decoded ABI return value: a string, an unsigned integer or a boolean. */
  datatype Word = Text(s: string) | UInt(n: nat) | Flag(b: bool)

  /** The pair getFullMatchDetails resolves to: getMatch's tuple and getMatchBettingDetails' tuple. */
  datatype MatchData = MatchData(info: seq<Word>, betting: seq<Word>)

  /**
   * The shapes the contract's ABI gives the two tuples: getMatch returns
   * (string, string, string, bool, uint8, uint8, uint8, uint256, bool, bool)
   * and getMatchBettingDetails six unsigned integers.
   */
  predicate WellFormed(d: MatchData)
  {
    && |d.info| == 10 && |d.betting| == 6
    && d.info[0].Text? && d.info[1].Text? && d.info[2].Text? && d.info[3].Flag?
    && d.info[4].UInt? && d.info[5].UInt? && d.info[6].UInt? && d.info[7].UInt?
    && d.info[8].Flag? && d.info[9].Flag?
    && forall i :: 0 <= i < 6 ==> d.betting[i].UInt?
  }

  /** A match as the observer stores it; `winner == 0` means undecided, amounts are in wei. */
  datatype Match = Match(
    id: nat,
    name: string,
    fixtureId: Option<nat>,
    secondaryFixtureId: Option<nat>,
    inverted: bool,
    homeTeam: nat,
    awayTeam: nat,
    winner: nat,
    startTime: nat,
    closeTime: nat,
    totalTeamABets: nat,
    totalTeamBBets: nat,
    totalDrawBets: nat,
    numBets: nat,
    cancelled: bool,
    locked: bool,
    numPayoutAttempts: nat)

  /** parseMatch: the match with the given id, read field by field from the two tuples. */
  function ParseMatch(matchId: nat, d: MatchData): (m: Match)
    requires WellFormed(d)
    ensures m.id == matchId
  {
    Match(
      id := matchId,
      name := d.info[0].s,
      fixtureId := ParseInt(d.info[1].s),
      secondaryFixtureId := ParseInt(d.info[2].s),
      inverted := d.info[3].b,
      homeTeam := d.info[4].n,
      awayTeam := d.info[5].n,
      winner := d.info[6].n,
      startTime := d.info[7].n,
      closeTime := d.betting[0].n,
      totalTeamABets := d.betting[1].n,
      totalTeamBBets := d.betting[2].n,
      totalDrawBets := d.betting[3].n,
      numBets := d.betting[4].n,
      cancelled := d.info[8].b,
      locked := d.info[9].b,
      numPayoutAttempts := d.betting[5].n)
  }

  /** A fixture id as the contract stores it: its decimal numeral, or the empty string for none. */
  function FixtureText(id: Option<nat>): string
  {
    match id
    case Some(n) => NatToString(n)
    case None => ""
  }

  /**
   * The contract's side of the layout: the two tuples a match is stored as,
   * index by index (name 0, fixture ids 1 and 2, inverted 3, home 4, away 5,
   * winner 6, start 7, cancelled 8, locked 9; close time 0, the three totals
   * 1 to 3, number of bets 4, payout attempts 5).
   */
  function EncodeMatch(m: Match): (d: MatchData)
    ensures WellFormed(d)
  {
    MatchData(
      [Text(m.name), Text(FixtureText(m.fixtureId)), Text(FixtureText(m.secondaryFixtureId)),
       Flag(m.inverted), UInt(m.homeTeam), UInt(m.awayTeam), UInt(m.winner), UInt(m.startTime),
       Flag(m.cancelled), Flag(m.locked)],
      [UInt(m.closeTime), UInt(m.totalTeamABets), UInt(m.totalTeamBBets), UInt(m.totalDrawBets),
       UInt(m.numBets), UInt(m.numPayoutAttempts)])
  }

  /** parseMatch reads every field from the index the contract stores it at: no field is lost or swapped. */
  lemma ParseMatchRoundTrip(m: Match)
    ensures ParseMatch(m.id, EncodeMatch(m)) == m
  {
    match m.fixtureId {
      case Some(n) => ParseIntOfNatToString(n);
      case None =>
    }
    match m.secondaryFixtureId {
      case Some(n) => ParseIntOfNatToString(n);
      case None =>
    }
  }

  /** parseMatch reads only the fields it maps: two tuples that agree on them give the same match. */
  lemma ParseMatchReadsOnlyItsFields(matchId: nat, d1: MatchData, d2: MatchData)
    requires WellFormed(d1) && WellFormed(d2)
    requires d1.betting == d2.betting
    requires forall i :: 0 <= i < 10 && i != 1 && i != 2 ==> d1.info[i] == d2.info[i]
    requires ParseInt(d1.info[1].s) == ParseInt(d2.info[1].s)
    requires ParseInt(d1.info[2].s) == ParseInt(d2.info[2].s)
    ensures ParseMatch(matchId, d1) == ParseMatch(matchId, d2)
  {
    assert d1.info[0] == d2.info[0] && d1.info[3] == d2.info[3];
    assert d1.info[4] == d2.info[4] && d1.info[5] == d2.info[5] && d1.info[6] == d2.info[6];
    assert d1.info[7] == d2.info[7] && d1.info[8] == d2.info[8] && d1.info[9] == d2.info[9];
  }

  /** A BetPlaced event's return values (ABI-decoded integers) and its block number. */
  datatype BetPlacedEvent = BetPlacedEvent(
    matchId: nat, outcome: nat, betId: nat, amount: nat, better: string, blockNumber: nat)

  /** A bet as the observer stores it; `decision` is the outcome as a decimal string. */
  datatype Bet = Bet(
    id: nat, address: string, amount: nat, decision: string, matchId: nat,
    cancelled: bool, claimed: bool, block: nat)

  /** parseBetPlacedEvent. */
  function ParseBetPlacedEvent(e: BetPlacedEvent): (b: Bet)
    ensures b.address == ToLower(e.better) && NoUpper(b.address)
    ensures !b.cancelled && !b.claimed
    ensures b.decision == NatToString(e.outcome) && ParseInt(b.decision) == Some(e.outcome)
    ensures b.id == e.betId && b.matchId == e.matchId && b.block == e.blockNumber
    ensures b.amount == e.amount
  {
    ParseIntOfNatToString(e.outcome);
    Bet(
      id := e.betId,
      address := ToLower(e.better),
      amount := e.amount,
      decision := NatToString(e.outcome),
      matchId := e.matchId,
      cancelled := false,
      claimed := false,
      block := e.blockNumber)
  }

  /** A BetCancelled or BetClaimed event: the bet's match and id, and the block. */
  datatype BetRefEvent = BetRefEvent(matchId: nat, betId: nat, blockNumber: nat)

  /** The pair `[matchId, betId]` handed to the durable store for a cancelled or claimed bet. */
  datatype BetRef = BetRef(matchId: nat, betId: nat)

  function RefOf(e: BetRefEvent): BetRef
  {
    BetRef(e.matchId, e.betId)
  }
}
