/**
 * The Broker's websocket bookkeeping (src/lib/web3/broker.js): the
 * reconnect counter and backoff of setupWS, the stored event listeners and
 * their replay by resetListeners, and the global instance counter. The
 * websocket provider, the web3 library and the contract object are not
 * modelled; their events (connect, error or end, a retry timer firing) are
 * the methods' calls.
 */
module Connection {

  /** After this many failed attempts since the last connect the error handler stops reconnecting. */
  const MaxRejections: nat := 5

  /** Milliseconds of backoff per earlier failed attempt. */
  const BackoffStep: nat := 1200

  /** The six contract events the observer listens to. */
  datatype EventKind =
    | MatchCreated | MatchUpdated | MatchFailedPayoutRelease
    | BetPlaced | BetCancelled | BetClaimed

  /** The order resetListeners registers them in. */
  const ListenerOrder: seq<EventKind> :=
    [MatchCreated, MatchUpdated, MatchFailedPayoutRelease, BetPlaced, BetCancelled, BetClaimed]

  /** A listener: the default do-nothing callback, or one of the observer's handlers by name. */
  datatype Listener = NoOp | Handler(name: string)

  /** A listener registered on the current contract object. */
  datatype Subscription = Subscription(kind: EventKind, listener: Listener)

  // ----- The reconnect counter as a value -----

  datatype Backoff = Backoff(numRejections: nat, backoff: int)

  /** The provider's `connect` handler resets both fields. */
  function Connected(): Backoff
  {
    Backoff(0, 0)
  }

  /** One run of the error handler: the backoff is taken from the count before it is incremented. */
  function Retried(b: Backoff): (r: Backoff)
    ensures r.numRejections == b.numRejections + 1
    ensures r.backoff == BackoffStep * (r.numRejections - 1)
  {
    Backoff(b.numRejections + 1, b.numRejections * BackoffStep)
  }

  /** The counter after k runs of the error handler since the last connect. */
  function AfterRetries(k: nat): Backoff
  {
    if k == 0 then Connected() else Retried(AfterRetries(k - 1))
  }

  predicate GivesUp(b: Backoff)
  {
    b.numRejections >= MaxRejections
  }

  /** After k failures since a connect the count is k and the backoff (k - 1) * 1200, 0 for k = 0. */
  lemma {:induction false} AfterRetriesClosedForm(k: nat)
    ensures AfterRetries(k).numRejections == k
    ensures AfterRetries(k).backoff == if k == 0 then 0 else BackoffStep * (k - 1)
    ensures GivesUp(AfterRetries(k)) <==> k >= MaxRejections
  {
    if k > 0 {
      AfterRetriesClosedForm(k - 1);
    }
  }

  /**
   * The timer armed by the k-th drop since a connect (k >= 1) waits the
   * backoff the (k - 1)-th error handler computed, and the k-th run of the
   * handler is the last one exactly when k = 5: the waits are 0, 0, 1200,
   * 2400 and 3600 milliseconds, after which no further attempt is made.
   */
  lemma DropDelays(k: nat)
    requires k >= 1
    ensures AfterRetries(k - 1).backoff == if k <= 2 then 0 else BackoffStep * (k - 2)
    ensures GivesUp(AfterRetries(k)) <==> k >= 5
    ensures forall j :: 1 <= j < k ==> !GivesUp(AfterRetries(j)) || j >= 5
  {
    AfterRetriesClosedForm(k - 1);
    AfterRetriesClosedForm(k);
    forall j | 1 <= j < k ensures !GivesUp(AfterRetries(j)) || j >= 5 {
      AfterRetriesClosedForm(j);
    }
  }

  // ----- Listener replay as a value -----

  /** The listener for `kind` as resetListeners passes it: the stored one, or the default when none is stored. */
  function StoredOr(stored: map<EventKind, Listener>, kind: EventKind): Listener
  {
    if kind in stored then stored[kind] else NoOp
  }

  /** The registrations resetListeners makes, in order. */
  function Replay(stored: map<EventKind, Listener>): (r: seq<Subscription>)
    ensures |r| == |ListenerOrder|
    ensures forall i :: 0 <= i < |r| ==> r[i].kind == ListenerOrder[i] && r[i].listener == StoredOr(stored, ListenerOrder[i])
  {
    [Subscription(MatchCreated, StoredOr(stored, MatchCreated)),
     Subscription(MatchUpdated, StoredOr(stored, MatchUpdated)),
     Subscription(MatchFailedPayoutRelease, StoredOr(stored, MatchFailedPayoutRelease)),
     Subscription(BetPlaced, StoredOr(stored, BetPlaced)),
     Subscription(BetCancelled, StoredOr(stored, BetCancelled)),
     Subscription(BetClaimed, StoredOr(stored, BetClaimed))]
  }

  /** What the listener fields hold after a replay: each kind gets what was passed for it. */
  function Filled(stored: map<EventKind, Listener>): (r: map<EventKind, Listener>)
    ensures forall kind :: kind in r && r[kind] == StoredOr(stored, kind)
  {
    map kind: EventKind :: StoredOr(stored, kind)
  }

  /** Storing the six replayed listeners one after the other gives the filled fields. */
  lemma FilledBySix(stored: map<EventKind, Listener>)
    ensures var r := Replay(stored);
      stored[MatchCreated := r[0].listener][MatchUpdated := r[1].listener]
        [MatchFailedPayoutRelease := r[2].listener][BetPlaced := r[3].listener]
        [BetCancelled := r[4].listener][BetClaimed := r[5].listener] == Filled(stored)
  {
    var r := Replay(stored);
    var m := stored[MatchCreated := r[0].listener][MatchUpdated := r[1].listener]
        [MatchFailedPayoutRelease := r[2].listener][BetPlaced := r[3].listener]
        [BetCancelled := r[4].listener][BetClaimed := r[5].listener];
    forall kind ensures kind in m && m[kind] == StoredOr(stored, kind) {
      match kind
      case MatchCreated => case MatchUpdated => case MatchFailedPayoutRelease =>
      case BetPlaced => case BetCancelled => case BetClaimed =>
    }
    assert m.Keys == Filled(stored).Keys;
  }

  /** Six registrations one after the other append the six in order. */
  lemma AppendSix(s: seq<Subscription>, r: seq<Subscription>)
    requires |r| == 6
    ensures s + [r[0]] + [r[1]] + [r[2]] + [r[3]] + [r[4]] + [r[5]] == s + r
  {
    assert r == [r[0], r[1], r[2], r[3], r[4], r[5]];
  }

  /**
   * The replay registers each of the six kinds exactly once, with its stored
   * listener, and replaying again after it registers the same six.
   */
  lemma ReplayExactlyOnce(stored: map<EventKind, Listener>, kind: EventKind)
    ensures exists i :: 0 <= i < |Replay(stored)| && Replay(stored)[i].kind == kind
    ensures forall i, j :: 0 <= i < j < |Replay(stored)| ==> Replay(stored)[i].kind != Replay(stored)[j].kind
    ensures Replay(Filled(stored)) == Replay(stored)
  {
    var r := Replay(stored);
    var i := match kind
      case MatchCreated => 0 case MatchUpdated => 1 case MatchFailedPayoutRelease => 2
      case BetPlaced => 3 case BetCancelled => 4 case BetClaimed => 5;
    assert r[i].kind == kind;
  }

  // ----- The Broker object -----

  class Broker {
    /** The global instance count at construction. */
    const instance: nat
    var numRejections: nat
    var backoff: int
    /** Whether a websocket contract object exists (set by the first connect). */
    var hasContract: bool
    /** The listener fields the add*EventListener methods store. */
    var stored: map<EventKind, Listener>
    /** The listeners registered on the current contract object. */
    var subscriptions: seq<Subscription>

    /** The constructor: no listener, no contract object, no rejection yet (backoff unset, which a timer reads as 0). */
    constructor(instance: nat)
      ensures this.instance == instance
      ensures numRejections == 0 && backoff == 0 && !hasContract
      ensures stored == map[] && subscriptions == []
    {
      this.instance := instance;
      numRejections := 0;
      backoff := 0;
      hasContract := false;
      stored := map[];
      subscriptions := [];
    }

    function Counter(): Backoff
      reads this
    {
      Backoff(numRejections, backoff)
    }

    /**
     * The provider's `connect` event: a new contract object, whose
     * registrations start empty, and both counters reset.
     */
    method OnConnect()
      modifies this`numRejections, this`backoff, this`hasContract, this`subscriptions
      ensures Counter() == Connected()
      ensures hasContract && subscriptions == []
    {
      hasContract := true;
      backoff := 0;
      numRejections := 0;
      subscriptions := [];
    }

    /** The provider's `error` or `end` event: a retry timer is armed with the backoff as it is now. */
    method OnDrop() returns (delay: int)
      ensures delay == backoff
    {
      delay := backoff;
    }

    /**
     * The retry timer fires: the backoff becomes 1200 per earlier rejection,
     * the count grows by one, and from the fifth rejection on no new
     * connection is attempted (the handler stops at its `reject(e)` line).
     */
    method OnRetry() returns (reconnect: bool)
      modifies this`numRejections, this`backoff
      ensures Counter() == Retried(old(Counter()))
      ensures reconnect <==> !GivesUp(Counter())
    {
      backoff := numRejections * BackoffStep;
      numRejections := numRejections + 1;
      reconnect := numRejections < MaxRejections;
    }

    /**
     * add*EventListener: the listener is stored, then registered on the
     * contract object, which fails when there is none yet.
     */
    method AddListener(kind: EventKind, listener: Listener) returns (ok: bool)
      modifies this`stored, this`subscriptions
      ensures stored == old(stored)[kind := listener]
      ensures ok <==> hasContract
      ensures subscriptions == if ok then old(subscriptions) + [Subscription(kind, listener)] else old(subscriptions)
    {
      stored := stored[kind := listener];
      ok := hasContract;
      if ok {
        subscriptions := subscriptions + [Subscription(kind, listener)];
      }
    }

    /**
     * resetListeners: each of the six stored listeners (the default where none
     * is stored) is registered again, in order, and nothing else; without a
     * contract object the first registration fails and the rest are not reached.
     */
    method ResetListeners() returns (ok: bool)
      modifies this`stored, this`subscriptions
      ensures ok <==> hasContract
      ensures ok ==> subscriptions == old(subscriptions) + Replay(old(stored)) && stored == Filled(old(stored))
      ensures !ok ==> (subscriptions == old(subscriptions) &&
        stored == old(stored)[MatchCreated := StoredOr(old(stored), MatchCreated)])
    {
      ghost var sub0 := subscriptions;
      var r := Replay(stored);
      ghost var s0 := stored;
      ok := AddListener(MatchCreated, r[0].listener);
      if !ok { return; }
      ok := AddListener(MatchUpdated, r[1].listener);
      ok := AddListener(MatchFailedPayoutRelease, r[2].listener);
      ok := AddListener(BetPlaced, r[3].listener);
      ok := AddListener(BetCancelled, r[4].listener);
      ok := AddListener(BetClaimed, r[5].listener);
      AppendSix(sub0, r);
      FilledBySix(s0);
    }
  }

  /** The module-level `brokerInstance` counter and the brokers made from it. */
  class BrokerRegistry {
    var count: nat
    ghost var issued: seq<nat>

    ghost predicate Valid()
      reads this
    {
      (forall i, j :: 0 <= i < j < |issued| ==> issued[i] < issued[j]) &&
      forall i :: 0 <= i < |issued| ==> issued[i] < count
    }

    constructor()
      ensures Valid() && count == 0 && issued == []
    {
      count := 0;
      issued := [];
    }

    /** `new Broker(...)`: the next instance number, after which the count grows by one; instances strictly increase. */
    method NewBroker() returns (b: Broker)
      requires Valid()
      modifies this
      ensures Valid()
      ensures fresh(b) && b.instance == old(count) && count == old(count) + 1
      ensures issued == old(issued) + [b.instance]
      ensures b.numRejections == 0 && !b.hasContract && b.stored == map[] && b.subscriptions == []
    {
      b := new Broker(count);
      issued := issued + [count];
      count := count + 1;
    }
  }
}
