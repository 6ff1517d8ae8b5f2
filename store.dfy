/**
 * The key/value cache as an in-memory map, with the commands the observer
 * issues and an all-or-nothing transaction over a list of them.
 */
module Store {
  import opened Wrappers
  import opened Text
  import opened Keys

  /** A cached value: numbers are kept as integers (amounts in wei), sets as sets. */
  datatype Value = Int(n: int) | Str(s: string) | Members(elems: set<string>)

  type Store = map<Key, Value>

  datatype Command =
    | Set(key: Key, v: Value)
    | Incr(key: Key)
    | IncrBy(key: Key, amount: int)
    | SAdd(key: Key, member: string)

  /** A counter or a set command applied to a key holding the wrong kind of value fails. */
  predicate Fails(s: Store, c: Command)
  {
    match c
    case Set(_, _) => false
    case Incr(k) => k in s && !s[k].Int?
    case IncrBy(k, _) => k in s && !s[k].Int?
    case SAdd(k, _) => k in s && !s[k].Members?
  }

  /** The integer a counter holds; a missing counter counts as 0. */
  function CounterOf(s: Store, k: Key): int
  {
    if k in s && s[k].Int? then s[k].n else 0
  }

  /** The members a set holds; a missing set is empty. */
  function MembersOf(s: Store, k: Key): set<string>
  {
    if k in s && s[k].Members? then s[k].elems else {}
  }

  /** Writing one key leaves every other counter as it was. */
  lemma CounterOfOtherKey(s: Store, k: Key, v: Value, c: Key)
    requires k != c
    ensures CounterOf(s[k := v], c) == CounterOf(s, c)
  {
  }

  /** One command on its own. */
  function Exec(s: Store, c: Command): (r: Option<Store>)
    ensures r.None? <==> Fails(s, c)
    ensures r.Some? ==> r.value.Keys == s.Keys + {c.key}
    ensures r.Some? ==> forall k :: k in s && k != c.key ==> r.value[k] == s[k]
    ensures r.Some? && c.Set? ==> r.value[c.key] == c.v
    ensures r.Some? && c.Incr? ==> r.value[c.key] == Int(CounterOf(s, c.key) + 1)
    ensures r.Some? && c.IncrBy? ==> r.value[c.key] == Int(CounterOf(s, c.key) + c.amount)
    ensures r.Some? && c.SAdd? ==> r.value[c.key] == Members(MembersOf(s, c.key) + {c.member})
  {
    match c
    case Set(k, v) => Some(s[k := v])
    case Incr(k) => if Fails(s, c) then None else Some(s[k := Int(CounterOf(s, k) + 1)])
    case IncrBy(k, d) => if Fails(s, c) then None else Some(s[k := Int(CounterOf(s, k) + d)])
    case SAdd(k, m) => if Fails(s, c) then None else Some(s[k := Members(MembersOf(s, k) + {m})])
  }

  function KeysOf(cmds: seq<Command>): set<Key>
  {
    set i | 0 <= i < |cmds| :: cmds[i].key
  }

  /** `transaction(commands)`: the commands in order, or no change at all if one of them fails. */
  function Transaction(s: Store, cmds: seq<Command>): (r: Option<Store>)
    ensures r.Some? ==> r.value.Keys == s.Keys + KeysOf(cmds)
    ensures r.Some? ==> forall k :: k in s && k !in KeysOf(cmds) ==> r.value[k] == s[k]
    decreases |cmds|
  {
    if cmds == [] then Some(s)
    else
      match Exec(s, cmds[0])
      case None => None
      case Some(s1) =>
        var r := Transaction(s1, cmds[1..]);
        assert KeysOf(cmds) == {cmds[0].key} + KeysOf(cmds[1..]) by {
          forall k | k in KeysOf(cmds) ensures k in {cmds[0].key} + KeysOf(cmds[1..]) {
            var i :| 0 <= i < |cmds| && cmds[i].key == k;
            if i > 0 { assert cmds[1..][i - 1] == cmds[i]; }
          }
        }
        r
  }

  /** A transaction made only of `set` commands always succeeds. */
  lemma {:induction false} SetsSucceed(s: Store, cmds: seq<Command>)
    requires forall i :: 0 <= i < |cmds| ==> cmds[i].Set?
    ensures Transaction(s, cmds).Some?
    decreases |cmds|
  {
    if cmds != [] {
      SetsSucceed(s[cmds[0].key := cmds[0].v], cmds[1..]);
    }
  }

  /** What a watermark read gives: the stored block, NaN, or a read error. */
  datatype Watermark = Unreadable | NotANumber | At(block: int)

  /**
   * `parseInt(await redis.getKey(key))`: a missing key reads as `null` and
   * parses as NaN, a text parses with parseInt, a set cannot be read with GET.
   */
  function ReadWatermark(s: Store, key: Key): (w: Watermark)
    ensures key !in s ==> w == NotANumber
    ensures key in s && s[key].Int? ==> w == At(s[key].n)
    ensures key in s && s[key].Members? ==> w == Unreadable
  {
    if key !in s then NotANumber
    else match s[key]
      case Int(n) => At(n)
      case Str(t) => (match ParseInt(t) case Some(n) => At(n) case None => NotANumber)
      case Members(_) => Unreadable
  }

  /** `doesExist(key)`: a GET that returns `null`, which is also what a failed GET (on a set) returns. */
  predicate Exists(s: Store, key: Key)
  {
    key in s && !s[key].Members?
  }

  /** Key k is in r exactly when it is in s, and with the same value. */
  predicate SameAt(s: Store, r: Store, k: Key)
  {
    (k in r <==> k in s) && (k in s ==> r[k] == s[k])
  }
}
