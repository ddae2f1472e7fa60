/**
 * The stateful pieces of start/data_types/main.go: the `counter` closure, the
 * `market` map and the keyed array literal `[10]int{1, 2, 3, 6: 10}`.
 */
module DataTypes {
  import opened Wrappers

  /**
   * The closure returned by `counter()`. The captured variable `count` outlives
   * the call that created it, so it is a field of an object; each call of
   * `counter()` allocates a new one.
   */
  class Counter {
    var count: int

    /** `counter()`: a fresh captured `count := 0`. */
    constructor ()
      ensures count == 0
    {
      count := 0;
    }

    /** One call of the closure: `count++`, then return the new `count`. */
    method Call() returns (r: int)
      modifies this
      ensures count == old(count) + 1
      ensures r == count
    {
      count := count + 1;
      r := count;
    }
  }

  /** A fresh counter called `k` times returns 1, 2, …, k and has captured `count == k`. */
  method CallFresh(k: nat) returns (results: seq<int>, count: int)
    ensures |results| == k
    ensures forall i :: 0 <= i < k ==> results[i] == i + 1
    ensures count == k
  {
    var c := new Counter();
    results := [];
    while |results| < k
      invariant |results| <= k
      invariant c.count == |results|
      invariant forall i :: 0 <= i < |results| ==> results[i] == i + 1
    {
      var r := c.Call();
      results := results + [r];
    }
    count := c.count;
  }

  /**
   * `main`'s closure section: three calls of `increment` return 1, 2, 3; the
   * second counter `increment2` starts again at 1 and leaves the first alone.
   */
  method CounterScenario() returns (first: seq<int>, second: int, firstCount: int)
    ensures first == [1, 2, 3]
    ensures second == 1
    ensures firstCount == 3
  {
    var increment := new Counter();
    var r1 := increment.Call();
    var r2 := increment.Call();
    var r3 := increment.Call();
    var increment2 := new Counter();
    second := increment2.Call();
    first, firstCount := [r1, r2, r3], increment.count;
  }

  /** The map `market`, updated in place. */
  class Market {
    var entries: map<string, int>

    /** `make(map[string]int, 10)`: empty; the capacity hint has no visible effect. */
    constructor ()
      ensures entries == map[]
    {
      entries := map[];
    }

    /** `market[key] = value`: inserts or overwrites `key`; every other key is unchanged. */
    method Set(key: string, value: int)
      modifies this
      ensures entries == old(entries)[key := value]
      ensures key in entries && entries[key] == value
      ensures forall k :: k in old(entries) && k != key ==> k in entries && entries[k] == old(entries)[k]
    {
      entries := entries[key := value];
    }

    /** `value, ok := market[key]`: the stored value and true, or the zero value 0 and false. */
    method Lookup(key: string) returns (value: int, ok: bool)
      ensures ok <==> key in entries
      ensures ok ==> value == entries[key]
      ensures !ok ==> value == 0
    {
      if key in entries {
        value, ok := entries[key], true;
      } else {
        value, ok := 0, false;
      }
    }

    /** `delete(market, key)`: removes `key` if present (a no-op otherwise); every other key is unchanged. */
    method Delete(key: string)
      modifies this
      ensures entries == old(entries) - {key}
      ensures key !in entries
      ensures forall k :: k in old(entries) && k != key ==> k in entries && entries[k] == old(entries)[k]
    {
      entries := entries - {key};
    }
  }

  /**
   * `main`'s map section: after the four inserts "usd" is found with 40; after
   * `delete(market, "usd")` it is not found (0, false) and the other three
   * entries are unchanged.
   */
  method MarketScenario() returns (usd: int, found: bool, usdAfter: int, foundAfter: bool, final: map<string, int>)
    ensures usd == 40 && found
    ensures usdAfter == 0 && !foundAfter
    ensures final == map["btc" := 100, "eth" := 10, "eur" := 50]
  {
    var market := new Market();
    market.Set("btc", 100);
    market.Set("eth", 10);
    market.Set("eur", 50);
    market.Set("usd", 40);
    usd, found := market.Lookup("usd");
    market.Delete("usd");
    usdAfter, foundAfter := market.Lookup("usd");
    final := market.entries;
  }

  /** One element of an array composite literal: an optional index key and a value. */
  datatype Element = Element(key: Option<nat>, value: int)

  /**
   * The index element `j` of a literal lands at: its key if it has one,
   * otherwise the index after the previous element's (0 for the first).
   */
  function Index(elems: seq<Element>, j: nat): nat
    requires j < |elems|
  {
    if elems[j].key.Some? then elems[j].key.value
    else if j == 0 then 0
    else Index(elems, j - 1) + 1
  }

  /** The literal compiles for length `n`: every index is in range and no index repeats. */
  predicate ValidLiteral(n: nat, elems: seq<Element>)
  {
    (forall j :: 0 <= j < |elems| ==> Index(elems, j) < n) &&
    (forall j1, j2 :: 0 <= j1 < j2 < |elems| ==> Index(elems, j1) != Index(elems, j2))
  }

  /**
   * The value of `[n]int{elems}`: each element's value at its index, and the
   * zero value 0 at every index no element names.
   */
  method ArrayLiteral(n: nat, elems: seq<Element>) returns (arr: seq<int>)
    requires ValidLiteral(n, elems)
    ensures |arr| == n
    ensures forall j :: 0 <= j < |elems| ==> arr[Index(elems, j)] == elems[j].value
    ensures forall i :: 0 <= i < n && (forall j :: 0 <= j < |elems| ==> Index(elems, j) != i) ==> arr[i] == 0
  {
    arr := seq(n, _ => 0);
    var next := 0;
    for j := 0 to |elems|
      invariant |arr| == n
      invariant j > 0 ==> next == Index(elems, j - 1) + 1
      invariant j == 0 ==> next == 0
      invariant forall j' :: 0 <= j' < j ==> arr[Index(elems, j')] == elems[j'].value
      invariant forall i :: 0 <= i < n && (forall j' :: 0 <= j' < j ==> Index(elems, j') != i) ==> arr[i] == 0
    {
      var at := if elems[j].key.Some? then elems[j].key.value else next;
      assert at == Index(elems, j);
      arr := arr[at := elems[j].value];
      next := at + 1;
    }
  }

  /** `main`'s `[10]int{1, 2, 3, 6: 10}` is 1, 2, 3, three zeros, 10, three zeros. */
  method ArrayExample() returns (arr: seq<int>)
    ensures arr == [1, 2, 3, 0, 0, 0, 10, 0, 0, 0]
  {
    var elems := [Element(None, 1), Element(None, 2), Element(None, 3), Element(Some(6), 10)];
    assert Index(elems, 0) == 0 && Index(elems, 1) == 1 && Index(elems, 2) == 2 && Index(elems, 3) == 6;
    arr := ArrayLiteral(10, elems);
    assert arr[0] == 1 && arr[1] == 2 && arr[2] == 3 && arr[6] == 10;
    assert arr[3] == 0 && arr[4] == 0 && arr[5] == 0;
    assert arr[7] == 0 && arr[8] == 0 && arr[9] == 0;
  }
}
