/**
 * The three-stage pipeline of concurrency/concurrency_patterns/example2.go.
 *
 * Each stage of the source is a goroutine that sends values one at a time on
 * an unbuffered channel and closes it when its input is exhausted. Here the
 * values that pass through a channel, in order, are a sequence, and each stage
 * is a loop that builds its output sequence from its input sequence. Closing
 * a channel is the end of the sequence.
 */
module Pipeline {

  /** The transform of `multiply`: `num * 2`. */
  function Double(x: int): int
  {
    x * 2
  }

  /** The transform of `add`: `num + 1`. */
  function Inc(x: int): int
  {
    x + 1
  }

  /** `multiply` then `add` on one element gives an odd value 2x + 1. */
  lemma IncDouble(x: int)
    ensures Inc(Double(x)) == 2 * x + 1
    ensures Inc(Double(x)) % 2 == 1
  {
  }

  /** `generator(n)`: 0, 1, …, n-1 in increasing order; nothing when n <= 0. */
  method Generator(n: int) returns (out: seq<int>)
    ensures |out| == if n <= 0 then 0 else n
    ensures forall k :: 0 <= k < |out| ==> out[k] == k
  {
    out := [];
    var i := 0;
    while i < n
      invariant 0 <= i && (n <= 0 ==> i == 0) && (n > 0 ==> i <= n)
      invariant |out| == i
      invariant forall k :: 0 <= k < i ==> out[k] == k
    {
      out := out + [i];
      i := i + 1;
    }
  }

  /** `multiply`: doubles each value received, same count, same order. */
  method Multiply(input: seq<int>) returns (out: seq<int>)
    ensures |out| == |input|
    ensures forall k :: 0 <= k < |out| ==> out[k] == Double(input[k])
  {
    out := [];
    var i := 0;
    while i < |input|
      invariant 0 <= i <= |input|
      invariant |out| == i
      invariant forall k :: 0 <= k < i ==> out[k] == Double(input[k])
    {
      out := out + [Double(input[i])];
      i := i + 1;
    }
  }

  /** `add`: adds one to each value received, same count, same order. */
  method Add(input: seq<int>) returns (out: seq<int>)
    ensures |out| == |input|
    ensures forall k :: 0 <= k < |out| ==> out[k] == Inc(input[k])
  {
    out := [];
    var i := 0;
    while i < |input|
      invariant 0 <= i <= |input|
      invariant |out| == i
      invariant forall k :: 0 <= k < i ==> out[k] == Inc(input[k])
    {
      out := out + [Inc(input[i])];
      i := i + 1;
    }
  }

  /**
   * `consumer`: receives until the channel is closed. What it prints is the
   * sequence of values received: every value, in the order sent.
   */
  method Consumer(input: seq<int>) returns (received: seq<int>)
    ensures received == input
  {
    received := [];
    var i := 0;
    while i < |input|
      invariant 0 <= i <= |input|
      invariant received == input[..i]
    {
      received := received + [input[i]];
      i := i + 1;
    }
  }

  /** `generator(n)` → `multiply` → `add` → `consumer`: element k is 2k + 1. */
  method Run(n: int) returns (received: seq<int>)
    ensures |received| == if n <= 0 then 0 else n
    ensures forall k :: 0 <= k < |received| ==> received[k] == 2 * k + 1
  {
    var nums := Generator(n);
    var multiplied := Multiply(nums);
    var added := Add(multiplied);
    received := Consumer(added);
    forall k | 0 <= k < |received|
      ensures received[k] == 2 * k + 1
    {
      IncDouble(k);
    }
  }

  /** `main`: the consumer receives exactly 1, 3, 5, 7, 9. */
  method MainScenario() returns (received: seq<int>)
    ensures received == [1, 3, 5, 7, 9]
  {
    received := Run(5);
    assert received[0] == 1 && received[1] == 3 && received[2] == 5;
    assert received[3] == 7 && received[4] == 9;
  }
}
