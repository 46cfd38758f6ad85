/** Value shapes shared by every part of the model: Python's optional
    attributes, JSON payloads, insertion-ordered dicts, queue polls and the
    numeric conversions the source relies on. */
module Common {

  datatype Option<T> = None | Some(value: T)

  /** A JSON value as it travels to or from a backend. The model never
      serialises it; it only copies and compares it. */
  datatype Json =
    | Null
    | Bool(b: bool)
    | Int(i: int)
    | Real(r: real)
    | Str(s: string)
    | Arr(items: seq<Json>)

  /** A Python list of ints as a JSON array (`rgb_color`). */
  function IntArray(xs: seq<int>): Json
  {
    Arr(seq(|xs|, i requires 0 <= i < |xs| => Int(xs[i])))
  }

  /** A Python list of strings as a JSON array (`entity_id` of many lights). */
  function StrArray(xs: seq<string>): Json
  {
    Arr(seq(|xs|, i requires 0 <= i < |xs| => Str(xs[i])))
  }

  /** Python's `str.startswith`. */
  predicate StartsWith(s: string, prefix: string)
  {
    |prefix| <= |s| && s[..|prefix|] == prefix
  }

  // ---------------------------------------------------------------------
  // Python dict: insertion-ordered pairs, each key at most once.
  // ---------------------------------------------------------------------

  type Dict<K, V> = seq<(K, V)>

  function Keys<K, V>(d: Dict<K, V>): seq<K>
  {
    seq(|d|, i requires 0 <= i < |d| => d[i].0)
  }

  ghost predicate DistinctKeys<K, V>(d: Dict<K, V>)
  {
    forall i, j :: 0 <= i < j < |d| ==> d[i].0 != d[j].0
  }

  /** `d[k] = v`: an existing key keeps its position and takes the new value;
      a new key goes to the end. */
  function Put<K(==), V>(d: Dict<K, V>, k: K, v: V): (r: Dict<K, V>)
    ensures |r| == if k in Keys(d) then |d| else |d| + 1
  {
    if d == [] then [(k, v)]
    else if d[0].0 == k then
      assert Keys(d)[0] == k;
      [(k, v)] + d[1..]
    else
      assert Keys(d) == [d[0].0] + Keys(d[1..]);
      [d[0]] + Put(d[1..], k, v)
  }

  /** A new key is appended after the existing entries. */
  lemma {:induction false} PutNewKey<K, V>(d: Dict<K, V>, k: K, v: V)
    requires k !in Keys(d)
    ensures Put(d, k, v) == d + [(k, v)]
  {
    if d != [] {
      assert Keys(d) == [d[0].0] + Keys(d[1..]);
      PutNewKey(d[1..], k, v);
    }
  }

  /** The keys after `d[k] = v` are the keys before, plus `k` at the end
      when it is new. */
  lemma {:induction false} PutKeys<K, V>(d: Dict<K, V>, k: K, v: V)
    ensures Keys(Put(d, k, v)) == if k in Keys(d) then Keys(d) else Keys(d) + [k]
  {
    if d != [] {
      assert Keys(d) == [d[0].0] + Keys(d[1..]);
      PutKeys(d[1..], k, v);
      var r := Put(d, k, v);
      if d[0].0 == k {
        assert Keys(r) == [k] + Keys(d[1..]);
      } else {
        assert Keys(r) == [d[0].0] + Keys(Put(d[1..], k, v));
      }
    }
  }

  /** `d[k] = v` loses no key and holds `k`. */
  lemma PutKeepsKeys<K, V>(d: Dict<K, V>, k: K, v: V)
    ensures k in Keys(Put(d, k, v))
    ensures forall x :: x in Keys(d) ==> x in Keys(Put(d, k, v))
  {
    PutKeys(d, k, v);
  }

  /** `d[k] = v` keeps the keys distinct and holds `v` under `k`. */
  lemma PutDistinct<K, V>(d: Dict<K, V>, k: K, v: V)
    requires DistinctKeys(d)
    ensures DistinctKeys(Put(d, k, v))
    ensures (k, v) in Put(d, k, v)
  {
    var r := Put(d, k, v);
    PutKeys(d, k, v);
    assert forall i :: 0 <= i < |r| ==> r[i].0 == Keys(r)[i];
    assert forall i :: 0 <= i < |d| ==> d[i].0 == Keys(d)[i];
    PutHolds(d, k, v);
  }

  lemma {:induction false} PutHolds<K, V>(d: Dict<K, V>, k: K, v: V)
    ensures (k, v) in Put(d, k, v)
  {
    if d != [] && d[0].0 != k {
      PutHolds(d[1..], k, v);
    }
  }

  /** `d[k]` for a key that is present: the value of its first entry. */
  function Lookup<K(==), V>(d: Dict<K, V>, k: K): V
    requires k in Keys(d)
  {
    assert Keys(d) == [d[0].0] + Keys(d[1..]);
    if d[0].0 == k then d[0].1 else Lookup(d[1..], k)
  }

  /** After `d[k] = v`, `d[k]` reads `v` and every other key reads what it
      read before. */
  lemma {:induction false} LookupPut<K, V>(d: Dict<K, V>, k: K, v: V, k': K)
    requires k' == k || k' in Keys(d)
    ensures k' in Keys(Put(d, k, v))
    ensures Lookup(Put(d, k, v), k') == if k' == k then v else Lookup(d, k')
  {
    PutKeepsKeys(d, k, v);
    if d != [] {
      var r := Put(d, k, v);
      assert Keys(d) == [d[0].0] + Keys(d[1..]);
      if d[0].0 == k {
        assert r == [(k, v)] + d[1..];
        assert r[1..] == d[1..];
      } else {
        assert r == [d[0]] + Put(d[1..], k, v);
        assert r[1..] == Put(d[1..], k, v);
        if d[0].0 != k' {
          LookupPut(d[1..], k, v, k');
        }
      }
    }
  }

  // ---------------------------------------------------------------------
  // The boundary queue seen from the consumer side.
  // ---------------------------------------------------------------------

  /** One `(brightness, [r, g, b])` tuple taken from the process queue. */
  datatype Sample = Sample(brightness: int, rgb: seq<int>)

  /** The result of one `queue.get(timeout=...)`: an item, or `queue.Empty`. */
  datatype Poll<T> = Got(value: T) | TimedOut

  /** What one poll yields: its item, or nothing on a timeout. */
  function Payload<T>(p: Poll<T>): (r: seq<T>)
    ensures |r| <= 1 && (r == [] <==> p.TimedOut?)
  {
    if p.Got? then [p.value] else []
  }

  /** The items among a run of polls, in the order they were taken. */
  function Received<T>(polls: seq<Poll<T>>): (r: seq<T>)
    ensures |r| <= |polls|
  {
    if polls == [] then []
    else Received(polls[..|polls| - 1]) + Payload(polls[|polls| - 1])
  }

  /** Taking one more poll appends what it yields. */
  lemma ReceivedSnoc<T>(polls: seq<Poll<T>>, i: int)
    requires 0 <= i < |polls|
    ensures Received(polls[..i + 1]) == Received(polls[..i]) + Payload(polls[i])
  {
    assert polls[..i + 1][..i] == polls[..i];
  }

  /** Iterations of a consumer loop that exits only after the iteration in
      which the connection status is false, when the session is killed
      during iteration `killDuring` (a value past the polls: never killed). */
  function LoopIterations(pollCount: nat, killDuring: nat): (n: nat)
    ensures n <= pollCount
    ensures killDuring < pollCount <==> n == killDuring + 1
    ensures killDuring >= pollCount ==> n == pollCount
  {
    if killDuring < pollCount then killDuring + 1 else pollCount
  }

  // ---------------------------------------------------------------------
  // Numeric conversions.
  // ---------------------------------------------------------------------

  /** Python's `int(a / b)` for a positive divisor: truncation toward zero,
      which differs from Dafny's Euclidean `/` when `a` is negative. */
  function TruncDiv(a: int, b: int): (q: int)
    requires b > 0
    ensures 0 <= a ==> 0 <= q && q * b <= a < q * b + b
    ensures a < 0 ==> q <= 0 && q * b - b < a <= q * b
  {
    if a >= 0 then a / b else -((-a) / b)
  }

  /** A cast of a non-negative number to numpy's `uint8`: exact inside the
      byte range, wrapping modulo 256 above it. */
  function ToUint8(x: int): (r: int)
    ensures 0 <= r < 256
    ensures 0 <= x < 256 ==> r == x
  {
    x % 256
  }
}
