/** Small value types and sequence operations shared by every module. */
module Common {

  type byte = b: int | 0 <= b < 256

  datatype Option<+T> = None | Some(value: T)

  datatype Result<+T> = Ok(value: T) | Err(error: string)

  function Max(a: int, b: int): (r: int)
    ensures r >= a && r >= b && (r == a || r == b)
  {
    if a < b then b else a
  }

  function Min(a: int, b: int): (r: int)
    ensures r <= a && r <= b && (r == a || r == b)
  {
    if a < b then a else b
  }

  /** The first `n` elements (Python's `s[:n]`). */
  function Take<T>(s: seq<T>, n: nat): (r: seq<T>)
    ensures |r| == Min(|s|, n) && r <= s
  {
    if |s| <= n then s else s[..n]
  }

  /** The last `n` elements (JavaScript's `s.slice(-n)` for positive `n`). */
  function LastN<T>(s: seq<T>, n: nat): (r: seq<T>)
    ensures |r| == Min(|s|, n)
  {
    if |s| <= n then s else s[|s| - n..]
  }

  /** `w` is the newest `n` of `all`, or all of it when there are fewer: some older part goes before it. */
  ghost predicate Newest<T(!new)>(all: seq<T>, n: nat, w: seq<T>) {
    |w| == Min(|all|, n) && exists dropped: seq<T> :: all == dropped + w
  }

  lemma LastNIsNewest<T(!new)>(all: seq<T>, n: nat)
    ensures Newest(all, n, LastN(all, n))
  {
    var w := LastN(all, n);
    assert all == all[..|all| - |w|] + w;
  }

  lemma NewestIsLastN<T(!new)>(all: seq<T>, n: nat, w: seq<T>)
    requires Newest(all, n, w)
    ensures w == LastN(all, n)
  {
    var dropped: seq<T> :| all == dropped + w;
    assert w == all[|all| - |w|..];
  }

  lemma TakeAppend<T>(a: seq<T>, b: seq<T>, n: nat)
    ensures Take(a + b, n) == Take(a, n) + Take(b, n - |Take(a, n)|)
  {
  }

  lemma Regroup<T>(a: seq<T>, b: seq<T>, c: seq<T>)
    ensures a + (b + c) == (a + b) + c
  {
  }
}
