/** Small shared vocabulary: optional values, results, bytes, and the
    concatenation of a function's results over a sequence. */
module Base {

  datatype Option<T> = None | Some(value: T)

  /** A Python exception is the `Err` case. */
  datatype Result<T, E> = Ok(value: T) | Err(error: E)

  /** One byte of file content or of a hex digest (Python 2 `str`). */
  newtype Byte = b: int | 0 <= b < 256

  type Bytes = seq<Byte>

  /** `f(xs[0]) + f(xs[1]) + ...` */
  function ConcatMap<X, T>(f: X -> seq<T>, xs: seq<X>): seq<T>
    decreases |xs|
  {
    if xs == [] then [] else ConcatMap(f, xs[..|xs| - 1]) + f(xs[|xs| - 1])
  }

  lemma {:induction false} ConcatMapSplit<X, T>(f: X -> seq<T>, xs: seq<X>, k: nat)
    requires k <= |xs|
    ensures ConcatMap(f, xs) == ConcatMap(f, xs[..k]) + ConcatMap(f, xs[k..])
    decreases |xs|
  {
    if k == |xs| {
      assert xs[..k] == xs;
      assert xs[k..] == [];
    } else {
      var n := |xs| - 1;
      ConcatMapSplit(f, xs[..n], k);
      assert xs[..n][..k] == xs[..k];
      assert xs[..n][k..] == xs[k..][..|xs[k..]| - 1];
      assert xs[k..][|xs[k..]| - 1] == xs[n];
    }
  }

  lemma ConcatMapSnoc<X, T>(f: X -> seq<T>, xs: seq<X>, k: nat)
    requires k < |xs|
    ensures ConcatMap(f, xs[..k + 1]) == ConcatMap(f, xs[..k]) + f(xs[k])
  {
    assert xs[..k + 1][..k] == xs[..k];
  }

  lemma {:induction false} ConcatMapMember<X, T>(f: X -> seq<T>, xs: seq<X>, t: T)
    ensures t in ConcatMap(f, xs) <==> exists k :: 0 <= k < |xs| && t in f(xs[k])
    decreases |xs|
  {
    if xs != [] {
      var n := |xs| - 1;
      ConcatMapMember(f, xs[..n], t);
      if t in ConcatMap(f, xs[..n]) {
        var k :| 0 <= k < n && t in f(xs[..n][k]);
        assert xs[..n][k] == xs[k];
      }
      if exists k :: 0 <= k < |xs| && t in f(xs[k]) {
        var k :| 0 <= k < |xs| && t in f(xs[k]);
        if k < n {
          assert xs[..n][k] == xs[k];
        }
      }
    }
  }
}
