/** Small shared vocabulary: optional values and digests. */
module Prelude {

  datatype Option<+T> = None | Some(value: T)

  /** SHA-256 as an injective function: a digest carries the value it was taken from,
      so two digests are equal exactly when the digested values are. */
  datatype Digest<+T> = Sha256(preimage: T)

  function Min(a: int, b: int): int { if a <= b then a else b }

  function Max(a: int, b: int): int { if a <= b then b else a }

  lemma Singleton<T>(s: set<T>)
    requires |s| == 1
    ensures exists x :: x in s && s == {x}
  {
    var x :| x in s;
    assert |s - {x}| == 0;
    assert s == {x};
  }
}
