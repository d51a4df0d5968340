/** Byte sequences shared by the other modules. */
module Bytes {

  newtype byte = b: int | 0 <= b < 256

  /** The bytes of a sequence of writes, frames or blocks, in order. */
  function Flatten(xs: seq<seq<byte>>): seq<byte> {
    if xs == [] then [] else xs[0] + Flatten(xs[1..])
  }

  lemma {:induction false} FlattenConcat(xs: seq<seq<byte>>, ys: seq<seq<byte>>)
    ensures Flatten(xs + ys) == Flatten(xs) + Flatten(ys)
  {
    if xs == [] {
      assert xs + ys == ys;
    } else {
      assert (xs + ys)[1..] == xs[1..] + ys;
      calc {
        Flatten(xs + ys);
        xs[0] + Flatten(xs[1..] + ys);
        { FlattenConcat(xs[1..], ys); }
        xs[0] + (Flatten(xs[1..]) + Flatten(ys));
        Flatten(xs) + Flatten(ys);
      }
    }
  }

  lemma FlattenSnoc(xs: seq<seq<byte>>, x: seq<byte>)
    ensures Flatten(xs + [x]) == Flatten(xs) + x
  {
    FlattenConcat(xs, [x]);
    assert Flatten([x]) == x;
  }

  function Size(xs: seq<seq<byte>>): nat {
    if xs == [] then 0 else |xs[0]| + Size(xs[1..])
  }

  lemma {:induction false} SizeRemove(xs: seq<seq<byte>>, i: nat)
    requires i < |xs|
    ensures Size(xs[..i] + xs[i + 1..]) == Size(xs) - |xs[i]|
  {
    if i > 0 {
      SizeRemove(xs[1..], i - 1);
      assert (xs[..i] + xs[i + 1..])[1..] == xs[1..][..i - 1] + xs[1..][i..];
    } else {
      assert xs[..0] + xs[1..] == xs[1..];
    }
  }

  lemma {:induction false} SizeSnoc(xs: seq<seq<byte>>, x: seq<byte>)
    ensures Size(xs + [x]) == Size(xs) + |x|
  {
    if xs != [] {
      SizeSnoc(xs[1..], x);
      assert (xs + [x])[1..] == xs[1..] + [x];
    } else {
      assert xs + [x] == [x];
    }
  }
}
