/**
  CreateLetters in src/Main.cpp: the six letters T, E, L, L, U, M are placed one
  above the other by translating one running model matrix along y before each
  letter is given its copy. Only translations are composed, starting from the
  identity, so a model matrix is represented by its translation vector and
  composing a translation adds its offset.
 */
module NameTag {
  import opened Geometry
  import opened Letters

  /** The letters in the order they are built and pushed into the name tag. */
  function Word(): seq<Letter> {
    [T, E, L, L, U, M]
  }

  /** The y translation applied to the running matrix before each letter. */
  function Steps(): seq<real> {
    [0.0, 4.7, 4.7, 4.7, 4.7, 4.3]
  }

  /** glm::translate(m, d) when m is itself a pure translation. */
  function Translate(m: Vec3, d: Vec3): Vec3 {
    Vec3(m.x + d.x, m.y + d.y, m.z + d.z)
  }

  function Identity(): Vec3 {
    Vec3(0.0, 0.0, 0.0)
  }

  function Sum(s: seq<real>): real {
    if s == [] then 0.0 else Sum(s[..|s| - 1]) + s[|s| - 1]
  }

  lemma SumSnoc(s: seq<real>, a: real)
    ensures Sum(s + [a]) == Sum(s) + a
  {
    assert (s + [a])[..|s|] == s;
  }

  /** The running totals of the steps: entry k is the sum of steps 0..k. */
  function Offsets(s: seq<real>): (r: seq<real>)
    ensures |r| == |s|
  {
    seq(|s|, k requires 0 <= k < |s| => Sum(s[..k + 1]))
  }

  /** A letter together with the model matrix it was given. */
  datatype Placed = Placed(letter: Letter, model: Vec3)

  /** Each letter gets the running matrix after its own step: it is translated
      along y by the total of the steps so far, and not at all along x or z. */
  method CreateLetters(word: seq<Letter>, steps: seq<real>) returns (tag: seq<Placed>)
    requires |word| == |steps|
    ensures |tag| == |word|
    ensures forall k :: 0 <= k < |tag| ==> tag[k].letter == word[k]
    ensures forall k :: 0 <= k < |tag| ==> tag[k].model == Vec3(0.0, Offsets(steps)[k], 0.0)
  {
    var model := Identity();
    tag := [];
    var k := 0;
    while k < |word|
      invariant k <= |word|
      invariant |tag| == k
      invariant model == Vec3(0.0, Sum(steps[..k]), 0.0)
      invariant forall i :: 0 <= i < k ==> tag[i] == Placed(word[i], Vec3(0.0, Offsets(steps)[i], 0.0))
    {
      assert steps[..k + 1][..k] == steps[..k];
      model := Translate(model, Vec3(0.0, steps[k], 0.0));
      tag := tag + [Placed(word[k], model)];
      k := k + 1;
    }
  }

  /** The letters climb exactly when every step after the first is positive. */
  lemma {:induction false} OffsetsIncrease(s: seq<real>)
    ensures (forall k :: 0 < k < |s| ==> Offsets(s)[k - 1] < Offsets(s)[k]) <==>
            (forall k :: 0 < k < |s| ==> s[k] > 0.0)
  {
    forall k | 0 < k < |s|
      ensures Offsets(s)[k] == Offsets(s)[k - 1] + s[k]
    {
      var t := s[..k + 1];
      assert t[..|t| - 1] == s[..k];
      assert Sum(t) == Sum(s[..k]) + s[k];
    }
    if forall k :: 0 < k < |s| ==> Offsets(s)[k - 1] < Offsets(s)[k] {
      forall k | 0 < k < |s|
        ensures s[k] > 0.0
      {
        assert Offsets(s)[k - 1] < Offsets(s)[k];
      }
    }
  }

  /** The program's offsets are 0, 4.7, 9.4, 14.1, 18.8 and 23.1, and they
      strictly increase, so no two letters share a place. */
  lemma ProgramOffsets()
    ensures Offsets(Steps()) == [0.0, 4.7, 9.4, 14.1, 18.8, 23.1]
    ensures forall k :: 0 < k < 6 ==> Offsets(Steps())[k - 1] < Offsets(Steps())[k]
  {
    var s := Steps();
    assert s[..1] == [] + [0.0];
    SumSnoc([], 0.0);
    assert s[..2] == s[..1] + [4.7];
    SumSnoc(s[..1], 4.7);
    assert s[..3] == s[..2] + [4.7];
    SumSnoc(s[..2], 4.7);
    assert s[..4] == s[..3] + [4.7];
    SumSnoc(s[..3], 4.7);
    assert s[..5] == s[..4] + [4.7];
    SumSnoc(s[..4], 4.7);
    assert s[..6] == s[..5] + [4.3];
    SumSnoc(s[..5], 4.3);
    OffsetsIncrease(s);
  }
}
