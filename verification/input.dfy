/**
  The per-frame keyboard handling of src/Main.cpp's render loop: the world
  angle step driven by the arrow keys and HOME, SelectModel's choice of the
  letter to transform from the digit keys 1..6, and the dispatch that hands the
  key state to the selected letter only. The held keys of one frame are a set;
  what a letter does with them (ComplexObject::Transform) is a parameter.
 */
module Input {

  datatype Key = Digit(n: nat) | LeftArrow | RightArrow | UpArrow | DownArrow | HomeKey

  /** The two world angles, in degrees, that the view matrix rotates by. */
  datatype Angles = Angles(x: real, y: real)

  /** BASE_WORLD_XANGLE and BASE_WORLD_YANGLE. */
  const BaseAngles: Angles := Angles(-5.0, 0.0)

  /** worldRotationIncrement. */
  const RotationStep: real := 0.5

  /** The number of letters, and so of digit keys that select one. */
  const LetterCount: nat := 6

  /** One frame of the world-angle update: LEFT adds to x, RIGHT subtracts from
      x, UP adds to y, DOWN subtracts from y, and HOME, checked last, puts both
      angles back to their base values whatever else is held. */
  function RotateWorld(a: Angles, keys: set<Key>): (r: Angles)
    ensures HomeKey in keys ==> r == BaseAngles
    ensures HomeKey !in keys ==>
      (r.x > a.x <==> LeftArrow in keys && RightArrow !in keys) &&
      (r.x < a.x <==> RightArrow in keys && LeftArrow !in keys) &&
      (r.y > a.y <==> UpArrow in keys && DownArrow !in keys) &&
      (r.y < a.y <==> DownArrow in keys && UpArrow !in keys)
    ensures HomeKey !in keys ==> -RotationStep <= r.x - a.x <= RotationStep && -RotationStep <= r.y - a.y <= RotationStep
  {
    var x1 := if LeftArrow in keys then a.x + RotationStep else a.x;
    var x2 := if RightArrow in keys then x1 - RotationStep else x1;
    var y1 := if UpArrow in keys then a.y + RotationStep else a.y;
    var y2 := if DownArrow in keys then y1 - RotationStep else y1;
    if HomeKey in keys then BaseAngles else Angles(x2, y2)
  }

  /** Holding LEFT for one frame and RIGHT for the next (or UP then DOWN)
      brings the world back to where it was. */
  lemma RotationUndone(a: Angles)
    ensures RotateWorld(RotateWorld(a, {LeftArrow}), {RightArrow}) == a
    ensures RotateWorld(RotateWorld(a, {UpArrow}), {DownArrow}) == a
  {
  }

  /** A frame with HOME held forgets the state it started from. */
  lemma HomeForgets(a: Angles, b: Angles, keys: set<Key>)
    requires HomeKey in keys
    ensures RotateWorld(a, keys) == RotateWorld(b, keys)
  {
  }

  /** SelectModel's six checks, one digit at a time from d up to 6: a held
      digit d sets the selection to d - 1, so a later (higher) digit overrides
      an earlier one. */
  function SelectFrom(keys: set<Key>, selected: nat, d: nat): (r: nat)
    requires 1 <= d <= LetterCount + 1
    ensures (exists e :: d <= e <= LetterCount && Digit(e) in keys) ==>
      d <= r + 1 <= LetterCount && Digit(r + 1) in keys &&
      forall e :: r + 1 < e <= LetterCount ==> Digit(e) !in keys
    ensures (forall e :: d <= e <= LetterCount ==> Digit(e) !in keys) ==> r == selected
    decreases LetterCount + 1 - d
  {
    if d > LetterCount then selected
    else SelectFrom(keys, if Digit(d) in keys then d - 1 else selected, d + 1)
  }

  /** SelectModel: the highest held digit key k in 1..6 selects letter k - 1;
      with no digit held the selection stays as it was. */
  function SelectModel(keys: set<Key>, selected: nat): (r: nat)
    ensures (exists e :: 1 <= e <= LetterCount && Digit(e) in keys) ==>
      r < LetterCount && Digit(r + 1) in keys &&
      forall e :: r + 1 < e <= LetterCount ==> Digit(e) !in keys
    ensures (forall e :: 1 <= e <= LetterCount ==> Digit(e) !in keys) ==> r == selected
    ensures selected < LetterCount ==> r < LetterCount
  {
    SelectFrom(keys, selected, 1)
  }

  /** Holding the same keys again selects the same letter. */
  lemma SelectIdempotent(keys: set<Key>, selected: nat)
    ensures SelectModel(keys, SelectModel(keys, selected)) == SelectModel(keys, selected)
  {
  }

  /** The letter-drawing part of a frame: each of the six letters, in order, is
      transformed with the held keys if and only if it is the selected one. */
  method Dispatch<S>(letters: seq<S>, selected: nat, keys: set<Key>, transform: (S, set<Key>) -> S)
    returns (r: seq<S>)
    requires |letters| == LetterCount
    ensures |r| == |letters|
    ensures forall k :: 0 <= k < |r| && k == selected ==> r[k] == transform(letters[k], keys)
    ensures forall k :: 0 <= k < |r| && k != selected ==> r[k] == letters[k]
  {
    r := letters;
    var k := 0;
    while k < LetterCount
      invariant k <= LetterCount && |r| == |letters|
      invariant forall i :: 0 <= i < k && i == selected ==> r[i] == transform(letters[i], keys)
      invariant forall i :: 0 <= i < |r| && (k <= i || i != selected) ==> r[i] == letters[i]
    {
      if selected == k {
        r := r[k := transform(r[k], keys)];
      }
      k := k + 1;
    }
  }

  /** What one frame of the render loop changes: the world angles, the
      selection and the letters' own state. */
  datatype Scene<S> = Scene(angles: Angles, selected: nat, letters: seq<S>)

  /** The scene at start-up: base angles and letter 0 (T) selected. */
  function InitialScene<S>(letters: seq<S>): Scene<S> {
    Scene(BaseAngles, 0, letters)
  }

  /** A whole frame: the angles are stepped, SelectModel runs, then only the
      letter it selected is transformed. */
  method Frame<S>(scene: Scene<S>, keys: set<Key>, transform: (S, set<Key>) -> S) returns (next: Scene<S>)
    requires |scene.letters| == LetterCount
    ensures next.angles == RotateWorld(scene.angles, keys)
    ensures next.selected == SelectModel(keys, scene.selected)
    ensures |next.letters| == LetterCount
    ensures forall k :: 0 <= k < LetterCount ==>
      next.letters[k] == if k == next.selected then transform(scene.letters[k], keys) else scene.letters[k]
    ensures scene.selected < LetterCount ==> next.selected < LetterCount
  {
    var angles := RotateWorld(scene.angles, keys);
    var selected := SelectModel(keys, scene.selected);
    var letters := Dispatch(scene.letters, selected, keys, transform);
    next := Scene(angles, selected, letters);
  }
}
