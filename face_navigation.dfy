/** The face navigator of the mesh debugger: the typed jump and the
    Previous/Next buttons, as functions of the current face and the face
    count. The class in MeshDebugger applies them to its fields. */
module FaceNavigation {

  lemma {:induction false} MulAtLeast(n: int, d: int)
    requires n > 0 && d >= 1
    ensures n * d >= n
  {
    if d > 1 {
      MulAtLeast(n, d - 1);
    }
  }

  /** Dafny's `%` is the remainder of the one quotient that leaves a
      remainder in `[0, n)`. */
  lemma ModUnique(a: int, n: int, q: int, r: int)
    requires n > 0 && a == n * q + r && 0 <= r < n
    ensures a % n == r
  {
    var d := q - a / n;
    assert n * d == a % n - r;
    if d >= 1 {
      MulAtLeast(n, d);
    } else if d <= -1 {
      MulAtLeast(n, -d);
    }
  }

  /** For a negative dividend the truncated remainder `-((-a) % n)` and the
      Euclidean remainder `a % n` differ by `n`, unless both are zero. */
  lemma NegatedRemainder(a: int, n: int)
    requires n > 0 && a < 0
    ensures (-a) % n == 0 ==> a % n == 0
    ensures (-a) % n != 0 ==> a % n == n - (-a) % n
  {
    var m := (-a) % n;
    var q := (-a) / n;
    assert -a == n * q + m;
    if m == 0 {
      ModUnique(a, n, -q, 0);
    } else {
      ModUnique(a, n, -q - 1, n - m);
    }
  }

  /** C#'s `a % n` for a positive divisor: the remainder of division
      truncated toward zero, which takes the sign of `a` (Dafny's own `%`
      never goes negative). It agrees with the Euclidean remainder on a
      non-negative dividend and falls short of it by `n` on a negative one
      with a non-zero remainder. */
  function CsRemainder(a: int, n: int): (r: int)
    requires n > 0
    ensures -n < r < n
    ensures a >= 0 ==> r == a % n
    ensures a < 0 ==> r <= 0 && (r == a % n || r == a % n - n)
  {
    if a >= 0 then a % n
    else NegatedRemainder(a, n); -((-a) % n)
  }

  /** The "Jump to face" field: the typed value is taken only when it names
      a face; anything else leaves the current face as it was. */
  function JumpTo(current: int, requested: int, numFaces: int): (r: int)
    ensures 0 <= requested < numFaces ==> r == requested
    ensures !(0 <= requested < numFaces) ==> r == current
  {
    if requested != current then
      if requested >= 0 && requested < numFaces then requested else current
    else current
  }

  /** The residue of `a + 1` follows the residue of `a`, wrapping at `n`. */
  lemma ModSuccessor(a: int, n: int)
    requires n > 0
    ensures (a + 1) % n == if a % n == n - 1 then 0 else a % n + 1
  {
    var q := a / n;
    if a % n == n - 1 {
      ModUnique(a + 1, n, q + 1, 0);
    } else {
      ModUnique(a + 1, n, q, a % n + 1);
    }
  }

  /** "Previous Face": `(current - 1) % numFaces` in C#, moved up by
      `numFaces` when that is negative. The correction makes it the true
      (never negative) residue of `current - 1`. */
  function PreviousFace(current: int, numFaces: int): (r: int)
    requires numFaces > 0
    ensures 0 <= r < numFaces
    ensures r == (current - 1) % numFaces
  {
    var r := CsRemainder(current - 1, numFaces);
    if r < 0 then r + numFaces else r
  }

  /** "Next Face": `(current + 1) % numFaces` in C#; from any face it is the
      residue of `current + 1`. */
  function NextFace(current: int, numFaces: int): (r: int)
    requires numFaces > 0
    ensures current >= -1 ==> 0 <= r < numFaces && r == (current + 1) % numFaces
  {
    CsRemainder(current + 1, numFaces)
  }

  /** One pass of the inspector's GUI: the jump field is read first, then
      "Previous Face", then "Next Face". From a face it always reaches a
      face. */
  function Navigate(current: int, numFaces: int, typed: int, previous: bool, next: bool): (r: int)
    requires numFaces > 0
    requires 0 <= current < numFaces
    ensures 0 <= r < numFaces
    ensures !previous && !next ==> r == JumpTo(current, typed, numFaces)
  {
    var jumped := JumpTo(current, typed, numFaces);
    var stepped := if previous then PreviousFace(jumped, numFaces) else jumped;
    if next then NextFace(stepped, numFaces) else stepped
  }

  /** On a face, Next moves to the following face and wraps from the last
      face to face 0. */
  lemma NextStep(current: int, numFaces: int)
    requires 0 <= current < numFaces
    ensures NextFace(current, numFaces) == if current == numFaces - 1 then 0 else current + 1
  {
    if current == numFaces - 1 {
      ModUnique(numFaces, numFaces, 1, 0);
    } else {
      ModUnique(current + 1, numFaces, 0, current + 1);
    }
  }

  /** On a face, Previous moves to the preceding face and wraps from face 0
      to the last face. */
  lemma PreviousStep(current: int, numFaces: int)
    requires 0 <= current < numFaces
    ensures PreviousFace(current, numFaces) == if current == 0 then numFaces - 1 else current - 1
  {
    if current == 0 {
      ModUnique(-1, numFaces, -1, numFaces - 1);
    } else {
      ModUnique(current - 1, numFaces, 0, current - 1);
    }
  }

  /** Previous undoes Next and Next undoes Previous. */
  lemma PreviousUndoesNext(current: int, numFaces: int)
    requires 0 <= current < numFaces
    ensures PreviousFace(NextFace(current, numFaces), numFaces) == current
    ensures NextFace(PreviousFace(current, numFaces), numFaces) == current
  {
    NextStep(current, numFaces);
    PreviousStep(current, numFaces);
    NextStep(PreviousFace(current, numFaces), numFaces);
    PreviousStep(NextFace(current, numFaces), numFaces);
  }

  /** `steps` presses of "Next Face". */
  function NextTimes(current: int, numFaces: int, steps: nat): int
    requires numFaces > 0
  {
    if steps == 0 then current else NextFace(NextTimes(current, numFaces, steps - 1), numFaces)
  }

  /** `steps` presses of Next from a face land on `(current + steps) % numFaces`. */
  lemma {:induction false} NextTimesIsOffset(current: int, numFaces: int, steps: nat)
    requires 0 <= current < numFaces
    ensures NextTimes(current, numFaces, steps) == (current + steps) % numFaces
  {
    if steps == 0 {
      ModUnique(current, numFaces, 0, current);
    } else {
      NextTimesIsOffset(current, numFaces, steps - 1);
      var before := NextTimes(current, numFaces, steps - 1);
      NextStep(before, numFaces);
      ModSuccessor(current + steps - 1, numFaces);
    }
  }

  /** `numFaces` presses of Next return to the starting face. */
  lemma NextCycle(current: int, numFaces: int)
    requires 0 <= current < numFaces
    ensures NextTimes(current, numFaces, numFaces) == current
  {
    NextTimesIsOffset(current, numFaces, numFaces);
    ModUnique(current + numFaces, numFaces, 1, current);
  }
}
