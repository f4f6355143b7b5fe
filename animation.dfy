/**
 * The widget's auto-rotation state machine as pure values: the rotation flag,
 * the frame counter that drives the rotation angle, and the number of redraw
 * requests issued so far. Each transition here specifies one member of the
 * widget class; the lemmas state what a caller can rely on across several
 * calls.
 */
module Animation {

  /** Frames per full turn of the auto-rotation. */
  const Period: int := 200

  datatype WidgetState = WidgetState(rotating: bool, frame: int, redrawRequests: nat)

  /** The frame counter stays in [0, Period). */
  predicate Valid(s: WidgetState) {
    0 <= s.frame < Period
  }

  /** The frame counter after one painted frame. */
  function NextFrame(f: int): (r: int)
    requires 0 <= f < Period
    ensures 0 <= r < Period
    ensures f < Period - 1 ==> r == f + 1
    ensures f == Period - 1 ==> r == 0
  {
    (f + 1) % Period
  }

  /** Enabling or disabling rotation; a request for the current value does nothing. */
  function SetRotation(s: WidgetState, v: bool): (r: WidgetState)
    ensures r.rotating == v && r.frame == s.frame
    ensures v == s.rotating <==> r == s
    ensures v == s.rotating <==> r.redrawRequests == s.redrawRequests
    ensures v != s.rotating <==> r.redrawRequests == s.redrawRequests + 1
  {
    if v != s.rotating then s.(rotating := v, redrawRequests := s.redrawRequests + 1) else s
  }

  /** Flipping rotation always changes the flag and always asks for a redraw. */
  function ToggleRotation(s: WidgetState): (r: WidgetState)
    ensures r.rotating != s.rotating && r.frame == s.frame
    ensures r.redrawRequests == s.redrawRequests + 1
  {
    s.(rotating := !s.rotating, redrawRequests := s.redrawRequests + 1)
  }

  /** The state part of one painted frame: advance the counter, request the next frame. */
  function Paint(s: WidgetState): (r: WidgetState)
    requires Valid(s)
    ensures Valid(r) && r.rotating == s.rotating
    ensures r.frame == NextFrame(s.frame)
    ensures r.redrawRequests == s.redrawRequests + 1
  {
    s.(frame := (s.frame + 1) % Period, redrawRequests := s.redrawRequests + 1)
  }

  /** `n` consecutive painted frames. */
  function Paints(s: WidgetState, n: nat): (r: WidgetState)
    requires Valid(s)
    ensures Valid(r)
    decreases n
  {
    if n == 0 then s else Paints(Paint(s), n - 1)
  }

  /** Toggling is setting to the opposite of the current value. */
  lemma ToggleIsSetToOpposite(s: WidgetState)
    ensures ToggleRotation(s) == SetRotation(s, !s.rotating)
  {
  }

  /** Two toggles restore the flag and the counter, at the cost of two redraws. */
  lemma ToggleTwiceRestoresFlag(s: WidgetState)
    ensures ToggleRotation(ToggleRotation(s)) == s.(redrawRequests := s.redrawRequests + 2)
  {
  }

  /** Setting the same value twice is the same as setting it once. */
  lemma SetRotationIdempotent(s: WidgetState, v: bool)
    ensures SetRotation(SetRotation(s, v), v) == SetRotation(s, v)
  {
  }

  /** Neither setter nor toggle touches the frame counter's range. */
  lemma RotationKeepsValid(s: WidgetState, v: bool)
    requires Valid(s)
    ensures Valid(SetRotation(s, v)) && Valid(ToggleRotation(s))
  {
  }

  /**
   * After `n` painted frames the counter has advanced by `n` modulo the
   * period, the flag is unchanged, and exactly `n` redraws were requested.
   */
  lemma {:induction false} PaintsAdvance(s: WidgetState, n: nat)
    requires Valid(s)
    ensures Paints(s, n).frame == (s.frame + n) % Period
    ensures Paints(s, n).rotating == s.rotating
    ensures Paints(s, n).redrawRequests == s.redrawRequests + n
    decreases n
  {
    if n > 0 {
      var s' := Paint(s);
      PaintsAdvance(s', n - 1);
      ModStep(s.frame, n - 1);
    }
  }

  /** ((f + 1) mod P + k) mod P == (f + k + 1) mod P, for a counter in range. */
  lemma ModStep(f: int, k: nat)
    requires 0 <= f < Period
    ensures ((f + 1) % Period + k) % Period == (f + k + 1) % Period
  {
  }

  /**
   * Painting a whole number of periods (one period: 200 frames) brings the
   * counter back to where it started; only the redraw count has moved.
   */
  lemma WholeTurnsRestoreFrame(s: WidgetState, turns: nat)
    requires Valid(s)
    ensures Paints(s, turns * Period as nat) == s.(redrawRequests := s.redrawRequests + turns * Period as nat)
  {
    var n: nat := turns * Period as nat;
    var r := Paints(s, n);
    PaintsAdvance(s, n);
    ModMultiple(s.frame, turns);
    assert r.frame == s.frame && r.rotating == s.rotating;
  }

  /** The counter is back at its start exactly when a whole number of turns was painted. */
  lemma FrameReturnsIffWholeTurns(s: WidgetState, n: nat)
    requires Valid(s)
    ensures Paints(s, n).frame == s.frame <==> n % Period == 0
  {
    PaintsAdvance(s, n);
    var q, m := n / Period, n % Period;
    assert n == q * Period + m;
    assert (s.frame + n) % Period == (s.frame + m) % Period by {
      assert s.frame + n == (s.frame + m) + q * Period;
      ModMultiple(s.frame + m, q);
    }
    if m != 0 {
      assert (s.frame + m) % Period != s.frame;
    }
  }

  /** Adding whole periods does not change a remainder. */
  lemma ModMultiple(x: int, q: nat)
    ensures (x + q * Period) % Period == x % Period
  {
  }
}
