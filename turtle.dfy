/** The symbol interpreter of the renderer, as a pure state machine: the
    state it keeps, what each symbol does to it, and what a whole string does
    to it. The renderer class runs the same dispatch in place. */
module Turtle {
  import opened Wrappers
  import opened Brackets

  /** A turn angle in degrees, as drawn by randint(0, 45). */
  type Angle = a: int | 0 <= a <= 45

  const FULL_CIRCLE := 360
  /** The initial turn made before the first symbol (a left turn). */
  const INITIAL_TURN := 90
  const INITIAL_STEP := 60
  const INITIAL_THICKNESS := 13
  /** The green channel in hundredths: 0.2 at start, raised by 0.04. */
  const INITIAL_GREEN := 20
  const STEP_DECAY := 4
  const GREEN_GAIN := 4
  const MIN_THICKNESS := 1

  /** A turtle position, kept as a move history: the start point, or the
      result of advancing from another position with a heading and a
      distance. The geometry is not modelled; the lemmas only prove equalities
      between positions, which hold whatever Advance computes. */
  datatype Pos = Start | Advanced(from: Pos, heading: int, dist: int)

  /** Moving forward by dist along heading. */
  function Advance(p: Pos, heading: int, dist: int): Pos {
    Advanced(p, heading, dist)
  }

  /** What '[' saves and ']' restores. */
  datatype Snapshot = Snapshot(heading: int, pos: Pos, thickness: int, step: int, green: int)

  /** A line drawn with the pen down, with the pen width and green channel in
      force when it was drawn. */
  datatype Stroke = Stroke(from: Pos, to: Pos, width: int, green: int)

  /** The interpreter state: the turtle's heading and position, the pen width,
      the step length, the green channel, the branch stack, the lines drawn so
      far and how many angles have been drawn from the angle source. */
  datatype State = State(
    heading: int, pos: Pos, thickness: int, step: int, green: int,
    stack: seq<Snapshot>, strokes: seq<Stroke>, drawn: nat)
  {
    function Save(): Snapshot {
      Snapshot(heading, pos, thickness, step, green)
    }

    /** The five saved quantities agree with those of snapshot s. */
    predicate Matches(s: Snapshot) {
      heading == s.heading && pos == s.pos && thickness == s.thickness && step == s.step && green == s.green
    }
  }

  /** The state of a freshly built renderer: heading east, at the start
      point, width 13, step 60, green 0.20, nothing saved or drawn. */
  function Initial(): (r: State)
    ensures WellFormed(r)
  {
    State(0, Start, INITIAL_THICKNESS, INITIAL_STEP, INITIAL_GREEN, [], [], 0)
  }

  /** The turn made before the first symbol is read. */
  function Begin(st: State): (r: State)
    ensures WellFormed(st) ==> WellFormed(r)
  {
    st.(heading := (st.heading + INITIAL_TURN) % FULL_CIRCLE)
  }

  /** The outcome of interpreting a string: finished, or stopped at index at
      by a close marker with nothing to pop, in the state reached before it. */
  datatype Outcome = Done(st: State) | Underflow(at: nat, st: State)

  /** Moves a failure index past k symbols read before the string. */
  function Shift(o: Outcome, k: nat): Outcome {
    match o
    case Done(_) => o
    case Underflow(at, st) => Underflow(at + k, st)
  }

  function Max(a: int, b: int): int {
    if a < b then b else a
  }

  /** One symbol; None when a close marker finds the stack empty. The k-th
      angle drawn is angle(k). */
  function Step(angle: nat -> Angle, st: State, c: char): (r: Option<State>)
    ensures r.None? <==> c == CLOSE && st.stack == []
  {
    if c == 'F' || c == 'X' then
      var to := Advance(st.pos, st.heading, st.step);
      Some(st.(pos := to, strokes := st.strokes + [Stroke(st.pos, to, st.thickness, st.green)]))
    else if c == '@' then
      Some(st.(step := st.step - STEP_DECAY, green := st.green + GREEN_GAIN,
               thickness := Max(MIN_THICKNESS, st.thickness - 1)))
    else if c == '+' then
      Some(st.(heading := (st.heading - angle(st.drawn)) % FULL_CIRCLE, drawn := st.drawn + 1))
    else if c == '-' then
      Some(st.(heading := (st.heading + angle(st.drawn)) % FULL_CIRCLE, drawn := st.drawn + 1))
    else if c == OPEN then
      Some(st.(stack := st.stack + [st.Save()]))
    else if c == CLOSE then
      if st.stack == [] then None
      else
        var top := st.stack[|st.stack| - 1];
        Some(st.(heading := top.heading, pos := top.pos, thickness := top.thickness,
                 step := top.step, green := top.green, stack := st.stack[..|st.stack| - 1]))
    else
      Some(st)
  }

  /** Interpreting a whole string, left to right, stopping at the first
      failing symbol. */
  function Run(angle: nat -> Angle, st: State, s: string): (r: Outcome)
    ensures r.Underflow? ==> r.at < |s| && s[r.at] == CLOSE
    decreases |s|
  {
    if s == [] then Done(st)
    else
      match Step(angle, st, s[0])
      case None => Underflow(0, st)
      case Some(next) => Shift(Run(angle, next, s[1..]), 1)
  }

  // ---------------------------------------------------------------------
  // One symbol at a time

  /** '@' shortens the step by exactly 4 with no lower bound, raises green by
      4 hundredths, lowers the width by one but not below 1, and changes
      nothing else. */
  lemma DecayStep(angle: nat -> Angle, st: State)
    ensures Step(angle, st, '@').Some?
    ensures var r := Step(angle, st, '@').value;
      && r.step == st.step - 4
      && r.green == st.green + 4
      && r.thickness == (if st.thickness > 1 then st.thickness - 1 else 1)
      && r.thickness >= 1
      && r == st.(step := r.step, green := r.green, thickness := r.thickness)
  {
  }

  /** 'F' and 'X' move forward by the step along the heading, drawing one
      line with the current width and green, and change nothing else. */
  lemma ForwardStep(angle: nat -> Angle, st: State, c: char)
    requires c == 'F' || c == 'X'
    ensures Step(angle, st, c).Some?
    ensures var r := Step(angle, st, c).value;
      && r.pos == Advance(st.pos, st.heading, st.step)
      && r.strokes == st.strokes + [Stroke(st.pos, r.pos, st.thickness, st.green)]
      && r == st.(pos := r.pos, strokes := r.strokes)
  {
  }

  /** '+' turns right and '-' turns left, by the next angle of the source
      (the one numbered by the count of angles drawn so far), which lies in
      0..45; nothing else changes but that count. */
  lemma TurnStep(angle: nat -> Angle, st: State, c: char)
    requires c == '+' || c == '-'
    ensures Step(angle, st, c).Some?
    ensures var r := Step(angle, st, c).value;
      && r.drawn == st.drawn + 1
      && r == st.(heading := r.heading, drawn := r.drawn)
      && r.heading == (if c == '+' then st.heading - angle(st.drawn) else st.heading + angle(st.drawn)) % 360
  {
  }

  /** '[' pushes exactly one snapshot of the five saved quantities and
      changes nothing else. */
  lemma OpenStep(angle: nat -> Angle, st: State)
    ensures Step(angle, st, '[').Some?
    ensures var r := Step(angle, st, '[').value;
      && |r.stack| == |st.stack| + 1
      && r.stack[..|st.stack|] == st.stack
      && st.Matches(r.stack[|st.stack|])
      && r == st.(stack := r.stack)
  {
  }

  /** ']' fails on an empty stack; otherwise it removes exactly the top
      snapshot, restores the five saved quantities from it, and goes back
      with the pen up: no line is drawn and no angle is drawn. */
  lemma CloseStep(angle: nat -> Angle, st: State)
    ensures Step(angle, st, ']').None? <==> st.stack == []
    ensures st.stack != [] ==>
      var r := Step(angle, st, ']').value;
      && r.stack + [st.stack[|st.stack| - 1]] == st.stack
      && r.Matches(st.stack[|st.stack| - 1])
      && r.strokes == st.strokes
      && r.drawn == st.drawn
  {
  }

  /** Every other symbol, such as 'Y', changes nothing. */
  lemma InertStep(angle: nat -> Angle, st: State, c: char)
    requires c !in {'F', 'X', '@', '+', '-', '[', ']'}
    ensures Step(angle, st, c) == Some(st)
  {
  }

  // ---------------------------------------------------------------------
  // Whole strings

  /** Interpreting a concatenation interprets the first part, then the second
      from the state the first left, unless the first part already failed. */
  lemma {:induction false} RunConcat(angle: nat -> Angle, st: State, a: string, b: string)
    ensures Run(angle, st, a + b) ==
      match Run(angle, st, a)
      case Underflow(_, _) => Run(angle, st, a)
      case Done(mid) => Shift(Run(angle, mid, b), |a|)
    decreases |a|
  {
    if a == [] {
      assert a + b == b;
    } else {
      assert (a + b)[0] == a[0];
      assert (a + b)[1..] == a[1..] + b;
      match Step(angle, st, a[0])
      case None =>
      case Some(next) =>
        RunConcat(angle, next, a[1..], b);
    }
  }

  /** The state the invariants of the interpreter keep: a heading in
      [0, 360) and a width of at least 1, now and in every snapshot. */
  predicate WellFormed(st: State) {
    && 0 <= st.heading < FULL_CIRCLE
    && st.thickness >= MIN_THICKNESS
    && forall i :: 0 <= i < |st.stack| ==>
         0 <= st.stack[i].heading < FULL_CIRCLE && st.stack[i].thickness >= MIN_THICKNESS
  }

  lemma StepKeepsWellFormed(angle: nat -> Angle, st: State, c: char)
    requires WellFormed(st)
    requires Step(angle, st, c).Some?
    ensures WellFormed(Step(angle, st, c).value)
  {
  }

  /** The width never drops below 1 and the heading stays in [0, 360),
      whatever the string and whether or not it fails. */
  lemma {:induction false} RunKeepsWellFormed(angle: nat -> Angle, st: State, s: string)
    requires WellFormed(st)
    ensures WellFormed(Run(angle, st, s).st)
    decreases |s|
  {
    if s != [] {
      match Step(angle, st, s[0])
      case None =>
      case Some(next) =>
        StepKeepsWellFormed(angle, st, s[0]);
        RunKeepsWellFormed(angle, next, s[1..]);
    }
  }

  /** Interpretation fails exactly when the string closes more branches than
      the stack holds, and otherwise ends with as many snapshots as the
      bracket depth the string ends at. */
  lemma {:induction false} RunFollowsScan(angle: nat -> Angle, st: State, s: string)
    ensures Run(angle, st, s).Done? <==> Scan(s, |st.stack|).Some?
    ensures Run(angle, st, s).Done? ==> Scan(s, |st.stack|) == Some(|Run(angle, st, s).st.stack|)
    decreases |s|
  {
    if s != [] {
      match Step(angle, st, s[0])
      case None =>
      case Some(next) =>
        RunFollowsScan(angle, next, s[1..]);
    }
  }

  /** A failure happens at a close marker, with an empty stack, in the state
      that the symbols before it produced. */
  lemma {:induction false} UnderflowAtClose(angle: nat -> Angle, st: State, s: string)
    requires Run(angle, st, s).Underflow?
    ensures var k := Run(angle, st, s).at;
      && k < |s| && s[k] == CLOSE
      && Run(angle, st, s).st.stack == []
      && Run(angle, st, s[..k]) == Done(Run(angle, st, s).st)
    decreases |s|
  {
    match Step(angle, st, s[0])
    case None =>
      assert s[..0] == [];
    case Some(next) =>
      UnderflowAtClose(angle, next, s[1..]);
      var k := Run(angle, next, s[1..]).at;
      assert s[..k + 1][0] == s[0];
      assert s[..k + 1][1..] == s[1..][..k];
  }

  /** Scanning from depth d without failing leaves the bottom |stack| - d
      snapshots untouched. */
  lemma {:induction false} RunKeepsStackBase(angle: nat -> Angle, st: State, s: string, d: nat)
    requires d <= |st.stack|
    requires Scan(s, d).Some?
    ensures Run(angle, st, s).Done?
    ensures var n := |st.stack| - d;
      n <= |Run(angle, st, s).st.stack| && Run(angle, st, s).st.stack[..n] == st.stack[..n]
    decreases |s|
  {
    if s != [] {
      var next := Step(angle, st, s[0]).value;
      var n := |st.stack| - d;
      if s[0] == OPEN {
        RunKeepsStackBase(angle, next, s[1..], d + 1);
        assert next.stack[..n] == st.stack[..n];
      } else if s[0] == CLOSE {
        RunKeepsStackBase(angle, next, s[1..], d - 1);
        assert next.stack[..n] == st.stack[..n];
      } else {
        RunKeepsStackBase(angle, next, s[1..], d);
      }
    }
  }

  /** A balanced string runs to completion from any state and gives back the
      stack it started with. */
  lemma BalancedKeepsStack(angle: nat -> Angle, st: State, w: string)
    requires Balanced(w)
    ensures Run(angle, st, w).Done?
    ensures Run(angle, st, w).st.stack == st.stack
  {
    RunKeepsStackBase(angle, st, w, 0);
    ScanLift(w, 0, 0, |st.stack|);
    RunFollowsScan(angle, st, w);
  }

  /** Interpreting '[' w ']' for a balanced w restores the stack, step, width,
      green channel, heading and position to their values before '['. */
  lemma BranchRestores(angle: nat -> Angle, st: State, w: string)
    requires Balanced(w)
    ensures Run(angle, st, [OPEN] + w + [CLOSE]).Done?
    ensures var r := Run(angle, st, [OPEN] + w + [CLOSE]).st;
      r.stack == st.stack && r.Matches(st.Save())
  {
    var pushed := Step(angle, st, OPEN).value;
    assert Run(angle, st, [OPEN]) == Done(pushed);
    RunConcat(angle, st, [OPEN], w);
    BalancedKeepsStack(angle, pushed, w);
    var inner := Run(angle, pushed, w).st;
    assert Run(angle, inner, [CLOSE]) == Done(Step(angle, inner, CLOSE).value);
    RunConcat(angle, st, [OPEN] + w, [CLOSE]);
  }

  /** "F[F]F": after the branch the turtle is back where the branch began,
      without a line for the way back, so the last F draws the same line as
      the one inside the branch. */
  lemma BranchThenForward(angle: nat -> Angle, st: State)
    ensures var p1 := Advance(st.pos, st.heading, st.step);
      var p2 := Advance(p1, st.heading, st.step);
      var line1, line2 := Stroke(st.pos, p1, st.thickness, st.green), Stroke(p1, p2, st.thickness, st.green);
      Run(angle, st, "F[F]F") == Done(st.(pos := p2, strokes := st.strokes + [line1, line2, line2]))
  {
    var s1 := Step(angle, st, 'F').value;
    var s2 := Step(angle, s1, '[').value;
    var s3 := Step(angle, s2, 'F').value;
    var s4 := Step(angle, s3, ']').value;
    var s5 := Step(angle, s4, 'F').value;
    assert s2.stack == st.stack + [Snapshot(st.heading, s1.pos, st.thickness, st.step, st.green)];
    assert s4 == s3.(pos := s1.pos, stack := st.stack);
    assert Run(angle, s4, "F") == Done(s5);
    assert "]F"[0] == ']' && "]F"[1..] == "F";
    assert Run(angle, s3, "]F") == Done(s5);
    assert "F]F"[0] == 'F' && "F]F"[1..] == "]F";
    assert Run(angle, s2, "F]F") == Done(s5);
    assert "[F]F"[0] == '[' && "[F]F"[1..] == "F]F";
    assert Run(angle, s1, "[F]F") == Done(s5);
    assert "F[F]F"[0] == 'F' && "F[F]F"[1..] == "[F]F";
    assert Run(angle, st, "F[F]F") == Done(s5);
    assert s5.strokes == st.strokes + [Stroke(st.pos, s1.pos, st.thickness, st.green)]
      + [Stroke(s1.pos, s3.pos, st.thickness, st.green)] + [Stroke(s1.pos, s3.pos, st.thickness, st.green)];
  }

  /** k decay markers lower the step by exactly 4k (it can go negative),
      raise green by 4k hundredths, and lower the width by k but not below 1. */
  lemma {:induction false} RepeatedDecay(angle: nat -> Angle, st: State, k: nat)
    requires st.thickness >= 1
    ensures var r := Run(angle, st, seq(k, _ => '@'));
      && r.Done?
      && r.st.step == st.step - 4 * k
      && r.st.green == st.green + 4 * k
      && r.st.thickness == Max(1, st.thickness - k)
      && r.st == st.(step := r.st.step, green := r.st.green, thickness := r.st.thickness)
    decreases k
  {
    if k > 0 {
      var s := seq(k, _ => '@');
      assert s[0] == '@';
      assert s[1..] == seq(k - 1, _ => '@');
      RepeatedDecay(angle, Step(angle, st, '@').value, k - 1);
    }
  }

  /** From a fresh renderer, sixteen decay markers take the step from 60 to
      -4 while the width stays at its floor of 1. */
  lemma StepGoesNegative(angle: nat -> Angle)
    ensures Run(angle, Initial(), seq(16, _ => '@')).st.step == -4
    ensures Run(angle, Initial(), seq(16, _ => '@')).st.thickness == 1
  {
    RepeatedDecay(angle, Initial(), 16);
  }
}
