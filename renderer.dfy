/** The renderer: an object whose fields the dispatch loop updates in place,
    one symbol of the expanded string at a time. */
module Rendering {
  import opened Wrappers
  import opened Rewriting
  import opened Brackets
  import opened Turtle

  class Renderer {
    var heading: int
    var pos: Pos
    var thickness: int
    var step: int
    var green: int
    var stack: seq<Snapshot>
    var strokes: seq<Stroke>
    /** The angle source: the k-th angle drawn is angle(k). */
    const angle: nat -> Angle
    var drawn: nat

    /** The fields as an interpreter state. */
    function Current(): State
      reads this
    {
      State(heading, pos, thickness, step, green, stack, strokes, drawn)
    }

    /** The renderer's invariant: a heading in [0, 360) and a width of at
        least 1, in the fields and in every saved snapshot. */
    predicate Valid()
      reads this
    {
      WellFormed(Current())
    }

    constructor (angle: nat -> Angle)
      ensures Valid()
      ensures Current() == Initial()
      ensures this.angle == angle
    {
      heading := 0;
      pos := Start;
      thickness := INITIAL_THICKNESS;
      step := INITIAL_STEP;
      green := INITIAL_GREEN;
      stack := [];
      strokes := [];
      this.angle := angle;
      drawn := 0;
    }

    /** Expands the L-system for its default number of generations, turns
        left by 90 degrees and interprets the expansion. The result is the
        index of a close marker met with an empty stack, at which the render
        stopped, or None when the whole expansion was interpreted. */
    method Render(sys: LSystem) returns (failedAt: Option<nat>)
      requires Valid()
      modifies this
      ensures Valid()
      ensures var out := Run(angle, Begin(old(Current())), sys.Generation(Passes(sys.numGens), sys.axiom));
        && Current() == out.st
        && failedAt == (if out.Underflow? then Some(out.at) else None)
    {
      var symbols := sys.GetResult(sys.numGens, sys.axiom);
      heading := (heading + INITIAL_TURN) % FULL_CIRCLE;
      ghost var start := Current();
      RunKeepsWellFormed(angle, start, symbols);
      var i := 0;
      while i < |symbols|
        invariant 0 <= i <= |symbols|
        invariant Shift(Run(angle, Current(), symbols[i..]), i) == Run(angle, start, symbols)
      {
        var c := symbols[i];
        assert symbols[i..][0] == c;
        assert symbols[i..][1..] == symbols[i + 1..];
        ghost var before := Current();
        if c == 'F' || c == 'X' {
          var to := Advance(pos, heading, step);
          strokes := strokes + [Stroke(pos, to, thickness, green)];
          pos := to;
        } else if c == '@' {
          step := step - STEP_DECAY;
          green := green + GREEN_GAIN;
          thickness := thickness - 1;
          thickness := Max(MIN_THICKNESS, thickness);
        } else if c == '+' {
          heading := (heading - angle(drawn)) % FULL_CIRCLE;
          drawn := drawn + 1;
        } else if c == '-' {
          heading := (heading + angle(drawn)) % FULL_CIRCLE;
          drawn := drawn + 1;
        } else if c == OPEN {
          stack := stack + [Snapshot(heading, pos, thickness, step, green)];
        } else if c == CLOSE {
          if stack == [] {
            assert Run(angle, Current(), symbols[i..]) == Underflow(0, Current());
            failedAt := Some(i);
            return;
          }
          // Back to the saved point with the pen up: no line is drawn.
          var top := stack[|stack| - 1];
          stack := stack[..|stack| - 1];
          heading, pos, thickness, step, green := top.heading, top.pos, top.thickness, top.step, top.green;
        }
        assert Step(angle, before, c) == Some(Current());
        i := i + 1;
      }
      failedAt := None;
    }
  }
}
