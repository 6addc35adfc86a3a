# Fractal tree: L-system rewriting and turtle interpretation

This project models the core of a small fractal-tree renderer written in
Python. The renderer has two stages:

- **Rewriting.** An L-system (an axiom string and per-symbol replacement rules)
  is rewritten for a number of generations. In one pass every symbol becomes
  its rule's right-hand side if it has a rule, or stays itself.
- **Interpretation.** A stateful turtle interpreter walks the expanded string
  symbol by symbol:
  - `F` and `X` move forward by the current step.
  - `@` shortens the step, raises the green colour channel and thins the pen.
  - `+` and `-` turn by a random angle in 0..45 degrees.
  - `[` saves heading, position, pen width, step and green on a stack.
  - `]` pops that snapshot and returns to it with the pen up.

The concrete plant uses axiom `XY`, the rule `X -> F[@[-X]+X]` and 13
generations.

Modules:

- `Wrappers` (`wrappers.dfy`): the `Option` type.
- `Rewriting` (`lsystem.dfy`): the `LSystem` datatype.
  - `ApplyRules` is one pass, a function.
  - `Generation` is the n-fold pass, a function.
  - `GetResult` is the source's loop, a method proved equal to `Generation`.
  - Lemmas: the pass works symbol by symbol, leaves rule-less symbols alone,
    has a length equal to a weight sum, and its generations compose.
- `Brackets` (`brackets.dfy`): `Scan` gives
  the bracket depth of a string, or `None` when a `]` has no open `[`.
  Lemmas: rules that leave the markers alone and have balanced right-hand
  sides keep every generation of a balanced axiom balanced.
- `Turtle` (`turtle.dfy`): the interpreter as a pure state machine.
  - `Step` handles one symbol.
  - `Run` handles a string.
  - Lemmas per symbol and over whole strings: the width floor, stack depth
    following `Scan`, failure exactly at an unmatched `]`, and `[ w ]`
    restoring everything.
- `Rendering` (`renderer.dfy`): the class `Renderer`. Its fields are updated
  in place by the `Render` loop, which is proved to end in the state `Run`
  computes.
- `Plant` (`plant.dfy`): the plant L-system. Every generation is balanced, and
  rendering it never fails and leaves the stack empty.

Abstractions:

- **Position** is the datatype `Pos`, a move history: the start point or
  `Advance(p, heading, dist)`. Every lemma proves only equalities between
  positions, which hold whatever `Advance` computes.
- **Heading** is an integer number of degrees in [0, 360). The turtle reports
  headings modulo 360. Every turn in the source is an integer.
- **Random angles** come from an angle source `angle: nat -> Angle`, where
  `Angle` is 0..45. The k-th angle drawn is `angle(k)`, and the state counts
  how many angles have been drawn. This is a parameter of the renderer, in the
  place of `randint(0, 45)`.
- **Green channel** is an integer number of hundredths. It starts at 20 and
  `@` adds 4.
- **Lines drawn** are recorded as `Stroke`s: start, end, width and green. This
  records that `]` goes back with the pen up: it adds no stroke.
- **`]` on an empty stack** is the `IndexError` of `list.pop()` in the source.
  `Run` returns `Underflow(at, st)`: the index of that symbol and the state
  reached before it. `Render` returns `Some(at)` and leaves the fields in that
  state.

Two points of the source worth noting:

- The step has no floor: `app/main.py:86` subtracts 4 every time, and
  `StepGoesNegative` shows it reaching -4.
- The source fails with a bare `IndexError` from `list.pop()` at
  `app/main.py:99`. The model also reports the index of the failing `]`.

## Model

| member | source | states |
|---|---|---|
| `Rewriting.LSystem.ApplyRules` | app/main.py:37 | one pass: the images of the symbols, each its rule's right-hand side or the symbol itself, joined in order |
| `Rewriting.LSystem.Generation` | app/main.py:43-46 | the string after n passes from the axiom: the axiom for 0, one more pass over generation n - 1 otherwise |
| `Rewriting.ApplyRulesConcat` | app/main.py:37 | a pass over `a + b` is the pass over `a` followed by the pass over `b`: the pass works symbol by symbol, in order |
| `Rewriting.ApplyRulesSingle` | app/main.py:37 | one symbol becomes its rule's right-hand side, or itself when it has no rule |
| `Rewriting.UnruledSymbolKept` | app/main.py:37 | a symbol without a rule comes out unchanged, in place, between the rewritten text before and after it |
| `Rewriting.ApplyRulesIdentity` | app/main.py:37 | a string none of whose symbols has a rule is left unchanged by a pass |
| `Rewriting.EmptyRulesIdentity` | app/main.py:37 | with an empty rule map the pass is the identity |
| `Rewriting.ApplyRulesLength` | app/main.py:37 | the output length equals the sum over input symbols of the rule length, or 1 for a symbol without a rule |
| `Rewriting.WeightSumBounds` | app/main.py:37 | when no rule is empty, that sum is at least the input length, and it is larger when some symbol has a rule longer than 1 |
| `Rewriting.LSystem.GetResult` | app/main.py:39-46 | the loop returns generation `gens` of the axiom: the axiom itself for a count of 0 or less (an empty `range`), otherwise one more pass over generation `gens - 1` |
| `Rewriting.GenerationShift` | app/main.py:43-46 | n + 1 passes over `a` equal n passes over the once-rewritten `a` |
| `Rewriting.GenerationCompose` | app/main.py:43-46 | m passes followed by n passes equal m + n passes |
| `Rewriting.GenerationOfUnruled` | app/main.py:37-46 | an axiom with no ruled symbol is the same in every generation |
| `Rewriting.GenerationLengthMonotone` | app/main.py:37-46 | when no rule is empty, each generation is at least as long as the one before |
| `Brackets.ScanConcat` | app/main.py:95-99 | the bracket depth of a concatenation is that of the second part scanned from where the first ended, and an unmatched close in the first part makes the whole fail |
| `Brackets.ScanLift` | app/main.py:95-99 | a string that scans from depth `base` to `e` scans from `base + d` to `e + d` |
| `Brackets.ApplyRulesKeepsScan` | app/main.py:37 | a pass with rules that leave `[` and `]` alone and have balanced right-hand sides does not change the result of the bracket scan, from any starting depth |
| `Brackets.GenerationBalanced` | app/main.py:43-46 | with such rules, every generation of a balanced axiom is balanced |
| `Turtle.Initial` | app/main.py:69-73 | the state of a new renderer: heading 0 at the start point, width 13, step 60, green 20 hundredths, empty stack; it satisfies the width and heading invariant |
| `Turtle.Begin` | app/main.py:78 | the left turn by 90 degrees made before the first symbol; it keeps the width and heading invariant |
| `Turtle.Step` | app/main.py:83-104 | the dispatch on one symbol; it fails exactly on a `]` with an empty stack |
| `Turtle.Run` | app/main.py:81-104 | the symbols interpreted left to right from a state, stopping at the first failing symbol; a failure index always points at a `]` of the string |
| `Turtle.ForwardStep` | app/main.py:83-84 | `F` and `X` advance the position by the step along the heading and draw one line with the current width and green; nothing else changes |
| `Turtle.DecayStep` | app/main.py:85-90 | `@` lowers the step by exactly 4 with no floor, raises green by 4 hundredths, lowers the width by 1 but not below 1, and changes nothing else |
| `Turtle.TurnStep` | app/main.py:91-94 | `+` turns right and `-` turns left by the next angle from the source, which lies in 0..45; only the heading and the count of angles drawn change |
| `Turtle.OpenStep` | app/main.py:95-97 | `[` pushes exactly one snapshot holding heading, position, width, step and green, and changes nothing else |
| `Turtle.CloseStep` | app/main.py:98-104 | `]` fails exactly when the stack is empty; otherwise it removes exactly the top snapshot, restores the five quantities from it, and draws no line |
| `Turtle.InertStep` | app/main.py:81-104 | any other symbol, such as `Y`, changes nothing |
| `Turtle.RunConcat` | app/main.py:81-104 | interpreting `a + b` interprets `a`, then `b` from the state `a` left; a failure in `a` is the failure of the whole |
| `Turtle.RunKeepsWellFormed` | app/main.py:85-90 | the width never falls below 1 and the heading stays in [0, 360), in the fields and in every snapshot, whatever the string |
| `Turtle.RunFollowsScan` | app/main.py:95-99 | interpretation fails exactly when the string closes more branches than the stack holds; otherwise the final stack size is the final bracket depth |
| `Turtle.UnderflowAtClose` | app/main.py:98-99 | a failure happens at a `]`, with an empty stack, in exactly the state the preceding symbols produced |
| `Turtle.RunKeepsStackBase` | app/main.py:95-99 | a string that never closes more than `d` levels leaves all but the top `d` snapshots untouched and does not fail |
| `Turtle.BalancedKeepsStack` | app/main.py:95-104 | a balanced string runs to completion from any state and gives back the stack it started with |
| `Turtle.BranchRestores` | app/main.py:95-104 | interpreting `[ w ]` for a balanced `w` restores stack, step, width, green, heading and position to their values before `[` |
| `Turtle.BranchThenForward` | app/main.py:83-104 | interpreting `F[F]F` returns after the branch to where it started without drawing, so the last `F` draws the same line as the one inside the branch |
| `Turtle.RepeatedDecay` | app/main.py:85-90 | k decay markers lower the step by exactly 4k, raise green by 4k hundredths, lower the width by k down to a floor of 1, and change nothing else |
| `Turtle.StepGoesNegative` | app/main.py:69-73 | from the initial state (step 60, width 13), sixteen decays give step -4 and width 1 |
| `Rendering.Renderer.constructor` | app/main.py:69-73 | a new renderer has step 60, width 13, green 0.20, an empty stack, heading 0 at the start point, and satisfies its invariant |
| `Rendering.Renderer.Render` | app/main.py:75-104 | rendering expands the L-system for its generation count, turns left 90 degrees and interprets the expansion in place; fields and result equal what `Run` computes, including the index of a failing `]`, and the invariant is kept |
| `Plant.PlantSystem` | app/main.py:106-112 | the plant L-system: axiom `XY`, rule `X -> F[@[-X]+X]`, 13 generations; the rule does not rewrite `[` or `]` and its right-hand side is balanced |
| `Plant.PlantGenerationsBalanced` | app/main.py:109-112 | every generation of the plant axiom `XY` is balanced |
| `Plant.PlantNeverUnderflows` | app/main.py:97-99 | interpreting any generation of the plant never pops an empty stack and ends with the stack it started with |
| `Plant.PlantFirstGenerations` | app/main.py:109-112 | generation 1 of `XY` is `F[@[-X]+X]Y`, and generation 2 is that string with each `X` replaced by the rule |
| `Plant.RenderPlant` | app/main.py:114-116 | building a renderer and rendering the plant finishes without error, with an empty stack and a width of at least 1 |

## Left out

- Screen and turtle setup (`app/main.py:56-67`) is windowing I/O: the screen size, background, delay, speed, the initial pen size 3 and the pen colour. The initial pen-up move to (0, -150) is the model's `Start` position.
- `screen.exitonclick()` and the `__main__` entry (`app/main.py:117-121`) are event-loop I/O.
- Geometry is not modelled. `forward` and `goto` compute float coordinates by trigonometry inside the turtle library; `Advance` is uninterpreted.
- Positions that real geometry would make equal are not identified: `forward(0)` (reachable, since the step can reach 0) or two routes to the same point give different move histories. No lemma depends on that difference.
- The turtle reports headings as floats rounded to ten decimals. The model keeps exact integer degrees modulo 360.
- The per-symbol `turtle.color(...)` call and the `pensize(...)` calls (`app/main.py:82, 90, 100`) are drawing calls that change no interpreter state. Strokes record the width and green in force when each line is drawn.
- The turtle library rejects colour components above 1.0. That check is not modelled; green is an unbounded integer.
- Colour arithmetic is exact hundredths. The float sums `0.2 + 0.04 + ...` and their rounding are not modelled, and colour components 0 and 2 never change.
- `randint` is not modelled (`app/main.py:70`). It is replaced by the injected angle source with values in 0..45.
- The `FractalSystem` abstract base class and `@cached_property` (`app/main.py:12-23, 106-112`) are Python plumbing. `PlantSystem` builds the plant `LSystem` value directly.
