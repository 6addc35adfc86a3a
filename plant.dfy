/** The plant the renderer draws: axiom "XY" and the single rule
    X -> F[@[-X]+X], expanded for 13 generations. */
module Plant {
  import opened Wrappers
  import opened Rewriting
  import opened Brackets
  import opened Turtle
  import opened Rendering

  const PLANT_RULE := "F[@[-X]+X]"

  /** The plant L-system; its rule leaves the branch markers alone and has a
      balanced right-hand side. */
  function PlantSystem(): (p: LSystem)
    ensures BracketSafe(p.rules)
  {
    LSystem("XY", map['X' := PLANT_RULE], 13)
  }

  /** Every generation of the plant, from its own axiom, is balanced. */
  lemma PlantGenerationsBalanced(n: nat)
    ensures Balanced(PlantSystem().Generation(n, "XY"))
  {
    assert "XY"[1..] == "Y";
    assert "Y"[1..] == "";
    GenerationBalanced(PlantSystem(), n, "XY");
  }

  /** Interpreting any generation of the plant never pops an empty stack and
      ends with the stack it started with. */
  lemma PlantNeverUnderflows(angle: nat -> Angle, st: State, n: nat)
    ensures Run(angle, st, PlantSystem().Generation(n, "XY")).Done?
    ensures Run(angle, st, PlantSystem().Generation(n, "XY")).st.stack == st.stack
  {
    PlantGenerationsBalanced(n);
    BalancedKeepsStack(angle, st, PlantSystem().Generation(n, "XY"));
  }

  /** Building a renderer and rendering the plant: the render finishes, with
      an empty stack and a width of at least 1. */
  method RenderPlant(angle: nat -> Angle) returns (failedAt: Option<nat>, stackLeft: nat, width: int)
    ensures failedAt == None
    ensures stackLeft == 0
    ensures width >= 1
  {
    var renderer := new Renderer(angle);
    var plant := PlantSystem();
    PlantNeverUnderflows(angle, Begin(Initial()), Passes(plant.numGens));
    RunKeepsWellFormed(angle, Begin(Initial()), plant.Generation(Passes(plant.numGens), plant.axiom));
    failedAt := renderer.Render(plant);
    stackLeft := |renderer.stack|;
    width := renderer.thickness;
  }

  /** The first two generations of the plant, from its axiom: the rule
      followed by Y, then the rule with each of its two X's replaced by the
      rule, followed by Y. */
  lemma PlantFirstGenerations()
    ensures PlantSystem().Generation(1, PlantSystem().axiom) == PLANT_RULE + "Y"
    ensures PlantSystem().Generation(2, PlantSystem().axiom) == "F[@[-" + PLANT_RULE + "]+" + PLANT_RULE + "]" + "Y"
  {
    var p := PlantSystem();
    var axiom := p.axiom;
    assert p.Generation(1, axiom) == PLANT_RULE + "Y" by {
      ApplyRulesConcat(p, "X", "Y");
      assert axiom == "X" + "Y";
      ApplyRulesSingle(p, 'X');
      ApplyRulesSingle(p, 'Y');
    }
    var a, b, c := "F[@[-", "]+", "]Y";
    assert PLANT_RULE + "Y" == a + "X" + b + "X" + c;
    TwoRuledSymbols(p, a, b, c);
    assert "]" + "Y" == c;
  }

  /** A pass over a string whose only ruled symbols are two X's. */
  lemma TwoRuledSymbols(p: LSystem, a: string, b: string, c: string)
    requires p == PlantSystem()
    requires forall i :: 0 <= i < |a| ==> a[i] != 'X'
    requires forall i :: 0 <= i < |b| ==> b[i] != 'X'
    requires forall i :: 0 <= i < |c| ==> c[i] != 'X'
    ensures p.ApplyRules(a + "X" + b + "X" + c) == a + PLANT_RULE + b + PLANT_RULE + c
  {
    var x := "X";
    assert p.ApplyRules(a) == a by { ApplyRulesIdentity(p, a); }
    assert p.ApplyRules(b) == b by { ApplyRulesIdentity(p, b); }
    assert p.ApplyRules(c) == c by { ApplyRulesIdentity(p, c); }
    assert p.ApplyRules(x) == PLANT_RULE by { ApplyRulesSingle(p, 'X'); }
    ApplyRulesConcat(p, a, x);
    ApplyRulesConcat(p, a + x, b);
    ApplyRulesConcat(p, a + x + b, x);
    ApplyRulesConcat(p, a + x + b + x, c);
  }
}
