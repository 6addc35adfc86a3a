/** The L-system rewriter: a grammar (axiom and per-symbol rules) and the
    deterministic pass that rewrites every symbol of a string at once. */
module Rewriting {

  /** Production rules: a symbol maps to its replacement string. */
  type Rules = map<char, string>

  /** What one symbol becomes in one pass: its rule if it has one, else itself. */
  function Image(rules: Rules, c: char): string {
    if c in rules then rules[c] else [c]
  }

  /** How many symbols a symbol becomes in one pass. */
  function Weight(rules: Rules, c: char): nat {
    if c in rules then |rules[c]| else 1
  }

  /** The sum of Weight over the symbols of s, an independent measure of the
      length one pass produces. */
  function WeightSum(rules: Rules, s: string): nat {
    if s == [] then 0 else Weight(rules, s[0]) + WeightSum(rules, s[1..])
  }

  /** How many passes a generation count asks for: a count of zero or less
      asks for none, as an empty range does. */
  function Passes(gens: int): nat {
    if gens < 0 then 0 else gens
  }

  /** An L-system: the seed string, the rules and the default number of
      generations. */
  datatype LSystem = LSystem(axiom: string, rules: Rules, numGens: int) {

    /** One rewrite pass: the images of the symbols of s, joined in order. */
    function ApplyRules(s: string): (r: string)
    {
      if s == [] then [] else Image(rules, s[0]) + ApplyRules(s[1..])
    }

    /** The string after n passes starting from axiom. */
    function Generation(n: nat, axiom: string): string {
      if n == 0 then axiom else ApplyRules(Generation(n - 1, axiom))
    }

    /** The loop that repeats the pass gens times: a count of zero or less
        gives the axiom back, and each further pass rewrites the previous
        result. */
    method GetResult(gens: int, axiom: string) returns (result: string)
      ensures result == Generation(Passes(gens), axiom)
      ensures gens <= 0 ==> result == axiom
      ensures gens > 0 ==> result == ApplyRules(Generation(gens - 1, axiom))
    {
      result := axiom;
      for i := 0 to Passes(gens)
        invariant result == Generation(i, axiom)
      {
        result := ApplyRules(result);
      }
    }
  }

  /** One pass distributes over concatenation: the pass works symbol by
      symbol and keeps the order of the symbols. */
  lemma {:induction false} ApplyRulesConcat(sys: LSystem, a: string, b: string)
    ensures sys.ApplyRules(a + b) == sys.ApplyRules(a) + sys.ApplyRules(b)
  {
    if a == [] {
      assert a + b == b;
    } else {
      assert (a + b)[0] == a[0];
      assert (a + b)[1..] == a[1..] + b;
      ApplyRulesConcat(sys, a[1..], b);
    }
  }

  /** A single symbol is replaced by its rule, or kept when it has none. */
  lemma ApplyRulesSingle(sys: LSystem, c: char)
    ensures sys.ApplyRules([c]) == Image(sys.rules, c)
    ensures c !in sys.rules ==> sys.ApplyRules([c]) == [c]
  {
  }

  /** A symbol without a rule stays where it is: whatever surrounds it is
      rewritten and the symbol itself comes out unchanged between the two. */
  lemma UnruledSymbolKept(sys: LSystem, u: string, c: char, v: string)
    requires c !in sys.rules
    ensures sys.ApplyRules(u + [c] + v) == sys.ApplyRules(u) + [c] + sys.ApplyRules(v)
  {
    ApplyRulesConcat(sys, u + [c], v);
    ApplyRulesConcat(sys, u, [c]);
    ApplyRulesSingle(sys, c);
  }

  /** A string none of whose symbols has a rule is a fixed point of the pass. */
  lemma {:induction false} ApplyRulesIdentity(sys: LSystem, s: string)
    requires forall i :: 0 <= i < |s| ==> s[i] !in sys.rules
    ensures sys.ApplyRules(s) == s
  {
    if s != [] {
      ApplyRulesIdentity(sys, s[1..]);
      assert s == [s[0]] + s[1..];
    }
  }

  /** With an empty rule map every string is left unchanged. */
  lemma EmptyRulesIdentity(sys: LSystem, s: string)
    requires sys.rules == map[]
    ensures sys.ApplyRules(s) == s
  {
    ApplyRulesIdentity(sys, s);
  }

  /** The length of one pass is the sum of the weights of the input symbols. */
  lemma {:induction false} ApplyRulesLength(sys: LSystem, s: string)
    ensures |sys.ApplyRules(s)| == WeightSum(sys.rules, s)
  {
    if s != [] {
      ApplyRulesLength(sys, s[1..]);
    }
  }

  /** When no rule erases its symbol, a pass never shortens a string, and
      each symbol with a longer rule adds to the length. */
  lemma {:induction false} WeightSumBounds(rules: Rules, s: string)
    requires forall c :: c in rules ==> |rules[c]| >= 1
    ensures WeightSum(rules, s) >= |s|
    ensures (exists i :: 0 <= i < |s| && s[i] in rules && |rules[s[i]]| > 1) ==> WeightSum(rules, s) > |s|
  {
    if s != [] {
      WeightSumBounds(rules, s[1..]);
      if exists i :: 0 <= i < |s| && s[i] in rules && |rules[s[i]]| > 1 {
        var i :| 0 <= i < |s| && s[i] in rules && |rules[s[i]]| > 1;
        if i > 0 {
          assert s[1..][i - 1] == s[i];
        }
      }
    }
  }

  /** Generation n + 1 is generation n of the once-rewritten axiom: the
      passes can be counted from either end. */
  lemma {:induction false} GenerationShift(sys: LSystem, n: nat, a: string)
    ensures sys.Generation(n + 1, a) == sys.Generation(n, sys.ApplyRules(a))
  {
    if n > 0 {
      GenerationShift(sys, n - 1, a);
    }
  }

  /** m passes followed by n passes are m + n passes. */
  lemma {:induction false} GenerationCompose(sys: LSystem, m: nat, n: nat, a: string)
    ensures sys.Generation(m + n, a) == sys.Generation(n, sys.Generation(m, a))
  {
    if n > 0 {
      GenerationCompose(sys, m, n - 1, a);
    }
  }

  /** An axiom without ruled symbols is the same in every generation. */
  lemma {:induction false} GenerationOfUnruled(sys: LSystem, n: nat, a: string)
    requires forall i :: 0 <= i < |a| ==> a[i] !in sys.rules
    ensures sys.Generation(n, a) == a
  {
    if n > 0 {
      GenerationOfUnruled(sys, n - 1, a);
      ApplyRulesIdentity(sys, a);
    }
  }

  /** When no rule erases its symbol, the length never decreases from one
      generation to the next. */
  lemma GenerationLengthMonotone(sys: LSystem, n: nat, a: string)
    requires forall c :: c in sys.rules ==> |sys.rules[c]| >= 1
    ensures |sys.Generation(n, a)| <= |sys.Generation(n + 1, a)|
  {
    ApplyRulesLength(sys, sys.Generation(n, a));
    WeightSumBounds(sys.rules, sys.Generation(n, a));
  }
}
