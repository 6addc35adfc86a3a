/** Bracket depth: how deep a string nests its branch markers, and whether it
    ever closes more branches than it has opened. */
module Brackets {
  import opened Wrappers
  import opened Rewriting

  const OPEN := '['
  const CLOSE := ']'

  /** Scanning s from nesting depth d: the final depth, or None when some
      close marker finds the depth already at zero. */
  function Scan(s: string, d: nat): Option<nat> {
    if s == [] then Some(d)
    else if s[0] == OPEN then Scan(s[1..], d + 1)
    else if s[0] == CLOSE then (if d == 0 then None else Scan(s[1..], d - 1))
    else Scan(s[1..], d)
  }

  /** Every close marker has an earlier open marker and every open marker is
      closed. */
  predicate Balanced(s: string) {
    Scan(s, 0) == Some(0)
  }

  /** Scanning a concatenation scans the first part, then the second from
      where the first ended. */
  lemma {:induction false} ScanConcat(a: string, b: string, d: nat)
    ensures Scan(a + b, d) == match Scan(a, d) case None => None case Some(e) => Scan(b, e)
  {
    if a == [] {
      assert a + b == b;
    } else {
      assert (a + b)[0] == a[0];
      assert (a + b)[1..] == a[1..] + b;
      if a[0] == OPEN {
        ScanConcat(a[1..], b, d + 1);
      } else if a[0] == CLOSE {
        if d > 0 {
          ScanConcat(a[1..], b, d - 1);
        }
      } else {
        ScanConcat(a[1..], b, d);
      }
    }
  }

  /** A string that scans cleanly from depth base scans cleanly from any
      higher depth, ending the same amount higher. */
  lemma {:induction false} ScanLift(s: string, base: nat, e: nat, d: nat)
    requires Scan(s, base) == Some(e)
    ensures Scan(s, base + d) == Some(e + d)
  {
    if s != [] {
      if s[0] == OPEN {
        ScanLift(s[1..], base + 1, e, d);
      } else if s[0] == CLOSE {
        ScanLift(s[1..], base - 1, e, d);
      } else {
        ScanLift(s[1..], base, e, d);
      }
    }
  }

  /** Rules that leave the markers alone and have balanced right-hand sides. */
  predicate BracketSafe(rules: Rules) {
    && OPEN !in rules
    && CLOSE !in rules
    && forall c :: c in rules ==> Balanced(rules[c])
  }

  /** A pass with bracket-safe rules does not change how a string scans, from
      any depth. */
  lemma {:induction false} ApplyRulesKeepsScan(sys: LSystem, s: string, d: nat)
    requires BracketSafe(sys.rules)
    ensures Scan(sys.ApplyRules(s), d) == Scan(s, d)
  {
    if s != [] {
      var c := s[0];
      ScanConcat(Image(sys.rules, c), sys.ApplyRules(s[1..]), d);
      if c in sys.rules {
        ScanLift(sys.rules[c], 0, 0, d);
        assert Scan(Image(sys.rules, c), d) == Some(d);
        ApplyRulesKeepsScan(sys, s[1..], d);
      } else {
        assert Image(sys.rules, c) == [c];
        assert [c][1..] == [];
        if c == OPEN {
          ApplyRulesKeepsScan(sys, s[1..], d + 1);
        } else if c == CLOSE {
          if d > 0 {
            ApplyRulesKeepsScan(sys, s[1..], d - 1);
          }
        } else {
          ApplyRulesKeepsScan(sys, s[1..], d);
        }
      }
    }
  }

  /** With bracket-safe rules, every generation of a balanced axiom is
      balanced. */
  lemma {:induction false} GenerationBalanced(sys: LSystem, n: nat, a: string)
    requires BracketSafe(sys.rules)
    requires Balanced(a)
    ensures Balanced(sys.Generation(n, a))
  {
    if n > 0 {
      GenerationBalanced(sys, n - 1, a);
      ApplyRulesKeepsScan(sys, sys.Generation(n - 1, a), 0);
    }
  }
}
