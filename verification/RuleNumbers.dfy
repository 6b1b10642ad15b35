/** The number recorded for each firing of a rule, which counts through all rules and
    their parameters, and how a trace gets the rule and the parameters back from it. */
module RuleNumbers {
  import opened Arithmetic
  import opened BitNumbers

  type Counts = seq<nat>

  function Product(cs: Counts): nat
  {
    if cs == [] then 1 else cs[0] * Product(cs[1..])
  }

  predicate ArgsOk(cs: Counts, args: seq<nat>)
  {
    |args| == |cs| && forall i :: 0 <= i < |cs| ==> args[i] < cs[i]
  }

  /** How many parameter tuples come before this one, the last varying fastest. */
  function Position(cs: Counts, args: seq<nat>): nat
    requires |args| == |cs|
  {
    if cs == [] then 0 else args[0] * Product(cs[1..]) + Position(cs[1..], args[1..])
  }

  lemma {:induction false} PositionBound(cs: Counts, args: seq<nat>)
    requires ArgsOk(cs, args)
    ensures Position(cs, args) < Product(cs)
  {
    if cs != [] {
      PositionBound(cs[1..], args[1..]);
      var p := Product(cs[1..]);
      MulMono(args[0] + 1, cs[0], p);
      assert (args[0] + 1) * p == args[0] * p + p;
    }
  }

  lemma {:induction false} PositionInjective(cs: Counts, a: seq<nat>, b: seq<nat>)
    requires ArgsOk(cs, a) && ArgsOk(cs, b) && Position(cs, a) == Position(cs, b)
    ensures a == b
  {
    if cs != [] {
      PositionBound(cs[1..], a[1..]);
      PositionBound(cs[1..], b[1..]);
      DivModIs(Position(cs, a), Product(cs[1..]), a[0], Position(cs[1..], a[1..]));
      DivModIs(Position(cs, a), Product(cs[1..]), b[0], Position(cs[1..], b[1..]));
      PositionInjective(cs[1..], a[1..], b[1..]);
    }
  }

  // ----- counting while the rules are tried -----

  datatype Visit = Visit(taken: nat, rule: nat, args: seq<nat>)

  /** The loops over a rule's parameters, the outermost first; the counter goes up
      whether or not the rule fires. */
  method Parameters(rule: nat, cs: Counts, outer: seq<nat>, taken: nat) returns (visits: seq<Visit>, taken': nat)
    ensures |visits| == Product(cs) && taken' == taken + |visits|
    ensures forall i :: 0 <= i < |visits| ==>
              && visits[i].taken == taken + i && visits[i].rule == rule
              && outer <= visits[i].args && ArgsOk(cs, visits[i].args[|outer|..])
              && Position(cs, visits[i].args[|outer|..]) == i
    decreases |cs|
  {
    if cs == [] {
      visits, taken' := [Visit(taken, rule, outer)], taken + 1;
      return;
    }
    visits, taken' := [], taken;
    ghost var p := Product(cs[1..]);
    for x := 0 to cs[0]
      invariant |visits| == x * p && taken' == taken + |visits|
      invariant forall i :: 0 <= i < |visits| ==>
                  && visits[i].taken == taken + i && visits[i].rule == rule
                  && outer <= visits[i].args && ArgsOk(cs, visits[i].args[|outer|..])
                  && Position(cs, visits[i].args[|outer|..]) == i
    {
      var more: seq<Visit>;
      more, taken' := Parameters(rule, cs[1..], outer + [x], taken');
      forall i | 0 <= i < |more|
        ensures outer <= more[i].args && ArgsOk(cs, more[i].args[|outer|..])
        ensures Position(cs, more[i].args[|outer|..]) == x * p + i
      {
        OneOut(cs, outer, x, more[i].args);
      }
      visits := visits + more;
      assert (x + 1) * p == x * p + p;
    }
  }

  lemma OneOut(cs: Counts, outer: seq<nat>, x: nat, args: seq<nat>)
    requires cs != [] && x < cs[0] && outer + [x] <= args && ArgsOk(cs[1..], args[|outer| + 1..])
    ensures outer <= args && ArgsOk(cs, args[|outer|..])
    ensures Position(cs, args[|outer|..]) == x * Product(cs[1..]) + Position(cs[1..], args[|outer| + 1..])
  {
    var s := args[|outer|..];
    assert s[0] == x && s[1..] == args[|outer| + 1..];
    assert forall i :: 0 < i < |cs| ==> s[i] == s[1..][i - 1] && cs[i] == cs[1..][i - 1];
  }

  /** How many numbers the first r rules take up. */
  function Before(rules: seq<Counts>, r: nat): nat
    requires r <= |rules|
  {
    if r == 0 then 0 else Before(rules, r - 1) + Product(rules[r - 1])
  }

  /** The number of a firing; numbers start from 1. */
  function Number(rules: seq<Counts>, r: nat, args: seq<nat>): nat
    requires r < |rules| && |args| == |rules[r]|
  {
    1 + Before(rules, r) + Position(rules[r], args)
  }

  /** Going through all rules gives each firing its number. */
  method AllRules(rules: seq<Counts>) returns (visits: seq<Visit>)
    ensures |visits| == Before(rules, |rules|)
    ensures forall i :: 0 <= i < |visits| ==>
              && visits[i].taken == i + 1 && visits[i].rule < |rules| && ArgsOk(rules[visits[i].rule], visits[i].args)
              && visits[i].taken == Number(rules, visits[i].rule, visits[i].args)
  {
    visits := [];
    var taken := 1;
    for r := 0 to |rules|
      invariant |visits| == Before(rules, r) && taken == 1 + |visits|
      invariant forall i :: 0 <= i < |visits| ==>
                  && visits[i].taken == i + 1 && visits[i].rule < |rules| && ArgsOk(rules[visits[i].rule], visits[i].args)
                  && visits[i].taken == Number(rules, visits[i].rule, visits[i].args)
    {
      var more: seq<Visit>;
      more, taken := Parameters(r, rules[r], [], taken);
      assert forall i :: 0 <= i < |more| ==> more[i].args[0..] == more[i].args;
      visits := visits + more;
    }
  }

  // ----- getting rule and parameters back -----

  lemma {:induction false} BeforeMono(rules: seq<Counts>, r: nat, s: nat)
    requires r <= s <= |rules|
    ensures Before(rules, r) <= Before(rules, s)
  {
    if r < s { BeforeMono(rules, r, s - 1); }
  }

  /** Different firings have different numbers, from 1 to the total. */
  lemma NumberInjective(rules: seq<Counts>, r: nat, a: seq<nat>, s: nat, b: seq<nat>)
    requires r < |rules| && s < |rules| && ArgsOk(rules[r], a) && ArgsOk(rules[s], b)
    ensures 1 <= Number(rules, r, a) <= Before(rules, |rules|)
    ensures Number(rules, r, a) == Number(rules, s, b) ==> r == s && a == b
  {
    PositionBound(rules[r], a);
    PositionBound(rules[s], b);
    BeforeMono(rules, r + 1, |rules|);
    if r < s { BeforeMono(rules, r + 1, s); }
    if s < r { BeforeMono(rules, s + 1, r); }
    if r == s && Number(rules, r, a) == Number(rules, s, b) { PositionInjective(rules[r], a, b); }
  }

  /** Every number from 1 to the total is that of some firing. */
  lemma {:induction false} NumberSurjective(rules: seq<Counts>, x: nat) returns (r: nat, args: seq<nat>)
    requires 1 <= x <= Before(rules, |rules|)
    ensures r < |rules| && ArgsOk(rules[r], args) && Number(rules, r, args) == x
  {
    r := RuleOf(rules, |rules|, x);
    args := ArgsAt(rules[r], x - 1 - Before(rules, r));
  }

  lemma {:induction false} RuleOf(rules: seq<Counts>, n: nat, x: nat) returns (r: nat)
    requires n <= |rules| && 1 <= x <= Before(rules, n)
    ensures r < n && Before(rules, r) < x <= Before(rules, r + 1)
  {
    if x > Before(rules, n - 1) { r := n - 1; } else { r := RuleOf(rules, n - 1, x); }
  }

  lemma PositiveFactor(a: nat, b: nat)
    requires a * b > 0
    ensures b > 0
  {
  }

  lemma Divided(x: nat, c: nat, p: nat) returns (q: nat, r: nat)
    requires p > 0 && x < c * p
    ensures q < c && r < p && q * p + r == x
  {
    DivModSplit(x, p);
    q, r := x / p, x % p;
    if q >= c { MulMono(c, q, p); }
  }

  lemma {:induction false} ArgsAt(cs: Counts, x: nat) returns (args: seq<nat>)
    requires x < Product(cs)
    ensures ArgsOk(cs, args) && Position(cs, args) == x
  {
    if cs == [] {
      args := [];
    } else {
      var p := Product(cs[1..]);
      PositiveFactor(cs[0], p);
      var q, r := Divided(x, cs[0], p);
      var rest := ArgsAt(cs[1..], r);
      args := [q] + rest;
      assert args[1..] == rest;
      assert forall i :: 0 < i < |cs| ==> args[i] == rest[i - 1] && cs[i] == cs[1..][i - 1];
    }
  }

  /** How a trace computes parameter i: dividing by the counts of those after it. */
  function Recovered(cs: Counts, base: nat, taken: nat, i: nat): nat
    requires i < |cs| && taken >= base && Product(cs[i + 1..]) > 0 && cs[i] > 0
  {
    ((taken - base) / Product(cs[i + 1..])) % cs[i]
  }

  lemma {:induction false} ProductPositive(cs: Counts, i: nat)
    requires i <= |cs| && forall j :: 0 <= j < |cs| ==> cs[j] > 0
    ensures Product(cs[i..]) > 0
    decreases |cs| - i
  {
    if i < |cs| {
      ProductPositive(cs, i + 1);
      assert cs[i..][1..] == cs[i + 1..];
      MulMono(1, cs[i], Product(cs[i + 1..]));
    }
  }

  // Dropping whole multiples of the product of what is left changes no digit.
  lemma {:induction false} PositionDigit(cs: Counts, args: seq<nat>, i: nat, more: nat)
    requires ArgsOk(cs, args) && i < |cs| && forall j :: 0 <= j < |cs| ==> cs[j] > 0
    ensures Product(cs[i + 1..]) > 0
    ensures ((more * Product(cs) + Position(cs, args)) / Product(cs[i + 1..])) % cs[i] == args[i]
  {
    hide ArgsOk;
    ProductPositive(cs, i + 1);
    ProductPositive(cs, 1);
    TailOk(cs, args);
    PositionBound(cs[1..], args[1..]);
    var p, rest := Product(cs[1..]), Position(cs[1..], args[1..]);
    Regroup(more, cs[0], p, args[0], rest);
    if i == 0 {
      FirstDigit(more, cs[0], p, args[0], rest);
    } else {
      PositionDigit(cs[1..], args[1..], i - 1, more * cs[0] + args[0]);
      assert cs[1..][i..] == cs[i + 1..];
    }
  }

  lemma TailOk(cs: Counts, args: seq<nat>)
    requires ArgsOk(cs, args) && cs != []
    ensures ArgsOk(cs[1..], args[1..]) && |args| == |cs| && forall i :: 0 <= i < |cs| ==> args[i] < cs[i]
  {
  }

  lemma FirstDigit(more: nat, c: nat, p: nat, a: nat, rest: nat)
    requires a < c && rest < p
    ensures (((more * c + a) * p + rest) / p) % c == a
  {
    DivModIs((more * c + a) * p + rest, p, more * c + a, rest);
    DivModIs(more * c + a, c, more, a);
  }

  lemma Regroup(more: nat, c: nat, p: nat, a: nat, rest: nat)
    ensures more * (c * p) + (a * p + rest) == (more * c + a) * p + rest
  {
    assert more * (c * p) == (more * c) * p;
  }

  /** The parameters recovered from a firing's number are those it was fired with. */
  lemma ParametersRecovered(rules: seq<Counts>, r: nat, args: seq<nat>, i: nat)
    requires r < |rules| && ArgsOk(rules[r], args) && i < |args| && forall j :: 0 <= j < |rules[r]| ==> rules[r][j] > 0
    ensures Product(rules[r][i + 1..]) > 0
    ensures Recovered(rules[r], 1 + Before(rules, r), Number(rules, r, args), i) == args[i]
  {
    PositionDigit(rules[r], args, i, 0);
  }

  // ----- room for the number -----

  /** The greatest number the rules can give, by multiplying out their quantifiers. */
  method Greatest(rules: seq<Counts>) returns (total: nat)
    ensures total == Before(rules, |rules|)
  {
    total := 0;
    for r := 0 to |rules|
      invariant total == Before(rules, r)
    {
      var count: nat := 1;
      for j := 0 to |rules[r]|
        invariant count * Product(rules[r][j..]) == Product(rules[r])
      {
        assert rules[r][j..][1..] == rules[r][j + 1..];
        Shift(count, rules[r][j], Product(rules[r][j + 1..]));
        count := count * rules[r][j];
      }
      assert rules[r][|rules[r]|..] == [];
      total := total + count;
    }
  }

  lemma Shift(a: nat, b: nat, c: nat)
    ensures a * (b * c) == (a * b) * c
  {
  }

  /** The bits kept for the number are enough for any start state or rule firing. */
  lemma NumberFits(starts: seq<Counts>, rules: seq<Counts>, limit: nat, bits: nat, r: nat, args: seq<nat>)
    requires limit == (if Before(starts, |starts|) > Before(rules, |rules|) then Before(starts, |starts|) else Before(rules, |rules|))
    requires limit < Power(bits)
    ensures r < |rules| && ArgsOk(rules[r], args) ==> ToNat(FromNat(Number(rules, r, args), bits)) == Number(rules, r, args)
    ensures r < |starts| && ArgsOk(starts[r], args) ==> ToNat(FromNat(Number(starts, r, args), bits)) == Number(starts, r, args)
  {
    if r < |rules| && ArgsOk(rules[r], args) {
      NumberInjective(rules, r, args, r, args);
      ToFrom(Number(rules, r, args), bits);
    }
    if r < |starts| && ArgsOk(starts[r], args) {
      NumberInjective(starts, r, args, r, args);
      ToFrom(Number(starts, r, args), bits);
    }
  }
}
