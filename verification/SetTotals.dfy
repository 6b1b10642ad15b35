/** Counting over threads, and the states held by tables and threads. */
module SetTotals {
  import opened SetMachine

  /** The sum of a weight over all threads. */
  function Total(pcs: seq<PC>, w: PC -> nat): nat
  {
    if pcs == [] then 0 else Total(pcs[..|pcs| - 1], w) + w(pcs[|pcs| - 1])
  }

  lemma {:induction false} TotalUpdate(pcs: seq<PC>, w: PC -> nat, t: nat, p: PC)
    requires t < |pcs|
    ensures Total(pcs[t := p], w) + w(pcs[t]) == Total(pcs, w) + w(p)
  {
    var n := |pcs| - 1;
    if t == n {
      assert pcs[t := p][..n] == pcs[..n];
    } else {
      TotalUpdate(pcs[..n], w, t, p);
      assert pcs[t := p][..n] == pcs[..n][t := p];
    }
  }

  // One thread's weight is part of the total, and two threads' together are.
  lemma {:induction false} TotalBounds(pcs: seq<PC>, w: PC -> nat, t: nat)
    requires t < |pcs|
    ensures w(pcs[t]) <= Total(pcs, w)
    ensures forall u :: 0 <= u < |pcs| && u != t ==> w(pcs[t]) + w(pcs[u]) <= Total(pcs, w)
  {
    var n := |pcs| - 1;
    if t < n {
      TotalBounds(pcs[..n], w, t);
      forall u | 0 <= u < |pcs| && u != t ensures w(pcs[t]) + w(pcs[u]) <= Total(pcs, w) {
        if u < n { assert pcs[..n][u] == pcs[u]; }
      }
    } else {
      forall u | 0 <= u < |pcs| && u != t ensures w(pcs[t]) + w(pcs[u]) <= Total(pcs, w) {
        TotalBounds(pcs[..n], w, u);
        assert pcs[..n][u] == pcs[u];
      }
    }
  }

  lemma {:induction false} TotalSame(pcs: seq<PC>, qcs: seq<PC>, w: PC -> nat, v: PC -> nat)
    requires |pcs| == |qcs| && forall t :: 0 <= t < |pcs| ==> w(pcs[t]) == v(qcs[t])
    ensures Total(pcs, w) == Total(qcs, v)
  {
    if pcs != [] { TotalSame(pcs[..|pcs| - 1], qcs[..|qcs| - 1], w, v); }
  }

  lemma {:induction false} TotalConst(pcs: seq<PC>, w: PC -> nat, k: nat)
    requires k <= 1 && forall t :: 0 <= t < |pcs| ==> w(pcs[t]) == k
    ensures Total(pcs, w) == if k == 1 then |pcs| else 0
  {
    if pcs != [] { TotalConst(pcs[..|pcs| - 1], w, k); }
  }

  // ----- the states in a table -----

  function StatesOf(slot: Slot): multiset<State>
  {
    match slot case Full(_, s) => multiset{s} case _ => multiset{}
  }

  function Holds(tab: Table): multiset<State>
  {
    if tab == [] then multiset{} else Holds(tab[..|tab| - 1]) + StatesOf(tab[|tab| - 1])
  }

  lemma Shift(a: multiset<State>, b: multiset<State>, x: multiset<State>, y: multiset<State>, l: multiset<State>)
    requires a + x == b + y
    ensures (a + l) + x == (b + l) + y
  {
    assert (a + l) + x == (a + x) + l;
  }

  lemma Swap(a: multiset<State>, x: multiset<State>, y: multiset<State>)
    ensures (a + x) + y == (a + y) + x
  {
  }

  lemma {:induction false} HoldsUpdate(tab: Table, i: nat, slot: Slot)
    requires i < |tab|
    ensures Holds(tab[i := slot]) + StatesOf(tab[i]) == Holds(tab) + StatesOf(slot)
  {
    var n := |tab| - 1;
    var front, front' := tab[..n], tab[i := slot][..n];
    if i == n {
      assert front' == front;
      Swap(Holds(front), StatesOf(slot), StatesOf(tab[i]));
    } else {
      HoldsUpdate(front, i, slot);
      assert front' == front[i := slot];
      Shift(Holds(front'), Holds(front), StatesOf(tab[i]), StatesOf(slot), StatesOf(tab[n]));
    }
  }

  lemma {:induction false} HoldsAt(tab: Table, i: nat)
    requires i < |tab| && tab[i].Full?
    ensures tab[i].s in Holds(tab)
  {
    if i < |tab| - 1 { HoldsAt(tab[..|tab| - 1], i); }
  }

  lemma {:induction false} HoldsWhere(tab: Table, s: State) returns (i: nat)
    requires s in Holds(tab)
    ensures i < |tab| && tab[i].Full? && tab[i].s == s
  {
    var n := |tab| - 1;
    if s in StatesOf(tab[n]) {
      i := n;
    } else {
      i := HoldsWhere(tab[..n], s);
    }
  }

  lemma {:induction false} HoldsNothing(tab: Table)
    requires forall i :: 0 <= i < |tab| ==> !tab[i].Full?
    ensures Holds(tab) == multiset{}
  {
    if tab != [] { HoldsNothing(tab[..|tab| - 1]); }
  }

  // ----- the states threads carry from one table to the other -----

  function CarriedBy(pc: PC): multiset<State>
  {
    if pc.Carry? then StatesOf(pc.x) else multiset{}
  }

  function Carried(pcs: seq<PC>): multiset<State>
  {
    if pcs == [] then multiset{} else Carried(pcs[..|pcs| - 1]) + CarriedBy(pcs[|pcs| - 1])
  }

  lemma {:induction false} CarriedUpdate(pcs: seq<PC>, t: nat, p: PC)
    requires t < |pcs|
    ensures Carried(pcs[t := p]) + CarriedBy(pcs[t]) == Carried(pcs) + CarriedBy(p)
  {
    var n := |pcs| - 1;
    if t == n {
      assert pcs[t := p][..n] == pcs[..n];
    } else {
      CarriedUpdate(pcs[..n], t, p);
      assert pcs[t := p][..n] == pcs[..n][t := p];
      Shift(Carried(pcs[..n][t := p]), Carried(pcs[..n]), CarriedBy(pcs[t]), CarriedBy(p), CarriedBy(pcs[n]));
    }
  }

  lemma {:induction false} CarriedNothing(pcs: seq<PC>)
    requires forall t :: 0 <= t < |pcs| ==> !pcs[t].Carry?
    ensures Carried(pcs) == multiset{}
  {
    if pcs != [] { CarriedNothing(pcs[..|pcs| - 1]); }
  }

  lemma {:induction false} CarriedSame(pcs: seq<PC>, qcs: seq<PC>)
    requires |pcs| == |qcs| && forall t :: 0 <= t < |pcs| ==> CarriedBy(pcs[t]) == CarriedBy(qcs[t])
    ensures Carried(pcs) == Carried(qcs)
  {
    if pcs != [] { CarriedSame(pcs[..|pcs| - 1], qcs[..|qcs| - 1]); }
  }
}
