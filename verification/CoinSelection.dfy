/** Greedy coin selection and change of the comment-board wallet
    (comment-board/src/wallet/utxo_manager.rs). */
module CoinSelection {
  import opened Wrappers
  import opened Primitives
  import opened Sequences
  import opened LittleEndian

  const FEE: U64 := 5000

  const U64_MAX: nat := 0xFFFF_FFFF_FFFF_FFFF

  datatype Utxo = Utxo(txId: Hash, index: U32, amount: U64)

  function SaturatingAdd(a: U64, b: U64): U64 {
    if a + b <= U64_MAX then a + b else U64_MAX
  }

  function SaturatingSub(a: U64, b: U64): U64 {
    if b <= a then a - b else 0
  }

  /** The stable sort by amount: an element goes before the first that is not smaller. */
  function Insert(x: Utxo, sorted: seq<Utxo>): seq<Utxo>
    decreases |sorted|
  {
    if sorted == [] then [x]
    else if x.amount <= sorted[0].amount then [x] + sorted
    else [sorted[0]] + Insert(x, sorted[1..])
  }

  function SortByAmount(utxos: seq<Utxo>): seq<Utxo> {
    if utxos == [] then [] else Insert(utxos[0], SortByAmount(utxos[1..]))
  }

  predicate Ascending(utxos: seq<Utxo>) {
    forall i, j :: 0 <= i < j < |utxos| ==> utxos[i].amount <= utxos[j].amount
  }

  function WithAmount(utxos: seq<Utxo>, amount: U64): seq<Utxo> {
    if utxos == [] then []
    else (if utxos[0].amount == amount then [utxos[0]] else []) + WithAmount(utxos[1..], amount)
  }

  lemma {:induction false} InsertPermutes(x: Utxo, sorted: seq<Utxo>)
    ensures multiset(Insert(x, sorted)) == multiset{x} + multiset(sorted)
    decreases |sorted|
  {
    if sorted == [] || x.amount <= sorted[0].amount {
    } else {
      InsertPermutes(x, sorted[1..]);
      assert sorted == [sorted[0]] + sorted[1..];
    }
  }

  predicate AtLeast(utxos: seq<Utxo>, bound: U64) {
    forall i :: 0 <= i < |utxos| ==> bound <= utxos[i].amount
  }

  lemma {:induction false} InsertSorts(x: Utxo, sorted: seq<Utxo>, bound: U64)
    requires Ascending(sorted)
    ensures Ascending(Insert(x, sorted))
    ensures AtLeast(sorted, bound) && bound <= x.amount ==> AtLeast(Insert(x, sorted), bound)
    decreases |sorted|
  {
    if sorted == [] || x.amount <= sorted[0].amount {
    } else {
      InsertSorts(x, sorted[1..], sorted[0].amount);
      InsertSorts(x, sorted[1..], bound);
      assert AtLeast(Insert(x, sorted[1..]), sorted[0].amount);
    }
  }

  lemma {:induction false} InsertIsStable(x: Utxo, sorted: seq<Utxo>, amount: U64)
    ensures WithAmount(Insert(x, sorted), amount) == WithAmount([x] + sorted, amount)
    decreases |sorted|
  {
    assert ([x] + sorted)[1..] == sorted;
    if sorted == [] || x.amount <= sorted[0].amount {
    } else {
      InsertIsStable(x, sorted[1..], amount);
      assert ([x] + sorted[1..])[1..] == sorted[1..];
      assert ([sorted[0]] + Insert(x, sorted[1..]))[1..] == Insert(x, sorted[1..]);
    }
  }

  /** The sort puts the same coins in ascending order, and coins of one amount keep their order. */
  lemma {:induction false} SortSorts(utxos: seq<Utxo>, amount: U64)
    ensures Ascending(SortByAmount(utxos))
    ensures multiset(SortByAmount(utxos)) == multiset(utxos)
    ensures WithAmount(SortByAmount(utxos), amount) == WithAmount(utxos, amount)
  {
    if utxos != [] {
      SortSorts(utxos[1..], amount);
      InsertSorts(utxos[0], SortByAmount(utxos[1..]), 0);
      InsertPermutes(utxos[0], SortByAmount(utxos[1..]));
      InsertIsStable(utxos[0], SortByAmount(utxos[1..]), amount);
      assert utxos == [utxos[0]] + utxos[1..];
      assert ([utxos[0]] + SortByAmount(utxos[1..]))[1..] == SortByAmount(utxos[1..]);
    }
  }

  /** The true total, which no machine word bounds. */
  function Total(utxos: seq<Utxo>): nat {
    if utxos == [] then 0 else Total(utxos[..|utxos| - 1]) + utxos[|utxos| - 1].amount
  }

  lemma {:induction false} TotalOfConcat(a: seq<Utxo>, b: seq<Utxo>)
    ensures Total(a + b) == Total(a) + Total(b)
    decreases |b|
  {
    if b == [] {
      assert a + b == a;
    } else {
      assert (a + b)[..|a + b| - 1] == a + b[..|b| - 1];
      TotalOfConcat(a, b[..|b| - 1]);
    }
  }

  function Without(utxos: seq<Utxo>, i: nat): (rest: seq<Utxo>)
    requires i < |utxos|
    ensures |rest| == |utxos| - 1
    decreases |utxos|
  {
    var last := |utxos| - 1;
    if i == last then utxos[..last] else Without(utxos[..last], i) + [utxos[last]]
  }

  lemma {:induction false} TotalWithout(utxos: seq<Utxo>, i: nat)
    requires i < |utxos|
    ensures Total(utxos) == Total(Without(utxos, i)) + utxos[i].amount
    decreases |utxos|
  {
    var last := |utxos| - 1;
    if i < last {
      TotalWithout(utxos[..last], i);
      var rest := Without(utxos[..last], i);
      assert (rest + [utxos[last]])[..|rest|] == rest;
    }
  }

  lemma {:induction false} ItemsWithout(utxos: seq<Utxo>, i: nat)
    requires i < |utxos|
    ensures multiset(utxos) == multiset(Without(utxos, i)) + multiset{utxos[i]}
    decreases |utxos|
  {
    var last := |utxos| - 1;
    Front(utxos);
    if i < last {
      ItemsWithout(utxos[..last], i);
    }
  }

  lemma Front(utxos: seq<Utxo>)
    requires utxos != []
    ensures multiset(utxos) == multiset(utxos[..|utxos| - 1]) + multiset{utxos[|utxos| - 1]}
  {
    assert utxos == utxos[..|utxos| - 1] + [utxos[|utxos| - 1]];
  }

  lemma AsManyAtMost(sorted: seq<Utxo>, choice: seq<Utxo>)
    requires multiset(choice) <= multiset(sorted)
    ensures |choice| <= |sorted|
  {
    var others := multiset(sorted) - multiset(choice);
    assert multiset(sorted) == multiset(choice) + others;
    assert |multiset(sorted)| == |multiset(choice)| + |others|;
  }

  /** No choice of as many coins totals less than the smallest coins do. */
  lemma {:induction false} PrefixIsCheapest(sorted: seq<Utxo>, choice: seq<Utxo>)
    requires Ascending(sorted) && multiset(choice) <= multiset(sorted)
    ensures |choice| <= |sorted| && Total(sorted[..|choice|]) <= Total(choice)
    decreases |sorted|
  {
    AsManyAtMost(sorted, choice);
    if choice != [] {
      var n := |sorted| - 1;
      Front(sorted);
      if i :| 0 <= i < |choice| && choice[i] == sorted[n] {
        PrefixWithLargest(sorted, choice, i);
      } else {
        assert sorted[n] !in multiset(choice);
        PrefixIsCheapest(sorted[..n], choice);
        PrefixOfPrefix(sorted, n, |choice|);
      }
    }
  }

  lemma {:induction false} PrefixWithLargest(sorted: seq<Utxo>, choice: seq<Utxo>, i: nat)
    requires Ascending(sorted) && multiset(choice) <= multiset(sorted) && |choice| <= |sorted|
    requires sorted != [] && i < |choice| && choice[i] == sorted[|sorted| - 1]
    ensures Total(sorted[..|choice|]) <= Total(choice)
    decreases |sorted|, 0
  {
    var n, k := |sorted| - 1, |choice| - 1;
    WithoutLargest(sorted, choice, i);
    TotalWithout(choice, i);
    PrefixIsCheapest(sorted[..n], Without(choice, i));
    PrefixOfPrefix(sorted, n, k);
    PrefixOfPrefix(sorted, k + 1, k);
  }

  lemma WithoutLargest(sorted: seq<Utxo>, choice: seq<Utxo>, i: nat)
    requires multiset(choice) <= multiset(sorted)
    requires sorted != [] && i < |choice| && choice[i] == sorted[|sorted| - 1]
    ensures multiset(Without(choice, i)) <= multiset(sorted[..|sorted| - 1])
  {
    Front(sorted);
    ItemsWithout(choice, i);
  }

  lemma Cancel(a: multiset<Utxo>, b: multiset<Utxo>, x: Utxo)
    requires a + multiset{x} == b + multiset{x}
    ensures a == b
  {
    assert a == a + multiset{x} - multiset{x};
    assert b == b + multiset{x} - multiset{x};
  }

  lemma {:induction false} TotalOfPermutation(a: seq<Utxo>, b: seq<Utxo>)
    requires multiset(a) == multiset(b)
    ensures |a| == |b| && Total(a) == Total(b)
    decreases |a|
  {
    assert |multiset(a)| == |multiset(b)|;
    if a != [] {
      Front(a);
      var last := a[|a| - 1];
      assert last in multiset(b);
      var i: nat :| i < |b| && b[i] == last;
      TotalWithout(b, i);
      ItemsWithout(b, i);
      Cancel(multiset(a[..|a| - 1]), multiset(Without(b, i)), last);
      TotalOfPermutation(a[..|a| - 1], Without(b, i));
    }
  }

  lemma {:induction false} TotalOfPrefix(utxos: seq<Utxo>, i: nat)
    requires i <= |utxos|
    ensures Total(utxos[..i]) <= Total(utxos)
  {
    assert utxos == utxos[..i] + utxos[i..];
    TotalOfConcat(utxos[..i], utxos[i..]);
  }

  datatype Spend = Spend(inputs: seq<Utxo>, outputs: seq<U64>)

  /** What is spent on a bond: the shortest ascending prefix that covers it and the fee. */
  ghost predicate Covers(available: seq<Utxo>, bond: U64, inputs: seq<Utxo>) {
    && 0 < |inputs| <= |available|
    && |SortByAmount(available)| == |available|
    && inputs == SortByAmount(available)[..|inputs|]
    && Total(inputs[..|inputs| - 1]) < bond + FEE <= Total(inputs)
  }

  /** The bond output, and the change output unless there is no change. */
  function Outputs(bond: U64, change: U64): seq<U64> {
    if change > 0 then [bond, change] else [bond]
  }

  function Clamp(total: nat): U64 {
    if total <= U64_MAX then total else U64_MAX
  }

  lemma ClampAdd(total: nat, amount: U64)
    ensures SaturatingAdd(Clamp(total), amount) == Clamp(total + amount)
  {
  }

  /** The selection loop: coins smallest first until they cover what is required. */
  method Select(sorted: seq<Utxo>, required: U64) returns (inputs: seq<Utxo>, selected: U64)
    requires required > 0
    ensures |inputs| <= |sorted| && inputs == sorted[..|inputs|] && selected == Clamp(Total(inputs))
    ensures if Total(sorted) < required then inputs == sorted
            else inputs != [] && Total(inputs[..|inputs| - 1]) < required <= Total(inputs)
  {
    inputs, selected := [], 0;
    var i := 0;
    while i < |sorted|
      invariant 0 <= i <= |sorted| && inputs == sorted[..i]
      invariant selected == Clamp(Total(inputs)) && Total(inputs) < required
    {
      TotalOfPrefix(sorted, i + 1);
      ClampAdd(Total(inputs), sorted[i].amount);
      selected := SaturatingAdd(selected, sorted[i].amount);
      assert sorted[..i + 1][..i] == inputs;
      inputs := inputs + [sorted[i]];
      i := i + 1;
      if selected >= required {
        break;
      }
    }
    assert sorted[..|sorted|] == sorted;
  }

  lemma SortKeepsTotal(utxos: seq<Utxo>)
    ensures Total(SortByAmount(utxos)) == Total(utxos) && |SortByAmount(utxos)| == |utxos|
  {
    SortSorts(utxos, 0);
    TotalOfPermutation(SortByAmount(utxos), utxos);
  }

  /** Selection and change. That bond and fee fit a machine word together is assumed. */
  method SpendOnBond(available: seq<Utxo>, bond: U64) returns (spend: Option<Spend>)
    requires bond + FEE <= U64_MAX
    ensures spend.None? <==> Total(available) < bond + FEE
    ensures spend.Some? ==> Covers(available, bond, spend.value.inputs)
    ensures spend.Some? ==> spend.value.outputs == Outputs(bond, Clamp(Total(spend.value.inputs)) - bond - FEE)
    ensures spend.Some? ==>
      var total := Total(spend.value.inputs);
      var counted := if total < 0x1_0000_0000_0000_0000 then total else 0xFFFF_FFFF_FFFF_FFFF;
      && total >= bond + 5000
      && spend.value.outputs == if counted == bond + 5000 then [bond] else [bond, counted - bond - 5000]
  {
    var sorted := SortByAmount(available);
    SortKeepsTotal(available);
    var inputs, selected := Select(sorted, bond + FEE);
    if selected < bond + FEE {
      return None;
    }
    var change := SaturatingSub(selected, bond + FEE);
    var outputs: seq<U64> := [bond];
    if change > 0 {
      outputs := outputs + [change];
      assert outputs == [bond, change];
    }
    return Some(Spend(inputs, outputs));
  }

  function SumOf(amounts: seq<U64>): nat {
    if amounts == [] then 0 else amounts[0] + SumOf(amounts[1..])
  }

  lemma SumOfOne(amount: U64)
    ensures SumOf([amount]) == amount
  {
    assert SumOf([]) == 0;
    assert SumOf([amount]) == amount + SumOf([amount][1..]);
  }

  /** What goes out and the fee are what came in, unless the selected total saturated: then, and
      only then, the difference is lost. */
  lemma ConservedIffNotSaturated(available: seq<Utxo>, bond: U64, inputs: seq<Utxo>)
    requires bond + FEE <= U64_MAX && Covers(available, bond, inputs)
    ensures
      var outputs := Outputs(bond, Clamp(Total(inputs)) - bond - FEE);
      && (SumOf(outputs) + FEE == Total(inputs) <==> Total(inputs) <= U64_MAX)
      && (|outputs| == 1 <==> Clamp(Total(inputs)) == bond + FEE)
  {
    var change := Clamp(Total(inputs)) - bond - FEE;
    SumOfOne(change);
    SumOfOne(bond);
    assert [bond, change][1..] == [change];
    assert SumOf([bond, change]) == bond + SumOf([change]);
  }

  /** The selected coins are determined: two covering prefixes are the same. */
  lemma CoversUnique(available: seq<Utxo>, bond: U64, a: seq<Utxo>, b: seq<Utxo>)
    requires Covers(available, bond, a) && Covers(available, bond, b)
    ensures a == b
  {
    if |a| < |b| {
      assert a == b[..|b| - 1][..|a|];
      TotalOfPrefix(b[..|b| - 1], |a|);
    } else if |b| < |a| {
      assert b == a[..|a| - 1][..|b|];
      TotalOfPrefix(a[..|a| - 1], |b|);
    }
  }

  /** No other choice of as many of the coins costs less. */
  lemma SelectionIsCheapest(available: seq<Utxo>, bond: U64, inputs: seq<Utxo>, choice: seq<Utxo>)
    requires Covers(available, bond, inputs) && multiset(choice) <= multiset(available) && |choice| == |inputs|
    ensures Total(inputs) <= Total(choice)
  {
    SortSorts(available, 0);
    PrefixIsCheapest(SortByAmount(available), choice);
  }
}
