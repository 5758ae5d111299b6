/** Properties of the roll-up: additivity, scaling, the missing-reference and
    leaf cases, non-negativity, and the bound on recursion depth. */
module CalculationProperties {
  import opened Domain
  import opened Calculations

  // ---------------------------------------------------------------------------
  // Both folds are additive over concatenation
  // ---------------------------------------------------------------------------

  lemma {:induction false} FlatCostAppend(a: seq<BomComponent>, b: seq<BomComponent>, products: seq<Product>)
    ensures FlatCost(a + b, products) == FlatCost(a, products) + FlatCost(b, products)
    decreases |b|
  {
    if |b| == 0 {
      assert a + b == a;
    } else {
      var n := |b| - 1;
      assert (a + b)[..|a + b| - 1] == a + b[..n];
      assert (a + b)[|a + b| - 1] == b[n];
      FlatCostAppend(a, b[..n], products);
    }
  }

  /** Sibling components are costed independently: every component of the
      list is rolled up against the same visited set, so no cycle state
      passes from one sibling to the next. */
  lemma {:induction false} RollUpAppend(a: seq<BomComponent>, b: seq<BomComponent>, products: seq<Product>,
                                        boms: seq<Bom>, visited: set<string>)
    ensures RollUp(a + b, products, boms, visited)
         == RollUp(a, products, boms, visited) + RollUp(b, products, boms, visited)
    decreases |b|
  {
    if |b| == 0 {
      assert a + b == a;
    } else {
      var n := |b| - 1;
      assert (a + b)[..|a + b| - 1] == a + b[..n];
      assert (a + b)[|a + b| - 1] == b[n];
      RollUpAppend(a, b[..n], products, boms, visited);
    }
  }

  lemma FlatCostSingle(c: BomComponent, products: seq<Product>)
    ensures FlatCost([c], products) == LeafCost(c, products)
  {
    assert [c][..0] == [];
  }

  lemma RollUpSingle(c: BomComponent, products: seq<Product>, boms: seq<Bom>, visited: set<string>)
    ensures RollUp([c], products, boms, visited) == ComponentRollUpCost(c, products, boms, visited)
  {
    assert [c][..0] == [];
  }

  // ---------------------------------------------------------------------------
  // The flat cost is the plain sum of the line costs
  // ---------------------------------------------------------------------------

  /** Reference definition: the sum of `cost * quantity` over the resolvable
      components, summed from the front. */
  ghost function SumOfLines(components: seq<BomComponent>, products: seq<Product>): real
  {
    if |components| == 0 then 0.0
    else LeafCost(components[0], products) + SumOfLines(components[1..], products)
  }

  lemma {:induction false} FlatCostIsSumOfLines(components: seq<BomComponent>, products: seq<Product>)
    ensures FlatCost(components, products) == SumOfLines(components, products)
    decreases |components|
  {
    if |components| > 0 {
      var c, rest := components[0], components[1..];
      assert components == [c] + rest;
      FlatCostAppend([c], rest, products);
      FlatCostSingle(c, products);
      FlatCostIsSumOfLines(rest, products);
    }
  }

  // ---------------------------------------------------------------------------
  // Missing references degrade to zero
  // ---------------------------------------------------------------------------

  predicate Resolves(c: BomComponent, products: seq<Product>)
  {
    FindProduct(products, c.componentProductId).Some?
  }

  /** The components whose product id resolves to a product. */
  function ResolvedComponents(components: seq<BomComponent>, products: seq<Product>): seq<BomComponent>
  {
    Filter(components, (c: BomComponent) => Resolves(c, products))
  }

  /** Dropping every component whose product is missing changes neither cost:
      such a component contributes 0 to the flat cost, and 0 to the rolled-up
      cost even when an Approved BOM exists for its product id. */
  lemma {:induction false} MissingProductsContributeNothing(components: seq<BomComponent>, products: seq<Product>,
                                                            boms: seq<Bom>, visited: set<string>)
    ensures FlatCost(ResolvedComponents(components, products), products) == FlatCost(components, products)
    ensures RollUp(ResolvedComponents(components, products), products, boms, visited)
         == RollUp(components, products, boms, visited)
    decreases |components|
  {
    if |components| > 0 {
      var c := components[0];
      var rest := components[1..];
      assert components == [c] + rest;
      MissingProductsContributeNothing(rest, products, boms, visited);
      FlatCostAppend([c], rest, products);
      RollUpAppend([c], rest, products, boms, visited);
      FlatCostSingle(c, products);
      RollUpSingle(c, products, boms, visited);
      if Resolves(c, products) {
        var known := ResolvedComponents(rest, products);
        assert ResolvedComponents(components, products) == [c] + known;
        FlatCostAppend([c], known, products);
        RollUpAppend([c], known, products, boms, visited);
      } else {
        assert ResolvedComponents(components, products) == ResolvedComponents(rest, products);
      }
    }
  }

  // ---------------------------------------------------------------------------
  // Leaves: the recursive cost degenerates to the flat cost
  // ---------------------------------------------------------------------------

  lemma {:induction false} RollUpOfLeaves(components: seq<BomComponent>, products: seq<Product>,
                                          boms: seq<Bom>, visited: set<string>)
    requires AllLeaves(components, boms)
    ensures RollUp(components, products, boms, visited) == FlatCost(components, products)
    decreases |components|
  {
    if |components| > 0 {
      var n := |components| - 1;
      assert forall i :: 0 <= i < n ==> components[..n][i] == components[i];
      RollUpOfLeaves(components[..n], products, boms, visited);
    }
  }

  /** When no component's product has an Approved BOM, calculateRecursiveBOMCost
      returns exactly calculateBOMCost. */
  lemma RecursiveCostOfLeaves(bom: Bom, products: seq<Product>, boms: seq<Bom>)
    requires AllLeaves(bom.components, boms)
    ensures CalculateRecursiveBomCost(bom, products, boms) == CalculateBomCost(bom, products)
  {
    var visited: set<string> := {};
    assert CalculateRecursiveBomCost(bom, products, boms)
        == RollUp(bom.components, products, boms, visited + {bom.id});
    RollUpOfLeaves(bom.components, products, boms, visited + {bom.id});
  }

  /** The root BOM's own status is never consulted. */
  lemma RootStatusIgnored(bom: Bom, status: BomStatus, products: seq<Product>, boms: seq<Bom>, visited: set<string>)
    ensures RecursiveBomCost(bom.(status := status), products, boms, visited)
         == RecursiveBomCost(bom, products, boms, visited)
  {
  }

  // ---------------------------------------------------------------------------
  // Only Approved BOMs are expanded
  // ---------------------------------------------------------------------------

  /** The Approved BOMs of the snapshot, in order. */
  function ApprovedBoms(boms: seq<Bom>): (r: seq<Bom>)
    ensures forall i :: 0 <= i < |r| ==> r[i].status == BomApproved && r[i] in boms
    ensures forall i :: 0 <= i < |boms| && boms[i].status == BomApproved ==> boms[i] in r
  {
    if |boms| == 0 then []
    else if boms[0].status == BomApproved then [boms[0]] + ApprovedBoms(boms[1..])
    else ApprovedBoms(boms[1..])
  }

  lemma {:induction false} FindIgnoresUnapproved(boms: seq<Bom>, productId: string)
    ensures FindApprovedBom(ApprovedBoms(boms), productId) == FindApprovedBom(boms, productId)
    decreases |boms|
  {
    if |boms| > 0 {
      FindIgnoresUnapproved(boms[1..], productId);
      if boms[0].status == BomApproved {
        assert ([boms[0]] + ApprovedBoms(boms[1..]))[1..] == ApprovedBoms(boms[1..]);
      }
    }
  }

  /** Draft, Pending Approval, In Review and Obsolete BOMs might as well not
      exist: deleting them from the snapshot changes no rolled-up cost. */
  lemma {:induction false} RecursiveCostIgnoresUnapproved(bom: Bom, products: seq<Product>, boms: seq<Bom>,
                                                          visited: set<string>)
    ensures RecursiveBomCost(bom, products, ApprovedBoms(boms), visited)
         == RecursiveBomCost(bom, products, boms, visited)
    decreases |Ids(boms) - visited|, if bom.id in Ids(boms) then 0 else 1, 0, 0
  {
    if bom.id !in visited {
      UnvisitedShrinks(boms, visited, bom.id);
      RollUpIgnoresUnapproved(bom.components, products, boms, visited + {bom.id});
    }
  }

  lemma {:induction false} RollUpIgnoresUnapproved(components: seq<BomComponent>, products: seq<Product>,
                                                   boms: seq<Bom>, visited: set<string>)
    ensures RollUp(components, products, ApprovedBoms(boms), visited)
         == RollUp(components, products, boms, visited)
    decreases |Ids(boms) - visited|, 0, |components|, 0
  {
    if |components| > 0 {
      var n := |components| - 1;
      RollUpIgnoresUnapproved(components[..n], products, boms, visited);
      ComponentCostIgnoresUnapproved(components[n], products, boms, visited);
    }
  }

  lemma {:induction false} ComponentCostIgnoresUnapproved(c: BomComponent, products: seq<Product>,
                                                          boms: seq<Bom>, visited: set<string>)
    ensures ComponentRollUpCost(c, products, ApprovedBoms(boms), visited)
         == ComponentRollUpCost(c, products, boms, visited)
    decreases |Ids(boms) - visited|, 0, 0, 1
  {
    FindIgnoresUnapproved(boms, c.componentProductId);
    match FindProduct(products, c.componentProductId)
    case None =>
    case Some(p) =>
      match FindApprovedBom(boms, c.componentProductId)
      case Some(sub) =>
        IdInIds(boms, sub);
        RecursiveCostIgnoresUnapproved(sub, products, boms, visited);
      case None =>
  }

  // ---------------------------------------------------------------------------
  // Non-negativity
  // ---------------------------------------------------------------------------

  lemma {:induction false} FlatCostNonNegative(components: seq<BomComponent>, products: seq<Product>)
    requires NonNegativeCosts(products) && NonNegativeQuantities(components)
    ensures FlatCost(components, products) >= 0.0
    decreases |components|
  {
    if |components| > 0 {
      var n := |components| - 1;
      PrefixNonNegative(components, n);
      FlatCostNonNegative(components[..n], products);
    }
  }

  /** With non-negative product costs and quantities everywhere, the rolled-up
      cost is non-negative, whatever the visited set. */
  lemma {:induction false} RecursiveCostNonNegative(bom: Bom, products: seq<Product>, boms: seq<Bom>,
                                                    visited: set<string>)
    requires NonNegativeCosts(products) && NonNegativeBoms(boms) && NonNegativeQuantities(bom.components)
    ensures RecursiveBomCost(bom, products, boms, visited) >= 0.0
    decreases |Ids(boms) - visited|, if bom.id in Ids(boms) then 0 else 1, 0, 0
  {
    if bom.id !in visited {
      UnvisitedShrinks(boms, visited, bom.id);
      RollUpNonNegative(bom.components, products, boms, visited + {bom.id});
    }
  }

  lemma {:induction false} RollUpNonNegative(components: seq<BomComponent>, products: seq<Product>,
                                             boms: seq<Bom>, visited: set<string>)
    requires NonNegativeCosts(products) && NonNegativeBoms(boms) && NonNegativeQuantities(components)
    ensures RollUp(components, products, boms, visited) >= 0.0
    decreases |Ids(boms) - visited|, 0, |components|, 0
  {
    if |components| > 0 {
      var n := |components| - 1;
      PrefixNonNegative(components, n);
      RollUpNonNegative(components[..n], products, boms, visited);
      ComponentCostNonNegative(components[n], products, boms, visited);
    }
  }

  lemma PrefixNonNegative(components: seq<BomComponent>, n: nat)
    requires n <= |components| && NonNegativeQuantities(components)
    ensures NonNegativeQuantities(components[..n])
  {
    assert forall i :: 0 <= i < n ==> components[..n][i] == components[i];
  }

  lemma {:induction false} ComponentCostNonNegative(c: BomComponent, products: seq<Product>,
                                                    boms: seq<Bom>, visited: set<string>)
    requires NonNegativeCosts(products) && NonNegativeBoms(boms) && c.quantity >= 0.0
    ensures ComponentRollUpCost(c, products, boms, visited) >= 0.0
    decreases |Ids(boms) - visited|, 0, 0, 1
  {
    match FindProduct(products, c.componentProductId)
    case None =>
    case Some(p) =>
      match FindApprovedBom(boms, c.componentProductId)
      case Some(sub) =>
        assert sub in boms;
        IdInIds(boms, sub);
        RecursiveCostNonNegative(sub, products, boms, visited);
        LineCostNonNegative(RecursiveBomCost(sub, products, boms, visited), c.quantity);
      case None =>
        LineCostNonNegative(p.cost, c.quantity);
  }

  lemma LineCostNonNegative(unitCost: real, quantity: real)
    requires unitCost >= 0.0 && quantity >= 0.0
    ensures LineCost(unitCost, quantity) >= 0.0
  {
  }
}

/** Costs are linear in the quantities of the root BOM. */
module CostScaling {
  import opened Domain
  import opened Calculations

  // ---------------------------------------------------------------------------
  // Scaling the quantities
  // ---------------------------------------------------------------------------

  /** One component with its quantity multiplied by `k`. */
  function ScaleOne(c: BomComponent, k: real): BomComponent
  {
    c.(quantity := c.quantity * k)
  }

  /** Every component's quantity multiplied by `k`. */
  function ScaleQuantities(components: seq<BomComponent>, k: real): (r: seq<BomComponent>)
    ensures |r| == |components|
    ensures forall i :: 0 <= i < |r| ==> r[i] == ScaleOne(components[i], k)
  {
    seq(|components|, i requires 0 <= i < |components| => ScaleOne(components[i], k))
  }

  /** `k * x`, kept behind a name so that the inductive proofs below reason
      about it by congruence. */
  function Times(k: real, x: real): real
  {
    k * x
  }

  lemma Distribute(k: real, a: real, b: real)
    ensures k * (a + b) == k * a + k * b
  {
  }

  lemma LineCostScales(unitCost: real, quantity: real, k: real)
    ensures LineCost(unitCost, quantity * k) == Times(k, LineCost(unitCost, quantity))
  {
  }

  lemma LeafCostScales(c: BomComponent, products: seq<Product>, k: real)
    ensures LeafCost(ScaleOne(c, k), products) == Times(k, LeafCost(c, products))
  {
    match FindProduct(products, c.componentProductId)
    case None =>
    case Some(p) =>
      LineCostScales(p.cost, c.quantity, k);
  }

  lemma ComponentCostScales(c: BomComponent, products: seq<Product>, boms: seq<Bom>, visited: set<string>, k: real)
    ensures ComponentRollUpCost(ScaleOne(c, k), products, boms, visited)
         == Times(k, ComponentRollUpCost(c, products, boms, visited))
  {
    match FindProduct(products, c.componentProductId)
    case None =>
    case Some(p) =>
      match FindApprovedBom(boms, c.componentProductId)
      case Some(sub) =>
        LineCostScales(RecursiveBomCost(sub, products, boms, visited), c.quantity, k);
      case None =>
        LineCostScales(p.cost, c.quantity, k);
  }

  lemma SplitLast<T>(s: seq<T>)
    requires |s| > 0
    ensures s == s[..|s| - 1] + [s[|s| - 1]]
  {
  }

  lemma ScaleSnoc(components: seq<BomComponent>, k: real)
    requires |components| > 0
    ensures ScaleQuantities(components, k)
         == ScaleQuantities(components[..|components| - 1], k) + [ScaleOne(components[|components| - 1], k)]
  {
  }

  lemma FlatCostSnoc(init: seq<BomComponent>, last: BomComponent, products: seq<Product>)
    ensures FlatCost(init + [last], products) == FlatCost(init, products) + LeafCost(last, products)
  {
    assert (init + [last])[..|init|] == init;
  }

  lemma RollUpSnoc(init: seq<BomComponent>, last: BomComponent, products: seq<Product>,
                   boms: seq<Bom>, visited: set<string>)
    ensures RollUp(init + [last], products, boms, visited)
         == RollUp(init, products, boms, visited) + ComponentRollUpCost(last, products, boms, visited)
  {
    assert (init + [last])[..|init|] == init;
  }

  /** The inductive step of both scaling proofs, on plain numbers: if a total
      splits as `a + b` and its scaled counterpart as `x + y`, with `x` and `y`
      the scaled parts, then the scaled total is the scaled sum. */
  lemma LinearStep(k: real, total: real, scaledTotal: real, a: real, b: real, x: real, y: real)
    requires total == a + b && scaledTotal == x + y
    requires x == Times(k, a) && y == Times(k, b)
    ensures scaledTotal == Times(k, total)
  {
    Distribute(k, a, b);
  }

  lemma {:induction false} FlatCostScalesInduction(components: seq<BomComponent>, products: seq<Product>, k: real)
    ensures FlatCost(ScaleQuantities(components, k), products) == Times(k, FlatCost(components, products))
    decreases |components|
  {
    if |components| > 0 {
      var n := |components| - 1;
      var init, last := components[..n], components[n];
      var scaledInit := ScaleQuantities(init, k);
      FlatCostScalesInduction(init, products, k);
      LeafCostScales(last, products, k);
      FlatCostSnoc(scaledInit, ScaleOne(last, k), products);
      SplitLast(components);
      FlatCostSnoc(init, last, products);
      ScaleSnoc(components, k);
      LinearStep(k, FlatCost(components, products), FlatCost(ScaleQuantities(components, k), products),
                 FlatCost(init, products), LeafCost(last, products),
                 FlatCost(scaledInit, products), LeafCost(ScaleOne(last, k), products));
    }
  }

  /** Multiplying every quantity by `k` multiplies calculateBOMCost by `k`. */
  lemma FlatCostScales(components: seq<BomComponent>, products: seq<Product>, k: real)
    ensures FlatCost(ScaleQuantities(components, k), products) == k * FlatCost(components, products)
  {
    FlatCostScalesInduction(components, products, k);
  }

  lemma {:induction false} RollUpScalesInduction(components: seq<BomComponent>, products: seq<Product>,
                                                 boms: seq<Bom>, visited: set<string>, k: real)
    ensures RollUp(ScaleQuantities(components, k), products, boms, visited)
         == Times(k, RollUp(components, products, boms, visited))
    decreases |components|
  {
    if |components| > 0 {
      var n := |components| - 1;
      var init, last := components[..n], components[n];
      var scaledInit := ScaleQuantities(init, k);
      RollUpScalesInduction(init, products, boms, visited, k);
      ComponentCostScales(last, products, boms, visited, k);
      RollUpSnoc(scaledInit, ScaleOne(last, k), products, boms, visited);
      SplitLast(components);
      RollUpSnoc(init, last, products, boms, visited);
      ScaleSnoc(components, k);
      LinearStep(k, RollUp(components, products, boms, visited),
                 RollUp(ScaleQuantities(components, k), products, boms, visited),
                 RollUp(init, products, boms, visited), ComponentRollUpCost(last, products, boms, visited),
                 RollUp(scaledInit, products, boms, visited),
                 ComponentRollUpCost(ScaleOne(last, k), products, boms, visited));
    }
  }

  /** Scaling the root's quantities scales the rolled-up cost too: sub-assembly
      costs do not depend on the root's quantities. */
  lemma RollUpScales(components: seq<BomComponent>, products: seq<Product>, boms: seq<Bom>,
                     visited: set<string>, k: real)
    ensures RollUp(ScaleQuantities(components, k), products, boms, visited)
         == k * RollUp(components, products, boms, visited)
  {
    RollUpScalesInduction(components, products, boms, visited, k);
  }
}
