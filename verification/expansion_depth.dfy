/** How deep calculateRecursiveBOMCost can nest.  Every expansion adds the
    expanded BOM's id to the visited set handed to its children, so along any
    chain of nested calls the ids are distinct: the chain is no longer than the
    number of BOM ids in the snapshot, plus one for a root that is not part of
    the snapshot (the unsaved BOM of the editor). */
module ExpansionDepth {
  import opened Domain
  import opened Calculations

  /** The longest chain of nested expansions (calls that pass the cycle guard)
      starting at `bom`; it follows RecursiveBomCost call for call. */
  ghost function Depth(bom: Bom, products: seq<Product>, boms: seq<Bom>, visited: set<string>): nat
    decreases |Ids(boms) - visited|, if bom.id in Ids(boms) then 0 else 1, 0, 0
  {
    if bom.id in visited then 0
    else
      UnvisitedShrinks(boms, visited, bom.id);
      1 + DeepestComponent(bom.components, products, boms, visited + {bom.id})
  }

  ghost function DeepestComponent(components: seq<BomComponent>, products: seq<Product>, boms: seq<Bom>,
                                  visited: set<string>): nat
    decreases |Ids(boms) - visited|, 0, |components|, 0
  {
    if |components| == 0 then 0
    else
      var n := |components| - 1;
      var deepest := DeepestComponent(components[..n], products, boms, visited);
      var last := ComponentDepth(components[n], products, boms, visited);
      if deepest < last then last else deepest
  }

  ghost function ComponentDepth(c: BomComponent, products: seq<Product>, boms: seq<Bom>, visited: set<string>): nat
    decreases |Ids(boms) - visited|, 0, 0, 1
  {
    match FindProduct(products, c.componentProductId)
    case None => 0
    case Some(_) =>
      match FindApprovedBom(boms, c.componentProductId)
      case Some(sub) =>
        IdInIds(boms, sub);
        Depth(sub, products, boms, visited)
      case None => 0
  }

  /** The extra level a root outside the snapshot may add. */
  function RootAllowance(bom: Bom, boms: seq<Bom>): nat
  {
    if bom.id in Ids(boms) then 0 else 1
  }

  lemma {:induction false} DepthBounded(bom: Bom, products: seq<Product>, boms: seq<Bom>, visited: set<string>)
    ensures Depth(bom, products, boms, visited) <= |Ids(boms) - visited| + RootAllowance(bom, boms)
    decreases |Ids(boms) - visited|, if bom.id in Ids(boms) then 0 else 1, 0, 0
  {
    if bom.id !in visited {
      UnvisitedShrinks(boms, visited, bom.id);
      DeepestComponentBounded(bom.components, products, boms, visited + {bom.id});
    }
  }

  lemma {:induction false} DeepestComponentBounded(components: seq<BomComponent>, products: seq<Product>,
                                                   boms: seq<Bom>, visited: set<string>)
    ensures DeepestComponent(components, products, boms, visited) <= |Ids(boms) - visited|
    decreases |Ids(boms) - visited|, 0, |components|, 0
  {
    if |components| > 0 {
      var n := |components| - 1;
      DeepestComponentBounded(components[..n], products, boms, visited);
      ComponentDepthBounded(components[n], products, boms, visited);
    }
  }

  lemma {:induction false} ComponentDepthBounded(c: BomComponent, products: seq<Product>,
                                                 boms: seq<Bom>, visited: set<string>)
    ensures ComponentDepth(c, products, boms, visited) <= |Ids(boms) - visited|
    decreases |Ids(boms) - visited|, 0, 0, 1
  {
    match FindProduct(products, c.componentProductId)
    case None =>
    case Some(_) =>
      match FindApprovedBom(boms, c.componentProductId)
      case Some(sub) =>
        IdInIds(boms, sub);
        DepthBounded(sub, products, boms, visited);
      case None =>
  }

  /** From the top-level call (empty visited set) the nesting is at most the
      number of distinct BOM ids in the snapshot plus one. */
  lemma TopLevelDepth(bom: Bom, products: seq<Product>, boms: seq<Bom>)
    ensures Depth(bom, products, boms, {}) <= |Ids(boms)| + 1
    ensures bom.id in Ids(boms) ==> Depth(bom, products, boms, {}) <= |Ids(boms)|
  {
    DepthBounded(bom, products, boms, {});
    assert Ids(boms) - {} == Ids(boms);
  }
}
