/** Bill-of-materials cost roll-up (src/lib/calculations.ts).

    `FlatCost` is the fold of `calculateBOMCost`: every component is priced at
    its product's own unit cost.  `RecursiveBomCost` / `RollUp` model
    `calculateRecursiveBOMCost`: a component whose product has an Approved BOM
    is priced at that BOM's rolled-up cost instead, and a set of visited BOM ids,
    copied into every branch, stops the descent at a cycle. */
module Calculations {
  import opened Domain

  // ---------------------------------------------------------------------------
  // Look-ups
  // ---------------------------------------------------------------------------

  /** `products.find(p => p.id === id)`: the first product with that id. */
  function FindProduct(products: seq<Product>, id: string): (r: Option<Product>)
    ensures r.None? <==> forall i :: 0 <= i < |products| ==> products[i].id != id
    ensures r.Some? ==> r.value.id == id && r.value in products
  {
    if |products| == 0 then None
    else if products[0].id == id then Some(products[0])
    else FindProduct(products[1..], id)
  }

  /** The product found is the first one carrying the id. */
  lemma {:induction false} FindProductFirst(products: seq<Product>, id: string, i: nat)
    requires i < |products| && products[i].id == id
    requires forall j :: 0 <= j < i ==> products[j].id != id
    ensures FindProduct(products, id) == Some(products[i])
  {
    if i > 0 {
      assert products[1..][i - 1] == products[i];
      FindProductFirst(products[1..], id, i - 1);
    }
  }

  predicate IsApprovedBomFor(b: Bom, productId: string)
  {
    b.productId == productId && b.status == BomApproved
  }

  /** `boms.find(b => b.productId === productId && b.status === 'Approved')`:
      the sub-assembly BOM used for a component. */
  function FindApprovedBom(boms: seq<Bom>, productId: string): (r: Option<Bom>)
    ensures r.None? <==> forall i :: 0 <= i < |boms| ==> !IsApprovedBomFor(boms[i], productId)
    ensures r.Some? ==> IsApprovedBomFor(r.value, productId) && r.value in boms
  {
    if |boms| == 0 then None
    else if IsApprovedBomFor(boms[0], productId) then Some(boms[0])
    else FindApprovedBom(boms[1..], productId)
  }

  /** The BOM found is the first Approved one for the product. */
  lemma {:induction false} FindApprovedBomFirst(boms: seq<Bom>, productId: string, i: nat)
    requires i < |boms| && IsApprovedBomFor(boms[i], productId)
    requires forall j :: 0 <= j < i ==> !IsApprovedBomFor(boms[j], productId)
    ensures FindApprovedBom(boms, productId) == Some(boms[i])
  {
    if i > 0 {
      assert boms[1..][i - 1] == boms[i];
      FindApprovedBomFirst(boms[1..], productId, i - 1);
    }
  }

  /** The ids of the BOM snapshot. */
  function Ids(boms: seq<Bom>): set<string>
  {
    set b | b in boms :: b.id
  }

  lemma IdInIds(boms: seq<Bom>, b: Bom)
    requires b in boms
    ensures b.id in Ids(boms)
  {
  }

  /** Marking an unvisited id as visited never enlarges the set of unvisited
      BOM ids, and shrinks it when the id belongs to the snapshot. */
  lemma UnvisitedShrinks(boms: seq<Bom>, visited: set<string>, id: string)
    requires id !in visited
    ensures |Ids(boms) - (visited + {id})| <= |Ids(boms) - visited|
    ensures id in Ids(boms) ==> |Ids(boms) - (visited + {id})| == |Ids(boms) - visited| - 1
  {
    var before := Ids(boms) - visited;
    var after := Ids(boms) - (visited + {id});
    if id in Ids(boms) {
      assert after == before - {id};
    } else {
      assert after == before;
    }
  }

  // ---------------------------------------------------------------------------
  // Well-formedness of the snapshots (what the editor forms allow: min="0")
  // ---------------------------------------------------------------------------

  ghost predicate NonNegativeCosts(products: seq<Product>)
  {
    forall p :: p in products ==> p.cost >= 0.0
  }

  ghost predicate NonNegativeQuantities(components: seq<BomComponent>)
  {
    forall i :: 0 <= i < |components| ==> components[i].quantity >= 0.0
  }

  ghost predicate NonNegativeBoms(boms: seq<Bom>)
  {
    forall b :: b in boms ==> NonNegativeQuantities(b.components)
  }

  /** No component resolves to a product. */
  ghost predicate AllMissing(components: seq<BomComponent>, products: seq<Product>)
  {
    forall i :: 0 <= i < |components| ==> FindProduct(products, components[i].componentProductId).None?
  }

  /** No component's product has an Approved BOM: every component is a leaf. */
  ghost predicate AllLeaves(components: seq<BomComponent>, boms: seq<Bom>)
  {
    forall i :: 0 <= i < |components| ==> FindApprovedBom(boms, components[i].componentProductId).None?
  }

  // ---------------------------------------------------------------------------
  // Flat cost: calculateBOMCost
  // ---------------------------------------------------------------------------

  /** The price of one BOM line: unit cost times quantity. */
  function LineCost(unitCost: real, quantity: real): real
  {
    unitCost * quantity
  }

  /** What one component adds to the flat total. */
  function LeafCost(c: BomComponent, products: seq<Product>): (r: real)
    ensures FindProduct(products, c.componentProductId).None? ==> r == 0.0
    ensures NonNegativeCosts(products) && c.quantity >= 0.0 ==> r >= 0.0
  {
    match FindProduct(products, c.componentProductId)
    case None => 0.0
    case Some(p) => LineCost(p.cost, c.quantity)
  }

  /** The `reduce` of calculateBOMCost: a left fold starting at 0. */
  function FlatCost(components: seq<BomComponent>, products: seq<Product>): (r: real)
    ensures |components| == 0 ==> r == 0.0
    ensures AllMissing(components, products) ==> r == 0.0
    ensures NonNegativeCosts(products) && NonNegativeQuantities(components) ==> r >= 0.0
    decreases |components|
  {
    if |components| == 0 then 0.0
    else
      var n := |components| - 1;
      FlatCost(components[..n], products) + LeafCost(components[n], products)
  }

  /** calculateBOMCost(bom, products). */
  function CalculateBomCost(bom: Bom, products: seq<Product>): (r: real)
    ensures |bom.components| == 0 ==> r == 0.0
    ensures AllMissing(bom.components, products) ==> r == 0.0
    ensures NonNegativeCosts(products) && NonNegativeQuantities(bom.components) ==> r >= 0.0
  {
    FlatCost(bom.components, products)
  }

  // ---------------------------------------------------------------------------
  // Rolled-up cost: calculateRecursiveBOMCost
  // ---------------------------------------------------------------------------

  /** calculateRecursiveBOMCost(bom, products, boms, visited).  The root need
      not belong to `boms`; the measure's second part accounts for that one
      extra level. */
  function RecursiveBomCost(bom: Bom, products: seq<Product>, boms: seq<Bom>, visited: set<string>): (r: real)
    ensures bom.id in visited ==> r == 0.0
    decreases |Ids(boms) - visited|, if bom.id in Ids(boms) then 0 else 1, 0, 0
  {
    if bom.id in visited then 0.0
    else
      UnvisitedShrinks(boms, visited, bom.id);
      RollUp(bom.components, products, boms, visited + {bom.id})
  }

  /** The `reduce` of calculateRecursiveBOMCost over the components, with
      `visited` already holding the id of the BOM being expanded. */
  function RollUp(components: seq<BomComponent>, products: seq<Product>, boms: seq<Bom>, visited: set<string>): (r: real)
    ensures |components| == 0 ==> r == 0.0
    ensures AllMissing(components, products) ==> r == 0.0
    decreases |Ids(boms) - visited|, 0, |components|, 0
  {
    if |components| == 0 then 0.0
    else
      var n := |components| - 1;
      RollUp(components[..n], products, boms, visited)
        + ComponentRollUpCost(components[n], products, boms, visited)
  }

  /** What one component adds to the rolled-up total: nothing when its product
      is missing (even if an Approved BOM exists for the id), the sub-assembly's
      rolled-up cost times the quantity when its product has an Approved BOM,
      and the product's own cost times the quantity otherwise. */
  function ComponentRollUpCost(c: BomComponent, products: seq<Product>, boms: seq<Bom>, visited: set<string>): (r: real)
    ensures FindProduct(products, c.componentProductId).None? ==> r == 0.0
    ensures FindApprovedBom(boms, c.componentProductId).None? ==> r == LeafCost(c, products)
    decreases |Ids(boms) - visited|, 0, 0, 1
  {
    match FindProduct(products, c.componentProductId)
    case None => 0.0
    case Some(p) =>
      match FindApprovedBom(boms, c.componentProductId)
      case Some(sub) =>
        IdInIds(boms, sub);
        LineCost(RecursiveBomCost(sub, products, boms, visited), c.quantity)
      case None => LineCost(p.cost, c.quantity)
  }

  /** calculateRecursiveBOMCost(bom, products, boms) with the default empty
      visited set. */
  function CalculateRecursiveBomCost(bom: Bom, products: seq<Product>, boms: seq<Bom>): (r: real)
    ensures |bom.components| == 0 ==> r == 0.0
    ensures AllMissing(bom.components, products) ==> r == 0.0
  {
    RecursiveBomCost(bom, products, boms, {})
  }
}
