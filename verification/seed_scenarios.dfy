/** Concrete roll-ups: the seeded laptop BOM, and small snapshots showing the
    cycle guard, shared sub-assemblies and the missing-reference rule. */
module SeedScenarios {
  import opened Domain
  import opened Calculations
  import opened CalculationProperties

  function SeedProduct(id: string, name: string, cost: real, price: real, category: string): Product
  {
    Product(id, name, "", cost, price, category, ProductActive, None)
  }

  /** The seven seeded products (server/seed.js). */
  function SeedProducts(): seq<Product>
  {
    [ SeedProduct("1", "Gaming Laptop Pro 15", 1200.0, 2499.99, "Electronics"),
      SeedProduct("2", "Motherboard Z790", 150.0, 350.0, "Electronics"),
      SeedProduct("3", "OLED Screen Panel 15.6\"", 200.0, 400.0, "Electronics"),
      SeedProduct("4", "Mechanical Keyboard Module", 45.0, 120.0, "Electronics"),
      SeedProduct("5", "M.2 SSD 2TB", 80.0, 180.0, "Electronics"),
      SeedProduct("6", "Chassis Aluminum Alloy", 120.0, 300.0, "Mechanical"),
      SeedProduct("7", "Screw M2x4", 0.05, 0.10, "Mechanical") ]
  }

  /** The seeded Approved BOM of the laptop. */
  function SeedBom(): Bom
  {
    Bom("1", "1", "Gaming Laptop BOM", "1.0", BomApproved,
        [ BomComponent("c1", "2", 1.0, "pcs"),
          BomComponent("c2", "3", 1.0, "pcs"),
          BomComponent("c3", "4", 1.0, "pcs"),
          BomComponent("c4", "5", 2.0, "pcs"),
          BomComponent("c5", "6", 1.0, "pcs"),
          BomComponent("c6", "7", 50.0, "pcs") ])
  }

  /** What each seeded line adds: 150, 200, 45, 2 * 80, 120 and 50 * 0.05. */
  function SeedLineCosts(): seq<real>
  {
    [150.0, 200.0, 45.0, 160.0, 120.0, 2.5]
  }

  lemma SeedLineCost(i: nat)
    requires i < |SeedBom().components|
    ensures LeafCost(SeedBom().components[i], SeedProducts()) == SeedLineCosts()[i]
  {
    var ps := SeedProducts();
    assert ps[0].id == "1" && ps[1].id == "2" && ps[2].id == "3" && ps[3].id == "4";
    assert ps[4].id == "5" && ps[5].id == "6" && ps[6].id == "7";
    FindProductFirst(ps, SeedBom().components[i].componentProductId, i + 1);
  }

  lemma SeedFlatCost()
    ensures CalculateBomCost(SeedBom(), SeedProducts()) == 677.5
  {
    var ps, cs := SeedProducts(), SeedBom().components;
    SeedLineCost(0);
    SeedLineCost(1);
    SeedLineCost(2);
    SeedLineCost(3);
    SeedLineCost(4);
    SeedLineCost(5);
    FlatCostIsSumOfLines(cs, ps);
    assert cs[5..][1..] == [];
    assert cs[4..][1..] == cs[5..];
    assert cs[3..][1..] == cs[4..];
    assert cs[2..][1..] == cs[3..];
    assert cs[1..][1..] == cs[2..];
  }

  /** No component of the laptop has an Approved BOM (the only one is the
      laptop's own), so the rolled-up cost is the flat cost. */
  lemma SeedRecursiveCost()
    ensures CalculateRecursiveBomCost(SeedBom(), SeedProducts(), [SeedBom()]) == 677.5
  {
    var cs := SeedBom().components;
    forall i | 0 <= i < |cs|
      ensures FindApprovedBom([SeedBom()], cs[i].componentProductId).None?
    {
      assert !IsApprovedBomFor(SeedBom(), cs[i].componentProductId);
    }
    RecursiveCostOfLeaves(SeedBom(), SeedProducts(), [SeedBom()]);
    SeedFlatCost();
  }

  // ---------------------------------------------------------------------------
  // A two-BOM cycle: "a" is built from "b" and "b" from "a"
  // ---------------------------------------------------------------------------

  function CycleProducts(): seq<Product>
  {
    [SeedProduct("a", "Assembly A", 10.0, 0.0, ""), SeedProduct("b", "Assembly B", 20.0, 0.0, "")]
  }

  function CycleBomA(): Bom
  {
    Bom("bom-a", "a", "A", "1.0", BomApproved, [BomComponent("x", "b", 1.0, "pcs")])
  }

  function CycleBomB(): Bom
  {
    Bom("bom-b", "b", "B", "1.0", BomApproved, [BomComponent("y", "a", 1.0, "pcs")])
  }

  /** Expanding A reaches B, whose component A is already on the path: the
      guard prices that leg at 0, so B and then A roll up to 0, while the flat
      cost of A is B's unit cost. */
  lemma CycleRollsUpToZero()
    ensures CalculateRecursiveBomCost(CycleBomA(), CycleProducts(), [CycleBomA(), CycleBomB()]) == 0.0
    ensures CalculateBomCost(CycleBomA(), CycleProducts()) == 20.0
  {
    var ps, boms := CycleProducts(), [CycleBomA(), CycleBomB()];
    var x, y := CycleBomA().components[0], CycleBomB().components[0];
    FindProductFirst(ps, "b", 1);
    FindProductFirst(ps, "a", 0);
    FindApprovedBomFirst(boms, "b", 1);
    FindApprovedBomFirst(boms, "a", 0);
    var v1 := {} + {"bom-a"};
    var v2 := v1 + {"bom-b"};
    assert RecursiveBomCost(CycleBomA(), ps, boms, v2) == 0.0;
    RollUpSingle(y, ps, boms, v2);
    assert RollUp([y], ps, boms, v2) == 0.0;
    assert RecursiveBomCost(CycleBomB(), ps, boms, v1) == 0.0;
    RollUpSingle(x, ps, boms, v1);
    FlatCostSingle(x, ps);
  }

  // ---------------------------------------------------------------------------
  // A diamond: two components use the same sub-assembly
  // ---------------------------------------------------------------------------

  function DiamondProducts(): seq<Product>
  {
    [SeedProduct("s", "Sub-assembly", 100.0, 0.0, ""), SeedProduct("p", "Part", 5.0, 0.0, "")]
  }

  function SubBom(): Bom
  {
    Bom("bom-s", "s", "Sub", "1.0", BomApproved, [BomComponent("p1", "p", 1.0, "pcs")])
  }

  function TopBom(): Bom
  {
    Bom("bom-t", "t", "Top", "1.0", BomDraft, [BomComponent("l", "s", 1.0, "pcs"), BomComponent("r", "s", 2.0, "pcs")])
  }

  /** The second use of the sub-assembly is not cut off by the first: siblings
      do not share the visited set, so both are rolled up (5 + 2 * 5). */
  lemma DiamondCostsBothUses()
    ensures CalculateRecursiveBomCost(TopBom(), DiamondProducts(), [SubBom()]) == 15.0
  {
    var ps, boms := DiamondProducts(), [SubBom()];
    var l, r := TopBom().components[0], TopBom().components[1];
    var visited := {} + {"bom-t"};
    FindProductFirst(ps, "s", 0);
    FindProductFirst(ps, "p", 1);
    FindApprovedBomFirst(boms, "s", 0);
    assert FindApprovedBom(boms, "p").None?;
    var p1 := SubBom().components[0];
    RollUpSingle(p1, ps, boms, visited + {"bom-s"});
    assert RecursiveBomCost(SubBom(), ps, boms, visited) == 5.0;
    assert TopBom().components == [l] + [r];
    RollUpAppend([l], [r], ps, boms, visited);
    RollUpSingle(l, ps, boms, visited);
    RollUpSingle(r, ps, boms, visited);
  }

  // ---------------------------------------------------------------------------
  // A component whose product is missing
  // ---------------------------------------------------------------------------

  /** Product "s" is not in the snapshot, so the component contributes 0 even
      though an Approved BOM for "s" exists. */
  lemma MissingProductIgnoresSubAssembly()
    ensures CalculateRecursiveBomCost(TopBom(), [SeedProduct("p", "Part", 5.0, 0.0, "")], [SubBom()]) == 0.0
  {
    var ps, boms := [SeedProduct("p", "Part", 5.0, 0.0, "")], [SubBom()];
    var l, r := TopBom().components[0], TopBom().components[1];
    var visited := {} + {"bom-t"};
    assert FindProduct(ps, "s").None?;
    assert TopBom().components == [l] + [r];
    RollUpAppend([l], [r], ps, boms, visited);
    RollUpSingle(l, ps, boms, visited);
    RollUpSingle(r, ps, boms, visited);
  }
}
