/** The BOM editor (src/pages/BOMEditor.tsx): the form and its component rows,
    the read-only rule, the component picker, the two cost figures and the
    request sent on save. */
module BomEditor {
  import opened Domain
  import opened Calculations
  import opened CalculationProperties

  /** `Partial<BOM>` as held by the form; `None` marks an absent key. */
  datatype BomForm = BomForm(
    id: Option<string>, name: string, productId: string, version: string, status: BomStatus,
    components: seq<BomComponent>, createdAt: Option<string>, updatedAt: Option<string>)

  /** The form of a new BOM. */
  function DefaultForm(): BomForm
  {
    BomForm(None, "", "", "1.0", BomDraft, [], None, None)
  }

  /** `setFormData(bom)`.  Timestamps are not part of the BOM record here. */
  function FormOf(b: Bom): BomForm
  {
    BomForm(Some(b.id), b.name, b.productId, b.version, b.status, b.components, None, None)
  }

  /** `Boolean(id)` on the route parameter. */
  predicate IsEditing(routeId: Option<string>)
  {
    routeId.Some? && routeId.value != ""
  }

  /** `i` is the first position of a BOM with the id. */
  ghost predicate FirstWithId(boms: seq<Bom>, id: string, i: int)
  {
    0 <= i < |boms| && boms[i].id == id && forall j :: 0 <= j < i ==> boms[j].id != id
  }

  /** The form after loading: the stored BOM with the route's id, when there
      is one. */
  function LoadedForm(boms: seq<Bom>, routeId: Option<string>): (r: BomForm)
    ensures !IsEditing(routeId) ==> r == DefaultForm()
    ensures IsEditing(routeId) && (forall i :: 0 <= i < |boms| ==> boms[i].id != routeId.value) ==> r == DefaultForm()
    ensures IsEditing(routeId) ==> forall i :: FirstWithId(boms, routeId.value, i) ==> r == FormOf(boms[i])
  {
    if !IsEditing(routeId) then DefaultForm()
    else
      match Find(boms, (b: Bom) => b.id == routeId.value)
      case None => DefaultForm()
      case Some(b) => FormOf(b)
  }

  // ---------------------------------------------------------------------------
  // Read-only rule
  // ---------------------------------------------------------------------------

  /** isReadOnly: an existing BOM whose form status is not Draft, for anyone
      but an admin.  It reads the form's status, so it changes as soon as the
      status select does. */
  function IsReadOnly(editing: bool, formStatus: BomStatus, role: Option<Role>): (r: bool)
    ensures !editing || role == Some(Admin) || formStatus == BomDraft ==> !r
    ensures editing && role.None? ==> (r <==> formStatus != BomDraft)
  {
    editing && formStatus != BomDraft && role != Some(Admin)
  }

  lemma ReadOnlyRule(editing: bool, formStatus: BomStatus, role: Option<Role>)
    ensures !editing ==> !IsReadOnly(editing, formStatus, role)
    ensures role == Some(Admin) ==> !IsReadOnly(editing, formStatus, role)
    ensures editing && role != Some(Admin) ==> (IsReadOnly(editing, formStatus, role) <==> formStatus != BomDraft)
  {
  }

  /** The statuses the select offers. */
  function StatusOptions(): (r: seq<BomStatus>)
    ensures BomPendingApproval !in r && BomInReview !in r
  {
    [BomDraft, BomApproved, BomObsolete]
  }

  /** Save is shown only while the form is not read-only: once a non-admin
      moves an existing BOM's status away from Draft, the button disappears, so
      every update a non-admin can send keeps the status Draft. */
  lemma NonAdminUpdatesStayDraft(formStatus: BomStatus, role: Option<Role>)
    requires role != Some(Admin)
    requires !IsReadOnly(true, formStatus, role)
    ensures formStatus == BomDraft
  {
  }

  // ---------------------------------------------------------------------------
  // Component rows
  // ---------------------------------------------------------------------------

  /** handleAddComponent: a fresh row, no product yet, quantity 1, unit "pcs". */
  function AddComponent(form: BomForm, uuid: string): (r: BomForm)
    ensures r.components == form.components + [BomComponent(uuid, "", 1.0, "pcs")]
    ensures r.(components := form.components) == form
  {
    form.(components := form.components + [BomComponent(uuid, "", 1.0, "pcs")])
  }

  /** The filter test of handleRemoveComponent, and its negation. */
  function OtherRow(componentId: string): BomComponent -> bool
  {
    (c: BomComponent) => c.id != componentId
  }

  function RowWithId(componentId: string): BomComponent -> bool
  {
    (c: BomComponent) => c.id == componentId
  }

  /** Every row either has the id or not. */
  lemma {:induction false} CountRows(rows: seq<BomComponent>, componentId: string)
    ensures Count(rows, OtherRow(componentId)) == |rows| - Count(rows, RowWithId(componentId))
    decreases |rows|
  {
    if |rows| > 0 {
      CountRows(rows[1..], componentId);
    }
  }

  /** handleRemoveComponent: drop every row with that id. */
  function RemoveComponent(form: BomForm, componentId: string): (r: BomForm)
    ensures forall i :: 0 <= i < |r.components| ==> r.components[i].id != componentId
    ensures forall i :: 0 <= i < |form.components| && form.components[i].id != componentId
                       ==> form.components[i] in r.components
    ensures Subsequence(r.components, form.components)
    ensures |r.components| == |form.components| - Count(form.components, RowWithId(componentId))
    ensures r.(components := form.components) == form
  {
    CountRows(form.components, componentId);
    form.(components := Filter(form.components, OtherRow(componentId)))
  }

  /** Removing the row just added restores the form, when its uuid is new. */
  lemma RemoveUndoesAdd(form: BomForm, uuid: string)
    requires forall i :: 0 <= i < |form.components| ==> form.components[i].id != uuid
    ensures RemoveComponent(AddComponent(form, uuid), uuid) == form
  {
    var keep := OtherRow(uuid);
    FilterAppend(form.components, [BomComponent(uuid, "", 1.0, "pcs")], keep);
    FilterAll(form.components, keep);
    assert Filter([BomComponent(uuid, "", 1.0, "pcs")], keep) == [];
  }

  /** The field handleUpdateComponent sets, with its new value. */
  datatype ComponentField = ProductRef(productId: string) | Quantity(quantity: real) | Unit(unit: string)

  /** `{ ...c, [field]: value }`. */
  function SetField(c: BomComponent, field: ComponentField): (r: BomComponent)
    ensures r.id == c.id
  {
    match field
    case ProductRef(p) => c.(componentProductId := p)
    case Quantity(q) => c.(quantity := q)
    case Unit(u) => c.(unit := u)
  }

  /** handleUpdateComponent: set the field on every row with that id. */
  function UpdateComponent(form: BomForm, componentId: string, field: ComponentField): (r: BomForm)
    ensures |r.components| == |form.components|
    ensures forall i :: 0 <= i < |r.components| ==> r.components[i].id == form.components[i].id
    ensures forall i :: 0 <= i < |r.components| ==>
              r.components[i] == if form.components[i].id == componentId
                                 then SetField(form.components[i], field) else form.components[i]
    ensures r.(components := form.components) == form
  {
    form.(components := seq(|form.components|, i requires 0 <= i < |form.components| =>
            if form.components[i].id == componentId then SetField(form.components[i], field)
            else form.components[i]))
  }

  /** Updating a row that is not there changes nothing. */
  lemma UpdateMissingIsNoOp(form: BomForm, componentId: string, field: ComponentField)
    requires forall i :: 0 <= i < |form.components| ==> form.components[i].id != componentId
    ensures UpdateComponent(form, componentId, field) == form
  {
    assert UpdateComponent(form, componentId, field).components == form.components;
  }

  // ---------------------------------------------------------------------------
  // Costs shown in the editor
  // ---------------------------------------------------------------------------

  /** Two component lists that price the same: row by row the same product and
      quantity, whatever the ids and units. */
  ghost predicate SameCostData(a: seq<BomComponent>, b: seq<BomComponent>)
  {
    |a| == |b| &&
    forall i :: 0 <= i < |a| ==> a[i].componentProductId == b[i].componentProductId && a[i].quantity == b[i].quantity
  }

  /** The flat cost reads only products and quantities. */
  lemma {:induction false} FlatCostReadsProductAndQuantity(a: seq<BomComponent>, b: seq<BomComponent>,
                                                          products: seq<Product>)
    requires SameCostData(a, b)
    ensures FlatCost(a, products) == FlatCost(b, products)
    decreases |a|
  {
    if |a| > 0 {
      var n := |a| - 1;
      assert SameCostData(a[..n], b[..n]);
      FlatCostReadsProductAndQuantity(a[..n], b[..n], products);
      assert LeafCost(a[n], products) == LeafCost(b[n], products);
    }
  }

  /** Editing a row's unit never moves the flat cost. */
  lemma UnitEditKeepsFlatCost(form: BomForm, componentId: string, unit: string, products: seq<Product>)
    ensures FlatCost(UpdateComponent(form, componentId, Unit(unit)).components, products)
         == FlatCost(form.components, products)
  {
    FlatCostReadsProductAndQuantity(UpdateComponent(form, componentId, Unit(unit)).components,
                                    form.components, products);
  }

  /** A row whose product is missing adds nothing to the flat cost. */
  lemma MissingRowAddsNothing(components: seq<BomComponent>, c: BomComponent, products: seq<Product>)
    requires FindProduct(products, c.componentProductId).None?
    ensures FlatCost(components + [c], products) == FlatCost(components, products)
  {
    FlatCostAppend(components, [c], products);
    FlatCostSingle(c, products);
  }

  /** A freshly added row names no product, so it adds nothing to the flat
      cost while no product has the empty id. */
  lemma NewRowCostsNothing(form: BomForm, uuid: string, products: seq<Product>)
    requires forall i :: 0 <= i < |products| ==> products[i].id != ""
    ensures FlatCost(AddComponent(form, uuid).components, products) == FlatCost(form.components, products)
  {
    MissingRowAddsNothing(form.components, BomComponent(uuid, "", 1.0, "pcs"), products);
  }

  /** `formData as BOM`, for a form that has an id. */
  function FormBom(form: BomForm, id: string): (r: Bom)
    ensures r.id == id && r.components == form.components && r.productId == form.productId
    ensures r.status == form.status
  {
    Bom(id, form.productId, form.name, form.version, form.status, form.components)
  }

  /** The "Rolled-up Cost" badge.  A new BOM's form has no id, so the guard
      records `undefined`, which equals no stored BOM's id: the components are
      rolled up with nothing excluded. */
  function EditorRolledUpCost(form: BomForm, products: seq<Product>, boms: seq<Bom>): real
  {
    match form.id
    case Some(id) => CalculateRecursiveBomCost(FormBom(form, id), products, boms)
    case None => RollUp(form.components, products, boms, {})
  }

  /** The "Flat Cost" badge. */
  function EditorFlatCost(form: BomForm, products: seq<Product>): (r: real)
    ensures r == FlatCost(form.components, products)
  {
    CalculateBomCost(FormBom(form, GetOr(form.id, "")), products)
  }

  /** With no component that has an Approved BOM, the two badges agree. */
  lemma BadgesAgreeOnLeaves(form: BomForm, products: seq<Product>, boms: seq<Bom>)
    requires AllLeaves(form.components, boms)
    ensures EditorFlatCost(form, products) == EditorRolledUpCost(form, products, boms)
  {
    match form.id
    case Some(id) => RecursiveCostOfLeaves(FormBom(form, id), products, boms);
    case None => RollUpOfLeaves(form.components, products, boms, {});
  }

  /** With non-negative costs and quantities both badges are non-negative. */
  lemma BadgesNonNegative(form: BomForm, products: seq<Product>, boms: seq<Bom>)
    requires NonNegativeCosts(products) && NonNegativeBoms(boms) && NonNegativeQuantities(form.components)
    ensures EditorFlatCost(form, products) >= 0.0 && EditorRolledUpCost(form, products, boms) >= 0.0
  {
    FlatCostNonNegative(form.components, products);
    match form.id
    case Some(id) => RecursiveCostNonNegative(FormBom(form, id), products, boms, {});
    case None => RollUpNonNegative(form.components, products, boms, {});
  }

  // ---------------------------------------------------------------------------
  // Component picker
  // ---------------------------------------------------------------------------

  /** The products offered for a row: every product except the BOM's own. */
  function ComponentChoices(products: seq<Product>, productId: string): (r: seq<Product>)
    ensures forall i :: 0 <= i < |r| ==> r[i].id != productId && r[i] in products
    ensures forall i :: 0 <= i < |products| && products[i].id != productId ==> products[i] in r
  {
    Filter(products, (p: Product) => p.id != productId)
  }

  /** The picker only rules out the direct self-reference: with products "a"
      and "b", the BOM of "a" may list "b" and the BOM of "b" may list "a", a
      two-step cycle that only the roll-up's guard catches. */
  lemma IndirectCycleNotPrevented(a: Product, b: Product)
    requires a.id != b.id
    ensures b in ComponentChoices([a, b], a.id)
    ensures a in ComponentChoices([a, b], b.id)
    ensures a !in ComponentChoices([a, b], a.id)
  {
    var s := [a, b];
    assert s[1].id != a.id && s[0].id != b.id;
    var r := ComponentChoices(s, a.id);
    forall i | 0 <= i < |r|
      ensures r[i] != a
    {
      assert r[i].id != a.id;
    }
  }

  // ---------------------------------------------------------------------------
  // Saving
  // ---------------------------------------------------------------------------

  /** What handleSubmit sends. */
  datatype Submission = UpdateRequest(id: string, patch: BomForm) | CreateRequest(form: BomForm)

  /** handleSubmit: an update of the route's BOM with a fresh `updatedAt`, or a
      new BOM with a fresh id and both timestamps.  Unlike the ECO editor it
      does not need a signed-in user. */
  function Submit(form: BomForm, routeId: Option<string>, uuid: string, now: string): (r: Submission)
    ensures r.UpdateRequest? <==> IsEditing(routeId)
    ensures r.UpdateRequest? ==> r.id == routeId.value && r.patch == form.(updatedAt := Some(now))
    ensures r.CreateRequest? ==> r.form.id == Some(uuid) && r.form.createdAt == Some(now)
                                 && r.form.updatedAt == Some(now)
    ensures r.CreateRequest? ==> r.form.(id := form.id, createdAt := form.createdAt, updatedAt := form.updatedAt) == form
  {
    if IsEditing(routeId) then UpdateRequest(routeId.value, form.(updatedAt := Some(now)))
    else CreateRequest(form.(id := Some(uuid), createdAt := Some(now), updatedAt := Some(now)))
  }

  /** A new BOM may be created in any status the select offers, Approved
      included, by any role: the read-only rule never applies to new BOMs. */
  lemma NewBomMayBeApproved(role: Option<Role>, uuid: string, now: string)
    ensures !IsReadOnly(false, BomApproved, role)
    ensures Submit(DefaultForm().(status := BomApproved), None, uuid, now).form.status == BomApproved
  {
  }
}
