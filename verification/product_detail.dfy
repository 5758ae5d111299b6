/** The product page (src/pages/ProductDetail.tsx): which lifecycle moves each
    role is offered, who may edit or delete, which BOM's cost is shown, and
    the attachment form's guard. */
module ProductDetail {
  import opened Domain
  import opened Calculations

  // ---------------------------------------------------------------------------
  // Lifecycle buttons
  // ---------------------------------------------------------------------------

  /** The lifecycle buttons shown, as the statuses they request, in page order:
      submit for review; reject and approve the technical review; final
      release sign-off. */
  function TransitionsOffered(role: Option<Role>, status: ProductStatus): (r: seq<ProductStatus>)
    ensures |r| <= 2
    ensures role.None? || role == Some(Admin) ==> r == []
    ensures status in {ProductActive, ProductObsolete, ProductArchived} ==> r == []
  {
    (if role == Some(Engineer) && status == ProductDraft then [ProductPendingApproval] else [])
    + (if (role == Some(Manager) || role == Some(Dgm)) && status == ProductPendingApproval
       then [ProductDraft, ProductInReview] else [])
    + (if role == Some(Dgm) && status == ProductInReview then [ProductActive] else [])
  }

  /** The product lifecycle as a table of (role, from, to) moves. */
  ghost predicate LifecycleMove(role: Role, from: ProductStatus, to: ProductStatus)
  {
    || (role == Engineer && from == ProductDraft && to == ProductPendingApproval)
    || (role in {Manager, Dgm} && from == ProductPendingApproval && to == ProductDraft)
    || (role in {Manager, Dgm} && from == ProductPendingApproval && to == ProductInReview)
    || (role == Dgm && from == ProductInReview && to == ProductActive)
  }

  /** A button for `to` is shown exactly when the table has the move. */
  lemma TransitionsFollowTable(role: Option<Role>, from: ProductStatus, to: ProductStatus)
    ensures to in TransitionsOffered(role, from) <==> role.Some? && LifecycleMove(role.value, from, to)
  {
  }

  /** Only an engineer submits a draft; only a manager or DGM rejects or
      approves a pending product; only a DGM releases. */
  lemma WhoMovesWhat(role: Option<Role>, from: ProductStatus)
    ensures ProductPendingApproval in TransitionsOffered(role, from) ==> role == Some(Engineer)
    ensures ProductInReview in TransitionsOffered(role, from) ==> role in {Some(Manager), Some(Dgm)}
    ensures ProductActive in TransitionsOffered(role, from) ==> role == Some(Dgm)
    ensures ProductDraft in TransitionsOffered(role, from) ==> from == ProductPendingApproval
  {
  }

  /** A lifecycle button never leads back to where the product is. */
  lemma NoSelfTransition(role: Option<Role>, status: ProductStatus)
    ensures status !in TransitionsOffered(role, status)
  {
  }

  /** `Partial<Product>` for the fields modelled: `Some` when the key is present. */
  datatype ProductPatch = ProductPatch(
    name: Option<string>, sku: Option<string>, cost: Option<real>, price: Option<real>,
    category: Option<string>, status: Option<ProductStatus>, attachments: Option<Option<seq<Attachment>>>)

  /** handleStatusChange: `updateProduct(product.id, { status })`. */
  function StatusChangePatch(status: ProductStatus): (r: ProductPatch)
    ensures r.status == Some(status)
    ensures r.name.None? && r.sku.None? && r.cost.None? && r.price.None? && r.category.None? && r.attachments.None?
  {
    ProductPatch(None, None, None, None, None, Some(status), None)
  }

  /** `{ ...p, ...patch }`. */
  function MergeProduct(p: Product, patch: ProductPatch): Product
  {
    Product(p.id, GetOr(patch.name, p.name), GetOr(patch.sku, p.sku), GetOr(patch.cost, p.cost),
            GetOr(patch.price, p.price), GetOr(patch.category, p.category), GetOr(patch.status, p.status),
            GetOr(patch.attachments, p.attachments))
  }

  /** A status change touches the status and nothing else. */
  lemma StatusChangeTouchesOnlyStatus(p: Product, status: ProductStatus)
    ensures MergeProduct(p, StatusChangePatch(status)) == p.(status := status)
  {
  }

  // ---------------------------------------------------------------------------
  // Edit and delete permissions
  // ---------------------------------------------------------------------------

  /** canEdit. */
  function CanEdit(role: Option<Role>, status: ProductStatus): (r: bool)
    ensures role.None? ==> !r
    ensures status != ProductDraft ==> (r <==> role in {Some(Admin), Some(Dgm)})
  {
    || (role == Some(Engineer) && status == ProductDraft)
    || (role == Some(Manager) && status == ProductDraft)
    || role == Some(Admin)
    || role == Some(Dgm)
  }

  /** Whether the Delete button is shown. */
  function CanDelete(role: Option<Role>, status: ProductStatus): (r: bool)
    ensures r ==> role.Some? && role != Some(Manager)
    ensures status == ProductDraft ==> (r <==> role in {Some(Admin), Some(Dgm), Some(Engineer)})
  {
    role == Some(Admin) || role == Some(Dgm) || (role == Some(Engineer) && status == ProductDraft)
  }

  /** Admin and DGM edit in every status; engineers and managers only drafts;
      nobody signed out. */
  lemma EditRule(role: Option<Role>, status: ProductStatus)
    ensures CanEdit(role, status) <==>
              role.Some? && (role.value in {Admin, Dgm} || (role.value in {Engineer, Manager} && status == ProductDraft))
  {
  }

  /** Managers never see Delete; engineers only on drafts; Admin and DGM always. */
  lemma DeleteRule(role: Option<Role>, status: ProductStatus)
    ensures role == Some(Manager) ==> !CanDelete(role, status)
    ensures role == Some(Engineer) ==> (CanDelete(role, status) <==> status == ProductDraft)
    ensures role in {Some(Admin), Some(Dgm)} ==> CanDelete(role, status)
    ensures role.None? ==> !CanDelete(role, status)
  {
  }

  /** Whoever may delete a product may also edit it; the converse fails for a
      manager on a draft. */
  lemma DeleteImpliesEdit(role: Option<Role>, status: ProductStatus)
    ensures CanDelete(role, status) ==> CanEdit(role, status)
    ensures CanEdit(Some(Manager), ProductDraft) && !CanDelete(Some(Manager), ProductDraft)
  {
  }

  // ---------------------------------------------------------------------------
  // The page's data
  // ---------------------------------------------------------------------------

  /** `products.find(p => p.id === id)` with the route parameter, which may be
      missing; a missing product shows "Product not found". */
  function PageProduct(products: seq<Product>, routeId: Option<string>): (r: Option<Product>)
    ensures routeId.None? ==> r.None?
    ensures routeId.Some? ==> r == FindProduct(products, routeId.value)
  {
    match routeId
    case None => None
    case Some(id) => FindProduct(products, id)
  }

  /** `i` is the first position of a BOM of the product. */
  ghost predicate FirstOfProduct(boms: seq<Bom>, productId: string, i: int)
  {
    0 <= i < |boms| && boms[i].productId == productId
    && forall j :: 0 <= j < i ==> boms[j].productId != productId
  }

  /** `boms.find(b => b.productId === id)`: the first BOM of the product,
      whatever its status. */
  function FirstBomOf(boms: seq<Bom>, productId: string): (r: Option<Bom>)
    ensures r.None? <==> forall i :: 0 <= i < |boms| ==> boms[i].productId != productId
    ensures r.Some? ==> r.value.productId == productId && r.value in boms
    ensures r.Some? ==> exists i :: FirstOfProduct(boms, productId, i) && r.value == boms[i]
  {
    if |boms| == 0 then None
    else if boms[0].productId == productId then Some(boms[0])
    else FirstBomOf(boms[1..], productId)
  }

  lemma {:induction false} FirstBomOfIsFirst(boms: seq<Bom>, productId: string, i: nat)
    requires i < |boms| && boms[i].productId == productId
    requires forall j :: 0 <= j < i ==> boms[j].productId != productId
    ensures FirstBomOf(boms, productId) == Some(boms[i])
  {
    if i > 0 {
      assert boms[1..][i - 1] == boms[i];
      FirstBomOfIsFirst(boms[1..], productId, i - 1);
    }
  }

  /** The "Roll-up" figure: the flat cost of that BOM, or nothing when the
      product has no BOM. */
  function DisplayedRollUp(products: seq<Product>, boms: seq<Bom>, productId: string): (r: Option<real>)
    ensures r.None? <==> forall i :: 0 <= i < |boms| ==> boms[i].productId != productId
    ensures r.Some? ==> exists i :: FirstOfProduct(boms, productId, i) && r.value == CalculateBomCost(boms[i], products)
  {
    match FirstBomOf(boms, productId)
    case None => None
    case Some(b) => Some(CalculateBomCost(b, products))
  }

  /** The figure comes from the first BOM listed for the product even when it is
      a draft and a later one is Approved. */
  lemma DisplayedBomIgnoresStatus(products: seq<Product>, draft: Bom, approved: Bom)
    requires draft.productId == approved.productId
    requires draft.status == BomDraft && approved.status == BomApproved
    ensures DisplayedRollUp(products, [draft, approved], draft.productId) == Some(CalculateBomCost(draft, products))
    ensures FindApprovedBom([draft, approved], draft.productId) == Some(approved)
  {
    FindApprovedBomFirst([draft, approved], draft.productId, 1);
  }

  // ---------------------------------------------------------------------------
  // Attachments form
  // ---------------------------------------------------------------------------

  /** handleAddAttachment: nothing without a name, a URL and a signed-in user;
      otherwise an "Other" attachment uploaded by that user.  `uuid` and `now`
      stand for crypto.randomUUID() and the ISO timestamp. */
  function NewAttachment(name: string, url: string, user: Option<User>, uuid: string, now: string): (r: Option<Attachment>)
    ensures r.Some? <==> name != "" && url != "" && user.Some?
    ensures r.Some? ==> r.value.name == name && r.value.url == url && r.value.kind == Other
    ensures r.Some? ==> r.value.uploadedBy == user.value.id && r.value.id == uuid && r.value.uploadedAt == now
  {
    if name == "" || url == "" || user.None? then None
    else Some(Attachment(uuid, name, url, Other, user.value.id, now))
  }
}
