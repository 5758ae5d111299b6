/** The client store (src/store/useStore.ts) as pure state transitions.

    Each asynchronous action awaits one service call and then applies a `set`.
    The service's answer is a parameter (`Response`): `Ok` carries the record
    the server returned, `Failed` the error the action rethrows.  The random
    audit-entry id and the timestamp are parameters too (`Stamp`). */
module Store {
  import opened Domain

  datatype State = State(
    isLoading: bool,
    error: Option<string>,
    products: seq<Product>,
    boms: seq<Bom>,
    suppliers: seq<Supplier>,
    ecos: seq<Eco>,
    ncrs: seq<Ncr>,
    capas: seq<Capa>,
    auditLogs: seq<AuditEntry>,
    currentUser: Option<User>,
    isAuthenticated: bool)

  /** The store as created. */
  function Initial(): (s: State)
    ensures s.products == [] && s.boms == [] && s.suppliers == [] && s.ecos == []
    ensures s.ncrs == [] && s.capas == [] && s.auditLogs == []
    ensures s.currentUser.None? && !s.isAuthenticated && !s.isLoading && s.error.None?
  {
    State(false, None, [], [], [], [], [], [], [], None, false)
  }

  /** What an awaited service call produced. */
  datatype Response<T> = Ok(value: T) | Failed(message: string)

  /** The state after an action, and the error it rethrows, if any. */
  datatype Outcome = Outcome(state: State, thrown: Option<string>)

  /** `crypto.randomUUID()` and `new Date().toISOString()` for one audit entry. */
  datatype Stamp = Stamp(id: string, timestamp: string)

  // ---------------------------------------------------------------------------
  // By-id collection updates
  // ---------------------------------------------------------------------------

  function ProductId(p: Product): string { p.id }
  function BomId(b: Bom): string { b.id }
  function SupplierId(x: Supplier): string { x.id }
  function EcoId(e: Eco): string { e.id }
  function NcrId(n: Ncr): string { n.id }
  function CapaId(c: Capa): string { c.id }
  function AttachmentId(a: Attachment): string { a.id }

  /** `xs.map(x => x.id === id ? v : x)`. */
  function ReplaceById<T>(xs: seq<T>, idOf: T -> string, id: string, v: T): (r: seq<T>)
    ensures |r| == |xs|
    ensures forall i :: 0 <= i < |xs| ==> r[i] == if idOf(xs[i]) == id then v else xs[i]
  {
    if |xs| == 0 then []
    else [if idOf(xs[0]) == id then v else xs[0]] + ReplaceById(xs[1..], idOf, id, v)
  }

  /** `xs.filter(x => x.id !== id)`. */
  function RemoveById<T(==)>(xs: seq<T>, idOf: T -> string, id: string): (r: seq<T>)
    ensures forall i :: 0 <= i < |r| ==> idOf(r[i]) != id && r[i] in xs
    ensures forall i :: 0 <= i < |xs| && idOf(xs[i]) != id ==> xs[i] in r
    ensures Subsequence(r, xs)
    ensures |r| == |xs| - CountId(xs, idOf, id)
  {
    if |xs| == 0 then []
    else if idOf(xs[0]) != id then [xs[0]] + RemoveById(xs[1..], idOf, id)
    else RemoveById(xs[1..], idOf, id)
  }

  /** How many elements carry the id. */
  function CountId<T>(xs: seq<T>, idOf: T -> string, id: string): nat
  {
    if |xs| == 0 then 0
    else (if idOf(xs[0]) == id then 1 else 0) + CountId(xs[1..], idOf, id)
  }

  /** A subsequence free of the id keeps at most the elements without it. */
  lemma {:induction false} SubsequenceWithoutId<T>(a: seq<T>, xs: seq<T>, idOf: T -> string, id: string)
    requires Subsequence(a, xs)
    requires forall i :: 0 <= i < |a| ==> idOf(a[i]) != id
    ensures |a| <= |xs| - CountId(xs, idOf, id)
    decreases |xs|
  {
    if |xs| > 0 {
      if |a| > 0 && a[0] == xs[0] {
        SubsequenceWithoutId(a[1..], xs[1..], idOf, id);
      } else {
        SubsequenceWithoutId(a, xs[1..], idOf, id);
      }
    }
  }

  /** RemoveById's clauses determine it: the only subsequence of `xs` free of
      the id and as long as the elements without the id is RemoveById itself.
      So "exactly the elements with the id go, the rest stay in order". */
  lemma {:induction false} RemoveByIdUnique<T>(a: seq<T>, xs: seq<T>, idOf: T -> string, id: string)
    requires Subsequence(a, xs)
    requires forall i :: 0 <= i < |a| ==> idOf(a[i]) != id
    requires |a| == |xs| - CountId(xs, idOf, id)
    ensures a == RemoveById(xs, idOf, id)
    decreases |xs|
  {
    if |xs| > 0 {
      if |a| > 0 && a[0] == xs[0] {
        RemoveByIdUnique(a[1..], xs[1..], idOf, id);
        assert a == [a[0]] + a[1..];
      } else {
        SubsequenceWithoutId(a, xs[1..], idOf, id);
        RemoveByIdUnique(a, xs[1..], idOf, id);
      }
    }
  }

  // ---------------------------------------------------------------------------
  // The audit log
  // ---------------------------------------------------------------------------

  /** The entry logAction builds for the signed-in user. */
  function EntryFor(u: User, action: string, details: string, stamp: Stamp): AuditEntry
  {
    AuditEntry(stamp.id, u.id, u.name, action, details, stamp.timestamp)
  }

  /** `logAction(action, details)`: without a signed-in user nothing happens;
      otherwise one entry for that user goes to the front of the log. */
  function LogAction(s: State, action: string, details: string, stamp: Stamp): (r: State)
    ensures s.currentUser.None? ==> r == s
    ensures s.currentUser.Some? ==>
              |r.auditLogs| == |s.auditLogs| + 1 && r.auditLogs[1..] == s.auditLogs
              && r.auditLogs[0].userId == s.currentUser.value.id
              && r.auditLogs[0].userName == s.currentUser.value.name
              && r.auditLogs[0].action == action && r.auditLogs[0].details == details
    ensures r.(auditLogs := s.auditLogs) == s
  {
    match s.currentUser
    case None => s
    case Some(u) => s.(auditLogs := [EntryFor(u, action, details, stamp)] + s.auditLogs)
  }

  /** The audit log of `after` is that of `before` with the entry for the
      action in front, or unchanged when nobody is signed in. */
  ghost predicate Logged(before: State, after: State, action: string, details: string, stamp: Stamp)
  {
    match before.currentUser
    case None => after.auditLogs == before.auditLogs
    case Some(u) => after.auditLogs == [EntryFor(u, action, details, stamp)] + before.auditLogs
  }

  /** The log is newest-first: two actions in a row put the later one in front
      of the earlier one, ahead of the older entries. */
  lemma LogIsNewestFirst(s: State, a1: string, d1: string, t1: Stamp, a2: string, d2: string, t2: Stamp)
    requires s.currentUser.Some?
    ensures var r := LogAction(LogAction(s, a1, d1, t1), a2, d2, t2);
            r.auditLogs[0].action == a2 && r.auditLogs[1].action == a1 && r.auditLogs[2..] == s.auditLogs
  {
    var r1 := LogAction(s, a1, d1, t1);
    var r := LogAction(r1, a2, d2, t2);
    assert r.auditLogs == [EntryFor(s.currentUser.value, a2, d2, t2), EntryFor(s.currentUser.value, a1, d1, t1)] + s.auditLogs;
  }

  /** The shared shape of every create/update/delete action: a failed service
      call leaves the state alone and rethrows; a successful one applies
      `changed` and then logs. */
  function Commit<T>(s: State, response: Response<T>, changed: State, action: string, details: string,
                     stamp: Stamp): (r: Outcome)
    ensures response.Failed? ==> r == Outcome(s, Some(response.message))
    ensures response.Ok? ==> r.thrown.None? && r.state.(auditLogs := changed.auditLogs) == changed
    ensures response.Ok? && changed.currentUser == s.currentUser && changed.auditLogs == s.auditLogs
            ==> Logged(s, r.state, action, details, stamp)
  {
    match response
    case Failed(message) => Outcome(s, Some(message))
    case Ok(_) => Outcome(LogAction(changed, action, details, stamp), None)
  }

  // ---------------------------------------------------------------------------
  // Products
  // ---------------------------------------------------------------------------

  /** addProduct: the server's record is appended; the log names the product
      as submitted. */
  function AddProduct(s: State, product: Product, response: Response<Product>, stamp: Stamp): (r: Outcome)
    ensures response.Failed? ==> r == Outcome(s, Some(response.message))
    ensures response.Ok? ==> r.thrown.None? && r.state.products == s.products + [response.value]
    ensures response.Ok? ==> Logged(s, r.state, "CREATE_PRODUCT", "Created product: " + product.name, stamp)
    ensures r.state.(products := s.products, auditLogs := s.auditLogs) == s
  {
    var changed := if response.Ok? then s.(products := s.products + [response.value]) else s;
    Commit(s, response, changed, "CREATE_PRODUCT", "Created product: " + product.name, stamp)
  }

  /** updateProduct: every product with the id becomes the server's record. */
  function UpdateProduct(s: State, id: string, response: Response<Product>, stamp: Stamp): (r: Outcome)
    ensures response.Failed? ==> r == Outcome(s, Some(response.message))
    ensures response.Ok? ==> r.thrown.None? && |r.state.products| == |s.products|
    ensures response.Ok? ==> forall i :: 0 <= i < |s.products| ==>
              r.state.products[i] == if s.products[i].id == id then response.value else s.products[i]
    ensures response.Ok? ==> Logged(s, r.state, "UPDATE_PRODUCT", "Updated product: " + id, stamp)
    ensures r.state.(products := s.products, auditLogs := s.auditLogs) == s
  {
    var changed := if response.Ok? then s.(products := ReplaceById(s.products, ProductId, id, response.value)) else s;
    Commit(s, response, changed, "UPDATE_PRODUCT", "Updated product: " + id, stamp)
  }

  /** deleteProduct: exactly the products with the id go, the rest keep their order. */
  function DeleteProduct(s: State, id: string, response: Response<()>, stamp: Stamp): (r: Outcome)
    ensures response.Failed? ==> r == Outcome(s, Some(response.message))
    ensures response.Ok? ==> r.thrown.None? && Subsequence(r.state.products, s.products)
    ensures response.Ok? ==> r.state.products == RemoveById(s.products, ProductId, id)
    ensures response.Ok? ==> forall i :: 0 <= i < |r.state.products| ==> r.state.products[i].id != id
    ensures response.Ok? ==> forall i :: 0 <= i < |s.products| && s.products[i].id != id ==>
              s.products[i] in r.state.products
    ensures response.Ok? ==> Logged(s, r.state, "DELETE_PRODUCT", "Deleted product: " + id, stamp)
    ensures r.state.(products := s.products, auditLogs := s.auditLogs) == s
  {
    var changed := if response.Ok? then s.(products := RemoveById(s.products, ProductId, id)) else s;
    Commit(s, response, changed, "DELETE_PRODUCT", "Deleted product: " + id, stamp)
  }

  // ---------------------------------------------------------------------------
  // BOMs
  // ---------------------------------------------------------------------------

  function AddBom(s: State, bom: Bom, response: Response<Bom>, stamp: Stamp): (r: Outcome)
    ensures response.Failed? ==> r == Outcome(s, Some(response.message))
    ensures response.Ok? ==> r.thrown.None? && r.state.boms == s.boms + [response.value]
    ensures response.Ok? ==> Logged(s, r.state, "CREATE_BOM", "Created BOM: " + bom.name, stamp)
    ensures r.state.(boms := s.boms, auditLogs := s.auditLogs) == s
  {
    var changed := if response.Ok? then s.(boms := s.boms + [response.value]) else s;
    Commit(s, response, changed, "CREATE_BOM", "Created BOM: " + bom.name, stamp)
  }

  function UpdateBom(s: State, id: string, response: Response<Bom>, stamp: Stamp): (r: Outcome)
    ensures response.Failed? ==> r == Outcome(s, Some(response.message))
    ensures response.Ok? ==> r.thrown.None? && |r.state.boms| == |s.boms|
    ensures response.Ok? ==> forall i :: 0 <= i < |s.boms| ==>
              r.state.boms[i] == if s.boms[i].id == id then response.value else s.boms[i]
    ensures response.Ok? ==> Logged(s, r.state, "UPDATE_BOM", "Updated BOM: " + id, stamp)
    ensures r.state.(boms := s.boms, auditLogs := s.auditLogs) == s
  {
    var changed := if response.Ok? then s.(boms := ReplaceById(s.boms, BomId, id, response.value)) else s;
    Commit(s, response, changed, "UPDATE_BOM", "Updated BOM: " + id, stamp)
  }

  function DeleteBom(s: State, id: string, response: Response<()>, stamp: Stamp): (r: Outcome)
    ensures response.Failed? ==> r == Outcome(s, Some(response.message))
    ensures response.Ok? ==> r.thrown.None? && Subsequence(r.state.boms, s.boms)
    ensures response.Ok? ==> r.state.boms == RemoveById(s.boms, BomId, id)
    ensures response.Ok? ==> forall i :: 0 <= i < |r.state.boms| ==> r.state.boms[i].id != id
    ensures response.Ok? ==> forall i :: 0 <= i < |s.boms| && s.boms[i].id != id ==> s.boms[i] in r.state.boms
    ensures response.Ok? ==> Logged(s, r.state, "DELETE_BOM", "Deleted BOM: " + id, stamp)
    ensures r.state.(boms := s.boms, auditLogs := s.auditLogs) == s
  {
    var changed := if response.Ok? then s.(boms := RemoveById(s.boms, BomId, id)) else s;
    Commit(s, response, changed, "DELETE_BOM", "Deleted BOM: " + id, stamp)
  }

  // ---------------------------------------------------------------------------
  // Suppliers
  // ---------------------------------------------------------------------------

  function AddSupplier(s: State, supplier: Supplier, response: Response<Supplier>, stamp: Stamp): (r: Outcome)
    ensures response.Failed? ==> r == Outcome(s, Some(response.message))
    ensures response.Ok? ==> r.thrown.None? && r.state.suppliers == s.suppliers + [response.value]
    ensures response.Ok? ==> Logged(s, r.state, "CREATE_SUPPLIER", "Created Supplier: " + supplier.name, stamp)
    ensures r.state.(suppliers := s.suppliers, auditLogs := s.auditLogs) == s
  {
    var changed := if response.Ok? then s.(suppliers := s.suppliers + [response.value]) else s;
    Commit(s, response, changed, "CREATE_SUPPLIER", "Created Supplier: " + supplier.name, stamp)
  }

  function UpdateSupplier(s: State, id: string, response: Response<Supplier>, stamp: Stamp): (r: Outcome)
    ensures response.Failed? ==> r == Outcome(s, Some(response.message))
    ensures response.Ok? ==> r.thrown.None? && |r.state.suppliers| == |s.suppliers|
    ensures response.Ok? ==> forall i :: 0 <= i < |s.suppliers| ==>
              r.state.suppliers[i] == if s.suppliers[i].id == id then response.value else s.suppliers[i]
    ensures response.Ok? ==> Logged(s, r.state, "UPDATE_SUPPLIER", "Updated Supplier: " + id, stamp)
    ensures r.state.(suppliers := s.suppliers, auditLogs := s.auditLogs) == s
  {
    var changed := if response.Ok? then s.(suppliers := ReplaceById(s.suppliers, SupplierId, id, response.value)) else s;
    Commit(s, response, changed, "UPDATE_SUPPLIER", "Updated Supplier: " + id, stamp)
  }

  function DeleteSupplier(s: State, id: string, response: Response<()>, stamp: Stamp): (r: Outcome)
    ensures response.Failed? ==> r == Outcome(s, Some(response.message))
    ensures response.Ok? ==> r.thrown.None? && Subsequence(r.state.suppliers, s.suppliers)
    ensures response.Ok? ==> r.state.suppliers == RemoveById(s.suppliers, SupplierId, id)
    ensures response.Ok? ==> forall i :: 0 <= i < |r.state.suppliers| ==> r.state.suppliers[i].id != id
    ensures response.Ok? ==> forall i :: 0 <= i < |s.suppliers| && s.suppliers[i].id != id ==>
              s.suppliers[i] in r.state.suppliers
    ensures response.Ok? ==> Logged(s, r.state, "DELETE_SUPPLIER", "Deleted Supplier: " + id, stamp)
    ensures r.state.(suppliers := s.suppliers, auditLogs := s.auditLogs) == s
  {
    var changed := if response.Ok? then s.(suppliers := RemoveById(s.suppliers, SupplierId, id)) else s;
    Commit(s, response, changed, "DELETE_SUPPLIER", "Deleted Supplier: " + id, stamp)
  }

  // ---------------------------------------------------------------------------
  // ECOs
  // ---------------------------------------------------------------------------

  function AddEco(s: State, eco: Eco, response: Response<Eco>, stamp: Stamp): (r: Outcome)
    ensures response.Failed? ==> r == Outcome(s, Some(response.message))
    ensures response.Ok? ==> r.thrown.None? && r.state.ecos == s.ecos + [response.value]
    ensures response.Ok? ==> Logged(s, r.state, "CREATE_ECO", "Created ECO: " + eco.title, stamp)
    ensures r.state.(ecos := s.ecos, auditLogs := s.auditLogs) == s
  {
    var changed := if response.Ok? then s.(ecos := s.ecos + [response.value]) else s;
    Commit(s, response, changed, "CREATE_ECO", "Created ECO: " + eco.title, stamp)
  }

  function UpdateEco(s: State, id: string, response: Response<Eco>, stamp: Stamp): (r: Outcome)
    ensures response.Failed? ==> r == Outcome(s, Some(response.message))
    ensures response.Ok? ==> r.thrown.None? && |r.state.ecos| == |s.ecos|
    ensures response.Ok? ==> forall i :: 0 <= i < |s.ecos| ==>
              r.state.ecos[i] == if s.ecos[i].id == id then response.value else s.ecos[i]
    ensures response.Ok? ==> Logged(s, r.state, "UPDATE_ECO", "Updated ECO: " + id, stamp)
    ensures r.state.(ecos := s.ecos, auditLogs := s.auditLogs) == s
  {
    var changed := if response.Ok? then s.(ecos := ReplaceById(s.ecos, EcoId, id, response.value)) else s;
    Commit(s, response, changed, "UPDATE_ECO", "Updated ECO: " + id, stamp)
  }

  function DeleteEco(s: State, id: string, response: Response<()>, stamp: Stamp): (r: Outcome)
    ensures response.Failed? ==> r == Outcome(s, Some(response.message))
    ensures response.Ok? ==> r.thrown.None? && Subsequence(r.state.ecos, s.ecos)
    ensures response.Ok? ==> r.state.ecos == RemoveById(s.ecos, EcoId, id)
    ensures response.Ok? ==> forall i :: 0 <= i < |r.state.ecos| ==> r.state.ecos[i].id != id
    ensures response.Ok? ==> forall i :: 0 <= i < |s.ecos| && s.ecos[i].id != id ==> s.ecos[i] in r.state.ecos
    ensures response.Ok? ==> Logged(s, r.state, "DELETE_ECO", "Deleted ECO: " + id, stamp)
    ensures r.state.(ecos := s.ecos, auditLogs := s.auditLogs) == s
  {
    var changed := if response.Ok? then s.(ecos := RemoveById(s.ecos, EcoId, id)) else s;
    Commit(s, response, changed, "DELETE_ECO", "Deleted ECO: " + id, stamp)
  }

  // ---------------------------------------------------------------------------
  // Quality: NCRs and CAPAs
  // ---------------------------------------------------------------------------

  /** addNCR: the log names the NCR by the id it was submitted with. */
  function AddNcr(s: State, ncr: Ncr, response: Response<Ncr>, stamp: Stamp): (r: Outcome)
    ensures response.Failed? ==> r == Outcome(s, Some(response.message))
    ensures response.Ok? ==> r.thrown.None? && r.state.ncrs == s.ncrs + [response.value]
    ensures response.Ok? ==> Logged(s, r.state, "CREATE_NCR", "Reported NCR: " + ncr.id, stamp)
    ensures r.state.(ncrs := s.ncrs, auditLogs := s.auditLogs) == s
  {
    var changed := if response.Ok? then s.(ncrs := s.ncrs + [response.value]) else s;
    Commit(s, response, changed, "CREATE_NCR", "Reported NCR: " + ncr.id, stamp)
  }

  function UpdateNcr(s: State, id: string, response: Response<Ncr>, stamp: Stamp): (r: Outcome)
    ensures response.Failed? ==> r == Outcome(s, Some(response.message))
    ensures response.Ok? ==> r.thrown.None? && |r.state.ncrs| == |s.ncrs|
    ensures response.Ok? ==> forall i :: 0 <= i < |s.ncrs| ==>
              r.state.ncrs[i] == if s.ncrs[i].id == id then response.value else s.ncrs[i]
    ensures response.Ok? ==> Logged(s, r.state, "UPDATE_NCR", "Updated NCR: " + id, stamp)
    ensures r.state.(ncrs := s.ncrs, auditLogs := s.auditLogs) == s
  {
    var changed := if response.Ok? then s.(ncrs := ReplaceById(s.ncrs, NcrId, id, response.value)) else s;
    Commit(s, response, changed, "UPDATE_NCR", "Updated NCR: " + id, stamp)
  }

  function AddCapa(s: State, capa: Capa, response: Response<Capa>, stamp: Stamp): (r: Outcome)
    ensures response.Failed? ==> r == Outcome(s, Some(response.message))
    ensures response.Ok? ==> r.thrown.None? && r.state.capas == s.capas + [response.value]
    ensures response.Ok? ==> Logged(s, r.state, "CREATE_CAPA", "Created CAPA: " + capa.title, stamp)
    ensures r.state.(capas := s.capas, auditLogs := s.auditLogs) == s
  {
    var changed := if response.Ok? then s.(capas := s.capas + [response.value]) else s;
    Commit(s, response, changed, "CREATE_CAPA", "Created CAPA: " + capa.title, stamp)
  }

  /** `Partial<CAPA>`: a field is `Some` when the key is present.  Fields that
      are themselves optional carry `Option<Option<..>>`. */
  datatype CapaPatch = CapaPatch(
    id: Option<string>, ncrId: Option<Option<string>>, title: Option<string>,
    rootCause: Option<string>, correctiveAction: Option<string>, preventiveAction: Option<string>,
    status: Option<CapaStatus>, assignedTo: Option<Option<string>>,
    createdAt: Option<string>, updatedAt: Option<string>)

  /** `{ ...c, ...patch }`: every key present in the patch wins. */
  function MergeCapa(c: Capa, patch: CapaPatch): (r: Capa)
    ensures patch.title.Some? ==> r.title == patch.title.value
    ensures patch.title.None? ==> r.title == c.title
    ensures patch.status.Some? ==> r.status == patch.status.value
    ensures patch.status.None? ==> r.status == c.status
    ensures patch.id.Some? ==> r.id == patch.id.value
    ensures patch.id.None? ==> r.id == c.id
    ensures patch.ncrId.Some? ==> r.ncrId == patch.ncrId.value
    ensures patch.ncrId.None? ==> r.ncrId == c.ncrId
    ensures patch.rootCause.Some? ==> r.rootCause == patch.rootCause.value
    ensures patch.rootCause.None? ==> r.rootCause == c.rootCause
    ensures patch.correctiveAction.Some? ==> r.correctiveAction == patch.correctiveAction.value
    ensures patch.correctiveAction.None? ==> r.correctiveAction == c.correctiveAction
    ensures patch.preventiveAction.Some? ==> r.preventiveAction == patch.preventiveAction.value
    ensures patch.preventiveAction.None? ==> r.preventiveAction == c.preventiveAction
    ensures patch.assignedTo.Some? ==> r.assignedTo == patch.assignedTo.value
    ensures patch.assignedTo.None? ==> r.assignedTo == c.assignedTo
    ensures patch.createdAt.Some? ==> r.createdAt == patch.createdAt.value
    ensures patch.createdAt.None? ==> r.createdAt == c.createdAt
    ensures patch.updatedAt.Some? ==> r.updatedAt == patch.updatedAt.value
    ensures patch.updatedAt.None? ==> r.updatedAt == c.updatedAt
  {
    Capa(
      GetOr(patch.id, c.id), GetOr(patch.ncrId, c.ncrId), GetOr(patch.title, c.title),
      GetOr(patch.rootCause, c.rootCause), GetOr(patch.correctiveAction, c.correctiveAction),
      GetOr(patch.preventiveAction, c.preventiveAction), GetOr(patch.status, c.status),
      GetOr(patch.assignedTo, c.assignedTo), GetOr(patch.createdAt, c.createdAt),
      GetOr(patch.updatedAt, c.updatedAt))
  }

  function EmptyCapaPatch(): CapaPatch
  {
    CapaPatch(None, None, None, None, None, None, None, None, None, None)
  }

  /** Merging an empty patch changes nothing; merging twice is merging once. */
  lemma MergeCapaLaws(c: Capa, patch: CapaPatch)
    ensures MergeCapa(c, EmptyCapaPatch()) == c
    ensures MergeCapa(MergeCapa(c, patch), patch) == MergeCapa(c, patch)
  {
  }

  /** updateCAPA: no service call and no audit entry; every CAPA with the id is
      merged with the patch on the client. */
  function UpdateCapa(s: State, id: string, patch: CapaPatch): (r: State)
    ensures |r.capas| == |s.capas|
    ensures forall i :: 0 <= i < |s.capas| ==>
              r.capas[i] == if s.capas[i].id == id then MergeCapa(s.capas[i], patch) else s.capas[i]
    ensures r.(capas := s.capas) == s
  {
    s.(capas := seq(|s.capas|, i requires 0 <= i < |s.capas| =>
                      if s.capas[i].id == id then MergeCapa(s.capas[i], patch) else s.capas[i]))
  }

  // ---------------------------------------------------------------------------
  // Attachments (client side only)
  // ---------------------------------------------------------------------------

  /** `{ ...p, attachments: [...(p.attachments || []), a] }`. */
  function WithAttachment(p: Product, a: Attachment): (r: Product)
    ensures r.attachments == Some(GetOr(p.attachments, []) + [a])
    ensures r.(attachments := p.attachments) == p
  {
    p.(attachments := Some(GetOr(p.attachments, []) + [a]))
  }

  /** `{ ...p, attachments: p.attachments?.filter(a => a.id !== attachmentId) }`. */
  function WithoutAttachment(p: Product, attachmentId: string): (r: Product)
    ensures p.attachments.None? ==> r == p
    ensures p.attachments.Some? ==> r.attachments == Some(RemoveById(p.attachments.value, AttachmentId, attachmentId))
    ensures p.attachments.Some? && r.attachments.Some? ==>
              Subsequence(r.attachments.value, p.attachments.value)
    ensures p.attachments.Some? && r.attachments.Some? ==>
              forall i :: 0 <= i < |r.attachments.value| ==> r.attachments.value[i].id != attachmentId
    ensures p.attachments.Some? && r.attachments.Some? ==>
              forall i :: 0 <= i < |p.attachments.value| && p.attachments.value[i].id != attachmentId ==>
                p.attachments.value[i] in r.attachments.value
    ensures r.(attachments := p.attachments) == p
  {
    match p.attachments
    case None => p
    case Some(xs) => p.(attachments := Some(RemoveById(xs, AttachmentId, attachmentId)))
  }

  function AddAttachment(s: State, productId: string, a: Attachment): (r: State)
    ensures |r.products| == |s.products|
    ensures forall i :: 0 <= i < |s.products| ==>
              r.products[i] == if s.products[i].id == productId then WithAttachment(s.products[i], a) else s.products[i]
    ensures r.(products := s.products) == s
  {
    s.(products := seq(|s.products|, i requires 0 <= i < |s.products| =>
                         if s.products[i].id == productId then WithAttachment(s.products[i], a) else s.products[i]))
  }

  function DeleteAttachment(s: State, productId: string, attachmentId: string): (r: State)
    ensures |r.products| == |s.products|
    ensures forall i :: 0 <= i < |s.products| ==>
              r.products[i] == if s.products[i].id == productId
                               then WithoutAttachment(s.products[i], attachmentId) else s.products[i]
    ensures r.(products := s.products) == s
  {
    s.(products := seq(|s.products|, i requires 0 <= i < |s.products| =>
                         if s.products[i].id == productId
                         then WithoutAttachment(s.products[i], attachmentId) else s.products[i]))
  }

  // ---------------------------------------------------------------------------
  // Session
  // ---------------------------------------------------------------------------

  /** `email.split('@')[0]`: the text before the first '@', or all of it. */
  function NameFromEmail(email: string): (r: string)
    ensures '@' !in r
    ensures |r| <= |email| && r == email[..|r|]
    ensures |r| < |email| ==> email[|r|] == '@'
  {
    if |email| == 0 || email[0] == '@' then ""
    else [email[0]] + NameFromEmail(email[1..])
  }

  function Avatar(name: string): string
  {
    "https://ui-avatars.com/api/?name=" + name + "&background=random"
  }

  /** login(email, role): a mock user with id 'u1'. */
  function Login(s: State, email: string, role: Role): (r: State)
    ensures r.isAuthenticated && r.currentUser.Some?
    ensures r.currentUser.value.id == "u1" && r.currentUser.value.email == email && r.currentUser.value.role == role
    ensures r.currentUser.value.name == NameFromEmail(email)
    ensures r.(currentUser := s.currentUser, isAuthenticated := s.isAuthenticated) == s
  {
    var name := NameFromEmail(email);
    s.(isAuthenticated := true, currentUser := Some(User("u1", name, email, role, Some(Avatar(name)))))
  }

  function Logout(s: State): (r: State)
    ensures !r.isAuthenticated && r.currentUser.None?
    ensures r.(currentUser := s.currentUser, isAuthenticated := s.isAuthenticated) == s
  {
    s.(isAuthenticated := false, currentUser := None)
  }

  /** Signing in and out again leaves no trace but the session flags. */
  lemma LogoutUndoesLogin(s: State, email: string, role: Role)
    ensures Logout(Login(s, email, role)) == Logout(s)
  {
  }

  /** The name is the whole address when it has no '@'. */
  lemma {:induction false} NameWithoutAt(email: string)
    requires '@' !in email
    ensures NameFromEmail(email) == email
  {
    if |email| > 0 {
      assert email[0] != '@';
      assert email == [email[0]] + email[1..];
      NameWithoutAt(email[1..]);
    }
  }

  /** The name of "local@domain" is "local". */
  lemma {:induction false} NameOfAddress(local: string, domain: string)
    requires '@' !in local
    ensures NameFromEmail(local + "@" + domain) == local
    decreases |local|
  {
    if |local| == 0 {
      assert (local + "@" + domain)[0] == '@';
    } else {
      assert (local + "@" + domain)[1..] == local[1..] + "@" + domain;
      NameOfAddress(local[1..], domain);
      assert local == [local[0]] + local[1..];
    }
  }

  // ---------------------------------------------------------------------------
  // Loading
  // ---------------------------------------------------------------------------

  datatype Snapshot = Snapshot(
    products: seq<Product>, boms: seq<Bom>, suppliers: seq<Supplier>,
    ecos: seq<Eco>, ncrs: seq<Ncr>, capas: seq<Capa>)

  /** fetchData: loading is flagged and the error cleared before the six reads;
      all six collections are replaced together, or the error is recorded and
      nothing else changes. */
  function FetchData(s: State, response: Response<Snapshot>): (r: State)
    ensures !r.isLoading
    ensures response.Ok? ==> r.error.None?
    ensures response.Ok? ==> r.products == response.value.products && r.boms == response.value.boms
    ensures response.Ok? ==> r.suppliers == response.value.suppliers && r.ecos == response.value.ecos
    ensures response.Ok? ==> r.ncrs == response.value.ncrs && r.capas == response.value.capas
    ensures response.Failed? ==> r == s.(isLoading := false, error := Some(response.message))
    ensures r.auditLogs == s.auditLogs && r.currentUser == s.currentUser && r.isAuthenticated == s.isAuthenticated
  {
    var started := s.(isLoading := true, error := None);
    match response
    case Ok(d) =>
      started.(products := d.products, boms := d.boms, suppliers := d.suppliers, ecos := d.ecos,
               ncrs := d.ncrs, capas := d.capas, isLoading := false)
    case Failed(message) => started.(error := Some(message), isLoading := false)
  }

  // ---------------------------------------------------------------------------
  // Relations between the actions
  // ---------------------------------------------------------------------------

  /** Deleting the id of a product that was just added (and was not present
      before) gives back the products as they were. */
  lemma DeleteUndoesAdd(s: State, product: Product, created: Product, t1: Stamp, t2: Stamp)
    requires forall i :: 0 <= i < |s.products| ==> s.products[i].id != created.id
    ensures var added := AddProduct(s, product, Ok(created), t1).state;
            DeleteProduct(added, created.id, Ok(()), t2).state.products == s.products
  {
    var added := AddProduct(s, product, Ok(created), t1).state;
    RemoveFreshAppended(s.products, ProductId, created);
  }

  lemma {:induction false} RemoveFreshAppended<T>(xs: seq<T>, idOf: T -> string, v: T)
    requires forall i :: 0 <= i < |xs| ==> idOf(xs[i]) != idOf(v)
    ensures RemoveById(xs + [v], idOf, idOf(v)) == xs
    decreases |xs|
  {
    if |xs| == 0 {
      assert RemoveById([v][1..], idOf, idOf(v)) == [];
    } else {
      assert (xs + [v])[1..] == xs[1..] + [v];
      RemoveFreshAppended(xs[1..], idOf, v);
      assert xs == [xs[0]] + xs[1..];
    }
  }

  /** Deleting twice is deleting once. */
  lemma {:induction false} RemoveIdempotent<T>(xs: seq<T>, idOf: T -> string, id: string)
    ensures RemoveById(RemoveById(xs, idOf, id), idOf, id) == RemoveById(xs, idOf, id)
    decreases |xs|
  {
    if |xs| > 0 {
      RemoveIdempotent(xs[1..], idOf, id);
      if idOf(xs[0]) != id {
        assert ([xs[0]] + RemoveById(xs[1..], idOf, id))[1..] == RemoveById(xs[1..], idOf, id);
      }
    }
  }

  /** An update keeps the set of ids present when the server's record carries
      the id asked for. */
  lemma ReplaceKeepsIds<T>(xs: seq<T>, idOf: T -> string, id: string, v: T)
    requires idOf(v) == id
    ensures forall i :: 0 <= i < |xs| ==> idOf(ReplaceById(xs, idOf, id, v)[i]) == idOf(xs[i])
  {
  }

  /** Deleting an attachment just added (with an id not yet on the product)
      leaves the product with its old list, but an absent list comes back as an
      empty one. */
  lemma DeleteUndoesAddAttachment(p: Product, a: Attachment)
    requires p.attachments.Some? ==> forall i :: 0 <= i < |p.attachments.value| ==> p.attachments.value[i].id != a.id
    ensures WithoutAttachment(WithAttachment(p, a), a.id) == p.(attachments := Some(GetOr(p.attachments, [])))
  {
    RemoveFreshAppended(GetOr(p.attachments, []), AttachmentId, a);
  }
}
