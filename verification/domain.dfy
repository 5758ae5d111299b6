/** Records and status unions of the PLM client, and the small sequence
    combinators (find-first, filter, replace) that the client applies to them. */
module Domain {

  /** JavaScript's `T | undefined` / `T | null`. */
  datatype Option<+T> = None | Some(value: T)

  function GetOr<T>(o: Option<T>, default: T): T
  {
    match o
    case Some(v) => v
    case None => default
  }

  // ---------------------------------------------------------------------------
  // Status and role unions (src/types)
  // ---------------------------------------------------------------------------

  datatype Role = Engineer | Manager | Dgm | Admin

  datatype ProductStatus =
    | ProductDraft | ProductPendingApproval | ProductInReview
    | ProductActive | ProductObsolete | ProductArchived

  datatype BomStatus =
    | BomDraft | BomPendingApproval | BomInReview | BomApproved | BomObsolete

  datatype EcoStatus = EcoDraft | EcoPendingReview | EcoApproved | EcoRejected | EcoImplemented

  datatype EcoPriority = Low | Medium | High | Critical

  datatype NcrStatus = NcrOpen | NcrInvestigating | NcrResolved | NcrClosed

  datatype CapaStatus = CapaOpen | CapaPlanProposed | CapaImplemented | CapaVerified | CapaClosed

  datatype AttachmentKind = Cad | Pdf | Image | Other

  // ---------------------------------------------------------------------------
  // Records
  // ---------------------------------------------------------------------------

  datatype Attachment = Attachment(
    id: string, name: string, url: string, kind: AttachmentKind,
    uploadedBy: string, uploadedAt: string)

  /** `attachments` is optional on a product: `None` and `Some([])` differ. */
  datatype Product = Product(
    id: string, name: string, sku: string, cost: real, price: real,
    category: string, status: ProductStatus, attachments: Option<seq<Attachment>>)

  datatype BomComponent = BomComponent(
    id: string, componentProductId: string, quantity: real, unit: string)

  datatype Bom = Bom(
    id: string, productId: string, name: string, version: string,
    status: BomStatus, components: seq<BomComponent>)

  datatype Supplier = Supplier(id: string, name: string, status: string, rating: int)

  datatype Eco = Eco(
    id: string, title: string, description: string, productIds: seq<string>,
    status: EcoStatus, priority: EcoPriority, initiatorId: string,
    approverId: Option<string>, createdAt: string, updatedAt: string)

  datatype Ncr = Ncr(id: string, productId: string, title: string, status: NcrStatus)

  datatype Capa = Capa(
    id: string, ncrId: Option<string>, title: string, rootCause: string,
    correctiveAction: string, preventiveAction: string, status: CapaStatus,
    assignedTo: Option<string>, createdAt: string, updatedAt: string)

  datatype User = User(id: string, name: string, email: string, role: Role, avatar: Option<string>)

  datatype AuditEntry = AuditEntry(
    id: string, userId: string, userName: string, action: string,
    details: string, timestamp: string)

  /** The role of the signed-in user, `currentUser?.role`. */
  function RoleOf(user: Option<User>): Option<Role>
  {
    match user
    case Some(u) => Some(u.role)
    case None => None
  }

  // ---------------------------------------------------------------------------
  // Sequence combinators: Array.prototype.find / filter / map-replace
  // ---------------------------------------------------------------------------

  /** `i` is the first position of `xs` satisfying `pred`. */
  ghost predicate IsFirst<T>(xs: seq<T>, pred: T -> bool, i: int)
  {
    0 <= i < |xs| && pred(xs[i]) && forall j :: 0 <= j < i ==> !pred(xs[j])
  }

  /** `xs.findIndex(pred)`, with "not found" as `None`. */
  function FindIndex<T>(xs: seq<T>, pred: T -> bool): (r: Option<nat>)
    ensures r.None? <==> forall i :: 0 <= i < |xs| ==> !pred(xs[i])
    ensures r.Some? ==> IsFirst(xs, pred, r.value)
  {
    if |xs| == 0 then None
    else if pred(xs[0]) then Some(0)
    else
      match FindIndex(xs[1..], pred)
      case None => None
      case Some(i) =>
        assert xs[1..][i] == xs[i + 1];
        Some(i + 1)
  }

  /** `xs.find(pred)`: the first element satisfying `pred`, if any. */
  function Find<T>(xs: seq<T>, pred: T -> bool): (r: Option<T>)
    ensures r.None? <==> forall i :: 0 <= i < |xs| ==> !pred(xs[i])
    ensures r.Some? ==> exists i :: IsFirst(xs, pred, i) && xs[i] == r.value
  {
    match FindIndex(xs, pred)
    case None => None
    case Some(i) => Some(xs[i])
  }

  lemma FindFirstIsFound<T>(xs: seq<T>, pred: T -> bool, i: int)
    requires IsFirst(xs, pred, i)
    ensures Find(xs, pred) == Some(xs[i])
  {
    var r := Find(xs, pred);
    var k :| IsFirst(xs, pred, k) && xs[k] == r.value;
    assert k == i;
  }

  /** `a` is `b` with some elements left out, the rest in their order. */
  predicate Subsequence<T(==)>(a: seq<T>, b: seq<T>)
    decreases |b|
  {
    if |a| == 0 then true
    else if |b| == 0 then false
    else if a[0] == b[0] then Subsequence(a[1..], b[1..])
    else Subsequence(a, b[1..])
  }

  /** How many elements of `xs` satisfy `pred`. */
  function Count<T>(xs: seq<T>, pred: T -> bool): (r: nat)
    ensures r <= |xs|
  {
    if |xs| == 0 then 0
    else (if pred(xs[0]) then 1 else 0) + Count(xs[1..], pred)
  }

  /** `xs.filter(pred)`: exactly the elements satisfying `pred`, in order. */
  function Filter<T(==)>(xs: seq<T>, pred: T -> bool): (r: seq<T>)
    ensures |r| == Count(xs, pred)
    ensures forall i :: 0 <= i < |r| ==> r[i] in xs && pred(r[i])
    ensures forall i :: 0 <= i < |xs| && pred(xs[i]) ==> xs[i] in r
    ensures Subsequence(r, xs)
  {
    if |xs| == 0 then []
    else if pred(xs[0]) then [xs[0]] + Filter(xs[1..], pred)
    else Filter(xs[1..], pred)
  }

  /** A subsequence made of elements satisfying `pred` has at most as many
      elements as `xs` has satisfying `pred`. */
  lemma {:induction false} SubsequenceCount<T>(a: seq<T>, xs: seq<T>, pred: T -> bool)
    requires Subsequence(a, xs)
    requires forall i :: 0 <= i < |a| ==> pred(a[i])
    ensures |a| <= Count(xs, pred)
    decreases |xs|
  {
    if |a| > 0 && |xs| > 0 {
      if a[0] == xs[0] {
        SubsequenceCount(a[1..], xs[1..], pred);
      } else {
        SubsequenceCount(a, xs[1..], pred);
      }
    }
  }

  /** The clauses of Filter determine its result: the only subsequence of `xs`
      made of elements satisfying `pred` and as long as their count is the
      filter itself. */
  lemma {:induction false} FilterUnique<T>(a: seq<T>, xs: seq<T>, pred: T -> bool)
    requires Subsequence(a, xs)
    requires forall i :: 0 <= i < |a| ==> pred(a[i])
    requires |a| == Count(xs, pred)
    ensures a == Filter(xs, pred)
    decreases |xs|
  {
    if |xs| > 0 {
      if |a| > 0 && a[0] == xs[0] {
        FilterUnique(a[1..], xs[1..], pred);
        assert a == [a[0]] + a[1..];
      } else {
        SubsequenceCount(a, xs[1..], pred);
        FilterUnique(a, xs[1..], pred);
      }
    }
  }

  lemma FilterAppend<T>(a: seq<T>, b: seq<T>, pred: T -> bool)
    ensures Filter(a + b, pred) == Filter(a, pred) + Filter(b, pred)
  {
    if |a| == 0 {
      assert a + b == b;
    } else {
      assert (a + b)[1..] == a[1..] + b;
      FilterAppend(a[1..], b, pred);
    }
  }

  lemma FilterAll<T>(xs: seq<T>, pred: T -> bool)
    requires forall i :: 0 <= i < |xs| ==> pred(xs[i])
    ensures Filter(xs, pred) == xs
  {
    if |xs| > 0 {
      FilterAll(xs[1..], pred);
    }
  }
}
