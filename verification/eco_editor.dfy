/** The ECO editor (src/pages/ECOEditor.tsx): the form, the affected-products
    toggle, the status buttons each role sees, and the requests the page sends
    to the store. */
module EcoEditor {
  import opened Domain

  /** `Partial<ECO>` as held by the form; a `None` key is absent. */
  datatype EcoForm = EcoForm(
    id: Option<string>, title: string, description: string, productIds: seq<string>,
    priority: EcoPriority, status: EcoStatus, initiatorId: Option<string>,
    approverId: Option<string>, createdAt: Option<string>, updatedAt: Option<string>)

  /** The form of a new ECO. */
  function DefaultForm(): EcoForm
  {
    EcoForm(None, "", "", [], Medium, EcoDraft, None, None, None, None)
  }

  /** `setFormData(eco)`. */
  function FormOf(e: Eco): EcoForm
  {
    EcoForm(Some(e.id), e.title, e.description, e.productIds, e.priority, e.status,
            Some(e.initiatorId), e.approverId, Some(e.createdAt), Some(e.updatedAt))
  }

  /** `Boolean(id)`: a route id that is missing or empty means a new ECO. */
  predicate IsEditing(routeId: Option<string>)
  {
    routeId.Some? && routeId.value != ""
  }

  /** `i` is the first position of an ECO with the id. */
  ghost predicate FirstWithId(ecos: seq<Eco>, id: string, i: int)
  {
    0 <= i < |ecos| && ecos[i].id == id && forall j :: 0 <= j < i ==> ecos[j].id != id
  }

  /** The form after loading: the stored ECO with the route's id when there is
      one, the default form otherwise. */
  function LoadedForm(ecos: seq<Eco>, routeId: Option<string>): (r: EcoForm)
    ensures !IsEditing(routeId) ==> r == DefaultForm()
    ensures IsEditing(routeId) && (forall i :: 0 <= i < |ecos| ==> ecos[i].id != routeId.value) ==> r == DefaultForm()
    ensures IsEditing(routeId) ==> forall i :: FirstWithId(ecos, routeId.value, i) ==> r == FormOf(ecos[i])
  {
    if !IsEditing(routeId) then DefaultForm()
    else
      match Find(ecos, (e: Eco) => e.id == routeId.value)
      case None => DefaultForm()
      case Some(e) => FormOf(e)
  }

  // ---------------------------------------------------------------------------
  // Affected products
  // ---------------------------------------------------------------------------

  /** The filter test of toggleProduct: every id but the toggled one. */
  function Other(productId: string): string -> bool
  {
    (x: string) => x != productId
  }

  /** Filtering out one id removes all its copies and nothing else. */
  lemma {:induction false} FilterOtherMultiset(ids: seq<string>, productId: string)
    ensures multiset(Filter(ids, Other(productId))) == multiset(ids)[productId := 0]
    decreases |ids|
  {
    if |ids| > 0 {
      FilterOtherMultiset(ids[1..], productId);
      assert ids == [ids[0]] + ids[1..];
    }
  }

  /** toggleProduct: drop every occurrence of a listed id, append an unlisted one. */
  function ToggleProduct(ids: seq<string>, productId: string): (r: seq<string>)
    ensures productId in r <==> productId !in ids
    ensures forall x :: x != productId ==> (x in r <==> x in ids)
    ensures productId !in ids ==> r == ids + [productId]
    ensures productId in ids ==> Subsequence(r, ids) && multiset(r) == multiset(ids)[productId := 0]
  {
    if productId in ids then
      FilterOtherMultiset(ids, productId);
      Filter(ids, Other(productId))
    else ids + [productId]
  }

  /** Toggling an unlisted id twice gives back the list exactly. */
  lemma ToggleTwiceRestores(ids: seq<string>, productId: string)
    requires productId !in ids
    ensures ToggleProduct(ToggleProduct(ids, productId), productId) == ids
  {
    var keep := Other(productId);
    FilterAppend(ids, [productId], keep);
    FilterAll(ids, keep);
    assert Filter([productId], keep) == [];
  }

  /** Toggling a listed id twice removes its duplicates and moves it to the end. */
  lemma ToggleTwiceListed(ids: seq<string>, productId: string)
    requires productId in ids
    ensures ToggleProduct(ToggleProduct(ids, productId), productId)
         == Filter(ids, Other(productId)) + [productId]
  {
  }

  // ---------------------------------------------------------------------------
  // Form edits
  // ---------------------------------------------------------------------------

  /** What the inputs of the form can change.  The status is shown but has no
      input. */
  datatype FormEdit = EditTitle(title: string) | EditDescription(description: string)
                    | EditPriority(priority: EcoPriority) | ToggleAffected(productId: string)

  function ApplyEdit(form: EcoForm, edit: FormEdit): (r: EcoForm)
    ensures r.status == form.status && r.id == form.id && r.approverId == form.approverId
    ensures r.initiatorId == form.initiatorId && r.createdAt == form.createdAt
  {
    match edit
    case EditTitle(t) => form.(title := t)
    case EditDescription(d) => form.(description := d)
    case EditPriority(p) => form.(priority := p)
    case ToggleAffected(pid) => form.(productIds := ToggleProduct(form.productIds, pid))
  }

  function ApplyEdits(form: EcoForm, edits: seq<FormEdit>): (r: EcoForm)
    decreases |edits|
  {
    if |edits| == 0 then form
    else ApplyEdits(ApplyEdit(form, edits[0]), edits[1..])
  }

  /** No sequence of edits changes the status, or the identity of the ECO. */
  lemma {:induction false} EditsKeepStatus(form: EcoForm, edits: seq<FormEdit>)
    ensures ApplyEdits(form, edits).status == form.status
    ensures ApplyEdits(form, edits).id == form.id
    ensures ApplyEdits(form, edits).approverId == form.approverId
    decreases |edits|
  {
    if |edits| > 0 {
      EditsKeepStatus(ApplyEdit(form, edits[0]), edits[1..]);
    }
  }

  // ---------------------------------------------------------------------------
  // Permissions and buttons
  // ---------------------------------------------------------------------------

  function CanEdit(role: Option<Role>, status: EcoStatus): (r: bool)
    ensures role.None? ==> !r
    ensures status != EcoDraft ==> (r <==> role == Some(Admin))
  {
    (role == Some(Engineer) && status == EcoDraft) || role == Some(Admin)
  }

  function CanApprove(role: Option<Role>, status: EcoStatus): (r: bool)
    ensures r ==> status == EcoPendingReview
    ensures status == EcoPendingReview ==> (r <==> role.Some? && role.value != Engineer)
  {
    assert role.Some? && role.value != Engineer ==> role.value in {Manager, Dgm, Admin};
    (role == Some(Manager) || role == Some(Dgm) || role == Some(Admin)) && status == EcoPendingReview
  }

  /** `disabled={!canEdit && isEditing}`, negated. */
  function FieldsEnabled(role: Option<Role>, status: EcoStatus, editing: bool): (r: bool)
    ensures !editing ==> r
    ensures editing ==> (r <==> CanEdit(role, status))
  {
    CanEdit(role, status) || !editing
  }

  /** Save is shown when the user can edit; Delete only on an existing ECO. */
  function SaveShown(role: Option<Role>, status: EcoStatus): bool
  {
    CanEdit(role, status)
  }

  function DeleteShown(role: Option<Role>, status: EcoStatus, editing: bool): (r: bool)
    ensures r <==> SaveShown(role, status) && editing
  {
    CanEdit(role, status) && editing
  }

  /** A new ECO starts as a draft, so only an engineer or an admin can save it. */
  lemma NewEcoSavers(role: Option<Role>)
    ensures SaveShown(role, DefaultForm().status) <==> role in {Some(Engineer), Some(Admin)}
  {
  }

  /** The status buttons, as the statuses they request, in page order. */
  function StatusActions(editing: bool, role: Option<Role>, status: EcoStatus): (r: seq<EcoStatus>)
    ensures status in {EcoRejected, EcoImplemented} ==> r == []
    ensures role.None? ==> r == []
  {
    (if editing && role == Some(Engineer) && status == EcoDraft then [EcoPendingReview] else [])
    + (if CanApprove(role, status) then [EcoRejected, EcoApproved] else [])
    + (if editing && role == Some(Engineer) && status == EcoApproved then [EcoImplemented] else [])
  }

  /** The ECO lifecycle as a table of moves. */
  ghost predicate EcoMove(editing: bool, role: Role, from: EcoStatus, to: EcoStatus)
  {
    || (editing && role == Engineer && from == EcoDraft && to == EcoPendingReview)
    || (role in {Manager, Dgm, Admin} && from == EcoPendingReview && to in {EcoRejected, EcoApproved})
    || (editing && role == Engineer && from == EcoApproved && to == EcoImplemented)
  }

  lemma StatusActionsFollowTable(editing: bool, role: Option<Role>, from: EcoStatus, to: EcoStatus)
    ensures to in StatusActions(editing, role, from) <==> role.Some? && EcoMove(editing, role.value, from, to)
  {
  }

  /** Approving and rejecting are the approver's buttons; an engineer never
      sees them. */
  lemma EngineerNeverApproves(editing: bool, status: EcoStatus)
    ensures EcoApproved !in StatusActions(editing, Some(Engineer), status)
    ensures EcoRejected !in StatusActions(editing, Some(Engineer), status)
  {
  }

  // ---------------------------------------------------------------------------
  // Requests sent to the store
  // ---------------------------------------------------------------------------

  /** handleStatusChange: `updateECO(id, { status, approverId: currentUser?.id })`. */
  datatype StatusPatch = StatusPatch(status: EcoStatus, approverId: Option<string>)

  function StatusChange(routeId: Option<string>, user: Option<User>, status: EcoStatus): (r: Option<(string, StatusPatch)>)
    ensures r.Some? <==> IsEditing(routeId)
    ensures r.Some? ==> r.value.0 == routeId.value && r.value.1.status == status
    ensures r.Some? ==> (r.value.1.approverId.Some? <==> user.Some?)
    ensures r.Some? && user.Some? ==> r.value.1.approverId == Some(user.value.id)
  {
    if !IsEditing(routeId) then None
    else Some((routeId.value, StatusPatch(status, match user case Some(u) => Some(u.id) case None => None)))
  }

  /** What handleSubmit sends: an update of the stored ECO, a new ECO, or nothing. */
  datatype Submission = UpdateRequest(id: string, patch: EcoForm) | CreateRequest(eco: Eco) | NoSubmission

  /** handleSubmit.  `uuid` and `now` stand for crypto.randomUUID() and the
      ISO timestamp. */
  function Submit(form: EcoForm, routeId: Option<string>, user: Option<User>, uuid: string, now: string): (r: Submission)
    ensures IsEditing(routeId) ==> r == UpdateRequest(routeId.value, form.(updatedAt := Some(now)))
    ensures !IsEditing(routeId) && user.None? ==> r == NoSubmission
    ensures !IsEditing(routeId) && user.Some? ==> r.CreateRequest?
    ensures r.CreateRequest? ==> user.Some? && r.eco.initiatorId == user.value.id && r.eco.id == uuid
    ensures r.CreateRequest? ==> r.eco.createdAt == now && r.eco.updatedAt == now
    ensures r.CreateRequest? ==> r.eco.status == form.status && r.eco.title == form.title
                                 && r.eco.productIds == form.productIds
    ensures r.CreateRequest? ==> r.eco.description == form.description && r.eco.priority == form.priority
                                 && r.eco.approverId == form.approverId
  {
    if IsEditing(routeId) then UpdateRequest(routeId.value, form.(updatedAt := Some(now)))
    else
      match user
      case None => NoSubmission
      case Some(u) =>
        CreateRequest(Eco(uuid, form.title, form.description, form.productIds, form.status,
                          form.priority, u.id, form.approverId, now, now))
  }

  /** Creating needs a signed-in user; editing does not. */
  lemma CreateNeedsUser(form: EcoForm, routeId: Option<string>, uuid: string, now: string)
    ensures !IsEditing(routeId) ==> Submit(form, routeId, None, uuid, now) == NoSubmission
    ensures IsEditing(routeId) ==> Submit(form, routeId, None, uuid, now).UpdateRequest?
  {
  }

  /** Saving an existing ECO sends back the status it was loaded with, whatever
      was typed into the form. */
  lemma {:induction false} SaveKeepsStatus(e: Eco, ecos: seq<Eco>, edits: seq<FormEdit>, user: Option<User>,
                                           uuid: string, now: string)
    requires e in ecos && e.id != ""
    requires forall i :: 0 <= i < |ecos| && ecos[i].id == e.id ==> ecos[i] == e
    ensures var form := ApplyEdits(LoadedForm(ecos, Some(e.id)), edits);
            var sent := Submit(form, Some(e.id), user, uuid, now);
            sent.UpdateRequest? && sent.id == e.id && sent.patch.status == e.status
  {
    var pred := (x: Eco) => x.id == e.id;
    var k :| 0 <= k < |ecos| && ecos[k] == e;
    assert pred(ecos[k]);
    var found := Find(ecos, pred);
    assert found.Some?;
    var j :| IsFirst(ecos, pred, j) && ecos[j] == found.value;
    assert found.value == e;
    EditsKeepStatus(FormOf(e), edits);
  }
}
