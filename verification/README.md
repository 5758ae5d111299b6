# PLM core in Dafny

A model of the logic at the centre of a small product-lifecycle-management
web application (React front end, Express/MongoDB back end). The app keeps
products, bills of materials (BOMs), suppliers, engineering change orders
(ECOs), non-conformance reports (NCRs) and corrective actions (CAPAs). It
rolls up BOM costs, records an audit log and gates its pages by role.

Modelled parts:

- **BOM cost roll-up**
  - `calculations.dfy`: the flat cost and the recursive cost of a BOM.
    - The recursive cost expands every component that has an Approved
      sub-BOM.
    - A set of visited BOM ids guards against cycles.
  - `cost_properties.dfy`: the properties of both costs.
  - `expansion_depth.dfy`: bounds the depth of the recursion.
  - `seed_scenarios.dfy`: works the seeded laptop BOM and small cycle,
    diamond and missing-product snapshots.
- **Store**: `store.dfy`. The client store's actions are pure functions of
  the prior state and the service's reply (`Ok` value or `Failed` message).
  - add, update and delete on each collection;
  - the audit log;
  - attachments on products;
  - login and logout;
  - the initial load.
- **Pages**
  - `product_detail.dfy`: lifecycle buttons, edit/delete permissions, the
    displayed roll-up and attachment creation.
  - `eco_editor.dfy`: ECO form state, product toggling, permissions, status
    buttons and what Save sends.
  - `bom_editor.dfy`: component rows, read-only rule, status choices, the two
    cost badges, component choices and what Save sends.
- **Navigation and access**
  - `breadcrumbs.dfy`: segments, labels and link targets of the breadcrumb
    trail.
  - `protected_route.dfy`: the route guard.
  - `sidebar.dfy`: the role-filtered links.
  - `app_routes.dfy`: the route table as an explicit map from path pattern
    to the chain of guards around each page.

`domain.dfy` holds the entity records and the generic sequence helpers.
These are `Option`, `Find`, `Filter` and `Subsequence`.

Modelling choices:

- Costs, prices and quantities are `real`.
- A service call is a `Response<T>` argument, and the reply it stands for is
  chosen by the caller.
- `crypto.randomUUID()` and the ISO timestamp are parameters (`uuid`, `now`,
  `Stamp`).
- A TypeScript `Partial<T>` is a record of `Option` fields.
- `Boolean(id)` of a route parameter is `IsEditing`: a present, non-empty id.

## Model

| member | source | states |
|---|---|---|
| Calculations.FindProduct | src/lib/calculations.ts:5 | `products.find` by id: absent exactly when no product has the id; a result carries the id and is one of the products |
| Calculations.FindProductFirst | src/lib/calculations.ts:5 | with duplicate ids, the product found is the first one with the id |
| Calculations.FindApprovedBom | src/lib/calculations.ts:26 | the sub-assembly lookup returns a BOM with the component's product id and status Approved, and none exactly when no such BOM exists |
| Calculations.FindApprovedBomFirst | src/lib/calculations.ts:24-26 | with several Approved BOMs for a product, the first one in `boms` is used |
| Calculations.FlatCost | src/lib/calculations.ts:3-9 | the `reduce` starts at 0: no components, or none whose product exists, cost 0; with non-negative costs and quantities the total is non-negative |
| Calculations.CalculateBomCost | src/lib/calculations.ts:3-9 | a BOM without components, or whose components all name missing products, costs 0; non-negative costs and quantities give a non-negative cost |
| Calculations.LeafCost | src/lib/calculations.ts:5-7 | a component whose product is missing adds 0; with non-negative cost and quantity a line is non-negative |
| Calculations.RecursiveBomCost | src/lib/calculations.ts:11-17 | cycle guard: a BOM whose id is already visited costs 0 |
| Calculations.RollUp | src/lib/calculations.ts:19-37 | the fold over components starts at 0: an empty component list rolls up to 0 |
| Calculations.ComponentRollUpCost | src/lib/calculations.ts:20-36 | a missing product contributes 0 even when an Approved BOM exists for its id; without an Approved BOM the component is a leaf priced at product cost times quantity |
| Calculations.CalculateRecursiveBomCost | src/lib/calculations.ts:11-38 | starting from an empty visited set, a BOM without components, or whose components all name missing products, rolls up to 0 |
| CalculationProperties.FlatCostIsSumOfLines | src/lib/calculations.ts:3-9 | the flat cost equals the sum, from 0, of cost times quantity over the components that resolve to a product |
| CalculationProperties.FlatCostAppend | src/lib/calculations.ts:4-8 | the flat cost of a concatenation is the sum of the flat costs |
| CalculationProperties.RollUpAppend | src/lib/calculations.ts:19-37 | the recursive cost of a concatenation is the sum of the parts, under the same visited set |
| CalculationProperties.FlatCostSingle | src/lib/calculations.ts:4-8 | one component costs its line |
| CalculationProperties.RollUpSingle | src/lib/calculations.ts:19-37 | one component rolls up to its own component cost |
| CalculationProperties.MissingProductsContributeNothing | src/lib/calculations.ts:6-21 | dropping the components that match no product changes neither the flat nor the recursive cost |
| CalculationProperties.RollUpOfLeaves | src/lib/calculations.ts:26-36 | when no component's product has an Approved BOM, the roll-up equals the flat cost |
| CalculationProperties.RecursiveCostOfLeaves | src/lib/calculations.ts:7-36 | when no component's product has an Approved BOM, the recursive cost of a BOM equals its flat cost |
| CalculationProperties.RootStatusIgnored | src/lib/calculations.ts:11-19 | the root BOM's own status does not affect its recursive cost |
| CalculationProperties.ApprovedBoms | src/lib/calculations.ts:26 | the Approved BOMs of a list: each result is Approved and in the list, and every Approved BOM is kept |
| CalculationProperties.FindIgnoresUnapproved | src/lib/calculations.ts:26 | removing the non-Approved BOMs does not change which sub-assembly is found |
| CalculationProperties.RecursiveCostIgnoresUnapproved | src/lib/calculations.ts:11-38 | Draft, Pending, In Review and Obsolete BOMs never affect the recursive cost |
| CalculationProperties.RollUpIgnoresUnapproved | src/lib/calculations.ts:19-37 | same, for the fold over components |
| CalculationProperties.ComponentCostIgnoresUnapproved | src/lib/calculations.ts:20-36 | same, for a single component |
| CalculationProperties.FlatCostNonNegative | src/lib/calculations.ts:3-9 | with non-negative costs and quantities the flat cost is non-negative |
| CalculationProperties.RecursiveCostNonNegative | src/lib/calculations.ts:11-38 | with non-negative costs and quantities, in the root and in every stored BOM, the recursive cost is non-negative |
| CalculationProperties.RollUpNonNegative | src/lib/calculations.ts:19-37 | same, for the fold |
| CalculationProperties.ComponentCostNonNegative | src/lib/calculations.ts:20-36 | same, for a single component |
| CostScaling.ScaleQuantities | src/lib/calculations.ts:7 | scaling keeps the component list's length and scales each quantity in place |
| CostScaling.LeafCostScales | src/lib/calculations.ts:5-7 | scaling a component's quantity by k scales its line cost by k |
| CostScaling.ComponentCostScales | src/lib/calculations.ts:20-36 | scaling a component's quantity by k scales its rolled-up cost by k |
| CostScaling.FlatCostScales | src/lib/calculations.ts:3-9 | multiplying every quantity by k multiplies the flat cost by k |
| CostScaling.RollUpScales | src/lib/calculations.ts:19-37 | multiplying every top-level quantity by k multiplies the recursive roll-up by k |
| ExpansionDepth.DepthBounded | src/lib/calculations.ts:13-30 | the depth of the expansion is at most the number of unvisited stored BOM ids, plus one when the root is not stored |
| ExpansionDepth.DeepestComponentBounded | src/lib/calculations.ts:19-30 | no component of a fold expands deeper than the unvisited stored ids allow |
| ExpansionDepth.ComponentDepthBounded | src/lib/calculations.ts:26-30 | a sub-assembly expansion is bounded by the unvisited stored ids |
| ExpansionDepth.TopLevelDepth | src/lib/calculations.ts:11-30 | from an empty visited set the recursion depth is at most the number of distinct BOM ids plus one, and at most that number for a stored root |
| SeedScenarios.SeedLineCost | server/seed.js:134-139 | the seeded laptop BOM's lines cost 150, 200, 45, 160, 120 and 2.5 |
| SeedScenarios.SeedFlatCost | server/seed.js:126-140 | the seeded laptop BOM's flat cost is 677.5 |
| SeedScenarios.SeedRecursiveCost | server/seed.js:126-140 | the seeded BOM has no sub-assemblies, so its recursive cost is also 677.5 |
| SeedScenarios.CycleRollsUpToZero | src/lib/calculations.ts:13-30 | in a two-BOM cycle the expansion stops at the repeated id; the flat cost is unaffected |
| SeedScenarios.DiamondCostsBothUses | src/lib/calculations.ts:17-30 | each sub-BOM call gets its own copy of the visited set, so a sub-assembly used by two sibling components is costed twice |
| SeedScenarios.MissingProductIgnoresSubAssembly | src/lib/calculations.ts:20-21 | a component whose product is missing contributes 0 although an Approved BOM exists for its id |
| Store.Initial | src/store/useStore.ts:56-67 | the store starts signed out, not loading, without an error, and with all seven collections (products, BOMs, suppliers, ECOs, NCRs, CAPAs, audit logs) empty |
| Store.ReplaceById | src/store/useStore.ts:100-102 | `map` with an id test: length and positions kept, exactly the matching elements replaced |
| Store.RemoveById | src/store/useStore.ts:112-114 | `filter` on id: exactly the elements with the id are removed, the rest kept in order |
| Store.LogAction | src/store/useStore.ts:286-297 | without a current user nothing changes; otherwise exactly one entry with the user's id and name, the action and the details is put in front, and nothing else changes |
| Store.LogIsNewestFirst | src/store/useStore.ts:296 | two logged actions appear newest first, in front of the older log |
| Store.Commit | src/store/useStore.ts:87-96 | a failed call rethrows and changes nothing; a successful one applies the change and then logs |
| Store.AddProduct | src/store/useStore.ts:87-96 | on success the returned product is appended and CREATE_PRODUCT is logged with the name; on failure the error is rethrown and the state is unchanged |
| Store.UpdateProduct | src/store/useStore.ts:97-108 | on success every product with the id is replaced by the returned record, others and positions unchanged, UPDATE_PRODUCT logged; on failure nothing changes |
| Store.RemoveByIdUnique | src/store/useStore.ts:113 | any in-order subsequence of the records that contains no record with the id and is as long as the records minus those with the id is exactly the result of the `filter` |
| Store.DeleteProduct | src/store/useStore.ts:109-120 | on success the products become exactly the list with every product of that id removed, the others in order with their multiplicity (fixed by Store.RemoveByIdUnique), and DELETE_PRODUCT is logged; on failure nothing changes |
| Store.AddBom | src/store/useStore.ts:122-131 | as AddProduct, for BOMs, logging CREATE_BOM |
| Store.UpdateBom | src/store/useStore.ts:132-143 | as UpdateProduct, for BOMs, logging UPDATE_BOM |
| Store.DeleteBom | src/store/useStore.ts:144-155 | as DeleteProduct, for BOMs, logging DELETE_BOM |
| Store.AddSupplier | src/store/useStore.ts:157-166 | as AddProduct, for suppliers, logging CREATE_SUPPLIER |
| Store.UpdateSupplier | src/store/useStore.ts:167-178 | as UpdateProduct, for suppliers, logging UPDATE_SUPPLIER |
| Store.DeleteSupplier | src/store/useStore.ts:179-190 | as DeleteProduct, for suppliers, logging DELETE_SUPPLIER |
| Store.AddEco | src/store/useStore.ts:192-201 | as AddProduct, for ECOs, logging CREATE_ECO with the title |
| Store.UpdateEco | src/store/useStore.ts:202-213 | as UpdateProduct, for ECOs, logging UPDATE_ECO |
| Store.DeleteEco | src/store/useStore.ts:214-225 | as DeleteProduct, for ECOs, logging DELETE_ECO |
| Store.AddNcr | src/store/useStore.ts:227-236 | as AddProduct, for NCRs, logging CREATE_NCR with the NCR's id |
| Store.UpdateNcr | src/store/useStore.ts:237-248 | as UpdateProduct, for NCRs, logging UPDATE_NCR |
| Store.AddCapa | src/store/useStore.ts:249-258 | as AddProduct, for CAPAs, logging CREATE_CAPA with the title |
| Store.MergeCapa | src/store/useStore.ts:262 | object spread over all ten keys of a CAPA: each key present in the patch wins, an absent key keeps the CAPA's value |
| Store.MergeCapaLaws | src/store/useStore.ts:262 | an empty patch changes nothing; merging the same patch twice equals merging it once |
| Store.UpdateCapa | src/store/useStore.ts:259-264 | each CAPA with the id is merged with the patch, the others and every other part of the state are unchanged, and no log entry is written |
| Store.WithAttachment | src/store/useStore.ts:268 | the attachment is appended to the product's list, an absent list counting as empty; the rest of the product is unchanged |
| Store.WithoutAttachment | src/store/useStore.ts:271 | a product with a list keeps exactly the list with every attachment of that id removed, order and multiplicity of the rest kept; a product without a list keeps none |
| Store.AddAttachment | src/store/useStore.ts:267-269 | only products with the id change, gaining the attachment; nothing else in the state changes |
| Store.DeleteAttachment | src/store/useStore.ts:270-272 | only products with the id change, losing attachments with that id; nothing else in the state changes |
| Store.NameFromEmail | src/store/useStore.ts:278 | the name is the longest `@`-free prefix of the email, ending at the first `@` when there is one |
| Store.Login | src/store/useStore.ts:274-283 | signed in as user `u1` with the given email and role and the name before the first `@`; nothing else changes |
| Store.Logout | src/store/useStore.ts:284 | signed out with no user; nothing else changes |
| Store.LogoutUndoesLogin | src/store/useStore.ts:274-284 | logging out after a login leaves the state that logging out alone leaves |
| Store.NameWithoutAt | src/store/useStore.ts:278 | an email without `@` is its own name |
| Store.NameOfAddress | src/store/useStore.ts:278 | the name of `local@domain` is `local` |
| Store.FetchData | src/store/useStore.ts:69-85 | success replaces all six collections together and clears the error; failure records the message and keeps the collections; loading ends either way; log and session untouched |
| Store.DeleteUndoesAdd | src/store/useStore.ts:87-120 | deleting a freshly added product's id restores the collection it was added to |
| Store.RemoveFreshAppended | src/store/useStore.ts:112-114 | removing the id of an appended element with a fresh id gives back the original list |
| Store.RemoveIdempotent | src/store/useStore.ts:113 | deleting the same id twice is deleting it once |
| Store.ReplaceKeepsIds | src/store/useStore.ts:101 | replacing by id with a record carrying that id keeps every position's id |
| Store.DeleteUndoesAddAttachment | src/store/useStore.ts:267-272 | removing a fresh attachment just added restores the product's list |
| ProductDetail.TransitionsOffered | src/pages/ProductDetail.tsx:79-116 | at most two buttons; none for a signed-out user or an admin; none from Active, Obsolete or Archived |
| ProductDetail.TransitionsFollowTable | src/pages/ProductDetail.tsx:79-116 | a status is offered exactly when the lifecycle table allows that role to move from the current status to it |
| ProductDetail.WhoMovesWhat | src/pages/ProductDetail.tsx:79-110 | only an engineer submits for approval, only a manager or DGM approves to In Review, only a DGM releases to Active, and Draft is offered only as a rejection of Pending Approval |
| ProductDetail.NoSelfTransition | src/pages/ProductDetail.tsx:79-116 | no button moves a product to the status it already has |
| ProductDetail.StatusChangePatch | src/pages/ProductDetail.tsx:40-42 | the status update sends only `status` |
| ProductDetail.StatusChangeTouchesOnlyStatus | src/pages/ProductDetail.tsx:40-42 | merged into the product, the patch changes the status and nothing else |
| ProductDetail.EditRule | src/pages/ProductDetail.tsx:60-63 | edit is allowed for an engineer or manager exactly on a Draft product, and always for an admin or DGM |
| ProductDetail.DeleteRule | src/pages/ProductDetail.tsx:129 | delete is offered to admins and DGMs, to engineers only on Draft, never to managers or signed-out users |
| ProductDetail.DeleteImpliesEdit | src/pages/ProductDetail.tsx:60-129 | whoever may delete may edit; a manager on a Draft may edit but not delete |
| ProductDetail.CanEdit | src/pages/ProductDetail.tsx:60-63 | signed out never edits; outside Draft only admins and DGMs edit |
| ProductDetail.CanDelete | src/pages/ProductDetail.tsx:129 | only a signed-in non-manager may delete; on a Draft product exactly admins, DGMs and engineers may |
| ProductDetail.PageProduct | src/pages/ProductDetail.tsx:10-22 | the page shows the product with the route id, and none without an id |
| ProductDetail.FirstBomOf | src/pages/ProductDetail.tsx:14 | the page's BOM is absent exactly when no BOM has the product's id, and otherwise is the first BOM in the list with it |
| ProductDetail.FirstBomOfIsFirst | src/pages/ProductDetail.tsx:14 | among several BOMs of the product, the first is shown, whatever its status |
| ProductDetail.DisplayedRollUp | src/pages/ProductDetail.tsx:14-15 | the displayed roll-up is absent exactly when the product has no BOM, and otherwise is the flat cost of the first BOM in the list for the product |
| ProductDetail.DisplayedBomIgnoresStatus | src/pages/ProductDetail.tsx:14-15 | with a Draft BOM listed before an Approved one, the page costs the Draft while the recursive lookup would pick the Approved |
| ProductDetail.NewAttachment | src/pages/ProductDetail.tsx:44-55 | an attachment is created exactly when name, URL and a user are present, typed Other, uploaded by that user with the given id and time |
| EcoEditor.LoadedForm | src/pages/ECOEditor.tsx:11-28 | a new ECO starts from the default form; when editing, the form is that of the first stored ECO with the route id, and the default when no stored ECO has it |
| EcoEditor.ToggleProduct | src/pages/ECOEditor.tsx:62-68 | the toggled id's membership flips and no other id's changes; an absent id is appended at the end; a present one is removed with all its occurrences while every other id keeps its order and its count |
| EcoEditor.ToggleTwiceRestores | src/pages/ECOEditor.tsx:62-68 | toggling an absent id twice returns the original list |
| EcoEditor.ToggleTwiceListed | src/pages/ECOEditor.tsx:62-68 | toggling a listed id twice removes all its copies and then appends it once |
| EcoEditor.ApplyEdit | src/pages/ECOEditor.tsx:159-212 | no form field edit changes the status, id, approver, initiator or creation time |
| EcoEditor.EditsKeepStatus | src/pages/ECOEditor.tsx:159-212 | any sequence of field edits keeps the status, id and approver |
| EcoEditor.FieldsEnabled | src/pages/ECOEditor.tsx:159 | fields are always enabled on a new ECO, and on an existing one exactly when the user can edit |
| EcoEditor.DeleteShown | src/pages/ECOEditor.tsx:141 | Delete appears exactly when Save does on an existing ECO |
| EcoEditor.NewEcoSavers | src/pages/ECOEditor.tsx:70 | a new ECO can be saved exactly by an engineer or an admin |
| EcoEditor.CanEdit | src/pages/ECOEditor.tsx:70 | signed out never edits; outside Draft only an admin edits |
| EcoEditor.CanApprove | src/pages/ECOEditor.tsx:71 | approval is offered only on a Pending Review ECO, and there to every signed-in role except engineer |
| EcoEditor.StatusActions | src/pages/ECOEditor.tsx:88-129 | Rejected and Implemented offer no status action, and a signed-out user sees none |
| EcoEditor.StatusActionsFollowTable | src/pages/ECOEditor.tsx:71-129 | a status button appears exactly when the ECO lifecycle table allows it: engineer submits an existing draft, manager/DGM/admin approve or reject a pending one, engineer implements an approved one |
| EcoEditor.EngineerNeverApproves | src/pages/ECOEditor.tsx:71-117 | an engineer never sees Approve or Reject |
| EcoEditor.StatusChange | src/pages/ECOEditor.tsx:49-53 | without a route id nothing is sent; otherwise the new status is sent for that id with the approver set to the current user's id, or omitted from the patch when there is none |
| EcoEditor.Submit | src/pages/ECOEditor.tsx:30-47 | editing sends the form for the route id with a new update time; creating with a user always sends a create, whose ECO carries the form's title, description, priority, approver and products, that user as initiator, the fresh id and equal creation and update times |
| EcoEditor.CreateNeedsUser | src/pages/ECOEditor.tsx:34-37 | without a user a new ECO is not created, while an edit is still sent |
| EcoEditor.SaveKeepsStatus | src/pages/ECOEditor.tsx:21-35 | saving a loaded ECO after any field edits sends it back with the status it was loaded with |
| BomEditor.LoadedForm | src/pages/BOMEditor.tsx:15-33 | a new BOM starts from the default form; when editing, the form is that of the first stored BOM with the route id, and the default when no stored BOM has it |
| BomEditor.ReadOnlyRule | src/pages/BOMEditor.tsx:24 | a new BOM is never read-only, an admin never, and anyone else editing is read-only exactly on a non-Draft BOM |
| BomEditor.IsReadOnly | src/pages/BOMEditor.tsx:24 | a new BOM, a Draft form and an admin are never read-only; signed out, an existing BOM is read-only exactly when its form status is not Draft |
| BomEditor.CountRows | src/pages/BOMEditor.tsx:59 | every row either matches the removed id or passes the filter, so the kept rows number the rows minus the matching ones |
| BomEditor.StatusOptions | src/pages/BOMEditor.tsx:170-172 | Pending Approval and In Review cannot be chosen |
| BomEditor.NonAdminUpdatesStayDraft | src/pages/BOMEditor.tsx:24 | a non-admin who can save an existing BOM is saving a Draft |
| BomEditor.AddComponent | src/pages/BOMEditor.tsx:35-46 | one row is appended with the fresh id, no product, quantity 1 and unit `pcs`; rows before it and the rest of the form are unchanged |
| BomEditor.RemoveComponent | src/pages/BOMEditor.tsx:57-62 | the rows with the id are dropped and only they: the result is an in-order subsequence without the id, holding every other row, one row fewer for each row with the id; the rest of the form is unchanged |
| BomEditor.RemoveUndoesAdd | src/pages/BOMEditor.tsx:35-62 | removing a row just added restores the form |
| BomEditor.UpdateComponent | src/pages/BOMEditor.tsx:48-55 | only rows with the id change and only in the named field; length, order and row ids are kept |
| BomEditor.UpdateMissingIsNoOp | src/pages/BOMEditor.tsx:48-55 | updating an id no row has changes nothing |
| BomEditor.FlatCostReadsProductAndQuantity | src/pages/BOMEditor.tsx:183 | rows that agree in product and quantity give the same flat cost |
| BomEditor.UnitEditKeepsFlatCost | src/pages/BOMEditor.tsx:48-55 | changing a row's unit never changes the flat cost badge |
| BomEditor.MissingRowAddsNothing | src/pages/BOMEditor.tsx:183 | a row whose product is missing adds nothing to the flat cost |
| BomEditor.NewRowCostsNothing | src/pages/BOMEditor.tsx:35-46 | when no product has an empty id, a freshly added row leaves the flat cost badge unchanged |
| BomEditor.FormBom | src/pages/BOMEditor.tsx:183-186 | the form read as a BOM keeps its components, product and status |
| BomEditor.EditorFlatCost | src/pages/BOMEditor.tsx:183 | the flat cost badge is the flat cost of the form's rows, whether or not the BOM is stored |
| BomEditor.BadgesAgreeOnLeaves | src/pages/BOMEditor.tsx:183-186 | when no row has an Approved sub-BOM, the two badges show the same cost |
| BomEditor.BadgesNonNegative | src/pages/BOMEditor.tsx:183-186 | with non-negative costs and quantities both badges are non-negative |
| BomEditor.ComponentChoices | src/pages/BOMEditor.tsx:216 | the choices are exactly the products other than the BOM's own product |
| BomEditor.IndirectCycleNotPrevented | src/pages/BOMEditor.tsx:216 | a BOM cannot pick its own product, but two products can each pick the other |
| BomEditor.Submit | src/pages/BOMEditor.tsx:64-87 | editing sends the form for the route id with a new update time; otherwise a new BOM is created from the form with the fresh id and times, with no user needed |
| BomEditor.NewBomMayBeApproved | src/pages/BOMEditor.tsx:24 | a new BOM is never read-only, so anyone on the page can create one already Approved |
| Breadcrumbs.Split | src/components/Breadcrumbs.tsx:7 | `split('/')` yields at least one piece and no piece holds a slash |
| Breadcrumbs.JoinSplit | src/components/Breadcrumbs.tsx:7-18 | joining the split pieces with `/` gives the path back |
| Breadcrumbs.SplitJoin | src/components/Breadcrumbs.tsx:7-18 | splitting the join of slash-free pieces gives the pieces back |
| Breadcrumbs.Segments | src/components/Breadcrumbs.tsx:7 | no segment is empty or holds a slash |
| Breadcrumbs.SegmentsAtSlash | src/components/Breadcrumbs.tsx:7 | a slash between two parts of a path only separates their segments |
| Breadcrumbs.SlashesAddNothing | src/components/Breadcrumbs.tsx:7 | leading and trailing slashes add no segment |
| Breadcrumbs.SegmentsOfNormalized | src/components/Breadcrumbs.tsx:7-18 | `/` plus the joined segments has exactly those segments |
| Breadcrumbs.UpperCase | src/components/Breadcrumbs.tsx:20 | lower-case ASCII letters become upper case, every other character is kept |
| Breadcrumbs.Label | src/components/Breadcrumbs.tsx:20 | the label keeps the length, upper-cases the first character and turns every later `-` into a space |
| Breadcrumbs.LabelIdempotent | src/components/Breadcrumbs.tsx:20 | formatting a label twice equals formatting it once |
| Breadcrumbs.LeadingDashKept | src/components/Breadcrumbs.tsx:20 | a leading `-` is not replaced |
| Breadcrumbs.Trail | src/components/Breadcrumbs.tsx:7-31 | one crumb per segment, labelled from it and targeting `/` plus the segments up to it; exactly the last crumb is plain text |
| Breadcrumbs.NoSegmentsNoTrail | src/components/Breadcrumbs.tsx:9 | a path of slashes only renders no trail |
| Breadcrumbs.TargetsArePrefixes | src/components/Breadcrumbs.tsx:17-18 | crumb i's target has exactly the first i+1 segments, and the last target is the normalized path |
| ProtectedRoute.Guard | src/components/ProtectedRoute.tsx:12-34 | signed out always redirects to login whatever the roles; signed in without a role list always renders the child |
| ProtectedRoute.GuardWithRoles | src/components/ProtectedRoute.tsx:16-34 | a signed-in user passes a role guard exactly when their role is listed and is otherwise denied; denial needs a signed-in user |
| ProtectedRoute.AuthenticatedWithoutUserPasses | src/components/ProtectedRoute.tsx:16 | signed in without a user record, the role check is skipped |
| ProtectedRoute.GuardReadsOnlyRole | src/components/ProtectedRoute.tsx:16 | two users with the same role get the same decision |
| ProtectedRoute.SessionStaysConsistent | src/store/useStore.ts:274-284 | the initial state, login and logout keep "signed in" equal to "has a user" |
| ProtectedRoute.ConsistentSessionGuard | src/components/ProtectedRoute.tsx:12-34 | in a consistent session a role guard renders its child exactly for a signed-in user whose role is listed |
| Sidebar.NavItems | src/components/Sidebar.tsx:11-18 | six links with distinct paths: the first four without a role list, the last two restricted to DGM, admin and manager |
| Sidebar.Shown | src/components/Sidebar.tsx:33 | an item without a role list is always shown; signed out, exactly those are shown; an empty role list hides the item from everyone |
| Sidebar.ShownAmong | src/components/Sidebar.tsx:33 | every item kept passes the role filter |
| Sidebar.ShownAmongKeepsShown | src/components/Sidebar.tsx:33 | every item that passes the filter is kept |
| Sidebar.ShownAmongKeepsOrder | src/components/Sidebar.tsx:33 | filtering keeps the items' order |
| Sidebar.UnrestrictedAlwaysShown | src/components/Sidebar.tsx:12-33 | items without a role list are shown to everyone, signed out included |
| Sidebar.RestrictedNeedsListedRole | src/components/Sidebar.tsx:16-33 | a restricted item is shown only to a listed role and never when signed out |
| Sidebar.VisibleItemsUnfold | src/components/Sidebar.tsx:11-33 | without a report role the links are the first four items; with one, all six |
| Sidebar.FourLinksWithoutReportRole | src/components/Sidebar.tsx:11-33 | an engineer, and a signed-out visitor, see exactly Dashboard, Products, BOMs and Suppliers |
| Sidebar.AllLinksForOtherRoles | src/components/Sidebar.tsx:16-33 | managers, DGMs and admins see all six links in order |
| AppRoutes.Open | src/App.tsx:41-77 | a page behind no guard is shown; a shown screen is the route's own page; behind any guard a signed-out visitor is sent to login |
| AppRoutes.Routes | src/App.tsx:41-75 | twenty routes, `/login` first and unguarded, every other one with the sign-in guard outermost |
| AppRoutes.Visit | src/App.tsx:41-77 | an unguarded route shows its page; signed out, a guarded route sends to login; whatever is shown is the route's own page |
| AppRoutes.LoginOnlyUnguarded | src/App.tsx:41-43 | `/login` is the only route with no guard, and every other route has the sign-in guard outermost |
| AppRoutes.SignedOutSeesOnlyLogin | src/App.tsx:41-43 | signed out, `/login` shows the login page and every other route sends to login |
| AppRoutes.ViewRoutesNeedSignInOnly | src/App.tsx:45-54 | the view routes sit behind the sign-in guard alone and open for any signed-in user |
| AppRoutes.RestrictedVisit | src/App.tsx:43-57 | a route behind the sign-in guard and one role guard opens exactly for a listed role and is otherwise denied |
| AppRoutes.RestrictedRoles | src/App.tsx:57-75 | the editor routes need engineer or admin, the supplier editors manager or admin, the reports DGM, admin or manager |
| AppRoutes.WhoOpensWhat | src/App.tsx:57-75 | signed in, each restricted route opens exactly for its roles and shows Access Denied to anyone else |
| AppRoutes.SidebarMatchesReportRoutes | src/App.tsx:72-75 | the Audit Logs and Analytics links are shown to exactly the roles that can open their pages |
| AppRoutes.NewEcoRouteMatchesSave | src/App.tsx:62 | whoever can open `ecos/new` can also save the new ECO there, and no one else can |

## Left out

- HTTP and persistence are not modelled. This covers the axios services, the Express routes, the Mongoose schemas and the server. Each service call is a `Response` argument, so the server's own merge of a partial update is not modelled: the store stores whatever record comes back.
- Promise and `await` ordering, and the concurrency of `Promise.all` in the initial load, are not modelled. Each action is one step from the prior state.
- The following side effects are left out:
  - `console.warn` in the cycle guard and `console.error` in the store;
  - toasts and `navigate`;
  - `window.confirm` before a delete.
- `crypto.randomUUID()` and `new Date().toISOString()` are parameters. Nothing relates successive values.
- IEEE floating point is not modelled: costs are exact reals. This leaves out:
  - rounding in `cost * quantity` and in the sums;
  - `toFixed(2)` on display;
  - the margin on the product page;
  - `NaN` from an empty quantity field in the BOM editor.
- Dashboards, analytics and the quality dashboard are left out. Their counts are presentation only.
- The list pages' search, sort and CSV export are left out. They depend on JavaScript string comparison and `Array.sort`.
- JSX rendering and styling are left out. The NCR list on the product page is one of these.
- Route ranking in react-router (`ecos/new` against `ecos/:id`) is library behaviour. The route table is an explicit list, and nothing decides which entry a URL matches.
- `Breadcrumbs.UpperCase` covers ASCII only. JavaScript's `toUpperCase` on other letters, including those that grow, such as `ß`, is not modelled.
- The records carry the fields the core reads. The remaining fields pass through the store unchanged and are left out:
  - description, SKU and timestamps of a product;
  - contact details of a supplier;
  - severity and dates of an NCR.
- A `Partial<T>` key that is present but holds `undefined` is not distinguished from an absent key.
- `BomEditor.EditorRolledUpCost` has no contract of its own. A new BOM has no id, and in JavaScript the cycle guard then records `undefined`. The model rolls up that BOM's components with nothing excluded. What the model states about the badge is in BadgesAgreeOnLeaves and BadgesNonNegative.
- `BomEditor.FormOf` carries no timestamps, because the BOM record in this model has none.
- `ExpansionDepth.Depth` is a ghost measure of the recursion. The bound is on this measure, not on a JavaScript call stack.
- ProductDetail's `handleDelete` and ECOEditor's `handleDelete` only confirm and call the store's delete. That delete is Store.DeleteProduct or Store.DeleteEco.
