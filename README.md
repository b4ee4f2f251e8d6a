# livo-backend warehouse core, modelled in Dafny

This project models the decision logic of the livo-backend warehouse service,
a Gin + GORM backend. The modelled parts are:

- **The order fulfilment state machine.** This covers desk transitions (assign picker, set pending, update with
  line-item reconciliation, cancel, duplicate, bulk intake, the complained flag) and mobile transitions (self-pick,
  complete picking with its receipt, coordinator-authorised pending). It also includes the order response rendering.
- **Role-hierarchy authorisation.** This covers the rank table, `CanManageRole`, `HasRole`, the highest role level,
  the route gates, and the rank checks of the user-manager handlers.
- **Tracking-flow reconstruction.** These are the ribbon and online flow snapshots, their single lookups, and the
  candidate listing with its day window, search, distinct sort and page window.
- **Downstream record creation.** This covers the outbound (the `TKP0` override and prefix detection of the
  expedition), QC-online and QC-ribbon records with their box checks, complaints with their operator set, returns
  with their resolved product lines, and expeditions with code and slug normalisation.

The database is one `Store.Database` object. Each table is a sequence of rows in primary-key order, so GORM's `First`
is "the first row that matches" (`Tables.Find`). One counter, `nextId`, hands out fresh primary keys. Each handler is
a method that returns a `Result` and modifies only the tables it writes. Every handler either commits all its writes
or leaves every table as it was.

Each table has a validity predicate that the handlers preserve. It says that ids are fresh and distinct and that the
columns the schema marks `unique` hold no repeats. A handler's outcome is specified by a function of the old state,
such as `CreateOutcome`, `Cancel` or `Reconcile`. The order in which a handler runs its checks is stated as a lemma
about that function.

Error kinds stand for the HTTP outcomes:

- `NotFound` is 404.
- `BadRequest` is 400.
- `InvalidState` is a 400 or 403 refusal that reports the status.
- `AlreadyCancelled` is 400.
- `Forbidden` is 403.
- `Conflict` is 409.
- `Unauthorized` is 401.
- `Internal` is a 500 from a violated unique constraint.

Each carries a short reason.

## Model

| member | source | states |
|---|---|---|
| Text.TrimSpace | controllers/outbound_controller.go:275 | the result has no leading or trailing white space and is a slice of the input with only white space cut from either end |
| Text.NormalizeShape | controllers/outbound_controller.go:275 | a normalised tracking number is trimmed and has no lower-case ASCII letter |
| Text.NormalizeIdempotent | controllers/qc_online_controller.go:200 | normalising a normalised tracking number changes nothing, so a stored tracking number matches itself when looked up again |
| Text.ToUpperIdempotent | controllers/expedition_controller.go:220 | upper-casing twice is upper-casing once |
| Text.LowerCasePrefixNeverMatches | controllers/outbound_controller.go:336-337 | a prefix with a lower-case letter never starts a normalised tracking number |
| Tables.Find | controllers/outbound_controller.go:286 | `First` returns the earliest matching row, and returns nothing exactly when no row matches |
| Tables.SortDistinct | controllers/ribbon_flow_controller.go:59 | `DISTINCT ... ORDER BY` yields a strictly ascending list holding exactly the values of the column |
| Tables.AscendingUnique | controllers/ribbon_flow_controller.go:97 | two strictly ascending lists with the same members are equal, so the sorted listing is determined by the candidate set |
| Tables.Window | controllers/ribbon_flow_controller.go:97 | `LIMIT`/`OFFSET` keep exactly min(limit, rows after the offset) rows, or every row after the offset for a negative limit, taken consecutively from the clamped offset |
| Tables.PagesAreConsecutive | controllers/ribbon_flow_controller.go:44-46 | page p+1 starts where page p ends when offset is (page-1)*limit |
| Roles.LevelsWithinBounds | models/role.go:20-36 | every ranked role has rank between 1 and superadmin's rank 9, so any known role outranks "no known role" |
| Roles.CanManageRoleIsStrictOrder | models/role.go:39-51 | role management is irreflexive, asymmetric and transitive |
| Roles.UnrankedRoleManagesNothing | models/role.go:41-49 | a role name missing from the table neither manages nor is managed by any role |
| Roles.MaxLevelIsMaximum | models/user.go:83-96 | the highest level bounds every ranked held role and is attained by one of them; it is 0 exactly when no held name is ranked |
| Roles.MaxLevelOfSameNames | models/user.go:83-96 | the highest level depends only on the set of held names, not their order or repeats |
| Roles.SeededReturRoleIsUnranked | models/role.go:20-36 | the seeded role `retur` is not in the rank table, so a user holding only it has rank 0 |
| Users.RoleNames | models/user.go:86-92 | the held role names, one per role row, in order |
| Users.HeldBy | models/user.go:83-96 | a user's role rows are exactly the table's rows for that user |
| Users.HasRole | models/user.go:73-80 | true iff some held role row has exactly the given name |
| Users.HighestRoleLevel | models/user.go:83-96 | the loop's accumulator ends equal to the highest level of the held names |
| Users.NobodyManagesSuperadmin | models/user.go:99-104 | no user can manage a superadmin, and no user can manage itself |
| Rbac.RequireRoles | middleware/rbac.go:11-49 | a missing claim is unauthorized; otherwise the gate passes iff the claim and the required list share a name, and is forbidden otherwise |
| Rbac.AdmitsOfSameNames | middleware/rbac.go:28-40 | the gate depends only on the set of held names, not their order or repeats |
| Rbac.CoordinatorGate | middleware/rbac.go:52-54 | the coordinator gate admits exactly holders of superadmin or coordinator |
| Rbac.AdminGate | middleware/rbac.go:57-59 | the admin gate admits exactly holders of superadmin or admin |
| Rbac.GatesIgnoreRank | routes/order_routes.go:28-42 | a coordinator outranks an admin yet fails the admin gate, and an admin fails the coordinator gate |
| OrderModel.ToOrderResponse | models/order.go:102-225 | one detail response per line item in order with every field and the product copied; each operator shows its name when it loads and each time shows when set, else "-" |
| OrderModel.MarkPendingClearsPicker | controllers/order_controller.go:978-990 | a parked order is "pending picking", records who parked it and when, has no picker or assignment, and keeps its identity and items |
| DetailReconcile.Added | controllers/order_controller.go:474-546 | the inserted items get consecutive fresh ids, one per request line with id 0 |
| DetailReconcile.LastForIsLast | controllers/order_controller.go:474-546 | the request line applied to an item is the last line naming it |
| DetailReconcile.KeptItems | controllers/order_controller.go:474-546 | an item survives, overwritten by its last request line, iff the request names it |
| DetailReconcile.KeptIds | controllers/order_controller.go:474-546 | surviving items keep distinct ids, all taken from the current items |
| DetailReconcile.AddedItems | controllers/order_controller.go:474-546 | every inserted item carries a request line with id 0, with price 0 and no product |
| DetailReconcile.ReconcileOutcome | controllers/order_controller.go:474-546 | reconciliation fails iff a non-zero id is not one of the order's items; otherwise named items are overwritten, unnamed ones deleted, new ones added, and ids stay distinct and fresh |
| DetailReconcile.NonEmptyRequestKeepsItems | controllers/order_controller.go:541-546 | a non-empty request that reconciles never leaves the order without items |
| DetailReconcile.IndexItems | controllers/order_controller.go:474-490 | the loop builds a map from each current item's id to that item, with no other keys |
| DetailReconcile.ApplyLines | controllers/order_controller.go:492-530 | the loop refuses iff some non-zero id is unknown; otherwise it collects the new items and each named item's last overwrite |
| DetailReconcile.KeepNamed | controllers/order_controller.go:532-540 | the delete loop keeps exactly the items the request names, as overwritten |
| DetailReconcile.ReconcileDetails | controllers/order_controller.go:474-546 | the three loops together compute the reconciliation |
| OrderController.Cancel | controllers/order_controller.go:776-796 | refused with the status in "picking process" or "qc process", refused if already cancelled; otherwise cancelled with who and when and nothing else changed |
| OrderController.Assign | controllers/order_controller.go:880-906 | refused if cancelled, then refused in "picking process", "qc process" or "completed"; otherwise "picking process" with picker, assigner and time, and nothing else changed |
| OrderController.Park | controllers/order_controller.go:976-990 | succeeds iff the order is in "picking process", and then is the pending mark |
| OrderController.Edit | controllers/order_controller.go:428-546 | refused when locked or cancelled, on a tracking taken by another order, or when reconciliation fails or leaves no items; otherwise the header is replaced, the items reconciled, marked "changed" with who and when; identity, status, picker, assignment, pending and cancellation attributions and creation time are kept |
| OrderController.CopyDetails | controllers/order_controller.go:672-686 | one copy per item with consecutive fresh ids, the same sku, name, variant and quantity, and price 0 |
| OrderController.Duplicate | controllers/order_controller.go:618-686 | refused when locked or cancelled; the original is renamed to external id + "-X2" and tracking "X-" + tracking |
| OrderController.DuplicateSuffixRoundTrip | controllers/order_controller.go:638-650 | dropping the last three characters of the renamed external id gives back the original external id |
| OrderController.DuplicateOutcome | controllers/order_controller.go:618-686 | duplication succeeds iff the order is unlocked, not cancelled and the renamed keys are free; the copy takes the next id, the original keys, status and header, is "duplicated" by the actor now, not complained, with no picker, assignment, pending or cancellation, and its items are `CopyDetails` of the original's: same sku, name, variant and quantity, consecutive fresh ids, price 0 |
| OrderController.GuardOrderDiffers | controllers/order_controller.go:780-892 | on a cancelled order in "qc process", cancel reports the status while assign reports the cancellation |
| OrderController.CancelledIsFinalAtTheDesk | controllers/order_controller.go:432-441 | after a cancel, edit, duplicate, cancel and assign all refuse the order as cancelled |
| OrderController.AssignThenPark | controllers/order_controller.go:906-990 | an assigned order can always be parked, which clears its picker and assignment |
| OrderController.EditWithLinesKeepsItems | controllers/order_controller.go:541-546 | an edit with a reconcilable non-empty request is never refused for leaving no items |
| OrderController.EditKeepsValid | controllers/order_controller.go:398-573 | a successful edit keeps external ids, tracking numbers and item ids unique and fresh |
| OrderController.BindComplainedAsWritten | controllers/order_controller.go:82-84 | the request as written binds only `true` |
| OrderController.ComplainedCannotBeCleared | controllers/order_controller.go:82-84 | as written, no request body sets complained to false |
| OrderController.BindComplained | controllers/order_controller.go:40-84 | a present flag of either value is accepted and a missing one refused |
| OrderController.ComplainedCanBeCleared | controllers/order_controller.go:61 | both values of the flag can be set |
| OrderController.CommitKeepsValid | controllers/order_controller.go:398-1016 | writing back an order with the same keys and items keeps the orders table valid |
| OrderController.UpdateOrderComplainedStatus | controllers/order_controller.go:40-78 | with the corrected binding: a missing flag is a bad request, an unknown order not found; otherwise only the complained flag of that order changes, to either value, whatever its status |
| OrderController.CancelOrder | controllers/order_controller.go:752-822 | admin-gated; not found or the cancel transition written back to that order only, and the table stays valid |
| OrderController.AssignPicker | controllers/order_controller.go:840-932 | coordinator-gated; an unknown picker, then an unknown order, are not found; otherwise the assign transition is written back |
| OrderController.PendingPickOrders | controllers/order_controller.go:950-1016 | coordinator-gated; not found or the park transition written back to that order only |
| OrderController.UpdateOrder | controllers/order_controller.go:398-573 | not found, or the edit outcome: on success only that order changes and as many ids are used as items were added; on failure nothing changes |
| OrderController.DuplicateKeepsValid | controllers/order_controller.go:638-686 | renaming the original and appending the copy keeps the orders table valid |
| OrderController.DuplicateOrder | controllers/order_controller.go:590-735 | admin-gated; not found or the duplicate outcome: the original is replaced by its renamed form and the copy appended, or nothing changes |
| OrderController.NewOrder | controllers/order_controller.go:297-328 | a created order carries the request's external id, tracking number, channel, store, buyer, address, courier and sent-before time; it is "ready to pick", has no event, no complaint and no attribution, and has one item per requested line with its sku, name, variant and quantity, a fresh id and no price |
| OrderController.BulkOutcome | controllers/order_controller.go:284-358 | created + skipped + failed = requests; orders are only appended; every created order is "ready to pick"; every skipped request's external id exists; the table stays valid |
| OrderController.IntakeKeepsValid | controllers/order_controller.go:297-340 | inserting an order with fresh keys keeps the table valid |
| OrderController.ResubmissionIsSkipped | controllers/order_controller.go:285-294 | a request whose external id exists is skipped and changes nothing |
| OrderController.BulkStatus | controllers/order_controller.go:365-376 | 201 iff something was created, 200 iff nothing was created but something skipped, 400 iff neither |
| OrderController.IntakeAll | controllers/order_controller.go:284-358 | the intake loop ends in the state and lists the batch specification gives |
| OrderController.BulkCreateOrders | controllers/order_controller.go:273-380 | the orders table grows by exactly the created orders and stays valid; the summary counts add up to the total |
| MobileOrderController.PickLookupAsWritten | controllers/mobile_order_controller.go:238 | the query as written always fails |
| MobileOrderController.PickingAsWrittenNeverSucceeds | controllers/mobile_order_controller.go:238-245 | as written, even a pickable order cannot be picked |
| MobileOrderController.PickLookup | controllers/mobile_order_controller.go:238-245 | finds an order iff one with that id is "ready to pick" or "pending picking"; otherwise not available |
| MobileOrderController.Take | controllers/mobile_order_controller.go:248-251 | a taken order is "picking process" with picker and time, and nothing else changes |
| MobileOrderController.CancelledOrderCanBeTaken | controllers/mobile_order_controller.go:238-251 | self-pick ignores the event status: a cancelled ready order is found and stays cancelled when taken |
| MobileOrderController.PickingOrder | controllers/mobile_order_controller.go:215-276 | succeeds iff a pickable order has that id, then writes the taken order back; otherwise not available and nothing changes |
| MobileOrderController.CompleteLookup | controllers/mobile_order_controller.go:423-431 | finds an order iff it has that id, is in "picking process" and is picked by the actor |
| MobileOrderController.CompletePickingOrder | controllers/mobile_order_controller.go:392-470 | on success the order becomes "picking complete" and exactly one receipt (order, actor) is added; otherwise neither table changes |
| MobileOrderController.CompletionIsOnce | controllers/mobile_order_controller.go:423-446 | a completed order can be neither completed again nor picked again |
| MobileOrderController.HoldsParkingRole | controllers/mobile_order_controller.go:504-512 | the flag loop finds a coordinator or superadmin role iff one is held |
| MobileOrderController.Authorise | controllers/mobile_order_controller.go:486-516 | an empty username or password is refused by the binding before any lookup; then an unknown user or wrong password is unauthorized, a user without a coordinator or superadmin role is forbidden, otherwise the coordinator's id |
| MobileOrderController.PendingPickOrders | controllers/mobile_order_controller.go:482-575 | the binding or authorisation error, or not found, or the desk's park transition written back; orders change only on success |
| UserManagerController.ActingLevel | controllers/user_manager_controller.go:205-213 | the accumulator loop computes the highest level of the token's role names |
| UserManagerController.GrantingIsNotStrict | controllers/user_manager_controller.go:216-220 | a coordinator may grant "coordinator" although a role cannot manage an equal role |
| UserManagerController.UnrankedRoleCannotBeGranted | controllers/user_manager_controller.go:216-220 | the seeded "retur" role cannot be granted by anyone |
| UserManagerController.UpdateUserStatus | controllers/user_manager_controller.go:129-155 | coordinator-gated; not found, or only that user's active flag changes |
| UserManagerController.AssignRole | controllers/user_manager_controller.go:171-250 | unknown user, then unknown role, are not found; a held role is a conflict before permission; rank below the role is forbidden; success appends exactly one role row |
| UserManagerController.GrantIsRecorded | controllers/user_manager_controller.go:230-239 | after a grant the user holds the role |
| UserManagerController.Without | controllers/user_manager_controller.go:296-298 | the removal deletes exactly that user's rows for that role |
| UserManagerController.WithoutKeepsOthers | controllers/user_manager_controller.go:296-298 | removing a role from one user leaves every other user's roles as they were |
| UserManagerController.RemoveUndoesGrant | controllers/user_manager_controller.go:296-298 | removing a granted role leaves the user without it |
| UserManagerController.RemoveRole | controllers/user_manager_controller.go:262-315 | an unknown role is not found, rank below the role is forbidden, otherwise exactly that user's rows for the role are removed |
| UserManagerController.InitialRole | controllers/user_manager_controller.go:366-419 | an empty request gives guest when seeded; an unranked name is a bad request; rank below it is forbidden; otherwise the requested role |
| UserManagerController.Account | controllers/user_manager_controller.go:352-360 | the stored account carries the request's username, email, name and the hashed password, with no refresh token, and is active whatever `is_active` the request sends, because the column defaults to true (models/user.go:16) and the insert leaves a false field out |
| UserManagerController.AccountKeepsValid | controllers/user_manager_controller.go:352-364 | inserting an account with a free username and email keeps the users table valid |
| UserManagerController.CreateUser | controllers/user_manager_controller.go:323-425 | a live holder of the username or email is a conflict, a deleted one an internal error; otherwise the account is inserted first, active, and the role outcome decides the reply |
| UserManagerController.DeletedKeysStayTaken | controllers/user_manager_controller.go:352-364 | a soft-deleted user's username and email remain taken |
| UserManagerController.WithoutUser | controllers/user_manager_controller.go:491-496 | deleting a user's roles removes exactly that user's rows |
| UserManagerController.DeleteUser | controllers/user_manager_controller.go:440-515 | not found, self-deletion forbidden, else success iff acting rank is strictly above the target's; then the user is soft-deleted and loses every role |
| UserManagerController.NoRowsLeft | controllers/user_manager_controller.go:491-496 | a user with no rows in the role table holds no roles |
| UserManagerController.SuperadminCannotBeDeleted | controllers/user_manager_controller.go:466-486 | no acting rank is strictly above a superadmin's |
| UserManagerController.UpdateUserPassword | controllers/user_manager_controller.go:529-600 | not found, or success iff acting rank is at least the target's; then the password is replaced and the refresh token cleared |
| UserManagerController.PeersMayUpdateEachOther | controllers/user_manager_controller.go:566-569 | a user with the same roles as the target passes the rank check |
| UserManagerController.Profile | controllers/user_manager_controller.go:662-668 | a non-empty name or email replaces the old one and nothing else changes |
| UserManagerController.UpdateUserProfile | controllers/user_manager_controller.go:611-690 | an email held by another live user is a conflict, then low rank forbidden, then an email of a deleted user an internal error; otherwise the profile update |
| FlowQuery.Selected | controllers/ribbon_flow_controller.go:59-88 | the listing's rows are exactly the qualifying records' tracking numbers |
| FlowQuery.Candidates | controllers/ribbon_flow_controller.go:59-88 | the candidates are strictly ascending and are exactly the non-empty qualifying tracking numbers |
| FlowQuery.ListTrackings | controllers/ribbon_flow_controller.go:42-107 | a malformed start, then end, date is a bad request; otherwise the total is the candidate count and the page is the ascending run of candidates starting at (page-1)*limit, exactly min(limit, candidates left) long |
| FlowQuery.UnfilteredListsEveryTracking | controllers/ribbon_flow_controller.go:59 | with no filter every non-empty tracking number is a candidate |
| FlowQuery.EndDayIsInclusive | controllers/ribbon_flow_controller.go:78-81 | the last second of the end day is in range and the first second of the next day is not |
| FlowQuery.OperatorOf | controllers/online_flow_controller.go:184-191 | the operator is shown iff the record names one and that user loads |
| FlowQuery.QcSectionOf | controllers/online_flow_controller.go:182-197 | the QC section is present iff a record has exactly that tracking, and shows the first one's time and operator |
| FlowQuery.OutboundSectionOf | controllers/online_flow_controller.go:199-216 | the outbound section is present iff an outbound has exactly that tracking, and shows its expedition, colour, time and operator |
| RibbonFlowController.OrderSectionOf | controllers/ribbon_flow_controller.go:218-228 | the order section is present iff an order has exactly that tracking, and shows its external id, complained flag and time |
| RibbonFlowController.BuildRibbonFlowAsWritten | controllers/ribbon_flow_controller.go:177-228 | as written, the QC-ribbon and outbound sections are always absent |
| RibbonFlowController.Respond | controllers/ribbon_flow_controller.go:157-171 | empty tracking is a bad request, a missing QC-ribbon section not found, otherwise the snapshot |
| RibbonFlowController.GetRibbonFlowAsWritten | controllers/ribbon_flow_controller.go:157-171 | as written, every non-empty tracking is not found |
| RibbonFlowController.RecordedTrackingNotFoundAsWritten | controllers/ribbon_flow_controller.go:183 | as written, a tracking with a QC-ribbon record is still not found |
| RibbonFlowController.BuildRibbonFlow | controllers/ribbon_flow_controller.go:177-228 | the snapshot echoes the tracking, and each section is present iff its table has a row with exactly that tracking |
| RibbonFlowController.GetRibbonFlow | controllers/ribbon_flow_controller.go:157-171 | empty tracking is a bad request; success iff a QC-ribbon record exists, returning the snapshot; otherwise not found |
| RibbonFlowController.QcRibbonDecides | controllers/ribbon_flow_controller.go:166-171 | a tracking with an outbound but no QC-ribbon record is not found |
| RibbonFlowController.GetRibbonFlows | controllers/ribbon_flow_controller.go:42-152 | with the corrected builder (see Findings): the listing's error, or one snapshot per listed tracking in order, with the total |
| RibbonFlowController.BuildFlows | controllers/ribbon_flow_controller.go:104-106 | with the corrected builder (see Findings): the loop yields one snapshot per listed tracking number, in the listing's order |
| RibbonFlowController.ListedFlowsAreFound | controllers/ribbon_flow_controller.go:97-107 | with the corrected builder (see Findings): every listed tracking can be looked up singly |
| RibbonFlowController.ListedFlowsAsWritten | controllers/ribbon_flow_controller.go:104-106 | as written, the listing loop's snapshots echo their tracking numbers and show only the order section, never a QC-ribbon or outbound section |
| RibbonFlowController.ListedFlowsNotFoundAsWritten | controllers/ribbon_flow_controller.go:104 | as written, every listed tracking number has a QC-ribbon record, yet its listed snapshot has no QC-ribbon section and its single lookup answers not found |
| OnlineFlowController.OrderSectionOf | controllers/online_flow_controller.go:218-228 | the order section is present iff an order has exactly that tracking, and shows its status, external id, complained flag and time |
| OnlineFlowController.BuildOnlineFlow | controllers/online_flow_controller.go:177-229 | the snapshot echoes the tracking, and each section is present iff its table has a row with exactly that tracking |
| OnlineFlowController.GetOnlineFlow | controllers/online_flow_controller.go:157-171 | empty tracking is a bad request; success iff a QC-online record exists, returning the snapshot; otherwise not found |
| OnlineFlowController.OrderSectionShowsStatus | controllers/online_flow_controller.go:221-228 | the order section carries the order's processing status |
| OnlineFlowController.GetOnlineFlows | controllers/online_flow_controller.go:42-152 | the listing's error, or one snapshot per listed tracking in order, with the total |
| OnlineFlowController.BuildFlows | controllers/online_flow_controller.go:104-106 | the loop yields one snapshot per listed tracking number, in the listing's order |
| OnlineFlowController.ListedFlowsAreFound | controllers/online_flow_controller.go:97-107 | every listed tracking can be looked up singly |
| OutboundController.Detected | controllers/outbound_controller.go:335-344 | the detected expedition is the first whose code prefixes the tracking; none iff no code does |
| OutboundController.DetectExpedition | controllers/outbound_controller.go:333-350 | the loop with `break` finds that first prefix match |
| OutboundController.FirstMatchIsUnique | controllers/outbound_controller.go:335-344 | there is only one first match |
| OutboundController.LabelFor | controllers/outbound_controller.go:319-350 | a `TKP0` tracking takes the request's labels; otherwise the first matching expedition's name, colour and slug, or invalid tracking if none matches |
| OutboundController.ChooseLabel | controllers/outbound_controller.go:319-350 | the branch computes that label |
| OutboundController.CreateChecksInOrder | controllers/outbound_controller.go:275-366 | no order is not found, then no QC record of either kind is a bad request, then a taken tracking, then no label; success gives a fresh outbound with the normalised tracking, the actor and the label |
| OutboundController.CreateOutbound | controllers/outbound_controller.go:260-395 | the outcome above; success appends exactly that outbound, failure changes nothing, and tracking numbers stay unique |
| OutboundController.ShadowedExpeditionIsNeverDetected | controllers/outbound_controller.go:335-344 | an expedition listed after one whose code prefixes its own is never detected |
| OutboundController.DetectionIgnoresLaterExpeditions | controllers/outbound_controller.go:335-344 | adding expeditions after a match never changes the detected one |
| OutboundController.ManualPrefixIgnoresCase | controllers/outbound_controller.go:275-320 | a tracking typed with "tkp0" in any case takes the override once normalised |
| OutboundController.CreatedOutboundIsNew | controllers/outbound_controller.go:307-366 | a created outbound keeps the table valid and its tracking is normalised |
| OutboundController.Relabel | controllers/outbound_controller.go:209-217 | allowed iff the tracking starts with `TKP0`, else forbidden; then only the expedition, colour and slug change |
| OutboundController.UpdateOutbound | controllers/outbound_controller.go:191-229 | not found, or the relabel outcome written back to that outbound only |
| OutboundController.RelabelLastWins | controllers/outbound_controller.go:215-217 | relabelling twice is relabelling with the second label |
| QcChecks.BoxErrorFromMeaning | controllers/qc_online_controller.go:231-252 | the box checks pass iff every line's box exists, has positive quantity and appears once |
| QcChecks.BoxErrorMeaning | controllers/qc_online_controller.go:231-252 | no box error iff the lines are acceptable |
| QcChecks.ValidateBoxes | controllers/qc_ribbon_controller.go:221-243 | the loop with its seen-set reports the first failing check |
| QcChecks.RepeatedBoxIsRefused | controllers/qc_online_controller.go:233-237 | a box repeated anywhere in the request is refused |
| QcChecks.AppendKeepsQcValid | models/qc_online.go:11 | appending a record with a fresh id and tracking keeps the QC table valid |
| QcOnlineController.CreateChecksInOrder | controllers/qc_online_controller.go:200-287 | an existing QC-online tracking is refused before the order check, then boxes; success gives a record with the normalised tracking, the actor and the lines |
| QcOnlineController.CompleteQc | controllers/qc_online_controller.go:290 | every order with that tracking becomes "qc complete" and no other order changes |
| QcOnlineController.CreateQcOnline | controllers/qc_online_controller.go:185-300 | the outcome above; success appends the record and completes the order together, failure changes neither |
| QcOnlineController.CompleteQcKeepsValid | controllers/qc_online_controller.go:290 | the status update keeps the orders table valid |
| QcOnlineController.QcOnlineCompletesTheOrder | controllers/qc_online_controller.go:290 | the update changes exactly the order with that tracking |
| QcRibbonController.CreateChecksInOrder | controllers/qc_ribbon_controller.go:201-266 | a missing order is not found, then the first box error, then a taken tracking; success gives a record with the normalised tracking, the actor and the lines |
| QcRibbonController.IntakesCheckInDifferentOrders | controllers/qc_ribbon_controller.go:212-250 | for a recorded tracking with no order, QC-online reports the duplicate and QC-ribbon the missing order |
| QcRibbonController.CreateQcRibbon | controllers/qc_ribbon_controller.go:186-300 | the outcome above; success appends only the record and leaves orders unchanged |
| ProductLines.Resolved | controllers/return_controller.go:292-313 | at most one product line per line item |
| ProductLines.EveryItemIsAccountedFor | controllers/return_controller.go:292-313 | every line item is either resolved or reported missing |
| ProductLines.NoLinesIffNothingResolves | controllers/return_controller.go:316-321 | no product lines iff no item's sku resolves |
| ProductLines.LinesComeFromItems | controllers/complain_controller.go:310-326 | every product line has a resolving item's product and that item's quantity |
| ProductLines.ResolvedOfConcat | controllers/complain_controller.go:310-326 | resolution runs item by item, in order |
| ProductLines.ResolveLines | controllers/return_controller.go:289-313 | the loop collects exactly the resolved lines and the missing skus |
| ReturnController.CreateChecksInOrder | controllers/return_controller.go:236-321 | a taken new tracking, then an unknown old tracking, then an order without items, are refused; success iff some item resolves, giving a fresh return with the normalised trackings, the order's external id, one line per resolved item and no numbers |
| ReturnController.CreateReturn | controllers/return_controller.go:214-340 | the outcome above; success appends the return, failure changes nothing; when no line resolves every item is reported missing |
| ReturnController.FillNumbers | controllers/return_controller.go:402-404 | only the return number, scrap number and updater change |
| ReturnController.UpdateDataReturn | controllers/return_controller.go:372-425 | not found, or that return's numbers filled in |
| ReturnController.FillNumbersOverwrites | controllers/return_controller.go:402-404 | a second update replaces the first |
| ComplainController.Present | controllers/complain_controller.go:329-353 | the operator set holds exactly the ids that are present |
| ComplainController.PresentIsSmall | controllers/complain_controller.go:329-353 | the set has no more ids than there are sources |
| ComplainController.CreateChecksInOrder | controllers/complain_controller.go:266-326 | an existing complaint tracking, then no order, are refused; a taken code or external id is an internal error; success copies the order's external id and resolved products, unchecked, fee 0 |
| ComplainController.CollectOperators | controllers/complain_controller.go:329-353 | the four lookups collect exactly the present QC-ribbon, QC-online, outbound and picker ids |
| ComplainController.ChargeOperators | controllers/complain_controller.go:356-368 | one fee-0 line per collected id, each id once |
| ComplainController.CreateComplain | controllers/complain_controller.go:245-390 | the outcome above with one fee-0 line per distinct operator; success appends the complaint, failure changes nothing |
| ComplainController.ChargesAtMostFour | controllers/complain_controller.go:329-368 | at most four operators are charged, and the picker always is when the order has one |
| ComplainController.SolutionOutcome | controllers/complain_controller.go:429-471 | an unknown operator in a non-empty list is a bad request; otherwise the solution and fee are set and the operator lines replaced only when the list is non-empty |
| ComplainController.OperatorsKnown | controllers/complain_controller.go:450-457 | the loop finds every listed operator iff each is a live user |
| ComplainController.UpdateSolutionComplain | controllers/complain_controller.go:407-505 | not found, or the solution outcome written back, or nothing on failure |
| ComplainController.EmptyListKeepsOperators | controllers/complain_controller.go:441 | an empty operator list leaves the operators as they were |
| ComplainController.CheckOutcome | controllers/complain_controller.go:533-539 | a missing flag is a bad request; otherwise only the checked flag changes |
| ComplainController.UpdateCheckComplain | controllers/complain_controller.go:518-565 | a missing flag is refused before the lookup, then not found, then the flag written back |
| ComplainController.CheckedCanBeCleared | controllers/complain_controller.go:594-596 | a checked complaint can be unchecked |
| ExpeditionController.CreateOutcome | controllers/expedition_controller.go:220-237 | refused iff the normalised code is in use; otherwise a fresh expedition with the upper-cased code and lower-cased slug |
| ExpeditionController.CreatedCodeIsNormalised | controllers/expedition_controller.go:220-237 | a created code is normalised, and creating it again in any spelling that normalises alike is refused |
| ExpeditionController.CreateExpedition | controllers/expedition_controller.go:212-247 | the outcome above; success appends it, failure changes nothing |
| ExpeditionController.UpdateOutcome | controllers/expedition_controller.go:150-159 | refused iff another expedition has the code; otherwise every field as given, unnormalised |
| ExpeditionController.UpdateExpedition | controllers/expedition_controller.go:133-168 | not found, or the update outcome written back to that expedition only |
| ExpeditionController.UpdateMayKeepOwnCode | controllers/expedition_controller.go:150-153 | an expedition may be updated with its own code |
| ExpeditionController.LowerCaseCodeIsNeverDetected | controllers/expedition_controller.go:156-159 | a code stored with a lower-case letter by update never matches an outbound tracking |
| ExpeditionController.BlankCodeMatchesEverything | controllers/expedition_controller.go:220-237 | a blank code is stored empty and then prefixes every tracking number |

## Left out

- HTTP binding, status codes and response bodies are left out. Outcomes are an error kind with a short reason; the
  reason strings are shortened from the source's messages. Binding rules that reject requests before the handler runs
  are not modelled, except the three the handlers' logic depends on (the complained flag, the checked flag and the
  coordinator credentials). The checked flag and the credentials are bound as written; the complained flag is bound
  as corrected (see the `UpdateOrderComplainedStatus` line below). So `min=1` on quantities, `required` on numeric fees, and `required` on the box id are not
  modelled.
- Database errors other than a violated unique key (connection failures, failed commits) are left out. Every handler
  therefore either fully succeeds or fails on the checks shown.
- Primary keys come from one shared counter rather than one sequence per table.
- GORM `Preload` chains and product enrichment in responses are left out. The order response takes the operators'
  names as a map.
- Password hashing and comparison are parameters (`hashed`, `passwordMatches`). The complaint code is a parameter
  standing for a fresh unique code. Token roles and the acting user id are inputs.
- Times are integers (seconds) and days are integers. An absent or unparsable `sent_before` leaves Go's zero time,
  modelled as 0. Date parsing and formatting are not modelled: a date parameter
  is absent, a day, or malformed.
- `ILIKE` is modelled as ASCII case-insensitive substring search. Its `%` and `_` wildcards in the search text are
  not modelled.
- Text.Normalize: `strings.ToUpper` and `strings.ToLower` are modelled on ASCII letters only. Go maps every Unicode
  letter (for example "é" to "É"), so tracking numbers, expedition codes and slugs that contain non-ASCII letters are
  left unmapped by the model where the source would change their case. This affects
  controllers/outbound_controller.go:275, controllers/qc_online_controller.go:200 and
  controllers/expedition_controller.go:220-223.
- Concurrency is left out: the read-then-write races between a guard and its write are not modelled.
- Listing, chart and plain CRUD endpoints are left out, as are GetOrders and GetMobileOrders. `RemoveExpedition` (a
  soft delete) is not modelled.
- models/return.go is not part of this model. The return record is shaped from its use in
  controllers/return_controller.go.
- The handlers QCProcessStatusOrder, PickingCompletedStatusOrder, GetAssignedOrders and the other routed handlers that
  have no source here are not part of this model.
- The picker column queried as `picker_id` is modelled as the order's `PickedBy`. The picking receipt is the pair
  (order id, picker id).
- OrderController.UpdateOrderComplainedStatus: binds the flag through the corrected `BindComplained`, so
  `{"complained": false}` succeeds in the model while the binding as written refuses it (see Findings). The
  as-written binding is `BindComplainedAsWritten`.
- RibbonFlowController.GetRibbonFlows: builds its snapshots with the corrected `BuildRibbonFlow` (see Findings). As
  written, every snapshot lacks its QC-ribbon and outbound sections (`ListedFlowsAsWritten`).
- RibbonFlowController.BuildFlows: loops over the corrected builder, not the one the source's loop calls (see
  Findings).
- RibbonFlowController.ListedFlowsAreFound: holds for the corrected single lookup. As written, no listed tracking is
  found singly (`ListedFlowsNotFoundAsWritten`).
- MobileOrderController.PickingOrder: does not model the query as written, which is malformed SQL (see Findings). It
  models the intended status filter.
- ComplainController.CreateComplain: states the operator lines as one fee-0 line per distinct id, not their order.
  The source walks a Go map, whose iteration order is unspecified.
- OutboundController.Detected: detection is the first listed expedition whose code is a prefix, as the loop is
  written. It is not the longest matching code. The model takes the expeditions in primary-key order. The source's
  `Find(&expeditions)` has no `ORDER BY`, so the database does not fix the order, and when two codes both prefix a
  tracking number the one detected depends on it. `ShadowedExpeditionIsNeverDetected` holds only under the
  primary-key order.
- QcOnlineController.CreateQcOnline: sets "qc complete" on the order whatever its status or cancellation, as written.
- ExpeditionController.UpdateExpedition: stores the code and slug verbatim, as written, so a blank code such as
  "   " is stored untrimmed.
- ExpeditionController.CreateExpedition: a code that is blank once trimmed is stored empty, as written, and then
  matches every tracking number (`BlankCodeMatchesEverything`).
- UserManagerController.CreateUser: inserts the account before checking the initial role, as written. A refused role
  therefore leaves a role-less user behind.
- UserManagerController.RemoveRole: does not check that the user exists, as written.
- Soft-deleted users are not found by id, but their usernames and emails stay taken under the unique keys. Creating
  or renaming onto one is an internal error.
- OrderController.BulkCreateOrders: does not enforce at least one line item per order. The validator does not descend
  into the list's elements.
- The role table's `retur` seed has no rank; the rank table lists `admin-retur` instead.
- ComplainController.UpdateCheckComplain: the binding check runs before the lookup, so the handler's own nil check is
  never reached.
- Gin's binding of the complaint tracking number is not normalised, unlike the other trackings. The model keeps it
  verbatim.

## Findings

| source | as written | input that shows it | evidently intended | confidence | as-written member | corrected member |
|---|---|---|---|---|---|---|
| controllers/order_controller.go:82-84 | `Complained bool` with `binding:"required"`, which refuses the zero value `false` | body `{"complained": false}` is refused as a validation error | the flag can be set to either value, as the handler at line 61 assigns it | not executed; follows the validator's rule that `required` rejects a zero value | OrderController.ComplainedCannotBeCleared | OrderController.ComplainedCanBeCleared |
| controllers/mobile_order_controller.go:238 | `processing_status IN = ?`, which is not valid SQL, so the lookup always errors | any order id, including one that is "ready to pick" | pick an order whose status is "ready to pick" or "pending picking" | not executed; the SQL text is malformed whatever the database | MobileOrderController.PickingAsWrittenNeverSucceeds | MobileOrderController.PickingOrder |
| controllers/ribbon_flow_controller.go:183 | `Preload("User")` on QcRibbon and Outbound, which have no `User` association, so both lookups fail | a tracking with a QC-ribbon record: the single lookup answers not found | preload the QC and outbound operators, as the online flow does | not executed; follows GORM v2's error on an unknown preload | RibbonFlowController.RecordedTrackingNotFoundAsWritten | RibbonFlowController.GetRibbonFlow |
| controllers/ribbon_flow_controller.go:104 | the listing loop calls the same `buildRibbonFlow`, so every listed snapshot lacks its QC-ribbon and outbound sections | any listing page that shows a tracking number: its snapshot has no QC-ribbon section although the tracking was listed because of its QC-ribbon record | list each snapshot with the QC and outbound sections its records give | not executed; follows GORM v2's error on an unknown preload | RibbonFlowController.ListedFlowsNotFoundAsWritten | RibbonFlowController.ListedFlowsAreFound |
