# PlataformaAPI lab reservations — a verified model

PlataformaAPI is an ASP.NET Core API. A lab uses it to lend materials and reagents against reservations. This project models its controllers and its EF Core data model in Dafny and proves properties of that model.

The centrepiece is the material stock ledger in `ReservationMaterialController`. A line-item commits a quantity of one material to one reservation:

- Creating a line takes the quantity out of `Material.Stock`.
- Marking the line Returned puts its returned quantity back.
- Deleting the line puts back whatever was not returned.

Around the ledger sit the other controllers. Each one stores rows, rejects some requests, and relies on rules the database enforces when changes are saved:

- reservations: reference checks and the `CK_Reservation_Dates` constraint;
- materials: category parsing and an outright stock overwrite;
- team members: each (reservation, user) pair is unique;
- subjects and groups: each code is unique;
- roles: names are unique ignoring case, and a role in use cannot be deleted.

Structure:

- `Store.Db` holds the store as one map from identity to row per table, plus the identity counter.
- `Store.Consistent` states what the database refuses to save: foreign keys, unique indexes and the date check. `Store.Commit` models `SaveChanges`. When the database refuses a change, the result is a server error and nothing is stored.
- `Store.Valid` adds the invariants the entity annotations declare, and every action keeps it.
- The delete behaviours configured in `OnModelCreating` (cascade, set-null, restrict) are functions in `Store` with lemmas about them.
- Each controller is a module with three parts:
  - pure functions (`Post`, `Put`, `Delete`, the queries) that give the response and the new store for each request;
  - lemmas about those functions, both per action and across sequences of requests;
  - a class holding the `AppDbContext`. Its methods change the tracked tables step by step as the source does, and each method's postcondition ties its response and the new tables to the pure function.
- `[ApiController]` model validation of request bodies is modelled as a first check that answers `BadRequest(InvalidDto)`.
- `Enum.TryParse(…, ignoreCase: true)` is modelled as matching a member name ignoring ASCII case. `ToUpper` is modelled as ASCII upper-casing.
- Dates are integers.

## Model

| member | source | states |
|---|---|---|
| MaterialModel.ParseCategory | Controllers/MaterialController.cs:63-66 | a category parses to `c` exactly when it equals `c`'s name ignoring case; anything else is rejected |
| MaterialModel.ParseCategoryName | Models/Material.cs:32-36 | each category's own name parses back to it, and parsing does not depend on letter case |
| MaterialModel.DtoMakesValidMaterial | Models/Material.cs:37-48 | a body that passes validation yields a row meeting the entity's length and stock ranges |
| ReservationModel.ParseStatus | Controllers/ReservationController.cs:183-192 | a status string parses to `st` exactly when it equals `st`'s name ignoring case |
| ReservationModel.ParseStatusName | Models/Reservation.cs:47-53 | each of the four reservation statuses parses back from its name, in any letter case |
| ReservationMaterialModel.ParseStatus | Controllers/ReservationMaterialsController.cs:158 | a line status parses to `st` exactly when it equals `st`'s name ignoring case |
| ReservationMaterialModel.ParseStatusName | Models/ReservationMaterials.cs:38-43 | Reserved, Returned and Damaged each parse back from their names, in any letter case |
| ReservationMaterialModel.Outstanding | Controllers/ReservationMaterialsController.cs:215 | the units a valid line has not returned lie between zero and its quantity |
| ReservationMaterialModel.NewLineValid | Models/ReservationMaterials.cs:22-30 | a new line (returned 0, status Reserved) from a validated body has quantity in [1, int.MaxValue] and 0 ≤ returned ≤ quantity |
| Store.StockNonNegative | Models/Material.cs:19-21 | in a valid store no material's stock is negative |
| Store.CascadeReservation | Models/AppDbContext.cs:71-87 | deleting a reservation removes exactly its line-items and team members and leaves every surviving one as it was; users, roles, subjects, groups, materials and the identity counter are unchanged, and the store stays valid |
| Store.SetNullSubject | Models/AppDbContext.cs:47-50 | deleting a subject keeps every reservation and clears exactly the references to it |
| Store.SetNullGroup | Models/AppDbContext.cs:52-55 | deleting a group keeps every reservation and clears exactly the references to it |
| Store.RestrictMaterial | Models/AppDbContext.cs:77-81 | removing a material is accepted by the store exactly when no line-item references it |
| Store.CascadeUser | Models/AppDbContext.cs:42-45 | after deleting a user no remaining reservation belongs to that user and the annotation invariants still hold; the store refuses the delete exactly when the user is a team member of a reservation that survives it (the restrict at lines 89-93) |
| Store.AppDbContext.SaveChanges | Models/AppDbContext.cs:20-94 | the staged tables are kept exactly when they satisfy the foreign keys, unique indexes (including the index on Role.NormalizedName that `IdentityDbContext` adds) and date check; otherwise the tables return to their state before the request |
| Store.AppDbContext.NextIdentity | Models/ReservationMaterials.cs:8-10 | each inserted row receives the next identity and the counter advances |
| Store.AppDbContext.constructor | Models/AppDbContext.cs:9-11 | a context starts from the given tables |
| ReservationMaterials.Release | Controllers/ReservationMaterialsController.cs:165 | released units never lower a non-negative stock, and the result agrees with the 32-bit addition wherever the sum fits in an int |
| ReservationMaterials.ReleaseAsWrittenWraps | Controllers/ReservationMaterialsController.cs:215 | the 32-bit `Stock +=` turns int.MaxValue plus any positive release into a negative stock |
| ReservationMaterials.Post | Controllers/ReservationMaterialsController.cs:68-124 | each rejection (invalid body, missing reservation, missing material, insufficient stock with the available amount) happens exactly in its case and changes nothing; a create adds one Reserved line with nothing returned under a new identity, the materials table changes only in that material's stock, which drops by exactly the quantity and stays ≥ 0, and no other table changes |
| ReservationMaterials.Put | Controllers/ReservationMaterialsController.cs:128-198 | a missing line is NotFound; a returned quantity above the quantity, or an unparseable status, is rejected with nothing stored; otherwise the returned quantity and status are applied, 0 ≤ returned ≤ quantity is kept, and the materials table changes only in that line's material's stock, which grows by the new returned quantity exactly when the line moves into Returned from another status |
| ReservationMaterials.Delete | Controllers/ReservationMaterialsController.cs:202-222 | a missing line is NotFound; otherwise only that line goes, and the materials table changes only in its material's stock, which grows by quantity − returned whatever the status |
| ReservationMaterials.ByReservation | Controllers/ReservationMaterialsController.cs:226-244 | exactly the lines of the given reservation, as stored |
| ReservationMaterials.AfterReserveValid | Controllers/ReservationMaterialsController.cs:86-104 | the staged create keeps the store valid when its checks pass |
| ReservationMaterials.AfterUpdateValid | Controllers/ReservationMaterialsController.cs:140-169 | the staged update keeps the store valid when its checks pass |
| ReservationMaterials.AfterRemoveValid | Controllers/ReservationMaterialsController.cs:214-218 | the staged delete keeps the store valid |
| ReservationMaterials.PostSucceeds | Controllers/ReservationMaterialsController.cs:86-105 | on a valid store, a create whose references exist and whose quantity is in stock is never refused at save, and it gets a fresh identity |
| ReservationMaterials.PostKeepsValid | Controllers/ReservationMaterialsController.cs:101-105 | every create request leaves a valid store valid |
| ReservationMaterials.PutSucceeds | Controllers/ReservationMaterialsController.cs:140-183 | an update that passes the controller's checks is never refused at save |
| ReservationMaterials.PutKeepsValid | Controllers/ReservationMaterialsController.cs:140-153 | every update request keeps 0 ≤ returned ≤ quantity and a valid store |
| ReservationMaterials.DeleteSucceeds | Controllers/ReservationMaterialsController.cs:214-219 | deleting an existing line is never refused at save |
| ReservationMaterials.DeleteKeepsValid | Controllers/ReservationMaterialsController.cs:204-219 | every delete request leaves a valid store valid |
| ReservationMaterials.CreateDeleteRoundTrip | Controllers/ReservationMaterialsController.cs:101-215 | creating a line and deleting it before any return restores the materials table and the lines table exactly |
| ReservationMaterials.ExhaustedStockRefuses | Controllers/ReservationMaterialsController.cs:86-101 | once a create takes the last units, a further create of that material is refused, reporting 0 available, and changes nothing |
| ReservationMaterials.ResendReturnedKeepsStock | Controllers/ReservationMaterialsController.cs:161-162 | any update that asks for Returned on a line that is already Returned leaves every stock as it was, whatever returned quantity it carries, and is saved whenever that quantity is within the line's quantity |
| ReservationMaterials.NonReturnStatusKeepsStock | Controllers/ReservationMaterialsController.cs:158-169 | an update that does not ask for Returned never changes any stock |
| ReservationMaterials.ReturnedReservedReturnedReleasesTwice | Controllers/ReservationMaterialsController.cs:161-169 | Returned → Reserved → Returned leaves the line exactly as it was but adds its returned quantity to stock a second time |
| ReservationMaterials.DamagedToReturnedReleases | Controllers/ReservationMaterialsController.cs:161-165 | a Damaged line moved to Returned puts its returned quantity back into stock |
| ReservationMaterials.DeleteDamagedReleases | Controllers/ReservationMaterialsController.cs:213-215 | deleting a Damaged line still puts quantity − returned back into stock |
| ReservationMaterials.ReturnThenDeleteRestoresStock | Controllers/ReservationMaterialsController.cs:152-215 | create, then return everything together with the Returned status, then delete: the stock ends where it started |
| ReservationMaterials.LateReturnedQuantityIsLost | Controllers/ReservationMaterialsController.cs:152-215 | create, mark Returned, then set the returned quantity, then delete: the whole quantity is lost to the stock |
| ReservationMaterials.ReservationMaterialController.constructor | Controllers/ReservationMaterialsController.cs:13-16 | the controller works on the given context |
| ReservationMaterials.ReservationMaterialController.PostReservationMaterial | Controllers/ReservationMaterialsController.cs:68-124 | the response and the new tables are those of `ReservationMaterials.Post` |
| ReservationMaterials.ReservationMaterialController.PutReservationMaterial | Controllers/ReservationMaterialsController.cs:128-198 | the response and the new tables are those of `ReservationMaterials.Put` |
| ReservationMaterials.ReservationMaterialController.DeleteReservationMaterial | Controllers/ReservationMaterialsController.cs:202-222 | the response and the new tables are those of `ReservationMaterials.Delete` |
| ReservationMaterials.ReservationMaterialController.GetMaterialsByReservation | Controllers/ReservationMaterialsController.cs:226-244 | returns `ReservationMaterials.ByReservation` of the current tables |
| Reservations.Post | Controllers/ReservationController.cs:80-145 | each rejection (invalid body, missing user, supplied subject or group missing, start not before end) happens exactly in its case and changes nothing; a create adds one Pending reservation with the body's fields, existing references and start < end |
| Reservations.Put | Controllers/ReservationController.cs:149-216 | a missing reservation is NotFound; a supplied missing subject or group, dates crossed when both are sent, or an unknown status is rejected with nothing stored; a saved update replaces exactly the supplied fields, keeps the user and the rest, and leaves start < end |
| Reservations.Delete | Controllers/ReservationController.cs:220-232 | a missing reservation is NotFound; otherwise it goes with exactly its line-items and team members, every surviving row is as it was, and users, roles, subjects, groups, materials and the identity counter are unchanged |
| Reservations.ByUser | Controllers/ReservationController.cs:236-262 | exactly the reservations whose user is the given one |
| Reservations.PostSucceeds | Controllers/ReservationController.cs:102-120 | on a valid store, a create that passes the checks is never refused at save |
| Reservations.PostKeepsValid | Controllers/ReservationController.cs:107-120 | every create request leaves a valid store valid |
| Reservations.PutSavedIffOrdered | Controllers/ReservationController.cs:170-201 | an update that passes the checks is saved exactly when the merged window starts before it ends |
| Reservations.PutKeepsValid | Controllers/ReservationController.cs:176-201 | every update request leaves a valid store valid |
| Reservations.DeleteSucceeds | Controllers/ReservationController.cs:222-229 | deleting an existing reservation is never refused at save |
| Reservations.SingleBoundIsRefusedByStore | Controllers/ReservationController.cs:170-174 | a new end alone at or before the stored start passes the controller and ends in a server error with nothing changed (the check constraint, Models/AppDbContext.cs:60) |
| Reservations.AnyStatusReplacesAny | Controllers/ReservationController.cs:183-188 | any of the four status names, in any letter case, replaces any stored status and changes nothing else |
| Reservations.ReservationController.constructor | Controllers/ReservationController.cs:13-16 | the controller works on the given context |
| Reservations.ReservationController.PostReservation | Controllers/ReservationController.cs:80-145 | the response and the new tables are those of `Reservations.Post` |
| Reservations.ReservationController.PutReservation | Controllers/ReservationController.cs:149-216 | the response and the new tables are those of `Reservations.Put` |
| Reservations.ReservationController.DeleteReservation | Controllers/ReservationController.cs:220-232 | the response and the new tables are those of `Reservations.Delete` |
| Reservations.ReservationController.GetUserReservations | Controllers/ReservationController.cs:236-262 | returns `Reservations.ByUser` of the current tables |
| Materials.Post | Controllers/MaterialController.cs:61-92 | an invalid body or unparseable category is rejected exactly in its case with nothing stored; a create stores the body's name, description and stock with the parsed category |
| Materials.Put | Controllers/MaterialController.cs:96-134 | a missing material is NotFound and a bad category is rejected with nothing stored; otherwise every field is overwritten, the stock with the body's absolute value |
| Materials.Delete | Controllers/MaterialController.cs:138-150 | a missing material is NotFound; a delete that is saved removes only that row, and only when no line-item references it |
| Materials.ByCategory | Controllers/MaterialController.cs:154-176 | nothing when the category does not parse; otherwise exactly the materials of that category |
| Materials.PostSucceeds | Controllers/MaterialController.cs:68-78 | on a valid store, a valid body with a parsing category always creates a material under a fresh identity |
| Materials.PostKeepsValid | Controllers/MaterialController.cs:77-78 | every create request leaves a valid store valid |
| Materials.PutSucceeds | Controllers/MaterialController.cs:109-119 | an overwrite of an existing material always succeeds and sets its stock to the body's value, whatever is reserved |
| Materials.PutKeepsValid | Controllers/MaterialController.cs:109-119 | every overwrite request leaves a valid store valid |
| Materials.DeleteRestricted | Controllers/MaterialController.cs:146-147 | an existing material is deleted exactly when no line-item references it; otherwise the answer is a server error |
| Materials.MaterialController.constructor | Controllers/MaterialController.cs:13-16 | the controller works on the given context |
| Materials.MaterialController.PostMaterial | Controllers/MaterialController.cs:61-92 | the response and the new tables are those of `Materials.Post` |
| Materials.MaterialController.PutMaterial | Controllers/MaterialController.cs:96-134 | the response and the new tables are those of `Materials.Put` |
| Materials.MaterialController.DeleteMaterial | Controllers/MaterialController.cs:138-150 | the response and the new tables are those of `Materials.Delete` |
| Materials.MaterialController.GetMaterialsByCategory | Controllers/MaterialController.cs:154-176 | returns `Materials.ByCategory` of the current tables |
| TeamMembers.Post | Controllers/TeamMemberController.cs:61-105 | a missing reservation, a missing user, or a pair already present is rejected exactly in its case with nothing stored; a create adds exactly one member for the pair |
| TeamMembers.Delete | Controllers/TeamMemberController.cs:108-120 | a missing member is NotFound; otherwise only that member is removed |
| TeamMembers.ByReservation | Controllers/TeamMemberController.cs:123-139 | exactly the members of the given reservation |
| TeamMembers.ByUser | Controllers/TeamMemberController.cs:142-159 | exactly the memberships of the given user |
| TeamMembers.PostSucceeds | Controllers/TeamMemberController.cs:81-89 | on a valid store, a new pair of an existing reservation and user is always added, and the store still holds each pair once |
| TeamMembers.PostKeepsValid | Controllers/TeamMemberController.cs:75-89 | every create request keeps the pairs unique and the store valid |
| TeamMembers.SecondPostConflicts | Controllers/TeamMemberController.cs:75-79 | adding the same pair twice: the second request is a conflict and changes nothing |
| TeamMembers.DeleteSucceeds | Controllers/TeamMemberController.cs:110-117 | deleting an existing member always succeeds on a valid store |
| TeamMembers.TeamMemberController.constructor | Controllers/TeamMemberController.cs:13-16 | the controller works on the given context |
| TeamMembers.TeamMemberController.PostTeamMember | Controllers/TeamMemberController.cs:61-105 | the response and the new tables are those of `TeamMembers.Post` |
| TeamMembers.TeamMemberController.DeleteTeamMember | Controllers/TeamMemberController.cs:108-120 | the response and the new tables are those of `TeamMembers.Delete` |
| TeamMembers.TeamMemberController.GetTeamMembersByReservation | Controllers/TeamMemberController.cs:123-139 | returns `TeamMembers.ByReservation` of the current tables |
| TeamMembers.TeamMemberController.GetReservationsByUser | Controllers/TeamMemberController.cs:142-159 | returns `TeamMembers.ByUser` of the current tables |
| Subjects.Post | Controllers/SubjectController.cs:56-85 | an invalid body (name, code or description missing or blank, or too long) is BadRequest; a conflict exactly when some subject has the code, with nothing stored; otherwise one subject with the body's fields is added |
| Subjects.Put | Controllers/SubjectController.cs:88-125 | an invalid body (name, code or description missing or blank, or too long) is BadRequest; NotFound exactly for a missing id; a conflict exactly when a different subject has the code, so keeping one's own code is allowed; otherwise name, code and description of that subject only are overwritten |
| Subjects.Delete | Controllers/SubjectController.cs:128-140 | NotFound exactly for a missing id; otherwise the subject goes, every reservation stays with only a reference to it cleared, and no other table or the identity counter changes |
| Subjects.PostSucceeds | Controllers/SubjectController.cs:58-72 | on a valid store, a create with a fresh code always succeeds: the unique index never fires |
| Subjects.PostKeepsValid | Controllers/SubjectController.cs:58-72 | every create request keeps subject codes unique and the store valid |
| Subjects.PutSucceeds | Controllers/SubjectController.cs:96-110 | an overwrite whose code no other subject has always succeeds |
| Subjects.PutKeepsValid | Controllers/SubjectController.cs:96-110 | every overwrite request keeps subject codes unique and the store valid |
| Subjects.DeleteSucceeds | Controllers/SubjectController.cs:130-137 | deleting an existing subject always succeeds, and each reservation that referenced it keeps every field but the subject |
| Subjects.SubjectController.constructor | Controllers/SubjectController.cs:13-16 | the controller works on the given context |
| Subjects.SubjectController.PostSubject | Controllers/SubjectController.cs:56-85 | the response and the new tables are those of `Subjects.Post` |
| Subjects.SubjectController.PutSubject | Controllers/SubjectController.cs:88-125 | the response and the new tables are those of `Subjects.Put` |
| Subjects.SubjectController.DeleteSubject | Controllers/SubjectController.cs:128-140 | the response and the new tables are those of `Subjects.Delete` |
| Groups.Post | Controllers/GroupController.cs:57-85 | a conflict exactly when some group has the code, with nothing stored; otherwise one group with the body's fields is added |
| Groups.Put | Controllers/GroupController.cs:89-126 | NotFound exactly for a missing id; a conflict exactly when another group has the code; otherwise name and code of that group only are overwritten |
| Groups.Delete | Controllers/GroupController.cs:130-142 | NotFound exactly for a missing id; otherwise the group goes, every reservation stays with only a reference to it cleared, and no other table or the identity counter changes |
| Groups.PostSucceeds | Controllers/GroupController.cs:60-73 | on a valid store, a create with a fresh code always succeeds |
| Groups.PostKeepsValid | Controllers/GroupController.cs:60-73 | every create request keeps group codes unique and the store valid |
| Groups.PutSucceeds | Controllers/GroupController.cs:98-111 | an overwrite whose code no other group has always succeeds |
| Groups.PutKeepsValid | Controllers/GroupController.cs:98-111 | every overwrite request keeps group codes unique and the store valid |
| Groups.DeleteSucceeds | Controllers/GroupController.cs:132-139 | deleting an existing group always succeeds, and each reservation that referenced it keeps every field but the group |
| Groups.GroupController.constructor | Controllers/GroupController.cs:13-16 | the controller works on the given context |
| Groups.GroupController.PostGroup | Controllers/GroupController.cs:57-85 | the response and the new tables are those of `Groups.Post` |
| Groups.GroupController.PutGroup | Controllers/GroupController.cs:89-126 | the response and the new tables are those of `Groups.Put` |
| Groups.GroupController.DeleteGroup | Controllers/GroupController.cs:130-142 | the response and the new tables are those of `Groups.Delete` |
| Roles.Post | Controllers/RoleController.cs:41-59 | a conflict exactly when some role's normalized name equals the upper-cased name, with nothing stored; otherwise one role with that name and normalized name is added |
| Roles.Put | Controllers/RoleController.cs:62-96 | NotFound exactly for a missing id; a conflict exactly against other roles with the same normalized name; otherwise name and normalized name are overwritten together |
| Roles.Delete | Controllers/RoleController.cs:99-117 | NotFound exactly for a missing id; refused exactly while some user has the role; otherwise only that role goes |
| Roles.PostSucceeds | Controllers/RoleController.cs:43-56 | on a valid store, a create whose name no role has ignoring case always succeeds |
| Roles.PostKeepsValid | Controllers/RoleController.cs:43-56 | every create request keeps both `Name` and `NormalizedName` unique across roles, keeps `NormalizedName` equal to the upper-cased `Name`, and keeps the store valid |
| Roles.PutSucceeds | Controllers/RoleController.cs:70-81 | an overwrite whose name no other role has always succeeds |
| Roles.PutKeepsValid | Controllers/RoleController.cs:70-81 | every overwrite request keeps both `Name` and `NormalizedName` unique across roles, keeps `NormalizedName` equal to the upper-cased `Name`, and keeps the store valid |
| Roles.DeleteSucceeds | Controllers/RoleController.cs:107-114 | a role no user has is always deleted |
| Roles.ConflictIgnoresCase | Controllers/RoleController.cs:43-46 | a name that differs from a stored role's name only in letter case is a conflict |
| Roles.RoleController.constructor | Controllers/RoleController.cs:16-19 | the controller works on the given context |
| Roles.RoleController.PostRole | Controllers/RoleController.cs:41-59 | the response and the new tables are those of `Roles.Post` |
| Roles.RoleController.PutRole | Controllers/RoleController.cs:62-96 | the response and the new tables are those of `Roles.Put` |
| Roles.RoleController.DeleteRole | Controllers/RoleController.cs:99-117 | the response and the new tables are those of `Roles.Delete` |
| Scenarios.ReservationDeleteStrandsStock | Models/AppDbContext.cs:71-75 | deleting a reservation drops its line-items without releasing their outstanding units, which deleting the line-item itself would have put back |
| Scenarios.MaterialDeletableOnceLinesGone | Models/AppDbContext.cs:77-81 | a material is refused deletion while its last line-item exists, and is deleted once that line-item is gone |
| Scenarios.OverwriteThenReleaseExceedsInt32 | Controllers/MaterialController.cs:109-111 | overwriting a stock with int.MaxValue and then releasing outstanding units takes the stock past int.MaxValue; the 32-bit addition as written would store a negative stock |

## Left out

- Concurrency. Each request is one atomic step. Interleaved read-check-write on stock, the `DbUpdateConcurrencyException` handlers and connection retries are not modelled.
- Timestamps (`CreatedAt`, `UpdatedAt`), response DTO projections, and the `Include`/`LoadAsync` loading of navigation properties. The only exception: the ledger's update and delete treat a line whose material is missing as not found, because the query joins the material.
- Role `ConcurrencyStamp` values. They are random GUIDs.
- The list-all queries (`GetReservations`, `GetMaterials`, `GetTeamMembers`, `GetSubjects`, `GetGroups`, `GetRoles`, `GetReservationMaterials`) return a whole table, with no rule to state.
- The get-by-id actions (`GetReservationMaterial`, `GetReservation`, `GetMaterial`, `GetTeamMember`, `GetSubject`, `GetGroup`, `GetRole`) are plain lookups of one row. Most are modelled by a `Get` function and a controller method that returns it, but there is no property to prove about a lookup.
- `Enum.TryParse` also accepts numeric strings, comma lists and surrounding white space. Only case-insensitive matching of member names is modelled.
- `ToUpper` is culture-sensitive and Unicode-aware. The model upper-cases ASCII letters only. White space for `[Required]` is ASCII white space only.
- `[StringLength(n)]` counts UTF-16 code units, while the model counts characters. A name made of characters outside the Basic Multilingual Plane can fit the model's limit yet exceed the source's.
- Records.ValidSubjectDto: assumes the project compiles with nullable reference types enabled, as the `?` annotations in the models indicate; under that setting MVC treats the non-nullable `Description` of the subject bodies as implicitly `[Required]`. The project file is not part of this model.
- The database collation. Subject and group codes, and the role-name comparison at the database, are compared exactly as strings.
- Identity columns are one counter shared by all tables, not one sequence per table.
- ASP.NET Identity's own tables and indexes beyond `User.Email`, `User.RoleId`, `Role.Name` and `Role.NormalizedName`. `AuthController`, `UserController`, `Program.cs` and `DbInitializer.cs` are not part of this model. `Store.CascadeUser` states what the configured delete behaviour does, but no user controller is modelled.
- `[Authorize]` checks and HTTP status mapping beyond the `Response` datatype.
- The `BadRequest(ReturnedNegative)` branch of the ledger update is kept, but it cannot be reached: body validation already rejects a negative returned quantity.
- ReservationMaterials.Release: modelled with unbounded integers. The int.MaxValue bound that `Material.Stock` declares is not part of `MaterialModel.ValidMaterial`, because the code can exceed it (see Findings).
- Store.Valid: does not include the [Required] annotation on `Reservation.Purpose`. Updates cannot store an empty purpose, but the invariant does not state it.

## Findings

| source | as written | input that shows it | evidently intended | confidence | as-written member | corrected member |
|---|---|---|---|---|---|---|
| Controllers/ReservationMaterialsController.cs:215 | `material.Stock += reservationMaterial.Quantity - reservationMaterial.ReturnedQuantity` is unchecked 32-bit addition (likewise line 165) | `PutMaterial` sets Stock to 2147483647 while a line of that material has 1 unit outstanding; `DeleteReservationMaterial` on that line stores Stock −2147483648 | released units raise the stock and it never becomes negative (`[Range(0, int.MaxValue)]` on `Material.Stock`); since the int column cannot hold a stock above 2147483647 either, a fix must also bound the release or reject one whose result would exceed int.MaxValue (`Release` states the intended arithmetic on unbounded integers) | not executed; C# arithmetic is unchecked unless the project enables overflow checking | ReservationMaterials.ReleaseAsWrittenWraps | ReservationMaterials.Release |
