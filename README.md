# MagicVilla API: the two controllers as verified state machines

This project models the two request handlers of the MagicVilla web API in Dafny 4.11.

- `VillaAPIController` does create, read, update and delete over the `Villas` table. It adds a case-insensitive name check and refuses client-chosen positive ids.
- `VillaNumberController` does the same over the VillaNumber table. It checks every write's `VillaID` against the Villas table. Each of its actions fills a shared `APIResponse` envelope (`StatusCode`, `IsSuccess`, `ErrorMessages`, `Result`).

Each action is one atomic transition. It takes the store before and the request, and gives the store after and the action result. Each action's contract covers every branch of its guard chain, in the source's order.

Files and modules:

- `wrappers.dfy` (`Wrappers`): `Option`, which stands for a C# reference that may be null.
- `http.dfy` (`Http`): `HttpStatusCode`, the `ActionResult` kinds built by `Ok`, `BadRequest`, `NotFound`, `NoContent`, `CreatedAtRoute` and `StatusCode`, plus model-state errors and exceptions. An `UnhandledException` is an exception that leaves the action; the host answers it with 500. `ObjectResult` is `return _response;`, which is sent with 200.
- `models.dfy` (`Models`): the `Villa` and `VillaNumber` entities and their DTOs. It also holds the field-by-field copies between them (written by hand in `VillaAPIController`, done by AutoMapper in `VillaNumberController`) and the ASCII case fold behind `ToLower`.
- `tables.dfy` (`Tables`): a table is a map from primary key to row. `GetVillas` and `GetVillaNumbers` list rows with a query that has no ORDER BY; the model lists them by ascending key.
- `database.dfy` (`Data`): the `Database` class, holding the two tables. It also models what EF Core's `Add` and `Update` followed by `SaveChanges` do to the Villas table for an entity the context does not track:
  - for both, key 0 is an insert under the key the database generates;
  - `Add` inserts a row whose key is set under that key, and throws `DbUpdateException` when a row already has it;
  - `Update` overwrites the row with a stored key, and for any other key updates no row and throws `DbUpdateConcurrencyException`.
- `villa_api_controller.dfy` (`VillaAPI`): the `VillaAPIController` class. `GetVillas` and `GetVilla` are functions of the table. The four writing actions are methods that modify `db.villas`.
- `villa_number_controller.dfy` (`VillaNumberAPI`): the `APIResponse` envelope class and the `VillaNumberController` class. Every action is a method that modifies the envelope, and the writing actions also modify `db.villaNumbers`.
- `scenarios.dfy` (`Scenarios`): sequences of requests, proved from the action contracts alone.

Quirks of the code that the contracts pin down:

- `CreateVilla` and `CreateVillaNumber` dereference the payload before checking it for null. A null payload therefore never reaches their `NotFound` branch:
  - in `VillaAPIController` the exception escapes;
  - in `VillaNumberController` it is caught, the envelope is marked failed with one message, and the envelope is returned with 200.
- `CreateVilla` checks the name before the client-chosen id, and `CreateVillaNumber` checks the VillaNo before the VillaID.
- The 201 from `CreateVilla` carries the id the client sent (`villaDTO.Id`, VillaAPIController.cs:95), which is at most 0. For id 0 the row is stored under the generated key, so the location names no row. A negative id passes the check at :76 and is inserted as given.
- `UpdateVilla` does not repeat the name check.
- `UpdatePartialVilla` answers 400 (not 404) for a missing Villa. It stores the patched row before it looks at `ModelState`, so an invalid patch is stored and still answered with 400. A patch that changes the id writes over the Villa that has that id.
- `DeleteVillaNumber` and `UpdateVillaNumber` record `NoContent` in the envelope but send it with 200. The `id == null` tests in both delete actions can never be true for an `int`; the model has no such branch.
- Deleting a Villa leaves the VillaNumbers that refer to it in place.

A null Villa payload throws at the name check (VillaAPIController.cs:63), before the null check at :72 that would answer 404. The key a new Villa gets from the database is not visible in the code; the model takes it as a parameter.

## Model

| member | source | states |
|---|---|---|
| `Models.ToDTO` | MagicVilla_VillaAPI/Controllers/VillaAPIController.cs:162-172 | copying a stored Villa into a DTO and back gives the same Villa: no field is lost |
| `Models.DtoRoundTrip` | MagicVilla_VillaAPI/Controllers/VillaAPIController.cs:131-141 | copying a DTO into a Villa and back gives the same DTO |
| `Models.NumbersToDTOs` | MagicVilla_VillaAPI/Controllers/VillaNumberController.cs:36 | mapping a list keeps its length and order and maps each element field by field |
| `Models.ToLower` | MagicVilla_VillaAPI/Controllers/VillaAPIController.cs:63 | the fold keeps the length, leaves no upper-case letter, keeps every other character and moves each capital letter to its lower-case form |
| `Models.ToLowerIdempotent` | MagicVilla_VillaAPI/Controllers/VillaAPIController.cs:63 | folding a folded name changes nothing |
| `Models.ClashMeansCaseVariants` | MagicVilla_VillaAPI/Controllers/VillaAPIController.cs:63 | two names that are equal ignoring case have the same length and agree letter by letter after folding; with `CaseVariantsClash` this is an if-and-only-if |
| `Models.DifferentLengthsNeverClash` | MagicVilla_VillaAPI/Controllers/VillaAPIController.cs:63 | names of different lengths are never equal ignoring case |
| `Models.CaseVariantsClash` | MagicVilla_VillaAPI/Controllers/VillaAPIController.cs:63 | names that agree on every character after folding are equal ignoring case |
| `Tables.SortedKeys` | MagicVilla_VillaAPI/Controllers/VillaAPIController.cs:24 | the keys of a table, each exactly once, in strictly ascending order |
| `Tables.Least` | MagicVilla_VillaAPI/Controllers/VillaAPIController.cs:24 | the chosen key is in the set and no key of the set is smaller |
| `Tables.Listing` | MagicVilla_VillaAPI/Controllers/VillaAPIController.cs:24 | a listing has one element per key, and its i-th element is the row stored under the i-th smallest key |
| `Tables.StoredRowIsListed` | MagicVilla_VillaAPI/Controllers/VillaAPIController.cs:24 | every stored row appears in the listing of its table |
| `Data.AddInsertsOneRow` | MagicVilla_VillaAPI/Controllers/VillaAPIController.cs:92-93 | an `Add` that does not fail stores exactly one new row, under a key no row had (the generated key for Id 0, else its own Id) with that key as its Id, and keeps every other row; a failing `Add` changes nothing |
| `Data.Database.AddVilla` | MagicVilla_VillaAPI/Controllers/VillaAPIController.cs:92-93 | key 0 inserts under the generated key; a set key is inserted as given; a key already stored fails and changes nothing |
| `Data.Database.UpdateVilla` | MagicVilla_VillaAPI/Controllers/VillaAPIController.cs:142-143 | key 0 inserts under the generated key; a stored key is overwritten; any other key fails and changes nothing |
| `VillaAPI.NameTakenIgnoresCase` | MagicVilla_VillaAPI/Controllers/VillaAPIController.cs:63-65 | whether a name counts as taken does not depend on its letter case |
| `VillaAPI.VillaListingListsTable` | MagicVilla_VillaAPI/Controllers/VillaAPIController.cs:24 | listing a Villa table keyed by Id gives one Villa per row, each the row stored under its own Id, every stored Villa present, in strictly ascending Id order |
| `VillaAPI.VillaAPIController.constructor` | MagicVilla_VillaAPI/Controllers/VillaAPIController.cs:16-19 | the controller uses the given store |
| `VillaAPI.VillaAPIController.GetVillas` | MagicVilla_VillaAPI/Controllers/VillaAPIController.cs:23-25 | always 200, with every stored Villa once and nothing else, in ascending Id order |
| `VillaAPI.VillaAPIController.GetVilla` | MagicVilla_VillaAPI/Controllers/VillaAPIController.cs:35-49 | 400 for id 0; otherwise 200 exactly when a stored Villa has that Id (and that Villa is the body), else 404 |
| `VillaAPI.VillaAPIController.CreateVilla` | MagicVilla_VillaAPI/Controllers/VillaAPIController.cs:57-97 | a null payload throws; a name taken ignoring case gives 400 "Villa already exists!"; an Id above 0 gives 500; Id 0 adds one row with the DTO's fields under the generated key; a negative Id is inserted under that Id, or throws when a row already has it; each 201 carries the DTO and its own id, which names the stored row whenever it is not 0. Only the inserts change the table; the status is always 201, 400 or 500, never 404 |
| `VillaAPI.VillaAPIController.DeleteVilla` | MagicVilla_VillaAPI/Controllers/VillaAPIController.cs:104-117 | a missing id gives 404 and changes nothing; a present id is removed with 204; every other row stays |
| `VillaAPI.VillaAPIController.UpdateVilla` | MagicVilla_VillaAPI/Controllers/VillaAPIController.cs:122-146 | a null payload or a path id other than the payload's gives 400 and changes nothing; otherwise the row built from the payload is written by the update rule (a stored id is replaced with 204), with no name check |
| `VillaAPI.VillaAPIController.UpdatePartialVilla` | MagicVilla_VillaAPI/Controllers/VillaAPIController.cs:151-194 | id 0, a null patch or a missing Villa give 400 and change nothing; otherwise the patched copy is written first and the answer is then 400 with the patch errors, or 204 |
| `VillaNumberAPI.APIResponse.constructor` | MagicVilla_VillaAPI/Controllers/VillaNumberController.cs:25 | a new envelope has every field at its default |
| `VillaNumberAPI.VillaNumberController.constructor` | MagicVilla_VillaAPI/Controllers/VillaNumberController.cs:20-26 | the controller gets its own new envelope and uses the given store |
| `VillaNumberAPI.VillaNumberController.Fail` | MagicVilla_VillaAPI/Controllers/VillaNumberController.cs:123-128 | the catch block sets `IsSuccess` to false and `ErrorMessages` to one message, leaves `StatusCode` and `Result` as they were, and returns the envelope |
| `VillaNumberAPI.ListedNumberIsKey` | MagicVilla_VillaAPI/Controllers/VillaNumberController.cs:36 | the i-th DTO of the listing is the DTO of the row under the i-th smallest VillaNo, and carries that VillaNo |
| `VillaNumberAPI.ListedNumbersAreStored` | MagicVilla_VillaAPI/Controllers/VillaNumberController.cs:36 | the listing has one DTO per row, and each DTO is the DTO of the row stored under its VillaNo |
| `VillaNumberAPI.ListedNumbersAscend` | MagicVilla_VillaAPI/Controllers/VillaNumberController.cs:36 | the listed DTOs come in strictly ascending VillaNo order |
| `VillaNumberAPI.StoredNumbersAreListed` | MagicVilla_VillaAPI/Controllers/VillaNumberController.cs:36 | the DTO of every stored VillaNumber is in the listing |
| `VillaNumberAPI.NumberListingListsTable` | MagicVilla_VillaAPI/Controllers/VillaNumberController.cs:36 | the DTO listing of a table keyed by VillaNo lists that table: the three facts above together |
| `VillaNumberAPI.VillaNumberController.GetVillaNumbers` | MagicVilla_VillaAPI/Controllers/VillaNumberController.cs:31-46 | 200 with envelope status OK and a result that holds the DTO of every stored VillaNumber once and nothing else, in ascending VillaNo order; `IsSuccess` and `ErrorMessages` stay as they were |
| `VillaNumberAPI.VillaNumberController.GetVillaNumber` | MagicVilla_VillaAPI/Controllers/VillaNumberController.cs:55-84 | id 0 gives 400 with envelope status BadRequest; no VillaNo equal to id gives 404 with status NotFound; otherwise 200 with that row's DTO. The table is only read |
| `VillaNumberAPI.VillaNumberController.CreateVillaNumber` | MagicVilla_VillaAPI/Controllers/VillaNumberController.cs:91-132 | a null payload lands in the catch block; an existing VillaNo gives 400 "Villa Number already exists!" before the VillaID is looked at; an unknown VillaID gives 400 "Villa ID is invalid"; otherwise exactly one row is added under its VillaNo with envelope status Created. 404 never happens, and references are kept resolving |
| `VillaNumberAPI.VillaNumberController.DeleteVillaNumber` | MagicVilla_VillaAPI/Controllers/VillaNumberController.cs:139-163 | a missing VillaNo gives 404 and changes nothing; a present one is removed and the response is sent with 200 while its envelope says 204 (NoContent), with `IsSuccess` true |
| `VillaNumberAPI.VillaNumberController.UpdateVillaNumber` | MagicVilla_VillaAPI/Controllers/VillaNumberController.cs:168-199 | a null payload or a mismatched id gives 400; an unknown VillaID gives 400 "Villa ID is invalid"; an unknown VillaNo fails in the update and lands in the catch block; otherwise the row is replaced with NoContent and `IsSuccess` true, and the response is sent with 200 while the envelope says 204. Only the last changes the table |
| `Scenarios.DeleteVillaTwice` | MagicVilla_VillaAPI/Controllers/VillaAPIController.cs:104-117 | a second DELETE of the same id is 404 |
| `Scenarios.GetVillaAfterDelete` | MagicVilla_VillaAPI/Controllers/VillaAPIController.cs:35-49 | GET after a successful DELETE of that id is 404 |
| `Scenarios.EmptyPatchKeepsVilla` | MagicVilla_VillaAPI/Controllers/VillaAPIController.cs:156-193 | an empty patch of a stored Villa gives 204 and leaves the table as it was |
| `Scenarios.DeleteVillaNumberTwice` | MagicVilla_VillaAPI/Controllers/VillaNumberController.cs:143-155 | a second DELETE of the same VillaNo is 404 |
| `Scenarios.SeasideRoundTrip` | MagicVilla_VillaAPI/Controllers/VillaAPIController.cs:63-116 | create "Seaside" gives 201 at id 0; create "seaside" gives 400; GET 1 returns the stored row; DELETE 1 gives 204; GET 1 then gives 404 |
| `Scenarios.NegativeIdIsKept` | MagicVilla_VillaAPI/Controllers/VillaAPIController.cs:76-95 | a create with id -1 gives 201 at -1 and the Villa is then found under -1; a second create with id -1 throws on the duplicate key |
| `Scenarios.UnknownVillaId` | MagicVilla_VillaAPI/Controllers/VillaNumberController.cs:104-108 | VillaNumber 101 for Villa 999 on an empty store gives 400 "Villa ID is invalid" and adds nothing |
| `Scenarios.DuplicateNumberReportedFirst` | MagicVilla_VillaAPI/Controllers/VillaNumberController.cs:95-108 | a taken VillaNo with an unknown VillaID is reported as "Villa Number already exists!" and leaves the table as it was |
| `Scenarios.OrphanedVillaNumber` | MagicVilla_VillaAPI/Controllers/VillaAPIController.cs:114-116 | after its Villa is deleted, a VillaNumber still refers to it |
| `Scenarios.UpdateSkipsNameCheck` | MagicVilla_VillaAPI/Controllers/VillaAPIController.cs:123-145 | renaming "Beta" to "ALPHA" beside "Alpha" gives 204 and leaves two names that are equal ignoring case |
| `Scenarios.PutWithUnsetIdInserts` | MagicVilla_VillaAPI/Controllers/VillaAPIController.cs:123-145 | PUT with id 0 and payload id 0 gives 204 and inserts a new Villa under the generated key |
| `Scenarios.InvalidPatchIsStored` | MagicVilla_VillaAPI/Controllers/VillaAPIController.cs:174-192 | a patch with errors gives 400, and its changed occupancy is stored anyway |
| `Scenarios.PatchedIdOverwritesOtherVilla` | MagicVilla_VillaAPI/Controllers/VillaAPIController.cs:174-187 | a patch that sets id 2 on Villa 1 overwrites Villa 2 with a copy of Villa 1 and leaves Villa 1 as it was |

## Left out

- Database engine, EF Core change tracking and `SaveChanges`: each write is one map update. Identity generation is a parameter: a positive key no stored row has.
- A new Villa's id being one above the current maximum: identity generation is database behaviour that the code does not show.
- Database failures other than an update that affects no row and an insert under a key already stored (connection loss, other constraint errors): these are environment behaviour. So the catch block of `GetVillaNumbers` and `GetVillaNumber` is never reached in the model.
- The ApplicationDbContext, the repositories, the AutoMapper profile, `APIResponse`, and the entity and DTO classes are not part of this model.
  - The entities and DTOs are assumed to have exactly the fields the controllers copy.
  - The mapper is assumed to copy same-named fields.
  - The VillaNumber key is assumed not to be generated by the database.
  - A new envelope is assumed to start at C# defaults (status 0, `IsSuccess` false, no messages, no result).
- Concurrency:
  - `async`/`Task` is not modelled;
  - the un-awaited `RemoveAsync` in `DeleteVillaNumber` is treated as completed;
  - the race between a uniqueness check and the insert is not modelled.
- A fresh controller per request: the envelope persists across the calls made on one controller object. The contracts state only what each call writes.
- Routing, attributes, `ProducesResponseType`, the route URL built by `CreatedAtRoute`, and the route templates without braces: framework plumbing. The result records only the route id.
- The framework's automatic 400 for a missing or invalid body under `[ApiController]`: model binding is framework behaviour. The actions are modelled as written.
- `Rate` is a `double`. It is kept as its 64-bit pattern and only copied.
- `ToLower` is culture-specific and may be translated to SQL by EF Core. The model folds ASCII letters only and compares the folded names as sequences, so the database's own comparison rules (collation, trailing-blank padding, under which "Seaside" and "Seaside " clash on SQL Server) are not modelled; `DifferentLengthsNeverClash` holds for the in-memory comparison only.
- The text of `ex.ToString()`: the message is the exception's type name; only the fact that there is exactly one message is relied on. A null payload dereferenced inside a query lambda (VillaAPIController.cs:63, VillaNumberController.cs:95) makes EF Core fail while it evaluates the captured parameter, and the exception it raises may wrap the `NullReferenceException` (for example in an `InvalidOperationException`). The model names the inner exception; the outcome (500, or the caught envelope) is the same either way.
- JSON Patch `ApplyTo`: a foreign library. A patch document is an uninterpreted function from a DTO to the patched DTO and the model-state errors it records.
- String properties that are null: names and details are never null in the model.
- 32-bit `int`: ids are only compared, never computed, so unbounded integers behave the same.
- `CreateVilla` / `Data.Database.AddVilla`: a negative client id is inserted under that key, as EF Core sends a set key to the database. A provider that refuses explicit values for an identity column (SQL Server with `IDENTITY_INSERT` off) would instead fail that insert with 500. The database provider is not part of this model.
- Deleting a Villa that VillaNumbers refer to: the model keeps those VillaNumbers, as the code at VillaAPIController.cs:114-115 touches only `Villas`. A foreign key with cascading delete in the schema would remove them too. The schema and the entity classes are not part of this model, so the model assumes no cascade.
- Listing order: `ToList()` and `GetAllAsync()` without ORDER BY promise no order. The model lists rows in ascending key order. The ascending order in the `GetVillas` and `GetVillaNumbers` contracts is a property of the model, not a promise of the code.
