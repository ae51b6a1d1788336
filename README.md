# Factory-floor backend: request-level state machine

This project models the core of a textile factory's backend. The backend
tracks production machines on two floor layouts ("16_fusos" and "32_fusos"),
the work orders placed on them, maintenance windows, bobbin lots ("espulas")
and the users who operate the system. Most route handlers look a document
up and check a role or a status. They then either reject the request with
403, 404 or 400 or write new status values into one or two collections.
The exceptions are the lot creation, which inserts a new lot with no check;
the lot listing, which only reads; and the reset routine, which empties
every collection but users and recreates the machines.

The model is a `Store` class (module `Server`) whose fields are the
collections, each a map from a document's `id` to the document. Each handler
is one method that runs as a single atomic step. Its contract states:

- exactly when it succeeds;
- which error each failed check raises;
- that a rejection changes nothing;
- the exact new contents of every collection it writes.

The invariant `Store.Valid` holds across all handlers. It requires that:

- every document is stored under its own id;
- machines only ever hold one of the five colours ("verde", "amarelo", "vermelho", "azul", "desativada");
- orders and maintenance windows hold one of their literal statuses;
- orders and windows name an existing machine;
- usernames are unique.

The handlers are modelled as written, including their weak points:

- `update_order` chooses the machine's new colour from the requested status alone. `Server.TargetColor` is that choice.
- Neither `update_order` nor `finish_maintenance` looks at the other orders or windows on the machine.
- Toggling a machine off and on again always brings it back green.

Module `Scenarios` runs request sequences through the handlers and proves
where these rules lead. For example, reopening a finished order and
finishing it again turns its machine green while another order on it is
still pending.

The other modules:

- `Records` holds the documents, the status literals and the request bodies.
- `Espulas` holds the bobbin-lot status update: the `$set` patch it builds, and what any series of updates leaves in the lot's timestamps.
- `DueOrder` holds the string order that the lot listing is sorted by, and the insertion step used to build that listing.
- `Layout` holds the two machine tables of the reset routine and the machines one layout loop creates.
- `Serialization` holds the document serialisation helpers.

Values the code obtains from its environment are parameters of the model:

- the clock: one instant `now` per request;
- fresh uuids: document ids, which must be new;
- the 8-character uuid suffixes of machine ids;
- the salted password hashes: each new account comes with its hash;
- the two renderings of a timestamp (ISO text and plain string).

## Model

| member | source | states |
|---|---|---|
| Server.TargetColor | backend/server.py:614-623 | The colour update_order writes is one of the five machine colours and never "azul" or "desativada". It is "vermelho" exactly when "em_producao" was requested, "verde" exactly when "finalizado" was requested, and "amarelo" exactly for any other string. |
| Server.Store.constructor | MercoTextil-main/backend/server.py:742-746 | An empty store, the database before the startup hook's first reset, satisfies the store invariant. |
| Server.NewOrder | backend/server.py:129-145 | A new order takes the record's defaults: "pendente", created at the request's instant, no start or finish stamp, empty release note and final report. It copies the machine's code and layout and every request field. |
| Server.NewMaintenance | backend/server.py:114-123 | A new window takes the record's defaults: "em_manutencao", created at the request's instant, no finish stamp and no finisher. It copies the machine's code and the reason. |
| Server.NewEspula | MercoTextil-main/backend/server.py:160-176 | A new lot takes the record's defaults: "pendente", launched, created and updated at the request's instant, with neither history stamp. It copies every request field. |
| Server.NewUser | MercoTextil-main/backend/server.py:83-89 | A new user is active by default, created at the request's instant, and holds the supplied password hash. |
| Layout.NewMachine | backend/server.py:105-112 | A recreated machine carries its slot's code and position and its layout, and takes the record's defaults: "verde", active, stamped at the request's instant. |
| Server.OrderAfterUpdate | backend/server.py:610-625 | The `$set` of update_order always overwrites both notes. "em_producao" also sets the status and `started_at`; "finalizado" sets the status and `finished_at`; any other string leaves status and stamps alone. The status stays one of the three literals, and no other field changes. |
| Espulas.EspulaAfterUpdate | MercoTextil-main/backend/server.py:671-678 | One status request stores the requested status and refreshes `updated_at`. `iniciado_em` changes exactly on the first "em_producao_aguardando" and never once set. `finalizado_em` is renewed on every "finalizado". No other field changes. |
| Server.Store.CreateOrder | backend/server.py:557-590 | Succeeds iff the role is admin or operador_interno, the machine exists and it is "verde". Otherwise: 403 for the role, 404 for an unknown machine, 400 for a machine that is not green, with orders and machines unchanged. On success exactly one "pendente" order is added, copying the machine's code and layout; only that machine changes, to "amarelo"; the invariant is kept. |
| Server.Store.UpdateOrder | backend/server.py:597-633 | Succeeds iff the role is admin or operador_externo and the order exists; 403 or 404 otherwise, with nothing changed. On success the order becomes OrderAfterUpdate of itself and the request. The current status is not checked, so a finished order can be reopened. Only this order and its machine change; the machine takes TargetColor of the requested status. |
| Server.Store.CreateMaintenance | backend/server.py:462-487 | Any caller. Unknown machine gives 404 and a non-green machine 400, with nothing changed. Otherwise one "em_manutencao" window is inserted and only that machine changes, to "azul". |
| Server.Store.FinishMaintenance | backend/server.py:494-521 | Unknown window gives 404 and an already "finalizada" window 400, with nothing changed. Otherwise the window becomes "finalizada" with `finished_at` and `finished_by` set, and its machine becomes "verde" whatever else is pending on it. |
| Server.Store.ToggleMachineActive | MercoTextil-main/backend/server.py:523-554 | Non-admin gives 403 and an unknown machine 404, with nothing changed. Otherwise `active` flips (a missing field reads as true). The colour becomes "desativada" on deactivation and "verde" on reactivation, whatever it was. The reply carries the id, the new flag and the new colour. |
| Server.Store.CreateEspula | MercoTextil-main/backend/server.py:635-653 | Inserts exactly one new lot, "pendente" and without start or finish stamps; no other collection changes. |
| Server.Store.UpdateEspula | MercoTextil-main/backend/server.py:661-680 | An unknown lot gives 404 with nothing changed. Otherwise the requested status is stored verbatim with no transition check, `updated_at` is refreshed, `iniciado_em` is stamped only on the first "em_producao_aguardando", and `finalizado_em` is stamped on every "finalizado". |
| Espulas.BuildPatch | MercoTextil-main/backend/server.py:671-676 | The patch built key by key, once applied, gives exactly the lot that one status request describes. It always carries the status and `updated_at`, and never both history stamps. |
| Espulas.FirstStartSurvives | MercoTextil-main/backend/server.py:673-674 | After any series of status requests, `iniciado_em` is the lot's original stamp if it had one, else the instant of the first "em_producao_aguardando" request. |
| Espulas.AfterRequestsAppend | MercoTextil-main/backend/server.py:661-680 | Applying a series of requests and then one more is the same as applying the whole series in order. |
| Espulas.FinishStampIsLatest | MercoTextil-main/backend/server.py:675-676 | After any series of requests, `finalizado_em` is the instant of the last "finalizado" request, or the original stamp if there was none. |
| Espulas.LastRequestWins | MercoTextil-main/backend/server.py:671-678 | After a non-empty series, the lot holds the last requested status and instant, and none of its descriptive fields has changed. |
| Server.Store.GetEspulas | MercoTextil-main/backend/server.py:655-659 | The result is sorted ascending by due date and holds each lot at most once. Every entry is a stored lot that is not "finalizado". Its length is the number of such lots, capped at 1000. A lot left out of a full page is due no earlier than every lot on it. |
| DueOrder.StrLeReflexive | MercoTextil-main/backend/server.py:658 | The string order used for due dates is reflexive. |
| DueOrder.StrLeTotal | MercoTextil-main/backend/server.py:658 | Any two due-date strings are comparable. |
| DueOrder.StrLeTransitive | MercoTextil-main/backend/server.py:658 | The string order is transitive. |
| DueOrder.StrLeAntisymmetric | MercoTextil-main/backend/server.py:658 | Two strings each at most the other are equal. |
| DueOrder.InsertionPoint | MercoTextil-main/backend/server.py:658 | In a sorted list, the insertion point of a lot lies after every lot due no later and before every lot due no earlier. |
| DueOrder.InsertKeepsSorted | MercoTextil-main/backend/server.py:658 | Inserting a lot at such a point keeps the list sorted by due date. |
| DueOrder.InsertKeepsIds | MercoTextil-main/backend/server.py:658 | Inserting a lot with a new id keeps the ids distinct, adds exactly that id, and brings in no other lot. |
| DueOrder.DistinctIdsCard | MercoTextil-main/backend/server.py:658 | A list with distinct ids has as many ids as entries, so the listing's length counts lots. |
| Server.FirstPage | MercoTextil-main/backend/server.py:658 | The first n lots of a sorted, duplicate-free list are sorted and duplicate-free. Every lot cut off is due no earlier than every lot kept. |
| Server.Store.CreateUser | MercoTextil-main/backend/server.py:412-430 | Succeeds iff the caller is admin and the username is unused. Otherwise 403 for the role and 400 for a taken username, with users unchanged. On success exactly one active user is added, storing the hash supplied with it. |
| Server.Store.DeleteUser | MercoTextil-main/backend/server.py:440-453 | Succeeds iff the caller is admin, the id is not the caller's own and the user exists. Otherwise: 403 for the role, then 400 for self-deletion (checked before existence), then 404. On success exactly that user is removed. |
| Server.Store.EnsureDefaultUser | MercoTextil-main/backend/server.py:240-249 | One "create unless the username exists" step of the reset routine. It keeps the user invariant. |
| Server.WithDefaultUserKeeps | MercoTextil-main/backend/server.py:240-271 | Such a step keeps every existing user and every username already present, and leaves the default username present. |
| Server.DefaultUsersPresent | MercoTextil-main/backend/server.py:239-271 | After the three steps, every earlier user is still there unchanged, and "admin", "interno" and "externo" all exist. |
| Server.Store.ResetUsers | MercoTextil-main/backend/server.py:239-271 | The three steps in order. Earlier users are kept and the three default usernames exist. |
| Server.Store.AddLayout | MercoTextil-main/backend/server.py:322-330 | The layout loop adds, on top of the existing machines, exactly the machines built from the table slot by slot. |
| Layout.LayoutMachinesIds | MercoTextil-main/backend/server.py:322-330 | Every machine the loop creates sits under the id built for one of the table's slots. |
| Layout.LayoutMachinesFresh | MercoTextil-main/backend/server.py:322-330 | Every machine the loop creates is under its own id, "verde", active, in the loop's layout, stamped now, and its id starts with the layout name. |
| Layout.LayoutMachinesCard | MercoTextil-main/backend/server.py:322-330 | With distinct ids, the loop creates as many machines as the table has slots. |
| Layout.LayoutMachinesSlots | MercoTextil-main/backend/server.py:322-330 | With distinct ids, every slot gets its machine, with the slot's code and position. |
| Layout.MachineIdPrefix | MercoTextil-main/backend/server.py:329 | A machine id is longer than its layout name and starts with it. |
| Server.LayoutsDisjoint | MercoTextil-main/backend/server.py:329 | The two loops never produce the same id, because each id starts with its own layout name. |
| Server.GroupsOfUnion | MercoTextil-main/backend/server.py:322-383 | Joining the machines of two layouts with no common id adds their counts. Each layout's machines are exactly those from its own loop. |
| Server.FloorFresh | MercoTextil-main/backend/server.py:322-383 | Whatever the tables and suffixes, every machine of the recreated floor is stored under its own id, "verde" and active. |
| Server.FloorShape | MercoTextil-main/backend/server.py:274-383 | With distinct ids within each table, the floor has one machine per slot of either table: as many "16_fusos" machines as the first table has slots and as many "32_fusos" machines as the second. |
| Server.Store.RecreateFloor | MercoTextil-main/backend/server.py:322-383 | Both loops on an emptied machine collection leave exactly the two layouts' machines. |
| Server.Store.InitData | MercoTextil-main/backend/server.py:231-383 | Orders, lots, windows and history are emptied. Users are kept and the three defaults exist. The machines are exactly those the two layout loops create, all "verde" and active. The invariant holds. |
| Server.Store.ResetDatabase | MercoTextil-main/backend/server.py:385-391 | Succeeds iff the caller is admin. Otherwise it gives 403 and nothing changes. On success the work collections are empty, the three default accounts are ensured, and the machines are exactly the ones the two layout loops create over the two tables: 119 machines: 52 of "16_fusos" and 67 of "32_fusos", all "verde" and active. |
| Serialization.SerializeDoc | MercoTextil-main/backend/server.py:60-74 | A missing document stays missing. Otherwise the keys are kept, no timestamp is left at the top level, `_id` becomes its string form, and every other value that is not a timestamp is unchanged. |
| Serialization.SerializeDocs | MercoTextil-main/backend/server.py:76-80 | No list gives the empty list. Otherwise the length and order are kept and each document is serialised in place of itself. |
| Serialization.SerializedIdempotent | MercoTextil-main/backend/server.py:60-74 | Serialising an already serialised document changes nothing. |
| Scenarios.OneMachineStore | backend/server.py:105-112 | A store holding one green machine satisfies the invariant. |
| Scenarios.ReopenedFinishGreensBusyMachine | backend/server.py:597-633 | Sequence: order a is finished, order b is created, a is reopened to "em_producao" and finished again. The machine ends "verde" while b is still "pendente", and a third order on it is accepted. |
| Scenarios.FinishIgnoresOtherOrders | backend/server.py:614-631 | In any store, finishing an order turns its machine "verde" and leaves a pending order on the same machine untouched. |
| Scenarios.ToggleTwiceRestoresActive | MercoTextil-main/backend/server.py:527-553 | In any store, two toggles by an admin restore the machine's `active` flag (a missing flag comes back as true). The machine ends "verde" if it started active and "desativada" otherwise, whatever its colour was; its code, position and layout are unchanged. |
| Scenarios.UnknownStatusYellowsRunningMachine | backend/server.py:614-631 | Requesting an unknown status for an order in production turns its machine "amarelo" while the order stays "em_producao". |
| Scenarios.FinishGreensDeactivatedMachine | backend/server.py:494-521 | A machine deactivated during a maintenance window ends "verde" yet inactive when the window is closed. |
| Scenarios.ToggleTwiceForgetsPendingOrder | MercoTextil-main/backend/server.py:523-554 | Deactivating and reactivating a yellow machine that has a pending order brings it back "verde" and active, with the order still "pendente". |

## Left out

- Authentication, JWT tokens and bcrypt: the caller is an input, and the salted hashes bcrypt would produce are inputs.
- The clock and timezone helpers: each request receives one instant `now`. Where the code reads the clock twice in one request (the order stamp and the machine stamp, for example), the model uses the same instant for both.
- Database and web-framework wiring, CORS, logging, and the startup and shutdown hooks: I/O plumbing. The startup hook runs the reset routine when the machine collection is empty; the routine itself is InitData.
- The report endpoints: read-and-format code over library types.
- Concurrency: each request is one atomic step, though the code awaits between its read and its writes. Interleavings are not modelled.
- Login, the current-user endpoint, and the plain listings of users, machines, orders and maintenance windows: these are reads with no state change.
- StatusHistory: no handler appends to it. It is emptied by the reset routine and otherwise never changes.
- Server.Store.CreateEspula: does not model the 400 raised when building or inserting the lot throws, because that is a library failure with no condition visible in this code.
- Server.Store.CreateUser: the returned user carries the password hash. The code stores the hash only in the inserted document and returns the user object without it.
- Fresh ids: uuid uniqueness is assumed, as a requirement that every new id is absent from its collection.
- Server.Store.ResetDatabase: takes the distinctness of the machine ids within each table as a requirement on the 8-character suffixes. The code guarantees it for any suffixes, because each table's codes are pairwise distinct and contain no `_`; that fact about the two literal tables is not proved here.
- Serialization.SerializeDoc: returns a new map rather than rewriting the caller's dictionary in place, so aliasing of the argument is not modelled. Nested documents and lists inside a document are not rewritten, as in the code.
- The endpoints for production-order numbers, temporary saves and finalising with machines: the server does not have them, and some tests expect them. The tests' expected machine colours around them contradict `update_order` (backend/server.py:614-623); the model follows the code.
- The React frontend: display only.
