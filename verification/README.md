# Agency dashboard entity store — a Dafny model

This project models the client-side core of a browser-local agency dashboard.

- **Data provider.** It holds four insertion-ordered collections: clients, tasks, posts and protocols.
  - It has ten mutations: add, update and delete for clients, tasks and posts, and add for protocols.
  - On mount it either loads one saved blob or seeds example data.
  - A write-back effect, gated on `isLoaded`, copies the four collections into the blob.
- **Session gate.** It holds a role (none, 'CEO' or 'TEAM'), logs in with one of two passphrases, logs out, and restores the role from the session slot on reload.
- **Views.** The dashboard, client desk, kanban board and knowledge vault each derive some data from the store:
  - case-insensitive searches;
  - comma-separated pillar parsing;
  - stat counts and the revenue sum;
  - the kanban partition by status;
  - the records the forms hand to the store;
  - what the CEO role unlocks.

The model is functional. Records are immutable datatypes and every step is a pure function:

- each mutation maps a `Snapshot` to a `Snapshot`;
- each effect maps a `World` (provider state plus storage slot) to a `World`;
- each session transition maps a `Gate` to a `Gate`.

Some inputs become parameters instead of being modelled:

- The id generator (`Math.random`) is a `freshId` argument. Uniqueness lemmas assume it is fresh in its collection.
- The clock (`new Date()`) is a `now` ISO-string argument.
- The `localStorage` blob is what `JSON.parse` makes of it: `Absent`, `Corrupt` or `Stored(Blob)`.
- The `sessionStorage` slot is an `Option<string>`.

Files:

| file | contents |
|---|---|
| `optional.dfy` | `Option` |
| `seqs.dfy` | `filter`, `slice(0, n)` and sum as Dafny functions, with their laws |
| `collection.dfy` | append, update-by-id and remove-by-id, written once for any record type |
| `text.dfy` | `toLowerCase`, `includes`, `split`, `trim` and `split('T')[0]` |
| `entities.dfy` | the four record kinds, the `Partial<T>` patches and the shallow merge |
| `store.dfy` | the ten mutations and the store laws |
| `provider.dfy` | the saved blob, the mount/seed effect, write-back, and runs of mutations |
| `auth.dfy` | the session gate |
| `command_center.dfy`, `client_os.dfy`, `fulfillment_os.dfy`, `knowledge_vault.dfy` | the views' derived data |

Three behaviours of the code are easy to miss, and the model keeps them as written:

- **Corrupt saved blob.** A blob that fails to parse is not recovered from. Nothing is seeded: the collections stay as they are (empty at mount), `isLoaded` still becomes true, and the write-back then stores the empty collections over the blob (`Provider.CorruptBlobIsOverwritten`).
- **Restored role.** Any non-empty slot value is accepted as the role, whether or not it names one (`Auth.RestoreIsUnvalidated`).
- **Seeding and tasks.** The seed branch never sets tasks. The in-memory tasks keep their value, and the blob written by the seed branch holds `tasks: []` (`Provider.Load`).

## Model

| member | source | states |
|---|---|---|
| Store.AddClient | context/data-context.tsx:168-175 | exactly one client is appended at the end; earlier clients and the other three collections are unchanged; the store sets `id` and `startDate` whatever the caller passed, and copies every other field |
| Store.UpdateClient | context/data-context.tsx:177-179 | length and order are kept; every client with the matching id becomes the patch merged over it; every other client is unchanged; the other collections are unchanged |
| Store.DeleteClient | context/data-context.tsx:181-183 | no remaining client carries the id; every client with another id survives; the result is an order-preserving subsequence; the other collections are unchanged |
| Store.AddTask | context/data-context.tsx:185-192 | one task is appended at the end; the store sets `id` and `createdAt`; the rest is copied; `clientId` is not checked against the clients |
| Store.UpdateTask | context/data-context.tsx:194-196 | the shallow merge applies to the matching tasks only, with length and order kept |
| Store.DeleteTask | context/data-context.tsx:198-200 | the tasks with another id are kept, in order, and no task with the id remains |
| Store.AddPost | context/data-context.tsx:202-208 | one post is appended; the store sets `id`; the rest is copied |
| Store.UpdatePost | context/data-context.tsx:210-212 | the shallow merge applies to the matching posts only, with length and order kept |
| Store.DeletePost | context/data-context.tsx:214-216 | the posts with another id are kept, in order, and no post with the id remains |
| Store.AddProtocol | context/data-context.tsx:218-225 | one protocol is appended; the store sets `id`, and `updatedAt` becomes the date part of the store's clock, overriding the caller's value |
| Store.DeleteCounts | context/data-context.tsx:181-216 | a delete keeps every record with another id exactly as often as it occurred, and none with the id |
| Store.AddsKeepWellKeyed | context/data-context.tsx:168-225 | ids stay unique in every collection under an add whose generated id is fresh in the collection it joins |
| Store.EditsKeepWellKeyed | context/data-context.tsx:177-216 | ids stay unique under an update of any id whose patch omits `id`, and under a delete of any id |
| Store.PatchedIdCanCollide | context/data-context.tsx:177-179 | a patch carrying `id` is merged like any other field and can leave two clients sharing one id |
| Store.DeleteLaws | context/data-context.tsx:181-216 | deleting an absent id is a no-op; deleting twice equals deleting once |
| Store.UpdateAbsentLaws | context/data-context.tsx:177-216 | updating an absent id is a no-op, including after the id's delete |
| Store.UpdateRepeatLaws | context/data-context.tsx:177-212 | repeating any update changes nothing more, including one whose patch renames the matched records |
| Store.DeleteUndoesAddClient | context/data-context.tsx:168-183 | adding a client with a fresh id and then deleting that id restores the snapshot |
| Store.DeleteUndoesAddTask | context/data-context.tsx:185-200 | adding a task with a fresh id and then deleting that id restores the snapshot |
| Store.DeleteUndoesAddPost | context/data-context.tsx:202-216 | adding a post with a fresh id and then deleting that id restores the snapshot |
| Store.DeleteErasesUpdate | context/data-context.tsx:177-216 | deleting an id after updating it (with a patch that omits `id`) gives the same store as deleting it directly |
| Store.UpdateAfterAdd | context/data-context.tsx:168-179 | create then update of the new id gives the earlier clients plus the patch merged over the stamped record |
| Entities.MergeClientLaws | context/data-context.tsx:177-179 | merging the empty patch over a client is the identity, and merging one patch twice equals merging it once |
| Entities.MergeTaskLaws | context/data-context.tsx:194-196 | the same two laws for the task merge |
| Entities.MergePostLaws | context/data-context.tsx:210-212 | the same two laws for the post merge |
| Provider.Hydrate | context/data-context.tsx:94-101 | an array present in the parsed blob loads unchanged, and a missing one loads as empty |
| Provider.Load | context/data-context.tsx:92-160 | `isLoaded` becomes true in every case; a parsed blob supplies the collections; a corrupt blob changes none; no blob seeds one client 'Quantum Growth', one post and protocols '1' and '2', keeps tasks, and writes the seed with `tasks: []` |
| Provider.WriteBack | context/data-context.tsx:162-166 | nothing is written while `isLoaded` is false; once it is true, the blob equals the four collections |
| Provider.Dispatch | context/data-context.tsx:162-225 | a mutation changes the collections as the store function says and, once loaded, leaves the blob in sync |
| Provider.LoadedStaysSynced | context/data-context.tsx:162-166 | once loaded, the blob mirrors the collections after any sequence of mutations |
| Provider.NoWriteBeforeLoad | context/data-context.tsx:162-166 | before loading, no sequence of mutations touches storage |
| Provider.MountSynced | context/data-context.tsx:92-166 | mounting over any storage slot ends loaded, with the blob in sync |
| Provider.ReloadRestores | context/data-context.tsx:92-166 | a reload after any session of mutations restores exactly the collections the session ended with |
| Provider.FirstLaunchSeeds | context/data-context.tsx:108-158 | with no blob: one client, no tasks, one post and two protocols, and the blob holds exactly these |
| Provider.CorruptBlobIsOverwritten | context/data-context.tsx:94-107 | a blob that fails to parse yields empty collections, no seed and `isLoaded` true, and is overwritten by the empty collections |
| Auth.Init | context/auth-context.tsx:20-28 | a non-empty slot value becomes the role without validation; otherwise the role is left alone; `isInitialized` becomes true |
| Auth.Login | context/auth-context.tsx:30-46 | accepted iff the passphrase is 'platinumceo' or 'platinumteam'; these set and save 'CEO' and 'TEAM' respectively; a refused login changes neither the role nor the slot |
| Auth.Logout | context/auth-context.tsx:48-51 | the role becomes null and the slot is removed |
| Auth.LoginSurvivesReload | context/auth-context.tsx:20-46 | after a successful login, a re-init in the same session restores the same role |
| Auth.LogoutSurvivesReload | context/auth-context.tsx:20-51 | after logout, a re-init restores no role |
| Auth.RestoreIsUnvalidated | context/auth-context.tsx:20-25 | any non-empty slot text becomes the role, and only exactly 'CEO' is privileged |
| CommandCenter.StatBounds | components/command-center.tsx:21-23 | active clients ≤ clients; critical alerts ≤ pending tasks ≤ tasks; pending plus Done tasks equals all tasks |
| CommandCenter.MrrIgnoresPatch | components/command-center.tsx:26 | an update whose patch leaves the contract value alone does not change monthly revenue |
| CommandCenter.MrrIgnoresStatusChange | components/command-center.tsx:26 | monthly revenue counts every client whatever its status: pausing, churning or re-activating a client leaves it unchanged |
| CommandCenter.MrrAfterAdd | components/command-center.tsx:26 | adding a client raises monthly revenue by exactly its contract value |
| CommandCenter.VisibleStats | components/command-center.tsx:28-78 | the three count cards are always shown, and the revenue card is shown iff the role is 'CEO' |
| CommandCenter.FirstFive | components/command-center.tsx:126-165 | the task table (line 126) and the health list (line 165) each show the first min(5, n) records, in store order |
| ClientOS.FilteredClients | components/client-os.tsx:28-31 | a client is kept iff its lower-cased name or contact name contains the lower-cased query; the result is an order-preserving subsequence |
| ClientOS.SearchCounts | components/client-os.tsx:28-31 | the search keeps each matching client exactly as often as it occurs, and no other |
| ClientOS.EmptySearchKeepsAll | components/client-os.tsx:28-31 | the empty query keeps every client, in order |
| ClientOS.SearchIgnoresCase | components/client-os.tsx:28-31 | a query and its lower-cased form keep the same clients |
| ClientOS.ParsePillars | components/client-os.tsx:49 | pillars are non-empty, comma-free and have no surrounding whitespace; they keep input order; every non-blank piece is kept |
| ClientOS.PillarCounts | components/client-os.tsx:49 | each non-blank trimmed piece appears among the pillars exactly as often as in the input, and blank pieces not at all |
| ClientOS.ClientFromForm | components/client-os.tsx:36-54 | a new client is 'Onboarding', 'Neutral', at 0% onboarding with empty notes, with the parsed pillars, and carries the form's name, tier, figures, contact details, niche, avatar and pain point |
| ClientOS.SubmitClientForm | components/client-os.tsx:33-57 | the stored client's `startDate` is the store's timestamp, not the form's date, and it keeps the new-client defaults |
| ClientOS.ViewClient | components/client-os.tsx:101-313 | revenue gate, LTV, contract value, e-mail, phone and 'Terminate Contract' are offered iff the role is 'CEO' |
| ClientOS.NonCeoSeesNoFinancials | components/client-os.tsx:101-313 | a TEAM login, or a restored role other than exactly 'CEO', sees no financial or contact field and cannot delete |
| FulfillmentOS.Column | components/fulfillment-os.tsx:66-67 | the column for status s holds exactly the tasks with status s, in store order |
| FulfillmentOS.ColumnCounts | components/fulfillment-os.tsx:67 | a column holds each task of its status exactly as often as the store does, and no other task |
| FulfillmentOS.ColumnsDisjoint | components/fulfillment-os.tsx:27-67 | each task is in the column of its own status and in no other |
| FulfillmentOS.ColumnsCoverAll | components/fulfillment-os.tsx:66-92 | the four displayed column counts add up to the number of tasks |
| FulfillmentOS.ChangeStatus | components/fulfillment-os.tsx:172-177 | selecting a status changes only the `status` of the matching tasks |
| FulfillmentOS.DropOnColumn | components/fulfillment-os.tsx:73-78 | a drop with an empty dragged id changes nothing; otherwise only `status` changes, to the column's |
| FulfillmentOS.CompleteTask | components/fulfillment-os.tsx:210-214 | 'Complete Task' sets the matching task's status to Done and changes no other field (`completedAt` included); other tasks and collections are unchanged |
| FulfillmentOS.CompleteTaskLaws | components/fulfillment-os.tsx:210-214 | completing never raises the pending count, and the task lands in the Done column |
| FulfillmentOS.TaskFromForm | components/fulfillment-os.tsx:29-46 | a new task has status Todo, stage 'Todo', no asset links and no completion date, and carries the form's client, name, phase, role, deadline, priority and notes |
| FulfillmentOS.NewTaskJoinsTodo | components/fulfillment-os.tsx:29-46 | a submitted task ends the Todo column, whatever client id it names |
| FulfillmentOS.TaskActions | components/fulfillment-os.tsx:209-229 | 'Complete Task' is always offered, and 'Delete' iff the role is 'CEO' |
| KnowledgeVault.FilteredProtocols | components/knowledge-vault.tsx:50-53 | a protocol is kept iff its lower-cased title or category contains the lower-cased query; the result is an order-preserving subsequence |
| KnowledgeVault.VaultSearchCounts | components/knowledge-vault.tsx:50-53 | the search keeps each matching protocol exactly as often as it occurs, and no other |
| KnowledgeVault.DocumentCount | components/knowledge-vault.tsx:99 | the displayed count never exceeds the number of protocols |
| KnowledgeVault.VaultEmptySearch | components/knowledge-vault.tsx:50-99 | the empty query keeps every protocol, so the displayed count is the number of protocols |
| KnowledgeVault.VaultSearchIgnoresCase | components/knowledge-vault.tsx:50-53 | a query and its lower-cased form keep the same protocols |
| KnowledgeVault.CategorySearchFindsCategory | components/knowledge-vault.tsx:50-53 | a query spelling a category's label in any letter case (such as 'legal') keeps every protocol of that category |
| KnowledgeVault.ProtocolFromForm | components/knowledge-vault.tsx:35-48 | the form's title, category, pillar and content are kept, dated with the form's clock |
| KnowledgeVault.SubmitProtocolForm | components/knowledge-vault.tsx:35-48 | the form-supplied `updatedAt` is overridden by the store's date when the protocol is added |
| Text.IncludesMeansOccurs | components/client-os.tsx:29-30 | `includes` holds iff the needle occurs at some position |
| Text.Trim | components/client-os.tsx:49 | `trim` returns the infix with no surrounding whitespace; everything cut off is whitespace |
| Text.JoinSplit | components/client-os.tsx:49 | joining the pieces of `split(',')` with ',' rebuilds the input |
| Text.DatePart | context/data-context.tsx:222 | `split('T')[0]` is the prefix of the timestamp before its first 'T' |

## Left out

- Browser storage and JSON. `localStorage`, `sessionStorage`, `JSON.stringify` and `JSON.parse` are I/O. The blob is modelled as already parsed.
  - An empty saved string is falsy, so it is folded into `Absent`.
  - Saved text `null` makes `parsed.clients` throw, so it is folded into `Corrupt`.
  - A property that is present but holds a non-array truthy value is not modelled.
- Storage write failures (quota exceeded, storage disabled) are not modelled.
- Other tabs writing the same `localStorage` key are not modelled; the last writer wins. `Provider.ReloadRestores` assumes this provider is the key's only writer.
- The `console.error` logged when the saved blob fails to parse (context/data-context.tsx:104) is dropped: it is output only.
- Id generation. The format and uniqueness of `Math.random().toString(36).substr(2, 9)` cannot be verified. The id is a parameter, and uniqueness lemmas require it to be fresh.
- Timestamps. `new Date()` is a parameter. The seed branch calls it four times and the model uses one value for all four.
- React scheduling. Effect scheduling, batching and re-render timing are not modelled. Each effect and each setter is one sequential step. `useData`/`useAuth` throwing outside their providers is provider wiring.
- Letter case. `toLowerCase` is modelled for ASCII letters only. Other characters are left unchanged.
- Money. `revenueGate`, `ltv` and `contractValue` are whole numbers rather than floating point. `Number()` coercion of form fields is not modelled: the forms' numbers arrive converted.
- Extra fields. The vault form passes an extra `assetLinks: []` that the spread carries into the stored protocol. The model's records have fixed fields, so it is not represented.
- Untyped patches. A JavaScript patch could also set a field to `undefined` or to a value outside its union type. The model's patches cannot.
- `totalLtv` (components/command-center.tsx:25) is computed but never displayed, so it is not modelled.
- Presentation. JSX rendering, Tailwind classes, animations, icons, `formatCurrency`/`formatDate`, and the selected-client/selected-task panel state are presentation only.
- Clipboard writes and their `setTimeout` resets (components/knowledge-vault.tsx:27-31) are foreign browser APIs and timers.
- Out-of-scope files. `components/content-calendar.tsx` renders hard-coded posts and ignores the store. The sidebar, main layout, auth screen and `app/` files are routing and provider wiring.
- KnowledgeVault.DocumentCount: states only the bound. That the count is the length of the filtered list is its definition, and `VaultEmptySearch` pins it for the empty query.
