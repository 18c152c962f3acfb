# Client tracker: a verified model of the folder and client store

The application keeps clients in folders. Each folder has an ordered list of
active clients and an ordered list of potential clients. The top-level component
holds the folder list and a set of selected client ids. Its handlers create and
delete folders, add, delete and promote clients, and toggle, clear and bulk-delete
a selection. Each folder card filters its two lists by a case-insensitive search
query. An analytics dashboard derives totals, a recent-clients list, a per-folder
breakdown, a conversion rate, an average and the most populated folder. Two dialogs
guard the text the store receives: a submit goes through only when the trimmed
fields are non-empty, hands on the trimmed values and resets the fields.

The model is organised in these modules:

- `Text`: `trim`, `toLowerCase` and `includes` over `seq<char>`.
- `Seqs`: `filter` and `find` on sequences, plus subsequence facts.
- `Records`: the `Client` and `Folder` shapes.
- `FolderOps`: the pure `map`/`filter`/`find` expressions inside each handler.
- `Invariants`: what "consistent" means for the store, and the proof that every
  handler keeps it. Creating a folder needs a fresh folder id and a trimmed
  non-empty name. Submitting a client needs a client id unused in the store and
  trimmed non-empty fields. The other handlers need nothing. Consistent means folder ids are unique, client ids are unique
  across the whole store, and every name and field is trimmed and non-empty.
- `Search`: the folder card's filter and counts.
- `Analytics`: the dashboard figures.
- `Forms`: the two dialogs, as classes whose fields change in place.
- `App`: the component state, as a class `ClientStore`. Each handler method states
  its new state through the `FolderOps` function it applies. It also states that
  consistency is kept whenever the ids it is given are fresh and the texts are
  trimmed and non-empty, as the dialogs hand them on. The two methods that submit
  a dialog into the store need only the fresh id, because the dialog trims and
  checks the texts itself.

Ids, timestamps and the answer to a confirmation prompt are parameters.

## Model

| member | source | states |
|---|---|---|
| Text.Trim | src/components/CreateFolderModal.tsx:19-20 | the result has no white space at either end, and it is empty exactly when the input is all white space |
| Text.TrimIsSlice | src/components/CreateFolderModal.tsx:20 | the trimmed string is a contiguous slice of the input, and everything cut from the two ends is white space |
| Text.TrimIdempotent | src/components/AddClientModal.tsx:29-31 | trimming twice is trimming once |
| Text.Lower | src/components/FolderCard.tsx:51 | same length; every ASCII capital is lowered and every other character is kept |
| Text.LowerIdempotent | src/components/FolderCard.tsx:51-56 | lowering twice is lowering once |
| Text.Contains | src/components/FolderCard.tsx:54-56 | true exactly when the substring occurs at some index of the string |
| Seqs.Filter | src/components/FolderCard.tsx:52 | the result is no longer than the input, and every kept element meets the predicate; how many copies survive is stated by Seqs.FilterCount |
| Seqs.FilterCount | src/components/FolderCard.tsx:52 | an element meeting the predicate survives as often as it occurs in the input, and an element failing it does not survive at all |
| Seqs.FilterMember | src/components/FolderCard.tsx:52 | an element is in the result exactly when it is in the input and meets the predicate |
| Seqs.FilterIsSubsequence | src/components/FolderCard.tsx:52 | the result is the input with some elements deleted and the rest in their original order |
| Seqs.FirstIndex | src/App.tsx:74 | gives the first index whose element meets the predicate, and None exactly when no element does |
| FolderOps.FindFolder | src/App.tsx:74 | none exactly when no folder has the id; otherwise the first folder with the id |
| FolderOps.CreateFolder | src/App.tsx:61-69 | exactly one folder is appended at the end, with the given id, name and time and two empty lists; the earlier folders are unchanged and in order |
| FolderOps.DeleteFolder | src/App.tsx:73-89 | an unknown id changes nothing; a folder with clients and a declined prompt changes nothing; otherwise no folder with the id remains, every other folder remains as often as it occurred, and the order is kept |
| FolderOps.UpdateFolders | src/App.tsx:111-119 | the map keeps the number of folders; what it does to each folder is stated by FolderOps.AddClient, FolderOps.DeleteClient and FolderOps.Promote |
| FolderOps.AppendClient | src/App.tsx:112-116 | the header is kept, the client becomes the last element of the chosen list, and the other list is unchanged |
| FolderOps.AddClient | src/App.tsx:110-121 | same number of folders; other folders unchanged; a matching folder keeps its header, gets the client as the last element of the chosen list, and its other list is unchanged |
| FolderOps.SubmitClient | src/App.tsx:97-121 | a no-op when no folder (or the empty id) or no list type is pending; otherwise the new client, built from the data, the id and the time, is appended as in AddClient |
| FolderOps.WithoutId | src/App.tsx:133 | no entry with the id remains, every entry with another id remains as often as it occurred, and the order is kept |
| FolderOps.DeleteClient | src/App.tsx:126-144 | only the named list of folders with the named id changes, and it loses exactly the entries with the client id; the other list, the header and all other folders are unchanged |
| FolderOps.PromoteIn | src/App.tsx:155-165 | the header is kept; a client id absent from the potential list leaves the folder unchanged |
| FolderOps.PromoteMovesFirstMatch | src/App.tsx:156-162 | the first potential client with the id is appended, unchanged, to the active list, and every potential entry with the id is dropped |
| FolderOps.Promote | src/App.tsx:152-167 | same number of folders; folders with other ids unchanged; the folder with the id is promoted as in PromoteIn |
| FolderOps.Toggle | src/App.tsx:170-178 | the toggled id's membership flips, and every other id's membership is kept |
| FolderOps.ToggleTwice | src/App.tsx:170-178 | toggling the same id twice restores the selection |
| FolderOps.WithoutSelectedList | src/App.tsx:194-195 | no selected id remains in the list, every unselected client remains as often as it occurred, and the order is kept |
| FolderOps.WithoutSelected | src/App.tsx:192-196 | the header is kept; each list loses its selected clients and keeps every copy of every unselected one, in order |
| FolderOps.DeleteSelected | src/App.tsx:180-197 | an empty selection or a declined prompt changes nothing; folder count, ids, names and order are kept; when confirmed, both lists of every folder lose exactly the selected clients, every unselected client keeps all its copies, and the survivors keep their order |
| FolderOps.PromoteThenBulkDelete | src/App.tsx:97-197 | a session end to end: after creating a folder, adding A as active and B as potential and promoting B, the folder holds the active list [A, B] and no potential clients; bulk-deleting the selection {A} then leaves the active list [B] |
| Invariants.PromoteMovesOne | src/App.tsx:156-161 | with the id held once in the potential list, the potential list shrinks by one, the active list grows by one, and no id is lost or gained |
| Invariants.CreateFolderKeepsConsistent | src/App.tsx:61-69 | a fresh folder id and a trimmed non-empty name keep the store consistent |
| Invariants.DeleteFolderKeepsConsistent | src/App.tsx:73-89 | deleting a folder keeps the store consistent |
| Invariants.DeleteFolderRemovesItsClients | src/App.tsx:76-86 | deleting a folder removes exactly that folder; every client id loses only the entries that folder held |
| Invariants.SubmitClientKeepsConsistent | src/App.tsx:97-121 | a client id unused anywhere in the store and trimmed non-empty fields keep the store consistent |
| Invariants.DeleteClientKeepsConsistent | src/App.tsx:126-144 | deleting a client keeps the store consistent |
| Invariants.PromoteKeepsConsistent | src/App.tsx:152-167 | promoting keeps the store consistent |
| Invariants.PromoteKeepsClients | src/App.tsx:152-167 | in a consistent store, promoting a potential client moves exactly one record, that very record, to the end of the active list, and every client id keeps its count |
| Invariants.DeleteSelectedKeepsConsistent | src/App.tsx:180-197 | bulk delete keeps the store consistent |
| Search.FilterClients | src/components/FolderCard.tsx:49-58 | an empty query returns the list itself; the result is a subsequence of the list; a client is kept exactly when it is in the list and the lowercased query occurs in one of its three lowercased fields, and a kept client keeps all its copies |
| Search.Matches | src/components/FolderCard.tsx:53-56 | the search predicate; its effect is stated by Search.FilterClients, Search.QueryCaseIrrelevant and Search.AcmeFound |
| Search.EmptyQueryKeepsEverything | src/components/FolderCard.tsx:50-57 | the early return for an empty query agrees with what the filter would return |
| Search.FilterClientsIdempotent | src/components/FolderCard.tsx:52-57 | filtering an already filtered list with the same query changes nothing |
| Search.QueryCaseIrrelevant | src/components/FolderCard.tsx:51 | a query and its lowercase form select the same clients |
| Search.FilterClientsShrinks | src/components/FolderCard.tsx:52 | the result is never longer than the input |
| Search.AcmeFound | src/components/FolderCard.tsx:51-54 | the query "acme" finds a client named "Acme Corp" |
| Search.ViewOf | src/components/FolderCard.tsx:47-61 | the header counts and the total count the unfiltered lists; each section shows its own list filtered with the same query; a section never shows more than its header count |
| Search.SectionsIndependent | src/components/FolderCard.tsx:60-61 | what one section shows does not depend on the other list |
| Records.ClientCount | src/components/FolderCard.tsx:47 | a folder's active plus potential clients; Analytics.TotalIsSumOfCounts relates it to the dashboard total |
| Analytics.AllActive | src/components/AnalyticsDashboard.tsx:30 | the active lists of all folders, concatenated in folder order; stated by Analytics.AllActiveMember and Analytics.ActiveIsSumOfLists |
| Analytics.AllPotential | src/components/AnalyticsDashboard.tsx:31 | the potential lists of all folders, concatenated in folder order; stated by Analytics.AllPotentialMember and Analytics.PotentialIsSumOfLists |
| Analytics.TotalClients | src/components/AnalyticsDashboard.tsx:32 | active plus potential clients; stated by Analytics.TotalIsSumOfCounts |
| Analytics.ActiveIsSumOfLists | src/components/AnalyticsDashboard.tsx:30 | the number of active clients is the sum over folders of each active list's size |
| Analytics.PotentialIsSumOfLists | src/components/AnalyticsDashboard.tsx:31 | the number of potential clients is the sum over folders of each potential list's size |
| Analytics.TotalIsSumOfCounts | src/components/AnalyticsDashboard.tsx:30-32 | the dashboard total equals the sum over folders of each folder's client count |
| Analytics.AllActiveMember | src/components/AnalyticsDashboard.tsx:30 | a client is among all active clients exactly when some folder lists it as active |
| Analytics.AllPotentialMember | src/components/AnalyticsDashboard.tsx:31 | a client is among all potential clients exactly when some folder lists it as potential |
| Analytics.Distribution | src/components/AnalyticsDashboard.tsx:40-43 | two bars: "Active" holding the number of active clients, the sum of the folders' active list sizes, then "Potential" holding the same for potential clients; together they add up to the total |
| Analytics.ChartLabel | src/components/AnalyticsDashboard.tsx:47 | a label is at most 18 characters; a name of at most 15 is kept; a longer name becomes its first 15 characters followed by "..." |
| Analytics.ChartLabelIdempotent | src/components/AnalyticsDashboard.tsx:47 | shortening a label again changes nothing |
| Analytics.Breakdown | src/components/AnalyticsDashboard.tsx:46-50 | one row per folder, in folder order, with the folder's label and the sizes of its two lists |
| Analytics.BreakdownAccountsForAll | src/components/AnalyticsDashboard.tsx:46-50 | the rows together account for every client exactly once |
| Analytics.RoundedQuotient | src/components/AnalyticsDashboard.tsx:264 | the result is the integer nearest to a / b, with halves rounded up |
| Analytics.QuotientAtMost | src/components/AnalyticsDashboard.tsx:264 | rounding keeps a quotient within any bound that the exact quotient respects |
| Analytics.ConversionRate | src/components/AnalyticsDashboard.tsx:264 | 0 without clients; otherwise the nearest integer to 100 · active / total, and never above 100 |
| Analytics.AveragePerFolder | src/components/AnalyticsDashboard.tsx:276 | 0 without folders; otherwise the nearest integer to total / folder count |
| Analytics.LargestFrom | src/components/AnalyticsDashboard.tsx:289-292 | the reduce ends on a folder at least as full as every folder it visited, and strictly fuller than every earlier visited folder it passed over |
| Analytics.MostPopulated | src/components/AnalyticsDashboard.tsx:288-293 | none exactly when there are no folders; otherwise the first folder whose client count is the maximum |
| Analytics.MostPopulatedName | src/components/AnalyticsDashboard.tsx:288-293 | "N/A" without folders; otherwise the name of one of the folders |
| Analytics.TieGoesToFirst | src/components/AnalyticsDashboard.tsx:289-292 | with 3, 5 and 5 clients, the second folder is named |
| Analytics.InsertNewest | src/components/AnalyticsDashboard.tsx:36 | one insertion step of the sort; stated by Analytics.InsertNewestAddsOne, Analytics.InsertNewestKeepsOrder and Analytics.InsertNewestStable |
| Analytics.InsertNewestAddsOne | src/components/AnalyticsDashboard.tsx:36 | an insertion adds exactly the inserted client |
| Analytics.InsertNewestKeepsOrder | src/components/AnalyticsDashboard.tsx:36 | inserting into a newest-first list keeps it newest first |
| Analytics.InsertNewestStable | src/components/AnalyticsDashboard.tsx:36 | clients with equal timestamps keep their relative order through an insertion |
| Analytics.SortNewest | src/components/AnalyticsDashboard.tsx:36 | the stable sort by newest first; stated by Analytics.SortNewestCorrect |
| Analytics.SortNewestCorrect | src/components/AnalyticsDashboard.tsx:35-36 | the sort puts the newest first, loses and invents nothing, and keeps clients with equal timestamps in their original order |
| Analytics.AllClients | src/components/AnalyticsDashboard.tsx:35 | all active clients followed by all potential clients; used by Analytics.Recent |
| Analytics.Recent | src/components/AnalyticsDashboard.tsx:35-37 | min(5, total) clients, newest first, all taken from the folders; no client left out, and no copy of a client left out, is newer than one listed; among equal timestamps, the listed clients are the first ones in concatenation order (active before potential, then folder order) |
| Forms.FolderNameToSubmit | src/components/CreateFolderModal.tsx:19-20 | nothing is handed on exactly when the name is all white space; what is handed on is trimmed and non-empty |
| Forms.SubmittedNameIsTyped | src/components/CreateFolderModal.tsx:20 | the name handed on is the typed name with white space cut from its two ends only |
| Forms.SubmittedNameIsStable | src/components/CreateFolderModal.tsx:19-20 | submitting the handed-on name again would hand on the same name |
| Forms.CreateFolderForm.constructor | src/components/CreateFolderModal.tsx:15 | the name starts empty |
| Forms.CreateFolderForm.Edit | src/components/CreateFolderModal.tsx:43 | the field holds the new value |
| Forms.CreateFolderForm.SubmitDisabled | src/components/CreateFolderModal.tsx:61 | the button is disabled exactly when a submit would be ignored |
| Forms.CreateFolderForm.Submit | src/components/CreateFolderModal.tsx:17-24 | a blank name changes nothing and hands nothing on; otherwise the trimmed name is handed on and the field is reset |
| Forms.ClientInputToSubmit | src/components/AddClientModal.tsx:27-32 | nothing is handed on exactly when some field is all white space; otherwise the three trimmed fields are handed on, each non-empty and trimmed |
| Forms.SubmittedInputIsStable | src/components/AddClientModal.tsx:27-32 | submitting the handed-on fields again would hand on the same fields |
| Forms.AddClientForm.constructor | src/components/AddClientModal.tsx:21-23 | all three fields start empty |
| Forms.AddClientForm.EditBusinessName | src/components/AddClientModal.tsx:54 | the field holds the new value |
| Forms.AddClientForm.EditContactDetails | src/components/AddClientModal.tsx:65 | the field holds the new value |
| Forms.AddClientForm.EditProblemDescription | src/components/AddClientModal.tsx:75 | the field holds the new value |
| Forms.AddClientForm.SubmitDisabled | src/components/AddClientModal.tsx:92 | the button is disabled exactly when a submit would be ignored |
| Forms.AddClientForm.Submit | src/components/AddClientModal.tsx:25-38 | a blank field changes nothing and hands nothing on; otherwise the trimmed fields are handed on and all three fields are reset |
| App.ClientStore.constructor | src/App.tsx:34-41 | no folders, nothing selected or pending, both dialogs closed; the empty store is consistent |
| App.ClientStore.OpenCreateFolder | src/App.tsx:227 | the create-folder dialog is open |
| App.ClientStore.CloseCreateFolder | src/App.tsx:307 | the create-folder dialog is closed |
| App.ClientStore.HandleCreateFolder | src/App.tsx:61-71 | the folders become CreateFolder of the old folders; consistency is kept for a fresh id and a trimmed non-empty name |
| App.ClientStore.HandleDeleteFolder | src/App.tsx:73-89 | the folders become DeleteFolder of the old folders; consistency is kept |
| App.ClientStore.HandleAddClient | src/App.tsx:91-95 | the folder and list become pending and the add-client dialog opens |
| App.ClientStore.HandleSubmitClient | src/App.tsx:97-124 | the folders become SubmitClient for the pending folder and list; consistency is kept for a client id unused in the store and validated fields |
| App.ClientStore.CloseAddClient | src/App.tsx:313-317 | the dialog closes and the pending folder and list are cleared |
| App.ClientStore.HandleDeleteClient | src/App.tsx:126-150 | the folders become DeleteClient of the old folders; the client id leaves the selection and nothing else does; consistency is kept |
| App.ClientStore.HandlePromoteClient | src/App.tsx:152-168 | the folders become Promote of the old folders; consistency is kept |
| App.ClientStore.HandleToggleClientSelection | src/App.tsx:170-178 | the selection becomes Toggle of the old selection |
| App.ClientStore.HandleClearSelection | src/App.tsx:203-205 | the selection is empty |
| App.ClientStore.HandleDeleteSelected | src/App.tsx:180-201 | the folders become DeleteSelected of the old folders and the old selection; a confirmed delete of a non-empty selection empties it, otherwise it is kept; consistency is kept |
| App.ClientStore.SubmitCreateFolderDialog | src/App.tsx:305-309 | a blank name changes nothing; otherwise the trimmed name becomes a new folder, the field is reset and the dialog closes; consistency is kept for a fresh folder id |
| App.ClientStore.SubmitAddClientDialog | src/App.tsx:311-318 | a blank field changes nothing; otherwise the trimmed fields go to the pending folder and list, the fields are reset, and the dialog closes and forgets its target; consistency is kept for a client id unused in the store |

## Left out

- Persistence: loading from and saving to `localStorage` through `JSON.parse` and
  `JSON.stringify` (src/App.tsx:44-59) is browser I/O. The model starts from an
  empty store.
- Id and timestamp generation: `Date.now()` and `Math.random()` (src/App.tsx:63,
  67, 105-106) are parameters. Freshness is an assumption of the consistency
  results, because the source does not check it. Two folders created in the same
  millisecond get the same `Date.now().toString()` id. Consistency then fails, and
  `DeleteFolder` removes both folders.
- `window.confirm` is a boolean parameter. It is consulted only where the source
  asks: a folder holding clients, or a non-empty selection. Toasts are dropped.
- The add-client dialog's title, which names the pending folder and list
  (src/App.tsx:211, 319-320), is display text.
- The search query and analytics view switches (src/App.tsx:35, 40, 207-209, 217)
  only select what is rendered. The query is an argument of `Search.ViewOf`.
- Search highlighting and clipboard copying in the client card are left out. The
  highlighting builds a regular expression from the query. The copy is I/O.
- Text.Lower: lowers ASCII letters only, where `toLowerCase` applies the full
  Unicode case mapping.
- Text.Trim uses the ECMAScript white space and line terminator set. Strings are
  sequences of characters, not UTF-16 code units. So `substring(0, 15)` in
  Analytics.ChartLabel counts characters, not code units.
- Analytics.ConversionRate: computes `Math.round` exactly on integers, where the
  source rounds the floating-point product `(active / total) * 100`, and the two
  can differ. For 23 active clients out of 40, the source evaluates
  `(23 / 40) * 100` to slightly less than 57.5 and shows 57, where the model
  gives 58. Analytics.AveragePerFolder rounds a single division of integers,
  which never lands within rounding error of a half without being exactly a
  half, so there the exact model agrees with the source.
- Analytics.MostPopulatedName: states only that the name is one of the folders'
  names. The full contract is on Analytics.MostPopulated, which gives the index.
- Animation, charts, expand and collapse toggles, and the presentation-only
  components (header, search bar, bulk action bar, the unused legacy folder and
  section views) are not part of this model.
