# Notes app core: filtering, tag editing, saving and profile bookkeeping

This project models the client-side bookkeeping of a notes application whose
React components keep notes, tags and a per-user profile in sync with a
hosted backend, and proves properties of that model in Dafny.

- **Dashboard** (`dashboard.dfy`):
  - The search and tag filter, the tag facets and their counts, as functions with lemmas.
  - A `DashboardState` class holding `notes`, `loading`, `searchTerm` and `selectedTag`.
  - `LoadNotes`, and the delete flow with its counter write, `max(0, notes_count - 1)`, and the list reload.
- **Note editor** (`note_editor.dfy`):
  - Tag normalisation, commit and removal as functions.
  - An `Editor` class holding `title`, `content`, `tags`, `tagInput`, `saving` and `generating`.
  - The open/reset effect, `handleAddTag`, `removeTag`, `handleSave` (proved against the specification function `SaveResult`) and the premium-only summary gate.
- **Authentication context** (`auth_context.dfy`):
  - An `AuthProvider` class holding `user`, `session`, `profile` and `loading`.
  - `loadProfile` with its create-on-error fallback, `createProfile`, the initial-session and auth-change handlers, `signUp`, `signOut`.
  - The three payment subscription calls, with their guard and error order.
- **Note card** (`note_card.dfy`): the 150-character preview, the `Untitled Note` and `No content` fallbacks, and the delete dispatch. The edit dispatch hands the note on unchanged; `Scenarios.EditThenSave` follows it into the editor.
- **Records** (`records.dfy`): the user, session, profile and note rows, the cached note count, and the counter write.
- **Common** (`common.dfy`): ASCII `trim`, `toLowerCase` and `includes`, plus sequence predicates.
- **Scenarios** (`scenarios.dfy`): flows that cross components, and small worked examples.

Every backend answer is a parameter of the step that awaits it: a query result, an insert error, an HTTP response. The model covers every answer the parameter can take. The requests a step would send are returned as values: the note write, the counter write, the payment request.

The `user` that `loadProfile` reads is the value captured by the render whose closure runs. It is a separate parameter, `renderUser`. The session effect is registered once, so its closure sees the first render's `user`, which is null. `FirstRenderReloadNeverCreates` shows what follows: a failed lookup through that closure never creates a profile.

Some behaviours of the code differ from what its own comments suggest, and the model follows the code:
- The comment at `src/contexts/AuthContext.tsx:92` says a missing profile is created. The code creates one only when the captured `user` has both an email and a full name. Through the session handler that never happens, because its closure sees the first render's null `user`.
- The comments "Update note count" (`src/components/dashboard/Dashboard.tsx:78`, `src/components/notes/NoteEditor.tsx:124`) suggest that the profile's counter changes. The code selects the row with `.eq('id', user.id)`. A profile's `id` is a number (`src/contexts/AuthContext.tsx:21`), and a user id is a UUID. `Records.Selects` models the backend's comparison as equality between the key text and the decimal text of the numeric id. That is an assumption about the backend. Under it, `Records.CounterWriteMissesRow` proves that such a key selects no row.
- The tag facets come out in first-seen order, the iteration order of a `Set`. `Dashboard.DedupFirstSeenOrder` proves that order.
- The initial session lookup has no error handler. Without a session it leaves the profile as it is and does not clear it.

## Model

| member | source | states |
|---|---|---|
| Common.Trim | src/components/notes/NoteEditor.tsx:69 | `trim`: cuts the white space at both ends; `TrimSpec` states what it yields |
| Common.Lower | src/components/dashboard/Dashboard.tsx:94-95 | `toLowerCase`: same length, each character lower-cased |
| Common.Contains | src/components/dashboard/Dashboard.tsx:94-95 | `includes`: a left-to-right scan for a slice equal to the needle; `ContainsSpec` states what it decides |
| Common.TrimSpec | src/components/notes/NoteEditor.tsx:69 | `trim` yields a contiguous slice whose cut-off parts on both sides are all white space and which has no white space at either end |
| Common.TrimIdempotent | src/components/notes/NoteEditor.tsx:84 | trimming a trimmed string changes nothing |
| Common.TrimEmptyIffAllSpace | src/components/notes/NoteEditor.tsx:84 | `!s.trim()` holds exactly when `s` is all white space |
| Common.LowerIdempotent | src/components/dashboard/Dashboard.tsx:94-95 | lower-casing twice equals lower-casing once |
| Common.ContainsSpec | src/components/dashboard/Dashboard.tsx:94-95 | the `includes` scan is true exactly when the needle occurs as a slice at some index |
| Common.ContainsEmpty | src/components/dashboard/Dashboard.tsx:94 | the empty search term is found in every title |
| Records.CachedCount | src/components/notes/NoteEditor.tsx:128 | `profile?.notes_count \|\| 0`: the cached count, 0 without a profile |
| Records.Selects | src/components/notes/NoteEditor.tsx:125-130 | the assumed backend comparison of `.eq('id', key)`: the key text equals the decimal text of the row's numeric id |
| Records.CounterWriteMissesRow | src/components/notes/NoteEditor.tsx:125-130 | a counter write keyed by a text with a `-` after its first character, as every user UUID has, selects no profile row, whose key is a number |
| Dashboard.MatchesSearch | src/components/dashboard/Dashboard.tsx:94-95 | the search test on the lower-cased title or raw content; `SearchSpec` characterises it |
| Dashboard.MatchesTag | src/components/dashboard/Dashboard.tsx:96 | the tag test: no tag selected, or exact membership in the note's tags |
| Dashboard.Visible | src/components/dashboard/Dashboard.tsx:97 | a note is shown when it passes both the search and the tag test; `FilterKeepsExactlyVisible` ties it to the filter |
| Dashboard.FilterNotes | src/components/dashboard/Dashboard.tsx:93-98 | `filteredNotes`: the notes passing both tests, in order; the next lemmas characterise it |
| Dashboard.SearchSpec | src/components/dashboard/Dashboard.tsx:94-95 | a note matches the search exactly when the lower-cased term occurs in the lower-cased title or the lower-cased raw content |
| Dashboard.SearchIgnoresTermCase | src/components/dashboard/Dashboard.tsx:94-95 | the term's letter case does not change the result |
| Dashboard.FilterIsOrderedSubsequence | src/components/dashboard/Dashboard.tsx:93-98 | the filtered list is a subsequence of the notes, in their order, and every note in it is visible |
| Dashboard.FilterKeepsExactlyVisible | src/components/dashboard/Dashboard.tsx:93-98 | each visible note is kept as many times as it occurs, and each other note is dropped |
| Dashboard.NoCriteriaShowsAll | src/components/dashboard/Dashboard.tsx:94-96 | with an empty term and no selected tag the filtered list is the whole list |
| Dashboard.FlatTags | src/components/dashboard/Dashboard.tsx:100 | `notes.flatMap(note => note.tags)` |
| Dashboard.Dedup | src/components/dashboard/Dashboard.tsx:100 | `Array.from(new Set(...))`: each element kept at its first occurrence |
| Dashboard.AllTags | src/components/dashboard/Dashboard.tsx:100 | `allTags`: the de-duplicated flattened tags |
| Dashboard.TagCount | src/components/dashboard/Dashboard.tsx:170 | the number of notes whose tags include the tag |
| Dashboard.FlatTagsSpec | src/components/dashboard/Dashboard.tsx:100 | a tag is in the flattened list exactly when some note carries it |
| Dashboard.DedupSpec | src/components/dashboard/Dashboard.tsx:100 | de-duplication keeps exactly the input's elements, none twice |
| Dashboard.DedupFirstSeenOrder | src/components/dashboard/Dashboard.tsx:100 | de-duplication lists elements in the order of their first occurrence |
| Dashboard.AllTagsSpec | src/components/dashboard/Dashboard.tsx:100 | `allTags` has no duplicates, holds exactly the tags some note carries, and lists them in first-seen order |
| Dashboard.TagCountBounds | src/components/dashboard/Dashboard.tsx:170 | a tag's count is at most the number of notes, and at least 1 when some note carries it |
| Dashboard.FacetCountBounds | src/components/dashboard/Dashboard.tsx:169-170 | every listed facet has a count between 1 and the number of notes |
| Dashboard.FacetCountIsFilterSize | src/components/dashboard/Dashboard.tsx:170 | a non-empty facet's count equals the number of notes shown when that tag is selected and the search is empty |
| Dashboard.DashboardState.constructor | src/components/dashboard/Dashboard.tsx:24-27 | starts with no notes, loading, empty search and no selected tag |
| Dashboard.DashboardState.VisibleNotes | src/components/dashboard/Dashboard.tsx:93-98 | `filteredNotes` over the current list, term and tag, that is `FilterNotes` of the state |
| Dashboard.DashboardState.Tags | src/components/dashboard/Dashboard.tsx:100 | `allTags` over the current list, that is `AllTags` of the state |
| Dashboard.DashboardState.LoadNotes | src/components/dashboard/Dashboard.tsx:38-55 | without a user nothing changes; otherwise fetched rows (empty list for null data) replace the list, an error keeps it, and loading ends either way |
| Dashboard.DashboardState.DeleteNote | src/components/dashboard/Dashboard.tsx:67-91 | nothing without confirmation; the delete, sent exactly when confirmed, targets the row with the given id; a failed delete writes no counter; after a successful delete with a cached profile, `max(0, notes_count - 1)` is written keyed by the user id; a counter write happens only then |
| NoteEditor.IsCommitKey | src/components/notes/NoteEditor.tsx:67 | the keys that commit the tag input: Enter and `,` |
| Dashboard.DashboardState.HandleDeleteNote | src/components/dashboard/Dashboard.tsx:67-91 | the whole handler: the delete targets the given id exactly when confirmed; each outcome of `DeleteNote` is stated with its counter value, `max(0, notes_count - 1)` keyed by the user id and only with a cached profile; the outcome is `Deleted` exactly when confirmed, the delete succeeded and there is a user or no profile; with a user the list is then reloaded and loading ends; every other case, and any case without a user, leaves the list and the loading flag as they were |
| NoteEditor.NormalizeTag | src/components/notes/NoteEditor.tsx:69 | the normalised tag is the lower-cased slice of the input that is left when all-white-space ends are cut; it is trimmed and lower-case |
| NoteEditor.NormalizeTagIdempotent | src/components/notes/NoteEditor.tsx:69 | normalising twice is normalising once |
| NoteEditor.CommitTag | src/components/notes/NoteEditor.tsx:69-72 | the old tags stay in place; the normalised tag is appended at the end exactly when it is non-empty and new; a duplicate-free list stays duplicate-free |
| NoteEditor.WithoutTag | src/components/notes/NoteEditor.tsx:78 | `tags.filter(tag => tag !== t)` |
| NoteEditor.WithoutTagSpec | src/components/notes/NoteEditor.tsx:78 | removal drops every copy of the tag, keeps every other tag as often as it occurred, and keeps their order |
| NoteEditor.WithoutTagNoDup | src/components/notes/NoteEditor.tsx:78 | removal keeps a duplicate-free list duplicate-free |
| NoteEditor.IsBlankDraft | src/components/notes/NoteEditor.tsx:84 | a draft is blank when both title and content trim to nothing; `TrimEmptyIffAllSpace` reads it as all white space |
| NoteEditor.PersistedTitle | src/components/notes/NoteEditor.tsx:96 | the stored title is the trimmed title, or `Untitled` when that is empty; it is never empty and already trimmed |
| NoteEditor.QuotaReached | src/components/notes/NoteEditor.tsx:107 | the create-time quota test: a cached free-tier profile with a cached count of 10 or more |
| NoteEditor.SaveErrorText | src/components/notes/NoteEditor.tsx:139 | the failure text is the error's message, or `Failed to save note` when it is empty |
| NoteEditor.Settle | src/components/notes/NoteEditor.tsx:103-139 | a write fails exactly when the backend returns an error; either way the outcome carries the write that was sent |
| NoteEditor.SaveResult | src/components/notes/NoteEditor.tsx:81-143 | the outcome of `handleSave` from the starting state and the write's answer, with the branches in the code's order |
| NoteEditor.SaveResultSpec | src/components/notes/NoteEditor.tsx:81-143 | ignored exactly without a user or while saving; refused exactly for a blank draft; the quota refusal happens exactly on a create by a cached free profile at 10 or more; every write carries the persisted title and unchanged content and tags, as an update of the edited note or an insert for the user; failure comes only from a write error; only a successful create is followed by a counter write, of the cached count plus one, keyed by the user id |
| NoteEditor.Editor.constructor | src/components/notes/NoteEditor.tsx:25-30 | every field starts empty and both flags false |
| NoteEditor.Editor.OnOpen | src/components/notes/NoteEditor.tsx:33-52 | on opening, the fields are loaded from the note (or cleared for a new one) and the tag input is emptied; while closed, only the note prop changes |
| NoteEditor.Editor.HandleAddTag | src/components/notes/NoteEditor.tsx:66-75 | on Enter or `,` the tags become the commit of the input and the input is cleared even when nothing was added; any other key changes nothing; tags stay duplicate-free |
| NoteEditor.Editor.RemoveTag | src/components/notes/NoteEditor.tsx:77-79 | the tags become the old tags without every copy of the removed tag, and stay duplicate-free |
| NoteEditor.Editor.Save | src/components/notes/NoteEditor.tsx:81-143 | the outcome is `SaveResult` of the state the save starts in; only `saving` may change, and it is back at its old value afterwards |
| NoteEditor.Editor.GenerateSummary | src/components/notes/NoteEditor.tsx:145-164 | nothing for blank content or while generating; refused for a cached free profile; the placeholder exactly otherwise |
| NoteEditor.CommitSameTagTwice | src/components/notes/NoteEditor.tsx:66-75 | committing ` Work ` and then `work` leaves the single tag `work` |
| NoteCard.Preview | src/components/notes/NoteCard.tsx:30-33 | the preview is at most 153 characters; it equals the stripped text when that has at most 150 characters, and is otherwise its first 150 characters followed by `...` |
| NoteCard.PreviewIdempotent | src/components/notes/NoteCard.tsx:32 | previewing a preview changes nothing |
| NoteCard.DisplayTitle | src/components/notes/NoteCard.tsx:81 | the shown title is the note's title when that is non-empty and `Untitled Note` when it is empty |
| NoteCard.DisplayPreview | src/components/notes/NoteCard.tsx:104 | the shown text is the preview when that is non-empty and `No content` when it is empty |
| NoteCard.NoContentIffEmpty | src/components/notes/NoteCard.tsx:104 | `No content` is shown exactly when the stripped text is empty or is itself `No content` |
| NoteCard.DeleteRequest | src/components/notes/NoteCard.tsx:71-75 | `onDelete` receives the note's id exactly when the confirmation is accepted |
| AuthContext.ErrorText | src/contexts/AuthContext.tsx:194 | the server's message when it is non-empty, the fallback otherwise |
| AuthContext.SessionUser | src/contexts/AuthContext.tsx:56 | there is a user exactly when there is a session, and it is the session's user |
| AuthContext.CanCreate | src/contexts/AuthContext.tsx:93 | the fallback creation's guard: the captured user has a non-empty email and a non-empty full name |
| AuthContext.HasDefaults | src/contexts/AuthContext.tsx:107-109 | a new profile row has tier free, a count of 0 and status active |
| AuthContext.Reloaded | src/contexts/AuthContext.tsx:80-97 | the effect of `loadProfile`: a fetched row replaces the profile; on error, creation for the captured user when `CanCreate` holds, with the insert's result or rethrown error; otherwise no change |
| AuthContext.FirstRenderReloadNeverCreates | src/contexts/AuthContext.tsx:64-97 | through the session handler's closure, whose `user` is null, a reload never creates a profile, never throws, and after a failed lookup leaves the profile as it was |
| AuthContext.AuthProvider.constructor | src/contexts/AuthContext.tsx:47-50 | no user, session or profile, and loading |
| AuthContext.AuthProvider.RendersChildren | src/contexts/AuthContext.tsx:294 | children are rendered exactly when loading has ended |
| AuthContext.AuthProvider.CreateProfile | src/contexts/AuthContext.tsx:99-121 | the inserted row has the given user, email and name with tier free, count 0 and status active; on success the returned row becomes the profile, on error the profile is unchanged and the error is rethrown |
| AuthContext.AuthProvider.LoadProfile | src/contexts/AuthContext.tsx:80-97 | the lookup is keyed by the given user id; a fetched row replaces the profile; on any error a profile is created only when the captured user has both an email and a full name, otherwise the profile is unchanged |
| AuthContext.AuthProvider.InitialSession | src/contexts/AuthContext.tsx:54-61 | the session and its user are stored, the profile is looked up by the session user's id exactly when there is a session, and loading ends |
| AuthContext.AuthProvider.AuthChange | src/contexts/AuthContext.tsx:64-74 | the session and its user are stored; with no user the profile is cleared; with one it is reloaded, looked up by the session user's id; loading ends unless the awaited reload threw |
| AuthContext.AuthProvider.SignUp | src/contexts/AuthContext.tsx:123-147 | a returned user gets a profile with the given full name and the defaults; a sign-up or insert error is rethrown with the profile unchanged |
| AuthContext.AuthProvider.SignOut | src/contexts/AuthContext.tsx:164-174 | success clears the profile; failure leaves it and rethrows |
| AuthContext.AuthProvider.CreatePayPalSubscription | src/contexts/AuthContext.tsx:177-204 | no session fails with `No active session` before any request; otherwise the request carries the bearer token; a non-ok response fails with the server message or the fallback; an ok one yields the approval URL |
| AuthContext.AuthProvider.HandlePayPalApproval | src/contexts/AuthContext.tsx:206-238 | no session fails before any request; the request sends `subscriptionID`; a non-ok response fails without touching the profile; an ok one reloads the profile, looked up by the user's id, exactly when there is a user |
| AuthContext.AuthProvider.CancelPayPalSubscription | src/contexts/AuthContext.tsx:240-277 | no session fails first, then a profile without a subscription id fails, both before any request; otherwise that id is sent; a non-ok response fails without touching the profile; an ok one reloads it, looked up by the user's id, exactly when there is a user |
| Scenarios.CreateTwiceInOneSession | src/components/notes/NoteEditor.tsx:107-137 | a create, the close and reopen on a new note, and a second create write the same counter value, because the cached profile is never refreshed; the second insert carries the new draft and no tags |
| Scenarios.EditThenSave | src/components/dashboard/Dashboard.tsx:62-65 | opening the editor on a card's note loads its title, content and tags and empties the tag input; a save is then never refused by the quota and, for a user and a non-blank draft, is an update of that note |
| Scenarios.CreateThenDelete | src/components/dashboard/Dashboard.tsx:79-83 | a delete right after a create writes the cached count minus one, not one less than what the create wrote |
| Scenarios.SignOutThenSessionEnds | src/contexts/AuthContext.tsx:164-174 | signing out and then receiving the empty session clears user, session and profile, keeps the user equal to the session's, and the children render |
| Scenarios.SessionChangeWithLookupError | src/contexts/AuthContext.tsx:64-97 | a session change whose profile lookup fails stores the session's user, leaves the profile unchanged and ends loading |
| Scenarios.SearchExample | src/components/dashboard/Dashboard.tsx:93-98 | searching "report" in a Shopping note and a "Budget report" note shows only the second |
| Scenarios.TagFilterExample | src/components/dashboard/Dashboard.tsx:96 | selecting `work` shows only the note carrying it |
| Scenarios.AllTagsExample | src/components/dashboard/Dashboard.tsx:100 | the facets of the example notes are `home` then `work` |
| Scenarios.TagCountExample | src/components/dashboard/Dashboard.tsx:170 | the example facet counts are home 2 and work 1 |

## Left out

- Timestamps (`created_at`, `updated_at`): the list order by `updated_at` is the backend's, and the loaded rows are taken in the order given.
- The HTML-to-text step of the card (`stripHtml`, a DOM parser) is not modelled: the preview takes the already stripped text.
- `trim` and `toLowerCase` are modelled for ASCII only: six white-space characters, and the letters A to Z.
- NoteCard.Preview: lengths are counted in Unicode scalar values (the characters of a Dafny string), not in the UTF-16 code units that `slice` and `length` count. Text with characters outside the Basic Multilingual Plane is cut later than in the code, and the model never splits a surrogate pair.
- NoteEditor.Editor.Save: the `onSave()` and `onClose()` calls after a write are not performed by the method. Its outcome tells the caller which of them follow. `Scenarios.CreateTwiceInOneSession` composes the close and reopen.
- `signIn` is not modelled: it changes no state of the provider, and the session arrives through the auth-change handler.
- Toasts, `console.error`, the title-focus timer, the Escape listener and the 1.5 s summary delay are not modelled. `window.confirm` is a boolean input.
- The effect of a counter write on the stored profile is not modelled. The write is returned as a value. The editor only logs its error (`src/components/notes/NoteEditor.tsx:132`), and the dashboard ignores it.
- `response.json()` failures and network errors before a response are not modelled.
- Concurrency is not modelled: async interleaving across awaits, and several tabs racing on `notes_count`. Each handler is one atomic step.
- `AuthChange`: the initial lookup's and the handler's loads are not run against each other, so ordering between them is not captured.
- The backend's SQL filtering and row-level security are not modelled; every query is one answer.
- The landing page, sidebar, account view, app shell and backend client set-up are not part of this model.
