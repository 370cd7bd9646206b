# MuseLeaf character gallery — a Dafny model of its moderation and playback core

MuseLeaf is a gallery of AI-drawn characters, some of them with a music track. Visitors
submit characters. Each submission waits in a moderation queue until an administrator
approves or rejects it. Approved characters appear in one of two tabs, "with music" or
"without music". A single playback slot plays one character's track at a time.

This project models the logic behind those screens:

- **The in-memory store** (`mock_data.dfy`, module `MockData`). The store has a gallery array and a pending queue.
  - `Store` holds both arrays as fields. Its methods are proved against the pure functions `Approve`, `Reject` and `Submit` over `StoreState`.
  - The lemmas state what approving, rejecting and submitting do to the queue and to the two gallery partitions.
- **The service layer** (`backend.dfy`, module `Backend`):
  - whether a backend is configured;
  - the storage path and file extension of an upload;
  - the mock-mode answers of `createCharacter`, `createAsset`, `createMusic`, `updateCharacterStatus` and `trackEngagement`.
- **The full submission form** (`submission_form.dfy`, module `SubmissionForm`). It models the ordered validation chain, the three row payloads, and the write pipeline.
  - In the pipeline, each store call may throw. The store's answers are an input (`Replies`).
  - `Plan` lists every call a valid submission would make, and `Effects` cuts that list after the first call that throws.
  - The class method `SubmissionFormState.HandleSubmit` runs the handler step by step. It is proved to make exactly `Effects` and to leave exactly the message `Outcome`.
  - The lemmas prove these properties about `Effects` and `Outcome`:
    - validation gates every call;
    - the calls keep their fixed order;
    - a throw stops the run.
- **The quick submission dialog** (`submission_modal.dfy`, module `SubmissionModal`): its form, input events, the object it queues, and its reset.
- **The playback slot** (`playback.dfy`, module `Playback`). `App.jsx` and `CharacterGallery.jsx` each keep one copy of the slot.
  - `Player` holds the current audio, the id of the character playing, and the audio ref. `Audio` is a browser audio element reduced to `src`, `paused`, `currentTime` and `muted`.
  - Clicks, the audio's `canplay`/`ended`/`error` events and unmount are its methods.
- **The cards** (`card.dfy`, module `Card`):
  - the play and download guards of the standalone card and the gallery's card;
  - the download file name;
  - the image, title and creator fallbacks;
  - tag truncation;
  - the mute and prompt toggles.
- **The moderation dialog** (`admin_modal.dfy`, module `AdminModal`): its local pending list, the per-id `processing` map, and the approve and reject handlers.
  - Each handler awaits the store between marking an id and settling it, so each is modelled as two methods, `Begin…` and `Settle…`. Other handlers may run in between.
- **The administrator panel** (`admin_panel.dfy`, module `AdminPanel`): its stats, the status each card button requests, and the card and panel handlers.
- **The page** (`app.dfy`, module `App`): the loading of the two gallery lists and the gate in front of the admin panel.

Shared modules:

- `wrappers.dfy`: `Option`, `Result`, and `Fetch`. `Fetch` is an awaited call that resolved, possibly to `null`, or threw.
- `text.dfy`: the JavaScript string operations the code relies on: `trim`, `||` on strings, `includes`, `split(sep).pop()`, `toLowerCase`, and number-to-string.
- `domain.dfy`: the records (`Character`, `Asset`, `Music`, `Tag`, `UserInfo`, `Draft`).

Inputs that come from outside the program are parameters:

- every backend answer, which resolves or throws;
- `Date.now()` and `new Date().toISOString()`;
- whether a user is signed in;
- the answers to `confirm`;
- whether the browser accepts `audio.play()`.

Alerts, callbacks and store requests are recorded as a sequence of calls on each component's state.

Behaviour worth knowing that the model states:

- The dialog removes every entry carrying a decided id. The store removes only the first such entry. With duplicate ids the two lists part ways (`AdminModal.DiffersFromStoreOnDuplicates`). With unique ids they agree (`AdminModal.AgreesWithStoreWhenUnique`).
- The `ended`/`error` handler does not check which audio fired it. When one track is switched for another, the first audio's source is blanked. If the browser reports that as an `error` on the first audio, the slot empties and the cleanup pauses and blanks the second audio (`Playback.StaleErrorStopsNewTrack`).
- Without a configured backend, a chosen image file satisfies validation but is never uploaded. The Asset row is then written with an empty image URL (`SubmissionForm.NoBackendLeavesImageEmpty`).
- The quick dialog enables its submit button for any non-empty name made only of whitespace. The full form rejects the same name (`SubmissionModal.BlankNameStillEnabled`).

Behaviour the code does not have:

- The length limits on name (100) and worldview (40) are only input attributes. `handleSubmit` does not check them, and neither does `SubmissionForm.Validate`.
- A chosen image file is uploaded only when no image URL was typed and a backend is configured (src/components/SubmissionForm.jsx:86). It is not uploaded whenever a file is supplied.
- `toggleMute` flips the mute flag of whatever audio is current. It does not compare the slot's id with the card's own (src/components/CharacterCard.jsx:27-32).
- The `canplay` handler does not check that the slot still holds its audio (src/App.jsx:62-66). `Playback.Player.OnCanPlay` therefore does not consult the slot.
- The mock store lists pending entries in queue order, not newest first.

## Model

| member | source | states |
|---|---|---|
| Text.Trim | src/components/SubmissionForm.jsx:71-72 | the trimmed text has no whitespace at either end, and is empty exactly when the input is all whitespace |
| Text.TrimIsSlice | src/components/SubmissionForm.jsx:71-72 | trimming removes only whitespace, from both ends, and keeps one contiguous piece of the input |
| Text.TrimKeepsBareText | src/components/SubmissionForm.jsx:71-72 | text without surrounding whitespace is unchanged, so trimming twice equals trimming once |
| Text.TrimmedOrNull | src/components/SubmissionForm.jsx:73 | the trimmed-or-null value is null exactly when the field is blank; otherwise it is the non-empty trimmed text |
| Text.OrElse | src/lib/supabase.js:79 | a string-or-fallback gives the string when it is present and non-empty, else the fallback |
| Text.Includes | src/lib/supabase.js:12 | `includes` holds exactly when the pattern occurs at some position |
| Text.AfterLast | src/lib/supabase.js:78 | `split(sep).pop()` is a suffix of the input, holds no separator, and is preceded by the separator or is the whole input |
| Text.AfterLastOfJoin | src/lib/supabase.js:79 | after `prefix + sep + suffix` with a separator-free suffix, `split(sep).pop()` recovers exactly the suffix |
| Text.ToLower | src/lib/supabase.js:78 | lower-casing keeps the length and maps each character on its own |
| Text.NatToString | src/utils/mockData.js:217 | a timestamp's text is non-empty and made of decimal digits |
| Text.NatToStringInjective | src/components/SubmissionModal.jsx:41-42 | distinct timestamps give distinct text |
| MockData.Partition | src/utils/mockData.js:163-171 | a gallery partition holds only approved entries with the partition's music flag, and is no longer than the gallery |
| MockData.PartitionMembers | src/utils/mockData.js:163-171 | an entry is in a partition exactly when it is in the gallery, approved, and carries that music flag |
| MockData.PartitionOfJoin | src/utils/mockData.js:163-171 | filtering commutes with concatenation, so a partition keeps gallery order and an appended entry lands at its end |
| MockData.PartitionsSplitApproved | src/utils/mockData.js:163-171 | the two partitions are disjoint, and together they hold each approved entry as often as the gallery does |
| MockData.FindIndex | src/utils/mockData.js:187-191 | the index found is the first position holding the id; none is found only when no entry has the id |
| MockData.RemoveAt | src/utils/mockData.js:192 | `splice(index, 1)` shortens the queue by one: the entries before the index stay where they were, the ones after move up one place in order, and exactly that entry is gone (multiset) |
| MockData.Approve | src/utils/mockData.js:184-197 | an entry is yielded exactly when the id is queued, and then it carries the id and status `approved`; it is appended to the gallery and the queue is one shorter; otherwise nothing changes |
| MockData.Reject | src/utils/mockData.js:199-211 | an entry is yielded exactly when the id is queued, and then it carries the id and status `rejected`; the gallery is untouched and the queue is one shorter; otherwise nothing changes |
| MockData.QueueAfterDecision | src/utils/mockData.js:191-192 | after the splice the decided id occurs once less, and every other id as often as before |
| MockData.ApproveSpec | src/utils/mockData.js:184-197 | an unqueued id changes nothing and yields nothing; otherwise the first queued entry with the id is approved and appended to the gallery and to exactly its own partition; the queue becomes the old queue without that position, the others in order; it leaves the queue once |
| MockData.RejectSpec | src/utils/mockData.js:199-211 | as approve on the queue (the old queue without that position, the others in order), but the gallery is unchanged and the rejected entry is in neither partition |
| MockData.NewCharacterIgnoresReservedFields | src/utils/mockData.js:216-226 | a caller's `status`, `created_at` and `users` are overwritten; a caller's `id` wins over the timestamp id |
| MockData.NewCharacter | src/utils/mockData.js:216-226 | the new entry is pending, stamped now and owned by the demo user; it takes the caller's id if given, else the non-empty timestamp id, and every other caller field unchanged |
| MockData.Submit | src/utils/mockData.js:227 | `push` keeps the gallery and the old queue as a prefix, and adds exactly the new entry at the end |
| MockData.SubmitSpec | src/utils/mockData.js:213-230 | a submission appends exactly one pending entry to the queue, keeps the store consistent, and shows in neither partition |
| MockData.DecisionsKeepConsistency | src/utils/mockData.js:184-211 | approve and reject keep the gallery approved-only and the queue pending-only |
| MockData.Store.constructor | src/utils/mockData.js:2-127 | the store starts from a consistent seed: gallery approved, queue pending |
| MockData.Store.CharactersWithMusic | src/utils/mockData.js:160-166 | returns the with-music partition of the gallery |
| MockData.Store.CharactersWithoutMusic | src/utils/mockData.js:168-174 | returns the without-music partition of the gallery |
| MockData.Store.PendingCharacters | src/utils/mockData.js:176-182 | returns the queue as it is |
| MockData.Store.ApproveCharacter | src/utils/mockData.js:184-197 | the new arrays and the result are exactly `Approve` of the old arrays; consistency is kept |
| MockData.Store.RejectCharacter | src/utils/mockData.js:199-211 | the new arrays and the result are exactly `Reject` of the old arrays; consistency is kept |
| MockData.Store.SubmitCharacter | src/utils/mockData.js:213-231 | the new entry is `NewCharacter` of the input and is appended to the queue; the gallery is unchanged |
| Backend.HasSupabase | src/lib/supabase.js:12 | the backend is configured exactly when URL and key are non-empty and the URL does not contain `your-project` |
| Backend.DefaultExtension | src/lib/supabase.js:78 | the fallback extensions are non-empty and dot-free |
| Backend.Extension | src/lib/supabase.js:78 | the extension is the lower-cased text after the last dot; it falls back only when the name is missing or ends in a dot |
| Backend.AfterLastWithoutSeparator | src/lib/supabase.js:78 | a name without a dot is its own last segment |
| Backend.ExtensionEdgeCases | src/lib/supabase.js:78 | a dot-less name gives the whole name lower-cased; a name ending in a dot gives the fallback |
| Backend.Path | src/lib/supabase.js:79 | the path is laid out as the owner, a slash, the folder, a slash, the decimal timestamp, a dot and the extension; its text after the last dot is the extension |
| Backend.PrepareUpload | src/lib/supabase.js:76-79 | an upload fails exactly when no backend is configured; otherwise it uses the owner or `anon`, the character id or `temp`, the time, and the file's extension or the bucket's default |
| Backend.PreparedPath | src/lib/supabase.js:79 | a prepared upload's path starts with a non-empty owner segment and keeps the file's extension |
| Backend.MockCreateAsset | src/lib/supabase.js:104 | mock `createAsset` returns the payload with id `mock-asset`, unless the payload has its own id |
| Backend.MockCreateMusic | src/lib/supabase.js:118 | mock `createMusic` returns the payload with id `mock-music`, unless the payload has its own id |
| Backend.MockCreateCharacter | src/lib/supabase.js:63 | mock `createCharacter` queues a pending entry under a timestamp id with the payload's owner |
| Backend.AsDraft | src/lib/supabase.js:62-64 | the payload is spread without an id, so whenever the store queues it the entry takes the timestamp id and carries the payload's texts, flags and owner, with no assets, music or tags |
| Backend.MockStatusRoute | src/lib/supabase.js:50-54 | `approved` routes to approve and `rejected` to reject, in both directions |
| Backend.MockUpdateCharacterStatus | src/lib/supabase.js:49-54 | the store becomes `Approve` or `Reject` of its old state for those two statuses; any other status changes nothing |
| Backend.EngagementInserts | src/lib/supabase.js:20-26 | no insert without a backend; with one, exactly one row with the character and the action |
| SubmissionForm.Validate | src/components/SubmissionForm.jsx:45-64 | the error returned is violated by the form, every earlier check passes, and no error means no check is violated |
| SubmissionForm.CharacterPayloadFor | src/components/SubmissionForm.jsx:70-80 | the Character row has trimmed name and worldview, optional texts trimmed or null, status pending, and the session user or the anonymous id as owner |
| SubmissionForm.AssetPayloadFor | src/components/SubmissionForm.jsx:98-105 | the Asset row has one URL for original and thumbnail, type image, downloadable, and a summary that is null only when the trimmed summary and the note are both empty |
| SubmissionForm.MusicPayloadFor | src/components/SubmissionForm.jsx:111-117 | the Music row has the trimmed URL, the chosen platform, a title that is null when blank, and is never verified |
| SubmissionForm.AttemptedIsPrefix | src/components/SubmissionForm.jsx:66-127 | the calls made are a prefix of the plan; every call before the last succeeded; the last failed unless all did |
| SubmissionForm.RunOfPlan | src/components/SubmissionForm.jsx:82-124 | a valid submission's calls: each later group is made only when every earlier call succeeded |
| SubmissionForm.PlanAllOk | src/components/SubmissionForm.jsx:82-124 | a run completes exactly when every store call it reaches succeeds |
| SubmissionForm.PlanOfWellFormed | src/components/SubmissionForm.jsx:82-124 | a plan lists character, image upload, prompt upload, asset, music and the two callbacks in that order |
| SubmissionForm.FailureBeforeCallbacks | src/components/SubmissionForm.jsx:122-127 | when a call throws, every call made is a store call; neither callback runs |
| SubmissionForm.AttemptedInOrder | src/components/SubmissionForm.jsx:82-124 | the calls made keep the plan's order |
| SubmissionForm.RunGatedAndOrdered | src/components/SubmissionForm.jsx:45-127 | invalid input makes no call and shows its message; a clean run makes every planned call; the order is kept |
| SubmissionForm.RunStopsAtFailure | src/components/SubmissionForm.jsx:125-127 | the first throwing call ends the run, nothing after it is called, and the generic error is shown |
| SubmissionForm.RunStartsWithCharacter | src/components/SubmissionForm.jsx:82 | every run starts by creating the character |
| SubmissionForm.RunDrawsImage | src/components/SubmissionForm.jsx:86-88 | an image upload in a run is the planned one, made after the character was created |
| SubmissionForm.RunDrawsPrompt | src/components/SubmissionForm.jsx:92-95 | a prompt upload in a run is the planned one, made after the character and any image upload succeeded |
| SubmissionForm.RunDrawsAsset | src/components/SubmissionForm.jsx:107 | the asset written is the planned one, written after every planned upload succeeded |
| SubmissionForm.RunDrawsMusic | src/components/SubmissionForm.jsx:110-120 | the music row written is the planned one, written after the asset |
| SubmissionForm.PlanEndsWithCallbacks | src/components/SubmissionForm.jsx:123-124 | every plan ends with `onSubmit` then `onClose` |
| SubmissionForm.PlanRuns | src/components/SubmissionForm.jsx:66-127 | the gating, stopping and completion facts hold for every plan of the handler's shape |
| SubmissionForm.RunCompletes | src/components/SubmissionForm.jsx:122-124 | a clean run makes every planned call and ends with `onSubmit` and `onClose` |
| SubmissionForm.SubmitGated | src/components/SubmissionForm.jsx:45-64 | a validation failure makes no store call and shows its own message; a throw keeps both callbacks from running |
| SubmissionForm.SubmitOrdered | src/components/SubmissionForm.jsx:82-124 | a clean submit makes every planned call and ends with the callbacks; calls are always in write order |
| SubmissionForm.SubmitSucceedsIff | src/components/SubmissionForm.jsx:66-131 | the form ends clean exactly when the input is valid and every store call it makes succeeds |
| SubmissionForm.CharacterWrittenFirst | src/components/SubmissionForm.jsx:70-82 | a valid submission first writes a pending character with non-empty trimmed name and worldview |
| SubmissionForm.AssetForShape | src/components/SubmissionForm.jsx:98-105 | the planned Asset row field by field: the character id, the resolved image URL, the summary with the prompt note |
| SubmissionForm.AssetWritten | src/components/SubmissionForm.jsx:85-107 | an Asset row is written only for a created character, with the uploaded URL when a file was uploaded, else the typed URL |
| SubmissionForm.TypedImageUrlWins | src/components/SubmissionForm.jsx:85-88 | with a typed image URL no upload is made, and the asset carries the trimmed, non-empty URL |
| SubmissionForm.NoBackendLeavesImageEmpty | src/components/SubmissionForm.jsx:86-105 | without a backend nothing is uploaded, and a file-only submission writes an asset with an empty image URL |
| SubmissionForm.ImageUploadFollowsCharacter | src/components/SubmissionForm.jsx:86-87 | the image goes to the images bucket, after the character exists, under its owner (or `anon`) and id, keeping the file's extension |
| SubmissionForm.PromptUploadFollowsCharacter | src/components/SubmissionForm.jsx:92-94 | the prompt file goes to the prompts bucket under the created character's owner and id, keeping its extension |
| SubmissionForm.CompleteRunMakesMusicIff | src/components/SubmissionForm.jsx:110-120 | a completed run makes a music call exactly when the plan has a music row |
| SubmissionForm.MusicOnlyWhenAsked | src/components/SubmissionForm.jsx:110-119 | a Music row is written only when music was asked for with a URL and the asset was written; it points at the character and is never verified |
| SubmissionForm.MusicWrittenIffAsked | src/components/SubmissionForm.jsx:110-120 | a clean submission wrote a Music row exactly when music was asked for with a URL |
| SubmissionForm.RunOfPlanUnrolled | src/components/SubmissionForm.jsx:82-124 | the calls of a valid submission, written out group by group |
| SubmissionForm.EffectsUnrolled | src/components/SubmissionForm.jsx:66-127 | the effects and message of a valid submission, written out step by step |
| SubmissionForm.PlanMatchesStages | src/components/SubmissionForm.jsx:84-120 | for a created character, the planned uploads and rows are the ones the stages make |
| SubmissionForm.SubmissionFormState.constructor | src/components/SubmissionForm.jsx:14-31 | the form starts with the given fields, no files, no message, not busy, no calls |
| SubmissionForm.SubmissionFormState.HandleSubmit | src/components/SubmissionForm.jsx:40-131 | the calls made are exactly `Effects`, the message is exactly `Outcome`, the fields are unchanged, and the busy flag is down after any store call |
| SubmissionForm.SubmissionFormState.UploadImageStage | src/components/SubmissionForm.jsx:84-88 | from the image upload on, the calls and the message are those of the remaining plan |
| SubmissionForm.SubmissionFormState.UploadPromptStage | src/components/SubmissionForm.jsx:90-95 | from the prompt upload on, the calls and the message are those of the remaining plan |
| SubmissionForm.SubmissionFormState.WriteRowsStage | src/components/SubmissionForm.jsx:97-124 | the Asset row, the optional Music row, then the callbacks, stopping at the first throw |
| SubmissionModal.ApplyInput | src/components/SubmissionModal.jsx:20-25 | an input event changes only its own field; the checkbox sets `has_music` to its checked state |
| SubmissionModal.ApplyInputIdempotent | src/components/SubmissionModal.jsx:20-25 | applying an event twice equals applying it once, and typing a field's own value changes nothing |
| SubmissionModal.ImageOrPlaceholder | src/components/SubmissionModal.jsx:41 | a typed image URL is used; an empty one gives the placeholder URL with the timestamp |
| SubmissionModal.BuildSubmission | src/components/SubmissionModal.jsx:33-52 | the queued object passes the texts untouched, has one image asset, one track exactly when music was asked for, and no tags |
| SubmissionModal.SubmissionImageUrls | src/components/SubmissionModal.jsx:41-42 | a typed URL serves as original and thumbnail; placeholders from different clock readings differ |
| SubmissionModal.SubmissionMusic | src/components/SubmissionModal.jsx:45-50 | music is empty without `has_music`; its one track is an unverified Suno track with URL and title defaults |
| SubmissionModal.SubmissionQueuedPending | src/components/SubmissionModal.jsx:33-54 | queued in the store, the submission is a pending entry with the form's own fields |
| SubmissionModal.SubmitDisabled | src/components/SubmissionModal.jsx:250 | the button is disabled exactly when a submission is running or the name or worldview is the empty string; a field of spaces counts as filled in |
| SubmissionModal.BlankNameStillEnabled | src/components/SubmissionModal.jsx:250 | for every non-empty name made only of whitespace the dialog enables submit, and the full form's validation rejects that name |
| SubmissionModal.ModalState.constructor | src/components/SubmissionModal.jsx:7-18 | the dialog opens with the initial form and is not busy |
| SubmissionModal.ModalState.HandleInputChange | src/components/SubmissionModal.jsx:20-25 | the form becomes `ApplyInput` of the event; nothing else changes |
| SubmissionModal.ModalState.HandleSubmit | src/components/SubmissionModal.jsx:28-78 | the built submission is queued; on success the form resets, `onSubmit`, `onClose` and the success alert follow; on failure the form is kept and the failure alert shows |
| Playback.Audio.constructor | src/App.jsx:59 | a new audio element has no source, is paused at 0 and is not muted |
| Playback.PlayingFlags | src/App.jsx:147 | a card reads as playing exactly when its id is the slot's id |
| Playback.AtMostOnePlaying | src/App.jsx:147 | among cards with distinct ids at most one reads as playing, and none when the slot is empty |
| Playback.Player.constructor | src/App.jsx:16-18 | the slot starts empty |
| Playback.Player.Install | src/App.jsx:85-92 | replacing the current audio runs the cleanup: the replaced audio is paused and its source blanked; the gallery's cleanup effect (src/components/CharacterGallery.jsx:242-249) is the same |
| Playback.Player.HandlePlay | src/App.jsx:44-82 | the current audio is paused and rewound, its mute flag kept; the same id empties the slot; another id gets a fresh audio with the track's URL, which takes the slot at once; the gallery's copy (src/components/CharacterGallery.jsx:189-239) is the same, with `embed_url` as the source whatever the platform |
| Playback.Player.OnCanPlay | src/App.jsx:62-66 | an audio starts on `canplay` unless `play()` is rejected; the slot is not consulted |
| Playback.Player.OnEndedOrError | src/App.jsx:68-77 | `ended` or `error` from any audio empties the slot, and the cleanup stops the audio that was in it, keeping its position and mute flag; the gallery's handlers (src/components/CharacterGallery.jsx:225-234) are the same |
| Playback.Player.Unmount | src/App.jsx:85-92 | unmounting pauses the current audio and blanks its source, keeping its position and mute flag |
| Playback.StaleErrorStopsNewTrack | src/App.jsx:68-92 | an `error` from the replaced audio empties the slot and silences the new track |
| Card.PlayableTrack | src/components/CharacterCard.jsx:10 | a card plays its first track only when it is a music card and a track exists |
| Card.PlayEffects | src/components/CharacterCard.jsx:9-13 | the play request is made exactly when the card is a music card with a track, with the first track and the card's id; a play is recorded exactly by the gallery's card (src/components/CharacterGallery.jsx:11-17) when it made the request, and nothing else happens |
| Card.PlayVersionsAgree | src/components/CharacterGallery.jsx:11-17 | the gallery's card makes the standalone card's play request, and adds exactly one play record after it when it made one |
| Card.DownloadName | src/components/CharacterCard.jsx:20 | the file name is the name, an underscore, the id (character for character), and the extension `png` |
| Card.DownloadFor | src/components/CharacterCard.jsx:15-20 | a download is offered exactly when the first asset has an original URL, and it points at that URL |
| Card.DownloadEffects | src/components/CharacterCard.jsx:15-25 | a download starts exactly when the first asset has an original URL, points at it and saves a `.png`; a download is recorded exactly by the gallery's card (src/components/CharacterGallery.jsx:24-37) when it started one |
| Card.DownloadVersionsAgree | src/components/CharacterGallery.jsx:24-37 | the gallery's card starts the standalone card's download, and adds exactly one download record after it when it started one |
| Card.MountEffects | src/components/CharacterGallery.jsx:19-22 | only the gallery's card does anything on mount, and all it does is record a view of its own character (the effect at src/components/CharacterGallery.jsx:46-48) |
| Card.TrackedHandlers | src/components/CharacterGallery.jsx:11-48 | each handler records at most one action: a view on mount, a play when a track was requested, a download when one started, all only on the gallery's card |
| Card.EngagementRecorded | src/components/CharacterGallery.jsx:11-48 | over mount, play and download the standalone card records nothing; the gallery's card records a view, then a play exactly when a track was requested, then a download exactly when one started |
| Card.ImageSource | src/components/CharacterCard.jsx:40 | the thumbnail when it is non-empty, else the original URL |
| Card.TrackTitle | src/components/CharacterCard.jsx:148 | a truthy title is shown as is, any other gives `Untitled`; never empty |
| Card.CreatorName | src/components/CharacterCard.jsx:139 | the owner's name when present and non-empty, otherwise `Unknown`; never empty |
| Card.ShowVerifiedBadge | src/components/CharacterCard.jsx:90 | the own-track badge shows exactly when the card would play a track that is marked as the owner's |
| Card.DialogSubmissionNeverVerified | src/components/CharacterCard.jsx:90 | a character queued through the quick dialog never shows the own-track badge |
| Card.VisibleTags | src/components/CharacterCard.jsx:120 | the tags shown are the first min(3, n), in order |
| Card.HiddenTagCount | src/components/CharacterCard.jsx:129-133 | the `+N` badge exists exactly when there are more than three tags, and N is positive |
| Card.TagsAccounted | src/components/CharacterGallery.jsx:137-150 | the shown tags and the badge count account for every tag |
| Card.CardState.constructor | src/components/CharacterCard.jsx:6-7 | a card starts unmuted with its prompt hidden |
| Card.CardState.ToggleMute | src/components/CharacterCard.jsx:27-32 | with a current audio its `muted` flips and the indicator mirrors it, while its source, paused flag and position stay as they were; without one nothing changes; the gallery card's toggle (src/components/CharacterGallery.jsx:39-44) is the same |
| Card.CardState.TogglePrompt | src/components/CharacterCard.jsx:106 | the prompt button flips the prompt's visibility and nothing else |
| AdminModal.RemoveId | src/components/AdminModal.jsx:33 | the filtered list has no entry with the id and is no longer than before |
| AdminModal.RemoveIdKeeps | src/components/AdminModal.jsx:33 | an entry is kept exactly when it was listed with another id |
| AdminModal.RemoveIdOfJoin | src/components/AdminModal.jsx:33 | the filter works piece by piece, so the kept entries stay in order |
| AdminModal.RemoveIdAbsent | src/components/AdminModal.jsx:33 | a list without the id is left as it was |
| AdminModal.RemoveIdCounts | src/components/AdminModal.jsx:33 | every entry with the id goes, and every other id keeps all its entries |
| AdminModal.RemoveIdCommutes | src/components/AdminModal.jsx:33-50 | two decisions that settle in either order leave the same list |
| AdminModal.AgreesWithStoreWhenUnique | src/components/AdminModal.jsx:32-33 | when the id is listed once, the dialog's filter equals the store's splice of the queue |
| AdminModal.DiffersFromStoreOnDuplicates | src/components/AdminModal.jsx:32-33 | when the id is queued twice or more, the dialog's list differs from the store's queue after approve or reject |
| AdminModal.Mark | src/components/AdminModal.jsx:30 | the id's buttons are disabled exactly when it is marked busy; every other id keeps its entry and its status |
| AdminModal.ProcessingCycle | src/components/AdminModal.jsx:29-42 | a marked id is disabled until it settles; settling frees it and no other id changes |
| AdminModal.AdminModalState.constructor | src/components/AdminModal.jsx:7-9 | the dialog starts with an empty list, loading, and an empty processing map |
| AdminModal.AdminModalState.LoadPending | src/components/AdminModal.jsx:17-27 | a null answer shows an empty list, a throw keeps the list, and loading ends either way |
| AdminModal.AdminModalState.BeginApprove | src/components/AdminModal.jsx:30-32 | the id is marked approving and the store is asked |
| AdminModal.AdminModalState.SettleApprove | src/components/AdminModal.jsx:32-41 | on success the id's entries go, `onUpdate` runs when given and the success alert shows; on failure only the failure alert; the mark is cleared either way |
| AdminModal.AdminModalState.BeginReject | src/components/AdminModal.jsx:45-49 | a declined confirm changes nothing else; otherwise the id is marked rejecting and the store is asked |
| AdminModal.AdminModalState.SettleReject | src/components/AdminModal.jsx:49-57 | like approval, but `onUpdate` is never called |
| AdminModal.OverlappingApprovals | src/components/AdminModal.jsx:29-42 | two approvals settling in the opposite order remove both ids and nothing else, and free both |
| AdminPanel.ByMusic | src/components/AdminPanel.jsx:252-253 | the filter keeps only entries with the asked-for music flag |
| AdminPanel.ByMusicKeeps | src/components/AdminPanel.jsx:252-253 | an entry is kept exactly when it is listed with that flag |
| AdminPanel.ByMusicSplits | src/components/AdminPanel.jsx:252-253 | the two filtered lengths add up to the list's length |
| AdminPanel.ComputeStats | src/components/AdminPanel.jsx:249-254 | `approved` is 0; a null answer gives all zeros; otherwise the length and the two filtered lengths |
| AdminPanel.StatsAddUp | src/components/AdminPanel.jsx:246-254 | the pending count is the length of the list shown, and the two music counts add up to it |
| AdminPanel.Displayed | src/components/AdminPanel.jsx:188-224 | before the first load every count shows 0; after it, the computed counts |
| AdminPanel.StatusFor | src/components/AdminPanel.jsx:16-28 | approve asks for the status the mock routes to approve, and reject for the one it routes to reject |
| AdminPanel.StatusForDistinct | src/components/AdminPanel.jsx:16-28 | the two statuses differ, and the mock service ignores neither |
| AdminPanel.PendingCardState.constructor | src/components/AdminPanel.jsx:10-11 | a card starts idle with its details hidden |
| AdminPanel.PendingCardState.HandleApprove | src/components/AdminPanel.jsx:13-23 | requests `approved` for the card's own id; the panel is told only on success; the card is idle afterwards |
| AdminPanel.PendingCardState.HandleReject | src/components/AdminPanel.jsx:25-35 | requests `rejected` for the card's own id and tells the panel through the same callback on success |
| AdminPanel.PendingCardState.ToggleDetails | src/components/AdminPanel.jsx:138 | the prompt details flip and nothing else changes |
| AdminPanel.AdminPanelState.constructor | src/components/AdminPanel.jsx:234-236 | the panel starts with an empty list, loading, and no stats |
| AdminPanel.AdminPanelState.LoadPending | src/components/AdminPanel.jsx:242-261 | a resolved answer (null as empty) is shown with its counts; a throw keeps both; loading ends |
| AdminPanel.AdminPanelState.HandleCharacterAction | src/components/AdminPanel.jsx:263-266 | the list is fetched again and the gallery is told to refresh |
| App.AppState.constructor | src/App.jsx:13-21 | the page starts with empty lists, loading, the admin panel closed |
| App.AppState.LoadCharacters | src/App.jsx:28-42 | when both getters resolve each list shows its answer, or an empty list for null; a throw keeps both lists; loading ends |
| App.AppState.OpenAdmin | src/App.jsx:180-186 | the panel opens only with a signed-in user; otherwise it alerts and the flag stays |
| App.LoadFromStore | src/App.jsx:31-36 | loaded from the store, the page shows only approved entries, each in the tab of its music flag, and nothing from the queue |

## Left out

- Markup, styling, loading skeletons and empty-state screens are presentation and are not modelled. The markup-only toggles that are modelled (prompt and details buttons) are the exceptions.
- The hosted backend is not modelled: queries, inserts, storage uploads and public URLs. Its answers are inputs (`Replies`, `Fetch`, `succeeded` flags). What it stores is not modelled.
- `src/contexts/AuthProvider.jsx` and `src/components/AuthButtons.jsx` are not part of this model. The signed-in user is an input (`sessionUserId`, `hasUser`).
- `src/utils/supabase.js` and `src/components/ui/button.jsx` are not part of this model. They hold no logic the core uses.
- The dialogs import `../lib/mockData`, which is not part of this model. It is taken to be `src/utils/mockData.js`.
- `setTimeout` delays are not modelled. Each mock call resolves in one step.
- Interleavings are modelled only where a handler awaits between two state changes (`AdminModal` `Begin…`/`Settle…`). Elsewhere a handler runs to completion, and intermediate loading flags between its awaits are not observable.
- Alerts, `console` logging and the DOM download link are recorded as calls, or not at all in the case of logging. Their content is not modelled.
- The browser's audio element is reduced to four fields. Its asynchronous loading and the `play()` promise are the `OnCanPlay` input. That `canplay` can fire on an audio after its source was blanked is left to that input.
- Playback.Player: at most one card reads as playing is proved. That at most one audio element is unpaused is not proved, because `OnCanPlay` may start an audio no longer in the slot (the source has no guard against this).
- Playback.Player.Install: the cleanup effect is folded into the step that replaces the current audio. React's scheduling of effects after render is not modelled.
- References are not modelled for React state. The JavaScript objects the store mutates in place (`character.status = …` on an entry also held elsewhere) are modelled as values, so that aliasing is not captured.
- Text.ToLower: lower-cases ASCII letters only. Unicode case mapping is not modelled.
- Text.Trim: uses the ECMAScript white-space and line-terminator set. Nothing else about Unicode is modelled.
- Callbacks passed in by a parent (`onSubmit`, `onClose`, `onUpdate`, `onApprove`) are assumed not to throw. A throwing `onUpdate` would take the approve handler to its failure alert, and that path is not modelled.
- `SubmissionForm.jsx` `handleInputChange` and the two file pickers are one-field state updates. They are not modelled; the handler takes the form and files as they are.
- The gallery card shows `character.prompt_summary` where the standalone card shows the first asset's summary. Prompt display is presentation and is not modelled.
- The `maxLength` attributes on the name and worldview inputs belong to the browser's input handling. Neither handler checks them, and they are not modelled.
- Timestamps (`Date.now()`, `toISOString()`) are parameters. Only their distinctness is used.
