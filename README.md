# MotionEdit core, modelled in Dafny

MotionEdit is a web editor for Lottie animations. A FastAPI back end
(`backend/server.py`) stores animation records in MongoDB and asks a chat model to
rewrite an animation's JSON document from a natural-language prompt. A React front
end (`frontend/src/App.js`) shows a library of templates and a list of projects,
and opens an editor on one of them. The editor holds a working copy of the document,
display sliders, an AI prompt box and export buttons.

This project models the behaviour of that core and proves properties about it:

- `wrappers.dfy`: `Option`.
- `text.dfy` (`Text`): Python's `str.strip` and JavaScript's `String.prototype.trim`, each with its own whitespace set. It also holds prefix, suffix and substring tests, and ASCII `toLowerCase`/`toUpperCase`.
- `json.dfy` (`JsonModel`): JSON-like documents. Python `datetime` values appear as `DateTime`. Objects keep their key order.
- `mongo.dfy` (`MongoCodec`): `prepare_for_mongo` and `parse_from_mongo`, the shapes they produce, and the store/read round trip.
- `ai_edit.dfy` (`AiEdit`): cleaning of the chat model's reply, the fallbacks of `process_ai_edit`, and the response of the edit endpoint.
- `store.dfy` (`AnimationStore`): the record `create_animation` builds, and the update merge of `update_animation` applied as a MongoDB `$set`. The collection is a map from id to stored document.
- `collections.dfy` (`Library`): the search filters of the two list tabs, delete-by-id, and the `App` component as a class.
- `editor.dfy` (`EditorSession`): the `Editor` component. Its transitions are functions on an `EditorState` value, which the properties are stated about. The `Editor` class updates its fields handler by handler and is proved to follow those functions.

Parameters stand in for everything outside the core:

- The chat model is `chat`.
- `json.loads` is `decode`.
- `datetime.isoformat` and `datetime.fromisoformat` are `toIso` and `fromIso`.
- The clock, `uuid4` and `Date.now()` are passed in as values.
- Each HTTP request is passed in as its outcome.

Speed is kept in integer tenths, since its slider runs from 0.1 to 3 in steps of 0.1. The other sliders are integers already.

## Model

| member | source | states |
|---|---|---|
| MongoCodec.PrepareForMongo | backend/server.py:61-75 | `prepare_for_mongo`. It rebuilds a dict entry by entry and returns anything else unchanged. Its properties are stated by the lemmas below. |
| MongoCodec.PrepareShape | backend/server.py:61-75 | Non-dict input comes back unchanged. A dict keeps exactly its keys, in order, and entry i is the i-th value converted by `PrepareValue`. No datetime is left in any dict reachable from a dict root through dicts and lists of dicts. Dicts inside a top-level list are not converted. |
| MongoCodec.PrepareValueClean | backend/server.py:64-73 | A converted dict value holds no datetime at its top level or in the dicts under it. |
| MongoCodec.PrepareValueScalars | backend/server.py:66-73 | A datetime value becomes `isoformat` of it. Every other scalar, strings included, is unchanged. |
| MongoCodec.PrepareList | backend/server.py:70-71 | A list keeps its length. Dict elements are prepared. Other elements, nested lists included, are left as they are. |
| MongoCodec.PrepareKeepsClean | backend/server.py:61-75 | A document without datetimes is returned unchanged. |
| MongoCodec.PrepareIdempotent | backend/server.py:61-75 | Preparing twice is the same as preparing once. |
| MongoCodec.ParseValueScalars | backend/server.py:80-93 | A scalar becomes a datetime only when it is a string under `created_at`/`updated_at` that `fromisoformat` accepts. A string it rejects is kept. Every other scalar is unchanged. |
| MongoCodec.ParseFromMongo | backend/server.py:77-94 | `parse_from_mongo`. It rebuilds a dict entry by entry and returns anything else unchanged. Its properties are stated by the lemmas below. |
| MongoCodec.ParseShape | backend/server.py:77-94 | Non-dict input comes back unchanged. A dict keeps exactly its keys, in order, and entry i is the i-th value parsed under its own key. |
| MongoCodec.ParseList | backend/server.py:89-90 | A list keeps its length under any key. Dict elements are parsed. Other elements, strings and nested lists included, are left as they are. |
| MongoCodec.StoreReadRoundTrip | backend/server.py:61-94 | Parsing a prepared document gives it back. This needs datetimes to occur only under the two timestamp keys, no other string there to look like an ISO date, and `fromisoformat` to invert `isoformat`. |
| MongoCodec.StoreReadValueRoundTrip | backend/server.py:64-73 | The same round trip for one value under its key. |
| MongoCodec.DateTimeElsewhereStaysString | backend/server.py:66-67 | A datetime under any other key comes back as its ISO string, so the round trip's condition is needed. |
| AiEdit.CleanReply | backend/server.py:165-170 | The fence cleaning of the model's reply: strip, drop a leading "```json", drop a trailing "```", strip. Its properties are stated by the lemmas below and by `CleanResponse`. |
| AiEdit.Unfence | backend/server.py:166-169 | The two marker checks, each applied on its own to the stripped reply. `UnfenceFenced` states its effect on a fenced block. |
| AiEdit.CleanReplyTrimmed | backend/server.py:165-170 | The cleaned reply has no leading or trailing whitespace. |
| AiEdit.CleanReplyFenced | backend/server.py:165-170 | A reply of the form "```json" + body + "```" cleans to the stripped body. |
| AiEdit.UnfenceFenced | backend/server.py:166-169 | Both markers come off a fenced block, and nothing else does. |
| AiEdit.CleanReplyUnfenced | backend/server.py:165-170 | A reply with neither marker after stripping is only stripped. |
| AiEdit.CleanResponse | backend/server.py:165-170 | The step-by-step reassignment computes the cleaned reply, and its result is trimmed. |
| AiEdit.ApiKey | backend/server.py:100-103 | The key is `GOOGLE_API_KEY` when that is set and non-empty, otherwise `EMERGENT_LLM_KEY`. An empty result counts as no key. |
| AiEdit.ModelFor | backend/server.py:106-137 | Gemini 2.0 Flash is chosen exactly when the key starts with "AIza"; otherwise GPT-4o. |
| AiEdit.FallsBack | backend/server.py:100-182 | The three paths on which `process_ai_edit` returns its input: no key, a failed chat call, a cleaned reply that is not JSON. `ProcessAiEdit` states the result on each. |
| AiEdit.ProcessAiEdit | backend/server.py:96-182 | The input document is returned unchanged on each fallback: no key, a failed chat call, or a cleaned reply that is not JSON. Otherwise the decoded cleaned reply is returned. |
| AiEdit.EditAnimationWithAi | backend/server.py:269-300 | The response always carries a dict. `success` holds exactly when the processed result is a dict, and then that result is returned with the fixed message. Otherwise the request's own document is returned with the failure message. |
| AiEdit.FailedEditReportsSuccess | backend/server.py:289-293 | Every fallback of `process_ai_edit` reaches the client as `success=True` carrying the unchanged request document. |
| AnimationStore.NewAnimation | backend/server.py:203-204 | The record `create_animation` builds: the `Animation` fields in declaration order, with a fresh id, no thumbnail or settings, and the two clock readings. `CreateThenRead` states its round trip. |
| AnimationStore.CreateThenRead | backend/server.py:200-207 | Reading a created record back gives the record that was built, when the Lottie document itself is storable. |
| AnimationStore.UpdateDict | backend/server.py:236-237 | `update_dict` before preparation. `UpdateDictKeys` and `UpdateDictValues` state its keys and values. |
| AnimationStore.UpdateDictKeys | backend/server.py:236-237 | The update holds exactly the request fields that are not `None`, in declaration order, then `updated_at`, each key once. |
| AnimationStore.UpdateDictValues | backend/server.py:236-237 | Each key of the update reads the requested value, `updated_at` reads the current instant, and no other key is present. |
| AnimationStore.SetFields | backend/server.py:241-244 | MongoDB's `$set` applied one field after another: overwrite in place, or append a new key. `LookupSetFields` states its effect. |
| AnimationStore.LookupSetField | backend/server.py:241-244 | After `$set` of one field, that key reads the new value and every other key reads as before. |
| AnimationStore.LookupSetFields | backend/server.py:241-244 | After `$set` of an update with distinct keys, the keys it names read its values and every other key of the stored document is untouched. |
| AnimationStore.UpdateAnimation | backend/server.py:227-253 | An unknown id gives 404. Otherwise only that record changes and the set of ids stays the same. The answer is the record read back through `parse_from_mongo` when the `Animation` model accepts it, and 500 when it does not. |
| AnimationStore.UpdateWritesBeforeValidating | backend/server.py:241-251 | The stored collection is the same whether the record read back validates or the request ends in 500. |
| AnimationStore.UpdateStores | backend/server.py:236-245 | After an update, a key the update carries stores its prepared value, and every other stored field is as it was. |
| AnimationStore.UpdateStoresTimestamp | backend/server.py:237-238 | The stored `updated_at` is the ISO string of the update's instant. |
| AnimationStore.LookupPrepared | backend/server.py:61-75 | Preparing a dict prepares the value each key reads. |
| AnimationStore.LookupParsed | backend/server.py:77-94 | Parsing a dict parses the value each key reads. |
| AnimationStore.UpdateReadsBackTimestamp | backend/server.py:247-248 | When the update succeeds, the record returned has `updated_at` equal to the update's instant, given that `fromisoformat` inverts `isoformat`. |
| Text.PyStrip | backend/server.py:165-170 | Python's `str.strip()`: the characters for which `isspace()` holds come off both ends. `StripSpec`, `StripPadded` and `StripIdempotent` state its effect. |
| Text.JsTrim | frontend/src/App.js:502-510 | JavaScript's `trim()`: WhiteSpace and LineTerminator characters come off both ends. The button's guard at frontend/src/App.js:646 uses it too. The same lemmas state its effect. |
| Text.Lower | frontend/src/App.js:135-137 | `toLowerCase()`, also used by the projects search at frontend/src/App.js:217, keeps the length and maps each character on its own: A-Z to a-z, everything else unchanged. `LowerIdempotent` states that it is idempotent. |
| Text.LowerIdempotent | frontend/src/App.js:136 | Lower-casing a lower-cased string changes nothing. |
| Text.Contains | frontend/src/App.js:135-137 | `includes`: the term occurs at some position of the name. `ContainsEmpty` and `ContainsInfix` state what it accepts. |
| Text.ContainsEmpty | frontend/src/App.js:136 | Every string includes the empty string. |
| Text.ContainsInfix | frontend/src/App.js:136 | A string includes each of its infixes, prefixes and suffixes among them. |
| Text.StripSpec | backend/server.py:165 | A stripped string has no outer whitespace. It is empty exactly when the input is all whitespace. |
| Text.StripPadded | backend/server.py:165-170 | Stripping removes exactly the whitespace padding around a trimmed core. |
| Text.StripIdempotent | backend/server.py:165-170 | Stripping twice is the same as stripping once. |
| Library.Search | frontend/src/App.js:135-137 | The library search filter. The projects tab uses the same filter at frontend/src/App.js:216-218. `SearchExactly` and the lemmas below state what it keeps. |
| Library.KeepAppend | frontend/src/App.js:135-137 | Filtering a concatenation filters each part, so order is kept. |
| Library.KeepCount | frontend/src/App.js:135-137 | The filter keeps each element that passes the test as often as it occurs, and nothing else. |
| Library.SearchExactly | frontend/src/App.js:135-137 | Search keeps exactly the items whose lower-cased name contains the lower-cased term, with their multiplicity. The projects tab uses the same filter at frontend/src/App.js:216-218. |
| Library.SearchEmptyTerm | frontend/src/App.js:135-137 | An empty term keeps the whole list. |
| Library.SearchCaseInsensitive | frontend/src/App.js:136 | Lower-casing the term does not change the result. |
| Library.SearchAppend | frontend/src/App.js:216-218 | Searching two lists joined together gives the results for each part, in order. |
| Library.RemoveById | frontend/src/App.js:785 | The list after a delete. The same filter is applied to projects at frontend/src/App.js:805. `RemoveByIdExactly` and the lemmas below state what it keeps. |
| Library.RemoveByIdExactly | frontend/src/App.js:785 | Delete drops every entry with the id and keeps every other entry, as often as it occurred. |
| Library.RemoveAbsent | frontend/src/App.js:805 | Deleting an id the list does not hold leaves the list unchanged. |
| Library.RemoveIdempotent | frontend/src/App.js:785 | Deleting twice is the same as deleting once. |
| Library.RemoveAfterAppend | frontend/src/App.js:774-785 | Deleting an entry just appended, whose id was new, gives the old list back. |
| Library.App.Showing | frontend/src/App.js:854-863 | The editor replaces the tabs exactly when it is open, on the selected item and with the project flag. |
| Library.App.constructor | frontend/src/App.js:747-752 | The app starts on the explore tab with empty lists and no editor. |
| Library.App.Load | frontend/src/App.js:755-769 | Both lists are loaded when the animations request succeeds. A failed projects request counts as an empty list. If the animations request fails, nothing changes. |
| Library.App.UploadAnimation | frontend/src/App.js:771-780 | The created record is appended and the library tab is shown. A failed upload changes nothing. |
| Library.App.DeleteAnimation | frontend/src/App.js:782-789 | An accepted delete filters the animations by id. Nothing else changes. |
| Library.App.SaveProject | frontend/src/App.js:791-800 | The created project is appended and the projects tab is shown. A failed save changes nothing. |
| Library.App.DeleteProject | frontend/src/App.js:802-809 | An accepted delete filters the projects by id. Nothing else changes. |
| Library.App.OpenEditor | frontend/src/App.js:811-815 | The editor shows the chosen item with the project flag. The tabs and lists are kept. |
| Library.App.CloseEditor | frontend/src/App.js:817-821 | The editor is closed and the selection cleared. The tabs and lists are kept. |
| EditorSession.Opened | frontend/src/App.js:394-406 | A new editor's original and working document equal the opened document. It starts with key 0, default settings, an empty prompt and nothing in flight. |
| EditorSession.ResetRestores | frontend/src/App.js:409-417 | Reset gives back the original with default settings and an empty prompt, and bumps the key by exactly 1. A second reset differs only in the key. |
| EditorSession.ResetState | frontend/src/App.js:409-417 | `handleReset`. `ResetRestores` states its result. |
| EditorSession.CanSubmit | frontend/src/App.js:646 | The "Apply AI" button is enabled. `CanSubmitExactly` states when. |
| EditorSession.CanSubmitExactly | frontend/src/App.js:646 | The button is enabled exactly when nothing is in flight and the prompt holds a character that is not whitespace. |
| EditorSession.RequestFor | frontend/src/App.js:508-512 | The request body, built from the state at the click. `PromptSubmitted` states what it carries. |
| EditorSession.Applies | frontend/src/App.js:516 | The answer is applied: `success` and a truthy `animationData`. `AnswerSettles` states the effect. |
| EditorSession.Complete | frontend/src/App.js:514-543 | The end of `handlePromptSubmit`. `AnswerSettles` states its result. |
| EditorSession.Step | frontend/src/App.js:409-544 | One user event, dispatched to its handler. A click on the disabled "Apply AI" button does nothing (frontend/src/App.js:646). `StepKey` and the run lemmas state its properties. |
| EditorSession.StepKey | frontend/src/App.js:409-544 | The key grows by exactly 1 on a reset or an applied answer, and is unchanged otherwise. The document changes only then: to the original on reset, to the answer's document on an applied answer. |
| EditorSession.SlidersTouchOnlyTheirSetting | frontend/src/App.js:425-430 | A slider changes only its own setting. Document, key and prompt are unchanged. |
| EditorSession.BlankPromptIgnored | frontend/src/App.js:501-502 | A prompt of whitespace only cannot be submitted, and submitting it does nothing. |
| EditorSession.PromptSubmitted | frontend/src/App.js:504-512 | With nothing in flight, a prompt with a non-whitespace character raises the flag. The request carries the working document and the trimmed, non-empty prompt. |
| EditorSession.SecondSubmitIgnored | frontend/src/App.js:646 | While a request is in flight a second click does nothing, so at most one request is in flight. |
| EditorSession.AnswerSettles | frontend/src/App.js:516-543 | An applied answer replaces the document, bumps the key and clears the prompt. Any other answer, and a failed request, changes only the flag. The flag is down after every answer. |
| EditorSession.RunKeepsOriginal | frontend/src/App.js:403 | No sequence of events writes the original. |
| EditorSession.ResetAfterAnyRun | frontend/src/App.js:403-411 | After any sequence of events, reset yields the document the editor was opened with. |
| EditorSession.RunKeepsParamsOk | frontend/src/App.js:683-724 | Settings stay within their sliders' ranges and steps. |
| EditorSession.RunKeyGuardsDocument | frontend/src/App.js:617 | The key never decreases. A run that leaves the key unchanged leaves the document unchanged, so the player is always remounted when its document is replaced. |
| EditorSession.RunKeyCountsRemounts | frontend/src/App.js:617 | Over a run, the key grows by exactly the number of resets plus applied answers. |
| EditorSession.RunWithoutRemountKeepsDocument | frontend/src/App.js:425-430 | A run with no reset and no applied answer ends on the same document and key. |
| EditorSession.RequestStaysInFlight | frontend/src/App.js:501-544 | Until its answer arrives, a request stays in flight, whatever other events come. |
| EditorSession.FailedEditStillRemounts | frontend/src/App.js:508-519 | When the back end falls back (backend/server.py:289-293), the answer carries the document captured at the click. Whatever events came in between, that document is put back, the player remounts and the prompt is cleared. |
| EditorSession.ResetDuringFailedEditUndone | frontend/src/App.js:508-519 | A reset (frontend/src/App.js:557, never disabled) made while a failing edit is in flight is undone by its answer: the document goes back to the one sent, with two remounts. |
| EditorSession.EditAnswerKeepsObject | frontend/src/App.js:516-519 | Whatever the model answers, the document stays a JSON object after the edit endpoint responds. |
| EditorSession.Payload | frontend/src/App.js:447-452 | The project holds the working document, the template's id and the four current settings. Its name starts with the animation's name and ends with the time stamp. |
| EditorSession.ReopenedProjectLosesSettings | frontend/src/App.js:396-399 | A saved project reopens on its document with default settings. Saved non-default settings are lost. |
| EditorSession.FormatLabel | frontend/src/App.js:489 | The default message uses the upper-cased format name. |
| EditorSession.ExportOutcome | frontend/src/App.js:468-499 | A rejected request shows the error toast. A reply without `success` shows nothing. A successful reply shows its `message` when there is one, and otherwise "Exported as " and the upper-cased format name. It offers a download exactly for JSON, which saves the reply's `data` under the reply's `filename`. |
| EditorSession.Editor.constructor | frontend/src/App.js:394-406 | The fields start as the opened state, playing. |
| EditorSession.Editor.Reset | frontend/src/App.js:409-422 | The new state is the reset of the old one. |
| EditorSession.Editor.ChangeSpeed | frontend/src/App.js:425-430 | Only the speed changes, to a value within the slider's range. |
| EditorSession.Editor.ChangeSize | frontend/src/App.js:693-700 | Only the size changes. |
| EditorSession.Editor.ChangeRotation | frontend/src/App.js:705-712 | Only the rotation changes. |
| EditorSession.Editor.ChangeOpacity | frontend/src/App.js:717-724 | Only the opacity changes. |
| EditorSession.Editor.ChangePrompt | frontend/src/App.js:640 | Only the prompt changes. |
| EditorSession.Editor.PlayPause | frontend/src/App.js:433-443 | Only the playing flag flips. |
| EditorSession.Editor.SubmitPrompt | frontend/src/App.js:501-512 | A request is returned exactly when the button is enabled. It carries the working document and the trimmed prompt, and the flag is raised. |
| EditorSession.Editor.CompleteSubmit | frontend/src/App.js:514-544 | The new state is the old state completed with the outcome, and the flag is down. |
| EditorSession.Editor.SaveAsProject | frontend/src/App.js:445-466 | The project payload is built from the fields. The editor does not change. |
| EditorSession.Editor.Export | frontend/src/App.js:468-499 | The request carries the working document, the format and the id. The feedback follows the reply, and the editor does not change. |

## Left out

- JSX markup, CSS, the sidebar and explore tab, toasts and console logging are left out. They are display only.
- The Lottie player is left out: its `setSpeed`, `play` and `pause` calls, and its rendering of the transform style.
- HTTP and browser I/O are passed in as their outcome, or not modelled:
  - the axios calls;
  - the URL fetch and validation in `UploadTab`;
  - the Blob and anchor download in `handleExport`, which appears only as the `Download` value.
- FastAPI routing, CORS and the MongoDB driver are left out. The stored records are a map from id to document.
- The database write-back inside the edit endpoint (backend/server.py:277-287) is left out. Its own failure is caught, so it cannot change the response. It runs before the response model checks the reply, so it can store an `animationData` that is not a dict (a reply that decodes to a list, backend/server.py:173). The model's collection never receives such a record.
- `get_animations`, `get_animation` and `delete_animation` are not modelled beyond `CreateThenRead`. Each read re-validates the record through the `Animation` model (backend/server.py:194, :219). In `get_animations` one record that fails validation makes the catch-all at backend/server.py:195-197 return an empty library.
- The chat library (`LlmChat`), its system message and the prompt text are left out. The model's reply is the result of the `chat` parameter.
- Floating-point numbers are left out:
  - speed is in tenths;
  - JSON numbers are integers;
  - `size / 100` and `opacity / 100` are not computed.
- `Text.Lower` and `Text.Upper` change the ASCII letters only. JavaScript's Unicode case mapping is not modelled.
- Python's `isoformat` and `fromisoformat` are not modelled as string formats. The round-trip lemmas require only that one inverts the other.
- The front end calls `/api/projects` and `/api/export`, but backend/server.py defines no such routes. The model takes their outcomes as parameters, so a save or export that fails for this reason is the failure branch.
- AnimationStore.UpdateAnimation: the `Animation` model's validation of the record read back (backend/server.py:248) is the parameter `validates`, not a model of pydantic's rules. A rejected record gives `ServerError` (500) after the `$set` has been stored (`UpdateWritesBeforeValidating`). `Updated.animation` is the parsed dict, not the pydantic model built from it: the source's answer drops extra keys such as MongoDB's `_id` and fills defaults for missing fields, which the model does not do. Other exceptions come from the database driver, which is not modelled.
- EditorSession.Step ignores an answer when no request is pending. In the component an answer arrives only for the request in flight.
- Real concurrency is not modelled. An edit request is a begin step and a later answer step, and other events may come between them.
- Where the code does something other than what its UI suggests, the model follows the code:
  - The sliders only change the player's display. No code rescales the document's frame rate, width, height or keyframes, and the settings do not count as a revision.
  - Opening a saved project starts with default settings (`ReopenedProjectLosesSettings`).
  - A failed AI edit is not a "no change" outcome. The back end reports success with the unchanged document, and the editor remounts the player and clears the prompt (`FailedEditStillRemounts`). A reset made while such a request is in flight is undone by the answer (`ResetDuringFailedEditUndone`).
