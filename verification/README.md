# Year planner: Google Drive save/load, modelled in Dafny

The year planner keeps its calendar (the selected year, a map from date keys to cell
attributes, a colour texture and a view) in a React context. The Google Drive integration
component saves that calendar as a JSON file in the user's Drive and loads one back. This
project models what the component itself decides:

- which request each handler sends: a sign-in prompt, an update of the file it holds a handle
  to, or the creation of a new file through a hand-built `multipart/related` body;
- when it adopts a remote file id (`googleDriveFileId`) and when it clears it;
- how a loaded document is applied: a field-level merge of its date cells into the current
  ones, and year, texture and view taken only when the loaded value is truthy.

The `about`, list, get and create calls each become a parameter that gives their outcome:
`Success(value)` or `Failure(message)`. The update call and token revocation have no outcome
parameter: a failed update changes nothing the model holds, and revocation is modelled by the
token it is given. Each handler is one sequential step.

Files:

- `outcomes.dfy`: `Option`, and `Result` for the outcome of a remote call.
- `file_names.dfy`: the file name `year-planner-<year>.json` with its decimal year, a parser
  that reads the year back, and the metadata JSON of the create request.
- `multipart.dfy`: the create request's body (boundary `foo_bar_baz`, two parts, closing
  delimiter), and a parser that splits a body back into its two parts.
- `cells.dfy`: attribute records, the overlay `{...existing, ...incoming}`, the merge as a
  specification function `Merged`, and the merge loop `MergeDateCells` proved equal to it.
- `session.dfy`: the component's state as a value, what each handler does to it (`AfterSave`,
  `AfterLoad`, `AfterSignout`, …) and the lemmas about them, including runs of repeated saves.
- `component.dfy`: the class `GoogleDriveIntegration`. Its fields are updated in place by one
  method per handler, and each method's postcondition ties the new state to the
  corresponding function of `session.dfy`.

Truthiness is written out where the component relies on it:

- a handle is present only when the id is present and not `""`;
- a loaded year is applied only when present and not `0`;
- a loaded texture or view is applied only when present and not `""`;
- loaded `dateCells` are merged only when present and an object.

The model follows the code, also where it is looser than a save/load contract might be
expected to be:

- A fetched document that is not an object, or that carries none of the fields, is not an
  error. `loadFile` still adopts the chosen id and reports success, and the calendar stays
  as it was. Only a failed fetch leaves the handle untouched.
- `loadFile` does not check for a signed-in user. Only `handleLoadFromDrive`, which opens
  the dialog that calls `loadFile`, checks for one.
- Sign-out does something only when a token is present. The user and the handle are
  cleared in the revocation's callback, which the model treats as completed.

## Model

| member | source | states |
|---|---|---|
| `FileNames.FileName` | src/components/GoogleDriveIntegration.tsx:157 | the name starts with `year-planner-`, ends with `.json` and holds no carriage return |
| `FileNames.DecimalRoundTrip` | src/components/GoogleDriveIntegration.tsx:157 | the year written into the template literal reads back as the same integer, sign included |
| `FileNames.FileNameRoundTrip` | src/components/GoogleDriveIntegration.tsx:157 | the year can be read back from the file name |
| `FileNames.FileNameInjective` | src/components/GoogleDriveIntegration.tsx:157 | two years get the same file name exactly when they are equal |
| `FileNames.MetadataJson` | src/components/GoogleDriveIntegration.tsx:173-177 | the serialized metadata is exactly `{"name":"`, then the file name `year-planner-<year>.json`, then `","mimeType":"application/json"}`, and holds no carriage return |
| `Multipart.Body` | src/components/GoogleDriveIntegration.tsx:179-194 | the body starts with the delimiter and `Content-Type` header and ends with the closing delimiter; the metadata follows the first header, a second delimiter and header follow the metadata, then the content; its length is the parts' lengths plus the fixed framing |
| `Multipart.FramingText` | src/components/GoogleDriveIntegration.tsx:179-187 | the opening is exactly `\r\n--foo_bar_baz\r\nContent-Type: application/json\r\n\r\n` |
| `Multipart.DelimiterText` | src/components/GoogleDriveIntegration.tsx:179-181 | the delimiter is `\r\n--foo_bar_baz\r\n` and the closing delimiter `\r\n--foo_bar_baz--` |
| `Multipart.HeaderText` | src/components/GoogleDriveIntegration.tsx:183-192 | the content part's header is the same `Content-Type: application/json` line and blank line as the metadata part's |
| `Multipart.Parse` | src/components/GoogleDriveIntegration.tsx:185-194 | every body the parser accepts is exactly the body built from the two parts it returns |
| `Multipart.ParseBody` | src/components/GoogleDriveIntegration.tsx:185-194 | a body built from CR-free metadata splits back into exactly its two parts, metadata first and content second, whatever the content |
| `Multipart.BoundaryLines` | src/components/GoogleDriveIntegration.tsx:179-194 | when neither part holds a CR or starts with `-` (true of `JSON.stringify` of an object, which both parts are: lines 156 and 188), `\r\n--foo_bar_baz` occurs in the body exactly at the start, before the content part and at the closing delimiter: three delimiter lines, two parts |
| `Multipart.CreateBodyBoundaries` | src/components/GoogleDriveIntegration.tsx:173-194 | the create body has exactly those three delimiter lines whenever the saved content is JSON-like |
| `Multipart.RequestContentTypeText` | src/components/GoogleDriveIntegration.tsx:202-204 | the request's own header is exactly `multipart/related; boundary=foo_bar_baz` |
| `Multipart.CreateBodyParts` | src/components/GoogleDriveIntegration.tsx:173-194 | the create request's body splits back into the metadata (which names the file) and the saved content |
| `Cells.Overlay` | src/components/GoogleDriveIntegration.tsx:263-266 | the overlaid record has the fields of both; loaded fields win, the other existing fields survive |
| `Cells.Merged` | src/components/GoogleDriveIntegration.tsx:255-268 | the merged dates are the current and the loaded ones; each loaded date holds its existing record (`Existing`: the current one, or `{}` as line 262 defaults) overlaid by the loaded one; a date new to the cells takes exactly the loaded record; each other current date is unchanged |
| `Cells.OverlayOnEmpty` | src/components/GoogleDriveIntegration.tsx:262-266 | spreading a loaded record over the `{}` default gives exactly the loaded record |
| `Cells.MergedCharacterized` | src/components/GoogleDriveIntegration.tsx:255-268 | any cells with the merge's dates and per-date records are the merge: the pointwise description determines the result |
| `Cells.MergeDateCells` | src/components/GoogleDriveIntegration.tsx:256-267 | the copy-and-set loop over the loaded entries produces exactly `Merged(current, loaded)` |
| `Cells.MergeKeepsFields` | src/components/GoogleDriveIntegration.tsx:261-267 | no date and no field is ever lost by a merge; a field the loaded record does not mention keeps its value |
| `Cells.MergeIdempotent` | src/components/GoogleDriveIntegration.tsx:256-267 | merging the same loaded cells twice gives what merging them once gives |
| `Cells.MergeSelf` | src/components/GoogleDriveIntegration.tsx:256-267 | merging the cells one already holds changes nothing |
| `Cells.MergeNothing` | src/components/GoogleDriveIntegration.tsx:256-268 | an empty loaded object leaves the cells unchanged |
| `Cells.MergeExample` | src/components/GoogleDriveIntegration.tsx:261-267 | a date in both gains the loaded field beside its own; a date only held locally is kept |
| `Session.CheckUserOnlyUser` | src/components/GoogleDriveIntegration.tsx:102-113 | after `checkUser` a user is signed in exactly when the `about` call succeeded, as the user it returned; nothing else changes |
| `Session.SignoutClears` | src/components/GoogleDriveIntegration.tsx:125-134 | with a token, sign-out clears the user and the handle; without one nothing changes and nothing is sent; the calendar is never touched |
| `Session.SaveSignedOut` | src/components/GoogleDriveIntegration.tsx:139-142 | without a user, saving only asks for sign-in and changes nothing |
| `Session.SaveWithHandle` | src/components/GoogleDriveIntegration.tsx:160-170 | signed in, with a handle, saving updates that same id with the content and leaves the state unchanged |
| `Session.SaveWithoutHandle` | src/components/GoogleDriveIntegration.tsx:171-211 | signed in, without a handle, saving sends a create with header `multipart/related; boundary=foo_bar_baz` whose body splits into the metadata naming `year-planner-<year>.json` and the content; the new id is adopted on success and nothing changes on failure |
| `Session.SavesKeepHandle` | src/components/GoogleDriveIntegration.tsx:160-170 | while a handle is held, no save of any run has `SaveRequest` build a create, and the state stays as it is |
| `Session.SavesAdoptAtMostOnce` | src/components/GoogleDriveIntegration.tsx:160-211 | given non-empty ids from Drive, in any run of saves at most one new id is adopted, after which a handle is held; the user and calendar are never changed by saving |
| `Session.ListSignedOut` | src/components/GoogleDriveIntegration.tsx:221-225 | without a user, opening the load dialog only asks for sign-in and changes nothing |
| `Session.LoadFailureChangesNothing` | src/components/GoogleDriveIntegration.tsx:247-251 | a failed fetch leaves the handle and every calendar field as they were |
| `Session.LoadAdoptsId` | src/components/GoogleDriveIntegration.tsx:275 | a successful load adopts the chosen id and keeps the user and the listing |
| `Session.LoadAppliesTruthyFields` | src/components/GoogleDriveIntegration.tsx:271-273 | year, texture and view change only to a truthy loaded value, and a truthy loaded value is always taken |
| `Session.LoadMergesCells` | src/components/GoogleDriveIntegration.tsx:255-268 | a load overlays each loaded date on its existing record, keeps every other date, and leaves the cells untouched without loaded cells |
| `Session.SaveLoadRoundTrip` | src/components/GoogleDriveIntegration.tsx:146-154 | loading back the document just saved leaves the calendar unchanged and only adopts the id |
| `Session.SavesAfterLoad` | src/components/GoogleDriveIntegration.tsx:275 | after loading a file with a non-empty id, any run of saves never creates a file and keeps that id as the handle |
| `Component.GoogleDriveIntegration.constructor` | src/components/GoogleDriveIntegration.tsx:19-40 | the component starts from the context's calendar and handle, with no user and no listed files |
| `Component.GoogleDriveIntegration.CheckUser` | src/components/GoogleDriveIntegration.tsx:102-113 | the user becomes the one the `about` call returns, or none when it fails |
| `Component.GoogleDriveIntegration.HandleSignoutClick` | src/components/GoogleDriveIntegration.tsx:125-136 | sends a revocation for a present token and then clears the user and the handle |
| `Component.GoogleDriveIntegration.HandleSaveToDrive` | src/components/GoogleDriveIntegration.tsx:138-219 | sends the sign-in prompt, the update of the held file, or the multipart create; the new state is `AfterSave` of the old one |
| `Component.GoogleDriveIntegration.HandleLoadFromDrive` | src/components/GoogleDriveIntegration.tsx:221-242 | sends the sign-in prompt or the JSON file listing; a successful listing replaces the files |
| `Component.GoogleDriveIntegration.LoadFile` | src/components/GoogleDriveIntegration.tsx:244-285 | fetches the chosen file; on success merges its cells, applies truthy fields and adopts the id; on failure changes nothing |
| `Component.SaveTwiceAfterCreate` | src/components/GoogleDriveIntegration.tsx:160-211 | from a signed-in state without a handle (none or `""`), a save whose create returns a non-empty id sends a create; the two saves after it, for any outcomes, each send an update to that id, and the handle stays that id |

## Left out

- Loading the two Google scripts and initialising their clients (lines 44-100): DOM and third-party globals.
- The configuration gate on the client id and API key (lines 13-14, 93-98, 287-289): a missing key disables the component before any handler can run, so it has no state to model.
- The OAuth token flow (lines 57-69, 115-123): delegated to Google. Signing in appears only as the `SignInPrompt` request and as `CheckUser` once a token is granted.
- Token revocation (lines 126-129) is a foreign call: the token is a parameter, and the callback is treated as having run.
- The HTTP calls themselves: the outcomes of the `about`, list, get and create calls are parameters; the update call has none, because a failed update changes nothing the model holds.
- `JSON.stringify` of the saved document is the parameter `stringify`. The parsed document is abstracted to the fields `loadFile` reads (`LoadedDocument`).
- Cell attribute values are JSON scalars with integer numbers. A loaded cell that is not an object (a string would be spread character by character) is not modelled, and neither are fractional years, `NaN`, or numbers written in exponent form.
- A `null` fetched result makes `loadFile` throw; the model counts it among failed fetches.
- Status messages, their timers, the `loading` flag, the dialog's visibility and all rendering (lines 35-36, 40, 132-133, 143-144, 170, 210-217, 226, 235, 237-238, 240, 245-246, 276-283, 287-408): UI and timing. A second save while one is in flight is prevented only by the disabled button; the model runs handlers one at a time.
- The saved document's `googleDriveFileId` field is written (line 151) but never read back by `loadFile`, so `LoadedDocument` does not carry it.
- `FileNames.MetadataJson`: gives the metadata text character for character but states no JSON grammar, so that it parses as JSON is not a proved property.
- `HandleSaveToDrive`'s `stringify` parameter is not constrained: that `JSON.stringify` of an object never writes a raw CR and starts with `{` is a hypothesis (`JsonLike`) of `Multipart.BoundaryLines` and `Multipart.CreateBodyBoundaries`, not a property of the parameter.
- Loaded `selectedYear` is assumed to be an integer, and loaded `selectedColorTexture` and `selectedView` to be strings. The source applies any truthy JSON value (a string year such as `"2025"`, a numeric view), and a string year would then flow into the file name; values of other JSON types are not modelled.
