/**
  The state the Drive integration reads and writes, and what each handler does to it as one
  sequential step, with the outcome of every remote call given as an input.
 */
module Session {
  import opened Outcomes
  import opened Cells
  import opened FileNames
  import Multipart

  /** The signed-in Google account, as returned by the `about` call. */
  datatype User = User(displayName: string, emailAddress: string)

  /** One row of the file listing shown by the load dialog. */
  datatype FileEntry = FileEntry(id: string, name: string, createdTime: string, modifiedTime: string)

  /**
    The component's state: the signed-in user, the remote file handle (`googleDriveFileId`),
    the listed files, and the calendar fields it saves and loads.
   */
  datatype State = State(
    user: Option<User>,
    fileId: Option<string>,
    files: seq<FileEntry>,
    selectedYear: int,
    dateCells: DateCells,
    colorTexture: string,
    view: string)

  /** The document written on save, before `JSON.stringify`. */
  datatype SavedDocument = SavedDocument(
    selectedYear: int,
    dateCells: DateCells,
    colorTexture: string,
    view: string,
    fileId: Option<string>,
    version: string,
    exportDate: string)

  /**
    The fields the load handler reads from a fetched document; `None` is a field that is
    absent, and for `dateCells` also one that is `null` or not an object.
   */
  datatype LoadedDocument = LoadedDocument(
    selectedYear: Option<int>,
    dateCells: Option<DateCells>,
    colorTexture: Option<string>,
    view: Option<string>)

  /** The request a handler sends. */
  datatype Request =
    | SignInPrompt
    | Revoke(token: string)
    | ListJsonFiles
    | Get(fileId: string)
    | Update(fileId: string, content: string)
    | Create(contentType: string, body: string)

  const Version: string := "2.0"

  /** `if (googleDriveFileId)`: an id is present and is not the empty string. */
  predicate HasHandle(s: State) {
    s.fileId.Some? && s.fileId.value != ""
  }

  /** A loaded year is applied only when truthy: present and not 0. */
  predicate YearTruthy(o: Option<int>) {
    o.Some? && o.value != 0
  }

  /** A loaded string is applied only when truthy: present and not empty. */
  predicate TextTruthy(o: Option<string>) {
    o.Some? && o.value != ""
  }

  /** The calendar fields are those of `s`. */
  predicate SameCalendar(r: State, s: State) {
    r.selectedYear == s.selectedYear && r.dateCells == s.dateCells
    && r.colorTexture == s.colorTexture && r.view == s.view
  }

  // ---------------------------------------------------------------- sign-in and sign-out

  /** `checkUser`: the `about` call names the user, or its failure signs them out. */
  function AfterCheckUser(s: State, about: Result<User>): State {
    match about
    case Success(u) => s.(user := Some(u))
    case Failure(_) => s.(user := None)
  }

  /** `handleSignoutClick` revokes a present token, and nothing else happens without one. */
  function SignoutRequest(token: Option<string>): Option<Request> {
    if token.Some? then Some(Revoke(token.value)) else None
  }

  /** Once the revocation completes, the user and the file handle are cleared. */
  function AfterSignout(s: State, token: Option<string>): State {
    if token.Some? then s.(user := None, fileId := None) else s
  }

  /** Only the user changes: signed in exactly when the `about` call succeeds, and then as the user it names. */
  lemma CheckUserOnlyUser(s: State, about: Result<User>)
    ensures AfterCheckUser(s, about).user.Some? <==> about.Success?
    ensures about.Success? ==> AfterCheckUser(s, about).user == Some(about.value)
    ensures AfterCheckUser(s, about).(user := s.user) == s
  {
  }

  lemma SignoutClears(s: State, token: Option<string>)
    ensures token.Some? ==> AfterSignout(s, token).user.None? && AfterSignout(s, token).fileId.None?
    ensures token.Some? ==> !HasHandle(AfterSignout(s, token))
    ensures token.None? ==> AfterSignout(s, token) == s && SignoutRequest(token).None?
    ensures SameCalendar(AfterSignout(s, token), s) && AfterSignout(s, token).files == s.files
  {
  }

  // ---------------------------------------------------------------- save

  /** `dataToSave`: the calendar fields, the current handle, the version tag and the export time. */
  function Document(s: State, exportDate: string): SavedDocument {
    SavedDocument(s.selectedYear, s.dateCells, s.colorTexture, s.view, s.fileId, Version, exportDate)
  }

  /**
    `handleSaveToDrive`: without a user it only asks for sign-in; with a handle it updates
    that file with the serialized document; otherwise it creates a file through a multipart body.
   */
  function SaveRequest(s: State, content: string): Request {
    if s.user.None? then SignInPrompt
    else if HasHandle(s) then Update(s.fileId.value, content)
    else Create(Multipart.RequestContentType, Multipart.Body(MetadataJson(s.selectedYear), content))
  }

  /** Only a successful create changes the state: it adopts the new file's id. */
  function AfterSave(s: State, created: Result<string>): State {
    if s.user.Some? && !HasHandle(s) && created.Success? then s.(fileId := Some(created.value)) else s
  }

  lemma SaveSignedOut(s: State, content: string, created: Result<string>)
    requires s.user.None?
    ensures SaveRequest(s, content) == SignInPrompt
    ensures AfterSave(s, created) == s
  {
  }

  /** With a handle, a save updates that same file and keeps the handle. */
  lemma SaveWithHandle(s: State, content: string, created: Result<string>)
    requires s.user.Some? && HasHandle(s)
    ensures SaveRequest(s, content) == Update(s.fileId.value, content)
    ensures AfterSave(s, created) == s
  {
  }

  /**
    Without a handle, a save creates `year-planner-<year>.json` from a body whose two parts
    are the metadata and the content; it adopts the returned id only when the create succeeds.
   */
  lemma SaveWithoutHandle(s: State, content: string, created: Result<string>)
    requires s.user.Some? && !HasHandle(s)
    ensures SaveRequest(s, content).Create?
    ensures SaveRequest(s, content).contentType == "multipart/related; boundary=foo_bar_baz"
    ensures Multipart.Parse(SaveRequest(s, content).body) == Some((MetadataJson(s.selectedYear), content))
    ensures created.Success? ==> AfterSave(s, created) == s.(fileId := Some(created.value))
    ensures created.Failure? ==> AfterSave(s, created) == s
  {
    Multipart.ParseBody(MetadataJson(s.selectedYear), content);
    Multipart.RequestContentTypeText();
  }

  /** The state after a run of saves, the i-th consuming `outcomes[i]` if it creates a file. */
  function AfterSaves(s: State, outcomes: seq<Result<string>>): State
    decreases |outcomes|
  {
    if outcomes == [] then s else AfterSaves(AfterSave(s, outcomes[0]), outcomes[1..])
  }

  /** How many saves of the run send a create request. */
  function CreatesSent(s: State, outcomes: seq<Result<string>>): nat
    decreases |outcomes|
  {
    if outcomes == [] then 0
    else (if SaveRequest(s, "").Create? then 1 else 0) + CreatesSent(AfterSave(s, outcomes[0]), outcomes[1..])
  }

  /** How many saves of the run adopt a new file id. */
  function Adoptions(s: State, outcomes: seq<Result<string>>): nat
    decreases |outcomes|
  {
    if outcomes == [] then 0
    else (if AfterSave(s, outcomes[0]).fileId != s.fileId then 1 else 0) + Adoptions(AfterSave(s, outcomes[0]), outcomes[1..])
  }

  /** Ids the remote store hands out are never empty. */
  predicate RealIds(outcomes: seq<Result<string>>) {
    forall i :: 0 <= i < |outcomes| && outcomes[i].Success? ==> outcomes[i].value != ""
  }

  /** While a handle is held, any number of saves sends no create and keeps the same handle. */
  lemma {:induction false} SavesKeepHandle(s: State, outcomes: seq<Result<string>>)
    requires HasHandle(s)
    ensures CreatesSent(s, outcomes) == 0 && Adoptions(s, outcomes) == 0
    ensures AfterSaves(s, outcomes) == s
    decreases |outcomes|
  {
    if outcomes != [] {
      SavesKeepHandle(AfterSave(s, outcomes[0]), outcomes[1..]);
    }
  }

  /**
    Repeated saves create at most one file: once a create succeeds its id is the handle, and
    every later save of the run updates it.
   */
  lemma {:induction false} SavesAdoptAtMostOnce(s: State, outcomes: seq<Result<string>>)
    requires RealIds(outcomes)
    ensures Adoptions(s, outcomes) <= 1
    ensures Adoptions(s, outcomes) == 1 ==> HasHandle(AfterSaves(s, outcomes))
    ensures AfterSaves(s, outcomes).user == s.user && SameCalendar(AfterSaves(s, outcomes), s)
    decreases |outcomes|
  {
    if outcomes != [] {
      var next := AfterSave(s, outcomes[0]);
      assert RealIds(outcomes[1..]) by {
        forall i | 0 <= i < |outcomes[1..]| && outcomes[1..][i].Success?
          ensures outcomes[1..][i].value != ""
        {
          assert outcomes[1..][i] == outcomes[i + 1];
        }
      }
      if next.fileId != s.fileId {
        assert HasHandle(next);
        SavesKeepHandle(next, outcomes[1..]);
      } else {
        SavesAdoptAtMostOnce(next, outcomes[1..]);
      }
    }
  }

  // ---------------------------------------------------------------- load

  /** `handleLoadFromDrive`: without a user it only asks for sign-in; otherwise it lists JSON files. */
  function ListRequest(s: State): Request {
    if s.user.None? then SignInPrompt else ListJsonFiles
  }

  /** A successful listing replaces the files offered by the load dialog. */
  function AfterList(s: State, listing: Result<seq<FileEntry>>): State {
    if s.user.Some? && listing.Success? then s.(files := listing.value) else s
  }

  lemma ListSignedOut(s: State, listing: Result<seq<FileEntry>>)
    requires s.user.None?
    ensures ListRequest(s) == SignInPrompt && AfterList(s, listing) == s
  {
  }

  /**
    `loadFile`: on success the loaded cells are merged in, each truthy year, texture and view
    replaces the current one, and the chosen id becomes the handle; a failed fetch changes nothing.
   */
  function AfterLoad(s: State, fileId: string, fetched: Result<LoadedDocument>): State {
    match fetched
    case Failure(_) => s
    case Success(doc) =>
      s.(dateCells := if doc.dateCells.Some? then Merged(s.dateCells, doc.dateCells.value) else s.dateCells,
         selectedYear := if YearTruthy(doc.selectedYear) then doc.selectedYear.value else s.selectedYear,
         colorTexture := if TextTruthy(doc.colorTexture) then doc.colorTexture.value else s.colorTexture,
         view := if TextTruthy(doc.view) then doc.view.value else s.view,
         fileId := Some(fileId))
  }

  lemma LoadFailureChangesNothing(s: State, fileId: string, message: string)
    ensures AfterLoad(s, fileId, Failure(message)) == s
  {
  }

  /** A successful load adopts the chosen id and keeps the user and the listing. */
  lemma LoadAdoptsId(s: State, fileId: string, doc: LoadedDocument)
    ensures AfterLoad(s, fileId, Success(doc)).fileId == Some(fileId)
    ensures AfterLoad(s, fileId, Success(doc)).user == s.user
    ensures AfterLoad(s, fileId, Success(doc)).files == s.files
  {
  }

  /** Year, texture and view change only to a truthy loaded value, and otherwise stay. */
  lemma LoadAppliesTruthyFields(s: State, fileId: string, doc: LoadedDocument)
    ensures var r := AfterLoad(s, fileId, Success(doc));
      && (r.selectedYear != s.selectedYear ==> YearTruthy(doc.selectedYear) && r.selectedYear == doc.selectedYear.value)
      && (YearTruthy(doc.selectedYear) ==> r.selectedYear == doc.selectedYear.value)
      && (r.colorTexture != s.colorTexture ==> TextTruthy(doc.colorTexture) && r.colorTexture == doc.colorTexture.value)
      && (TextTruthy(doc.colorTexture) ==> r.colorTexture == doc.colorTexture.value)
      && (r.view != s.view ==> TextTruthy(doc.view) && r.view == doc.view.value)
      && (TextTruthy(doc.view) ==> r.view == doc.view.value)
  {
  }

  /**
    The cells after a load: each loaded date is its current record overlaid by the loaded one,
    each other date is unchanged, and without loaded cells nothing changes.
   */
  lemma LoadMergesCells(s: State, fileId: string, doc: LoadedDocument)
    ensures var r := AfterLoad(s, fileId, Success(doc));
      && (doc.dateCells.None? ==> r.dateCells == s.dateCells)
      && (doc.dateCells.Some? ==>
            && r.dateCells.Keys == s.dateCells.Keys + doc.dateCells.value.Keys
            && (forall k :: k in doc.dateCells.value ==>
                  r.dateCells[k] == Overlay(Existing(s.dateCells, k), doc.dateCells.value[k]))
            && (forall k :: k in s.dateCells && k !in doc.dateCells.value ==> r.dateCells[k] == s.dateCells[k]))
  {
  }

  /** How a saved document reads back: every field it wrote is present. */
  function AsLoaded(d: SavedDocument): LoadedDocument {
    LoadedDocument(Some(d.selectedYear), Some(d.dateCells), Some(d.colorTexture), Some(d.view))
  }

  /** Loading back the document just saved leaves the calendar as it is and adopts the id. */
  lemma SaveLoadRoundTrip(s: State, exportDate: string, fileId: string)
    ensures AfterLoad(s, fileId, Success(AsLoaded(Document(s, exportDate)))) == s.(fileId := Some(fileId))
  {
    MergeSelf(s.dateCells);
  }

  /** After a successful load, saves update the loaded file and never create one. */
  lemma {:induction false} SavesAfterLoad(s: State, fileId: string, doc: LoadedDocument, outcomes: seq<Result<string>>)
    requires fileId != ""
    ensures CreatesSent(AfterLoad(s, fileId, Success(doc)), outcomes) == 0
    ensures AfterSaves(AfterLoad(s, fileId, Success(doc)), outcomes).fileId == Some(fileId)
  {
    SavesKeepHandle(AfterLoad(s, fileId, Success(doc)), outcomes);
  }
}
