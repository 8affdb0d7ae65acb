/**
  The Google Drive integration component: its state as fields updated in place by the
  handlers, each handler one sequential step whose remote-call outcomes are parameters.
 */
module Component {
  import opened Outcomes
  import opened Cells
  import opened FileNames
  import opened Session
  import Multipart

  class GoogleDriveIntegration {
    var user: Option<User>
    var googleDriveFileId: Option<string>
    var files: seq<FileEntry>
    var selectedYear: int
    var dateCells: DateCells
    var selectedColorTexture: string
    var selectedView: string

    /** The fields as one value. */
    function Snapshot(): State
      reads this
    {
      State(user, googleDriveFileId, files, selectedYear, dateCells, selectedColorTexture, selectedView)
    }

    /** Mounts with the calendar context's fields and no user signed in. */
    constructor (year: int, cells: DateCells, colorTexture: string, view: string, fileId: Option<string>)
      ensures Snapshot() == State(None, fileId, [], year, cells, colorTexture, view)
    {
      user := None;
      googleDriveFileId := fileId;
      files := [];
      selectedYear := year;
      dateCells := cells;
      selectedColorTexture := colorTexture;
      selectedView := view;
    }

    /** `checkUser`, run once a token has been granted. */
    method CheckUser(about: Result<User>)
      modifies this
      ensures Snapshot() == AfterCheckUser(old(Snapshot()), about)
    {
      match about {
        case Success(u) => user := Some(u);
        case Failure(_) => user := None;
      }
    }

    /** `handleSignoutClick`, with the revocation completed. */
    method HandleSignoutClick(token: Option<string>) returns (sent: Option<Request>)
      modifies this
      ensures sent == SignoutRequest(token)
      ensures Snapshot() == AfterSignout(old(Snapshot()), token)
    {
      sent := None;
      if token.Some? {
        sent := Some(Revoke(token.value));
        user := None;
        googleDriveFileId := None;
      }
    }

    /**
      `handleSaveToDrive`. `stringify` is the JSON serialization of the saved document,
      `exportDate` the clock reading, `created` the outcome of a create request (consulted
      only when one is sent).
     */
    method HandleSaveToDrive(exportDate: string, stringify: SavedDocument -> string, created: Result<string>)
      returns (sent: Request)
      modifies this
      ensures sent == SaveRequest(old(Snapshot()), stringify(Document(old(Snapshot()), exportDate)))
      ensures Snapshot() == AfterSave(old(Snapshot()), created)
    {
      if user.None? {
        sent := SignInPrompt;
        return;
      }
      var dataToSave := SavedDocument(selectedYear, dateCells, selectedColorTexture, selectedView,
                                      googleDriveFileId, Version, exportDate);
      var fileContent := stringify(dataToSave);
      if googleDriveFileId.Some? && googleDriveFileId.value != "" {
        sent := Update(googleDriveFileId.value, fileContent);
      } else {
        var body := Multipart.Body(MetadataJson(selectedYear), fileContent);
        sent := Create(Multipart.RequestContentType, body);
        if created.Success? {
          googleDriveFileId := Some(created.value);
        }
      }
    }

    /** `handleLoadFromDrive`, with the outcome of the listing call. */
    method HandleLoadFromDrive(listing: Result<seq<FileEntry>>) returns (sent: Request)
      modifies this
      ensures sent == ListRequest(old(Snapshot()))
      ensures Snapshot() == AfterList(old(Snapshot()), listing)
    {
      if user.None? {
        sent := SignInPrompt;
        return;
      }
      sent := ListJsonFiles;
      if listing.Success? {
        files := listing.value;
      }
    }

    /** `loadFile`, with the outcome of fetching the chosen file's content. */
    method LoadFile(fileId: string, fetched: Result<LoadedDocument>) returns (sent: Request)
      modifies this
      ensures sent == Get(fileId)
      ensures Snapshot() == AfterLoad(old(Snapshot()), fileId, fetched)
    {
      sent := Get(fileId);
      if fetched.Failure? {
        return;
      }
      var loadedData := fetched.value;
      if loadedData.dateCells.Some? {
        var newDateCells := MergeDateCells(dateCells, loadedData.dateCells.value);
        dateCells := newDateCells;
      }
      if YearTruthy(loadedData.selectedYear) {
        selectedYear := loadedData.selectedYear.value;
      }
      if TextTruthy(loadedData.colorTexture) {
        selectedColorTexture := loadedData.colorTexture.value;
      }
      if TextTruthy(loadedData.view) {
        selectedView := loadedData.view.value;
      }
      googleDriveFileId := Some(fileId);
    }
  }

  /**
    A save that creates a file, followed by two more saves: whatever the outcomes handed to
    the later saves, both update the new file and the handle stays.
   */
  method SaveTwiceAfterCreate(c: GoogleDriveIntegration, stringify: SavedDocument -> string, id: string,
                              o2: Result<string>, o3: Result<string>)
    returns (first: Request, second: Request, third: Request)
    requires c.user.Some? && !HasHandle(c.Snapshot()) && id != ""
    modifies c
    ensures first.Create?
    ensures second.Update? && second.fileId == id
    ensures third.Update? && third.fileId == id
    ensures c.googleDriveFileId == Some(id)
  {
    first := c.HandleSaveToDrive("t0", stringify, Success(id));
    second := c.HandleSaveToDrive("t1", stringify, o2);
    third := c.HandleSaveToDrive("t2", stringify, o3);
  }
}
