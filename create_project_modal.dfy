/** The new-project form: an optional picture is uploaded first, then the row
    is inserted for the logged-in user.

    Storage and auth are inputs: whether the upload is refused, the public
    URL of a path, `Math.random()` as text, the current user's id (`None` when
    nobody is logged in) and the creation time the store stamps. */
module CreateProjectModal {
  import opened Wrappers
  import opened Types
  import opened Store
  import EditProjectModal

  /** The inserted row. It is never created deleted; a sold price that does not
      parse is sent as 0, and no buy price is sent. */
  function NewProjectRow(name: string, kind: string, description: string, imagePath: Option<string>,
                         userId: string, status: Status, soldText: string,
                         parse: string -> Option<real>): (row: NewProject)
    ensures !row.isDeleted
    ensures row.name == name && row.kind == kind && row.description == description
    ensures row.imagePath == imagePath && row.userId == userId && row.status == status
    ensures parse(soldText).Some? ==> row.soldPrice == parse(soldText).value
    ensures parse(soldText).None? ==> row.soldPrice == 0.0
  {
    NewProject(name, kind, description, imagePath, false, userId, status, OrZero(parse(soldText)))
  }

  /** A created project shows on the dashboard, with no buy price and no car
      data yet. */
  lemma CreatedProjectVisible(row: NewProject, id: int, createdAt: string)
    requires !row.isDeleted
    ensures IsVisible(CreatedProject(row, id, createdAt))
    ensures CreatedProject(row, id, createdAt).buyPrice == None
    ensures CreatedProject(row, id, createdAt).odometer == None
    ensures CreatedProject(row, id, createdAt).odometerEnd == None
  {
  }

  /** How `handleSubmit` ended. */
  datatype CreateOutcome = UploadFailed | NotLoggedIn | InsertFailed | Created

  class Dialog {
    var name: string
    var kind: string
    var description: string
    var status: Status
    var soldPrice: string
    var image: Option<string>   // the chosen file's name
    var loading: bool

    /** An empty form for a car rebuild, active, sold for "0". */
    constructor ()
      ensures name == "" && kind == CarRebuild && description == "" && status == Active
      ensures soldPrice == "0" && image == None && !loading
    {
      name, kind, description, status := "", CarRebuild, "", Active;
      soldPrice, image, loading := "0", None, false;
    }

    /** `handleSubmit`. The picture, if any, is uploaded before the user is
        looked up, so it is stored even when nobody is logged in. Nothing is
        inserted without a user. After an insert the name, description and
        picture are cleared while kind, status and sold price stay; any
        failure leaves the form as it was. Loading is off afterwards. */
    method HandleSubmit(db: Db, parse: string -> Option<real>, randomText: string, publicUrl: string -> string,
                        uploadRejected: bool, user: Option<string>, insertRejected: bool, createdAt: string)
      returns (outcome: CreateOutcome, uploadPath: Option<string>)
      requires db.Valid()
      modifies this`name, this`description, this`image, this`loading, db`projects, db`nextProjectId
      ensures db.Valid() && !loading
      ensures uploadPath == if old(image).Some? then Some(EditProjectModal.NewFileName(randomText, old(image).value)) else None
      ensures outcome == UploadFailed <==> old(image).Some? && uploadRejected
      ensures outcome == NotLoggedIn <==> !(old(image).Some? && uploadRejected) && user.None?
      ensures outcome == Created <==> !(old(image).Some? && uploadRejected) && user.Some? && !insertRejected
      ensures outcome == Created ==> old(db.nextProjectId) !in old(db.projects)
      ensures outcome == Created ==>
        db.projects == old(db.projects)[old(db.nextProjectId) := CreatedProject(
          NewProjectRow(old(name), kind, old(description),
                        if old(image).Some? then Some(publicUrl(uploadPath.value)) else None,
                        user.value, status, soldPrice, parse),
          old(db.nextProjectId), createdAt)]
      ensures outcome == Created ==> name == "" && description == "" && image == None
      ensures outcome != Created ==> db.projects == old(db.projects)
      ensures outcome != Created ==> name == old(name) && description == old(description) && image == old(image)
    {
      loading := true;
      var imagePath: Option<string> := None;
      uploadPath := None;
      if image.Some? {
        var filePath := EditProjectModal.NewFileName(randomText, image.value);
        uploadPath := Some(filePath);
        if uploadRejected {
          loading := false;
          return UploadFailed, uploadPath;
        }
        imagePath := Some(publicUrl(filePath));
      }
      if user.None? {
        loading := false;
        return NotLoggedIn, uploadPath;
      }
      var row := NewProjectRow(name, kind, description, imagePath, user.value, status, soldPrice, parse);
      var ok := db.InsertProject(row, createdAt, insertRejected);
      if ok {
        outcome := Created;
        name, description, image := "", "", None;
      } else {
        outcome := InsertFailed;
      }
      loading := false;
    }
  }
}
