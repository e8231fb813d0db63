/** The project editor: a form over the project's columns and an optional new
    picture. Saving uploads the picture (after trying to remove the old one
    from storage) and updates the row.

    Storage calls are inputs: whether the upload is refused, the public URL the
    store gives a path, and `Math.random()` as text. `parseFloat` is `parse`
    and `String(number)` is `show`. */
module EditProjectModal {
  import opened Wrappers
  import opened Types
  import opened Text
  import opened Store

  /** The file name whose removal is tried: the last '/'-separated segment of
      the stored image URL, when there is a stored URL and that segment is not
      empty. */
  function OldFileName(imagePath: Option<string>): (r: Option<string>)
    ensures r.None? <==> imagePath.None? || imagePath.value == "" || LastPiece(imagePath.value, '/') == ""
    ensures r.Some? ==> r.value != "" && '/' !in r.value
    ensures r.Some? ==> |r.value| <= |imagePath.value| &&
                        imagePath.value[|imagePath.value| - |r.value|..] == r.value
    ensures r.Some? && '/' in imagePath.value ==>
      imagePath.value[|imagePath.value| - |r.value| - 1] == '/'
  {
    match imagePath
    case None => None
    case Some(path) =>
      if path == "" then None
      else
        LastPieceShape(path, '/');
        var name := LastPiece(path, '/');
        if name == "" then None else Some(name)
  }

  /** `${Math.random()}.${image.name.split('.').pop()}`: the random text, a dot,
      and the uploaded name's text after its last dot (all of it when it has
      none). */
  function NewFileName(randomText: string, uploadName: string): (r: string)
    ensures |r| > |randomText| && r[..|randomText|] == randomText && r[|randomText|] == '.'
    ensures var ext := r[|randomText| + 1..];
            '.' !in ext && |ext| <= |uploadName| && uploadName[|uploadName| - |ext|..] == ext
    ensures '.' !in uploadName ==> r == randomText + "." + uploadName
  {
    LastPieceShape(uploadName, '.');
    var ext := LastPiece(uploadName, '.');
    assert (randomText + "." + ext)[|randomText| + 1..] == ext;
    randomText + "." + ext
  }

  /** The update `handleSubmit` sends. The buy price is kept only for a car
      rebuild; a price that does not parse is sent as 0. */
  function EditPatch(name: string, kind: string, description: string, imagePath: Option<string>,
                     status: Status, buyText: string, soldText: string,
                     parse: string -> Option<real>): (patch: ProjectPatch)
    ensures patch.SetDetails?
    ensures patch.name == name && patch.kind == kind && patch.description == description
    ensures patch.imagePath == imagePath && patch.status == status
    ensures kind != CarRebuild ==> patch.buyPrice == 0.0
    ensures kind == CarRebuild && parse(buyText).Some? ==> patch.buyPrice == parse(buyText).value
    ensures parse(buyText).None? ==> patch.buyPrice == 0.0
    ensures parse(soldText).Some? ==> patch.soldPrice == parse(soldText).value
    ensures parse(soldText).None? ==> patch.soldPrice == 0.0
  {
    SetDetails(name, kind, description, imagePath, status,
               if kind == CarRebuild then OrZero(parse(buyText)) else 0.0,
               OrZero(parse(soldText)))
  }

  /** Saving the form as it was opened leaves a car project's row unchanged,
      when `parse` reads back what `show` wrote for the two prices. */
  lemma UntouchedCarEditKeepsRow(p: Project, show: real -> string, parse: string -> Option<real>)
    requires p.kind == CarRebuild
    requires p.description.Some? && p.status.Some? && p.buyPrice.Some? && p.soldPrice.Some?
    requires parse(show(p.buyPrice.value)) == p.buyPrice && parse(show(p.soldPrice.value)) == p.soldPrice
    ensures ApplyProjectPatch(p, EditPatch(p.name, p.kind, OrEmpty(p.description), p.imagePath,
                                           p.status.GetOr(Active), show(OrZero(p.buyPrice)),
                                           show(OrZero(p.soldPrice)), parse)) == p
  {
  }

  /** Saving a car project's form unedited fills its empty columns: a `null`
      description becomes "", a missing status "active" and a `null` price 0
      (when `parse` reads back the "0" that `show` writes). No other column
      changes, and a present description or status is kept. */
  lemma UntouchedCarEditFillsNulls(p: Project, show: real -> string, parse: string -> Option<real>)
    requires p.kind == CarRebuild
    requires parse(show(0.0)) == Some(0.0)
    ensures var q := ApplyProjectPatch(p, EditPatch(p.name, p.kind, OrEmpty(p.description), p.imagePath,
                                                  p.status.GetOr(Active), show(OrZero(p.buyPrice)),
                                                  show(OrZero(p.soldPrice)), parse));
      && (p.description.None? ==> q.description == Some(""))
      && (p.description.Some? ==> q.description == p.description)
      && (p.status.None? ==> q.status == Some(Active))
      && (p.status.Some? ==> q.status == p.status)
      && (p.buyPrice.None? ==> q.buyPrice == Some(0.0))
      && (p.soldPrice.None? ==> q.soldPrice == Some(0.0))
      && q.(description := p.description, status := p.status, buyPrice := p.buyPrice, soldPrice := p.soldPrice) == p
  {
  }

  /** Any save of a project that is not a car rebuild stores a buy price of 0. */
  lemma NonCarBuyPriceZeroed(p: Project, patch: ProjectPatch, kind: string, parse: string -> Option<real>,
                             name: string, description: string, imagePath: Option<string>, status: Status,
                             buyText: string, soldText: string)
    requires kind != CarRebuild
    requires patch == EditPatch(name, kind, description, imagePath, status, buyText, soldText, parse)
    ensures ApplyProjectPatch(p, patch).buyPrice == Some(0.0)
  {
  }

  /** How `handleSubmit` ended. */
  datatype SubmitOutcome = UploadFailed | UpdateFailed | Updated

  class Dialog {
    var project: Project
    var name: string
    var kind: string
    var description: string
    var status: Status
    var buyPrice: string
    var soldPrice: string
    var image: Option<string>   // the chosen file's name
    var loading: bool

    /** The form starts from the project: description `''` and status active
        where absent, prices as `String(value || 0)`. */
    constructor (p: Project, show: real -> string)
      ensures project == p && name == p.name && kind == p.kind
      ensures description == OrEmpty(p.description) && status == p.status.GetOr(Active)
      ensures buyPrice == show(OrZero(p.buyPrice)) && soldPrice == show(OrZero(p.soldPrice))
      ensures image == None && !loading
    {
      project, name, kind := p, p.name, p.kind;
      description, status := OrEmpty(p.description), p.status.GetOr(Active);
      buyPrice, soldPrice := show(OrZero(p.buyPrice)), show(OrZero(p.soldPrice));
      image, loading := None, false;
    }

    /** The `useEffect` on `[project]`: the text fields follow the new project;
        the chosen picture stays. */
    method Reload(p: Project, show: real -> string)
      modifies this`project, this`name, this`kind, this`description, this`status, this`buyPrice, this`soldPrice
      ensures project == p && name == p.name && kind == p.kind
      ensures description == OrEmpty(p.description) && status == p.status.GetOr(Active)
      ensures buyPrice == show(OrZero(p.buyPrice)) && soldPrice == show(OrZero(p.soldPrice))
    {
      project, name, kind := p, p.name, p.kind;
      description, status := OrEmpty(p.description), p.status.GetOr(Active);
      buyPrice, soldPrice := show(OrZero(p.buyPrice)), show(OrZero(p.soldPrice));
    }

    /** `handleSubmit`. With a new picture the old file's removal is tried
        (its outcome is ignored) and the picture is uploaded under a fresh
        name; a refused upload stops before the update. Without one the
        stored image URL is sent back unchanged. Only row `project.id` is
        updated, and loading is off afterwards either way. */
    method HandleSubmit(db: Db, parse: string -> Option<real>, randomText: string, publicUrl: string -> string,
                        uploadRejected: bool, updateRejected: bool)
      returns (outcome: SubmitOutcome, removed: Option<string>, uploadPath: Option<string>)
      requires db.Valid()
      modifies this`loading, db`projects
      ensures db.Valid() && !loading
      ensures removed == if image.Some? then OldFileName(project.imagePath) else None
      ensures uploadPath == if image.Some? then Some(NewFileName(randomText, image.value)) else None
      ensures outcome == UploadFailed <==> image.Some? && uploadRejected
      ensures outcome == Updated <==> !(image.Some? && uploadRejected) && !updateRejected
      ensures outcome == Updated ==>
        db.projects == UpdateProjectRow(old(db.projects), project.id,
          EditPatch(name, kind, description,
                    if image.Some? then Some(publicUrl(uploadPath.value)) else project.imagePath,
                    status, buyPrice, soldPrice, parse))
      ensures outcome != Updated ==> db.projects == old(db.projects)
    {
      loading := true;
      var imagePath := project.imagePath;
      removed, uploadPath := None, None;
      if image.Some? {
        removed := OldFileName(project.imagePath);
        var filePath := NewFileName(randomText, image.value);
        uploadPath := Some(filePath);
        if uploadRejected {
          loading := false;
          return UploadFailed, removed, uploadPath;
        }
        imagePath := Some(publicUrl(filePath));
      }
      var ok := db.UpdateProject(project.id,
        EditPatch(name, kind, description, imagePath, status, buyPrice, soldPrice, parse), updateRejected);
      outcome := if ok then Updated else UpdateFailed;
      loading := false;
    }
  }
}
