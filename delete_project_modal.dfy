/** The delete dialog: the user types the project's name to confirm, and the
    project is then soft-deleted by setting its `is_deleted` flag. */
module DeleteProjectModal {
  import opened Wrappers
  import opened Types
  import opened Store

  /** A soft delete hides the row from the dashboard, changes no other column,
      and doing it twice is doing it once. */
  lemma SoftDeleteHides(p: Project)
    ensures !IsVisible(ApplyProjectPatch(p, SoftDelete))
    ensures ApplyProjectPatch(p, SoftDelete).(isDeleted := p.isDeleted) == p
    ensures ApplyProjectPatch(ApplyProjectPatch(p, SoftDelete), SoftDelete) == ApplyProjectPatch(p, SoftDelete)
  {
  }

  /** No row is removed: the table keeps its keys, the row `id` is kept with
      its flag set, and every other row is as it was. */
  lemma SoftDeleteKeepsRows(table: map<int, Project>, id: int)
    requires id in table
    ensures UpdateProjectRow(table, id, SoftDelete).Keys == table.Keys
    ensures UpdateProjectRow(table, id, SoftDelete)[id].isDeleted == Some(true)
    ensures UpdateProjectRow(table, id, SoftDelete)[id].(isDeleted := table[id].isDeleted) == table[id]
    ensures forall k :: k in table && k != id ==> UpdateProjectRow(table, id, SoftDelete)[k] == table[k]
  {
  }

  /** What `handleDelete` did: returned at the guard, caught an error, or
      deleted and called `onDeleted` and `onClose`. */
  datatype DeleteOutcome = Skipped | Failed | Deleted

  class Dialog {
    const projectId: int
    const projectName: string
    var confirmationName: string
    var loading: bool

    constructor (project: Project)
      ensures projectId == project.id && projectName == project.name
      ensures confirmationName == "" && !loading
      ensures ButtonEnabled() <==> project.name == ""
    {
      projectId, projectName := project.id, project.name;
      confirmationName, loading := "", false;
    }

    /** The text field's `onChange`. */
    method Type(text: string)
      modifies this`confirmationName
      ensures confirmationName == text
    {
      confirmationName := text;
    }

    /** The delete button is enabled iff the typed text is exactly the
        project's name and no delete is in flight. */
    predicate ButtonEnabled()
      reads this
    {
      confirmationName == projectName && !loading
    }

    /** `handleDelete`. Nothing happens unless the typed text is exactly the
        name; past that guard the row is soft-deleted if the store accepts
        the update, and loading is off afterwards either way. */
    method HandleDelete(db: Db, rejected: bool) returns (outcome: DeleteOutcome)
      requires db.Valid()
      modifies this`loading, db`projects
      ensures db.Valid()
      ensures outcome == Skipped <==> confirmationName != projectName
      ensures old(ButtonEnabled()) ==> outcome != Skipped
      ensures outcome == Skipped ==> loading == old(loading) && db.projects == old(db.projects)
      ensures outcome != Skipped ==> !loading
      ensures outcome == Deleted <==> confirmationName == projectName && !rejected
      ensures outcome == Deleted ==> db.projects == UpdateProjectRow(old(db.projects), projectId, SoftDelete)
      ensures outcome == Failed ==> db.projects == old(db.projects)
    {
      if confirmationName != projectName {
        return Skipped;
      }
      loading := true;
      var ok := db.UpdateProject(projectId, SoftDelete, rejected);
      outcome := if ok then Deleted else Failed;
      loading := false;
    }
  }
}
