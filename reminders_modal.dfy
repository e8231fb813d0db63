/** The reminders dialog of a car project: three reminder dates (insurance,
    technical check, vignette), each shown with a status icon, and a save
    button that writes the three dates back to the project row.

    Dates are instants on an integer time line. `new Date(dateStr)` is the
    parameter `parse` (`None` for an Invalid Date, against which every
    comparison is false); the start of today and the start of the day one
    month out are inputs. */
module RemindersModal {
  import opened Wrappers
  import opened Types
  import opened Store

  /** `'none' | 'expired' | 'warning' | 'ok'`. */
  datatype ReminderStatus = NoDate | Expired | Warning | Ok

  /** How pressing a status is: expired before warning before ok; no date ranks lowest. */
  function Urgency(s: ReminderStatus): nat {
    match s
    case Expired => 3
    case Warning => 2
    case Ok => 1
    case NoDate => 0
  }

  /** The comparisons of `getStatus` for a date that was given. */
  function Classify(date: Option<int>, today: int, monthOut: int): ReminderStatus {
    match date
    case None => Ok
    case Some(d) => if d <= today then Expired else if d <= monthOut then Warning else Ok
  }

  /** `getStatus(dateStr)`. The four outcomes are told apart exactly by the
      conditions below; the boundaries `today` and `monthOut` are inclusive. */
  function GetStatus(dateStr: string, parse: string -> Option<int>, today: int, monthOut: int): (s: ReminderStatus)
    ensures s == NoDate <==> dateStr == ""
    ensures s == Expired <==> dateStr != "" && parse(dateStr).Some? && parse(dateStr).value <= today
    ensures s == Warning <==>
      dateStr != "" && parse(dateStr).Some? && today < parse(dateStr).value <= monthOut
    ensures s == Ok <==>
      dateStr != "" && (parse(dateStr).None? || (today < parse(dateStr).value && monthOut < parse(dateStr).value))
  {
    if dateStr == "" then NoDate else Classify(parse(dateStr), today, monthOut)
  }

  /** A later date is never more pressing than an earlier one. */
  lemma ClassifyMonotone(d1: int, d2: int, today: int, monthOut: int)
    requires d1 <= d2
    ensures Urgency(Classify(Some(d2), today, monthOut)) <= Urgency(Classify(Some(d1), today, monthOut))
  {
  }

  /** The same for the strings as the dialog sees them. */
  lemma GetStatusMonotone(s1: string, s2: string, parse: string -> Option<int>, today: int, monthOut: int)
    requires s1 != "" && s2 != "" && parse(s1).Some? && parse(s2).Some?
    requires parse(s1).value <= parse(s2).value
    ensures Urgency(GetStatus(s2, parse, today, monthOut)) <= Urgency(GetStatus(s1, parse, today, monthOut))
  {
    ClassifyMonotone(parse(s1).value, parse(s2).value, today, monthOut);
  }

  /** The boundary instants: today itself is expired, the instant after it
      and the start of the day a month out are a warning, and the instant
      after that is ok. */
  lemma Boundaries(today: int, monthOut: int)
    requires today < monthOut
    ensures Classify(Some(today), today, monthOut) == Expired
    ensures Classify(Some(today + 1), today, monthOut) == Warning
    ensures Classify(Some(monthOut), today, monthOut) == Warning
    ensures Classify(Some(monthOut + 1), today, monthOut) == Ok
  {
  }

  /** `value || null` for a text field. */
  function NullIfEmpty(s: string): (r: Option<string>)
    ensures r == None <==> s == ""
    ensures r.Some? ==> r.value == s
  {
    if s == "" then None else Some(s)
  }

  /** A field filled from a stored value (`value || ''`) and saved unchanged
      writes back what was stored, unless that was the empty string. */
  lemma NullIfEmptyOrEmpty(o: Option<string>)
    requires o != Some("")
    ensures NullIfEmpty(OrEmpty(o)) == o
  {
  }

  /** The update `handleSave` sends. */
  function ReminderPatch(insurance: string, technical: string, vinetka: string): ProjectPatch {
    SetReminders(NullIfEmpty(insurance), NullIfEmpty(technical), NullIfEmpty(vinetka))
  }

  /** Saving touches the three reminder columns and nothing else of the row. */
  lemma SaveTouchesOnlyReminders(p: Project, insurance: string, technical: string, vinetka: string)
    ensures var q := ApplyProjectPatch(p, ReminderPatch(insurance, technical, vinetka));
            q.(insuranceDate := p.insuranceDate, technicalCheckDate := p.technicalCheckDate,
               vinetkaDate := p.vinetkaDate) == p
    ensures var q := ApplyProjectPatch(p, ReminderPatch(insurance, technical, vinetka));
            q.insuranceDate == NullIfEmpty(insurance) && q.technicalCheckDate == NullIfEmpty(technical)
            && q.vinetkaDate == NullIfEmpty(vinetka)
  {
  }

  /** Opening the dialog and saving without edits leaves the row as it was. */
  lemma UntouchedSaveKeepsRow(p: Project)
    requires p.insuranceDate != Some("") && p.technicalCheckDate != Some("") && p.vinetkaDate != Some("")
    ensures ApplyProjectPatch(p, ReminderPatch(OrEmpty(p.insuranceDate), OrEmpty(p.technicalCheckDate),
                                               OrEmpty(p.vinetkaDate))) == p
  {
    NullIfEmptyOrEmpty(p.insuranceDate);
    NullIfEmptyOrEmpty(p.technicalCheckDate);
    NullIfEmptyOrEmpty(p.vinetkaDate);
  }

  class Modal {
    var insuranceDate: string
    var technicalDate: string
    var vinetkaDate: string
    var loading: bool

    /** The three fields start from the project's dates, `''` where absent. */
    constructor (project: Project)
      ensures insuranceDate == OrEmpty(project.insuranceDate)
      ensures technicalDate == OrEmpty(project.technicalCheckDate)
      ensures vinetkaDate == OrEmpty(project.vinetkaDate)
      ensures !loading
    {
      insuranceDate := OrEmpty(project.insuranceDate);
      technicalDate := OrEmpty(project.technicalCheckDate);
      vinetkaDate := OrEmpty(project.vinetkaDate);
      loading := false;
    }

    /** The `useEffect` on `[project]`: the fields are reloaded from the project. */
    method Reload(project: Project)
      modifies this`insuranceDate, this`technicalDate, this`vinetkaDate
      ensures insuranceDate == OrEmpty(project.insuranceDate)
      ensures technicalDate == OrEmpty(project.technicalCheckDate)
      ensures vinetkaDate == OrEmpty(project.vinetkaDate)
    {
      insuranceDate := OrEmpty(project.insuranceDate);
      technicalDate := OrEmpty(project.technicalCheckDate);
      vinetkaDate := OrEmpty(project.vinetkaDate);
    }

    /** `handleSave`: the update of row `projectId`; `saved` says whether
        `onSaved` and `onClose` ran, which happens only when the store
        accepted the update. Loading is off afterwards either way. */
    method HandleSave(db: Db, projectId: int, rejected: bool) returns (saved: bool)
      requires db.Valid()
      modifies this`loading, db`projects
      ensures db.Valid() && !loading
      ensures saved == !rejected
      ensures db.projects ==
        if saved then UpdateProjectRow(old(db.projects), projectId, ReminderPatch(insuranceDate, technicalDate, vinetkaDate))
        else old(db.projects)
    {
      loading := true;
      saved := db.UpdateProject(projectId, ReminderPatch(insuranceDate, technicalDate, vinetkaDate), rejected);
      loading := false;
    }
  }
}
