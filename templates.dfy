/** The templates page: the editor's defaults, the lock on approved
    templates, the save guard, the saved and the duplicated payloads, and
    the status filter. */
module Templates {
  import opened Common

  /** The statuses the editor offers. */
  const Statuses: seq<string> := ["Pending", "Approved", "Rejected"]

  /** A template's fields as the page reads them; None is null or missing. */
  datatype TemplateFields = TemplateFields(name: Option<string>, content: Option<string>, status: Option<string>, rejectionReason: Option<string>)

  /** A listed template. */
  datatype Template = Template(id: int, name: string, content: string, status: Option<string>)

  /** The edit drawer is locked for approved templates only. */
  predicate Locked(t: Template) {
    t.status == Some("Approved")
  }

  datatype Editor = Editor(name: string, content: string, status: string, rejectionReason: string)

  /** The editor's useState initialisers. */
  function EditorDefaults(initial: Option<TemplateFields>): (e: Editor)
    ensures initial.None? ==> e == Editor("", "", "Pending", "")
    ensures initial.Some? ==> var f := initial.value;
      && (f.name.Some? ==> e.name == f.name.value) && (f.name.None? ==> e.name == "")
      && (f.content.Some? ==> e.content == f.content.value) && (f.content.None? ==> e.content == "")
      && (f.status.Some? ==> e.status == f.status.value) && (f.status.None? ==> e.status == "Pending")
      && (f.rejectionReason.Some? ==> e.rejectionReason == f.rejectionReason.value) && (f.rejectionReason.None? ==> e.rejectionReason == "")
  {
    match initial
    case None => Editor("", "", "Pending", "")
    case Some(f) =>
      Editor(OrElse(f.name, ""), OrElse(f.content, ""), OrElse(f.status, "Pending"), OrElse(f.rejectionReason, ""))
  }

  /** The rejection reason field is on screen only for a rejected status. */
  predicate ShowsRejection(e: Editor) {
    e.status == "Rejected"
  }

  /** The save button's disabled expression. */
  predicate SaveDisabled(saving: bool, locked: bool, e: Editor) {
    saving || locked || Blank(e.name) || Blank(e.content)
  }

  /** `{ name, content, status, rejectionReason: rejectionReason || null }` */
  function SavedPayload(e: Editor): (p: TemplateFields)
    ensures p.name == Some(e.name) && p.content == Some(e.content) && p.status == Some(e.status)
    ensures p.rejectionReason.None? <==> e.rejectionReason == ""
    ensures p.rejectionReason.Some? ==> p.rejectionReason.value == e.rejectionReason
  {
    TemplateFields(Some(e.name), Some(e.content), Some(e.status), if e.rejectionReason == "" then None else Some(e.rejectionReason))
  }

  /** Save is enabled exactly when nothing is saving, the template is not
      locked, and the name and the content are not blank. */
  lemma SaveEnabledIff(saving: bool, locked: bool, e: Editor)
    ensures !SaveDisabled(saving, locked, e) <==> !saving && !locked && !AllWs(e.name) && !AllWs(e.content)
  {
  }

  /** An approved template's editor can never save, whatever is typed. */
  lemma LockedNeverSaves(t: Template, saving: bool, e: Editor)
    requires Locked(t)
    ensures SaveDisabled(saving, Locked(t), e)
  {
  }

  /** Reopening a saved template gives back the editor that saved it. */
  lemma SaveRoundTrip(e: Editor)
    ensures EditorDefaults(Some(SavedPayload(e))) == e
  {
  }

  /** The field is hidden for other statuses, but a reason typed earlier is
      still sent. */
  lemma HiddenReasonStillSent(e: Editor)
    requires e.status != "Rejected" && e.rejectionReason != ""
    ensures !ShowsRejection(e)
    ensures SavedPayload(e).rejectionReason == Some(e.rejectionReason)
  {
  }

  /** The duplicate action's payload: the name with " (copy)", the same
      content, and status Pending. */
  function DuplicatePayload(t: Template): (p: TemplateFields)
    ensures p.name == Some(t.name + " (copy)") && p.content == Some(t.content) && p.status == Some("Pending")
    ensures p.rejectionReason.None?
  {
    TemplateFields(Some(t.name + " (copy)"), Some(t.content), Some("Pending"), None)
  }

  /** A copy of an approved template is editable, as the locked notice
      promises. */
  lemma DuplicateUnlocks(t: Template, newId: int)
    ensures var p := DuplicatePayload(t);
      !Locked(Template(newId, p.name.value, p.content.value, p.status))
  {
  }

  /** The status filter passed to the list query: "all" is undefined. (The
      search filter beside it, `debounced || undefined`, is NullIfEmpty.) */
  function StatusFilter(status: string): (f: Option<string>)
    ensures f.None? <==> status == "all"
    ensures f.Some? ==> f.value == status
  {
    if status == "all" then None else Some(status)
  }
}
