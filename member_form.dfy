/**
 * The add/edit dialog of the interactive editor: its form state, the prefill
 * from the member being edited, and the submit validation that builds the
 * payload handed to the page. Dates arrive already normalised to `YYYY-MM-DD`
 * (the date parsing and formatting step is a parameter).
 */
module MemberForm {
  import opened Wrappers
  import Text
  import Flow

  /** The dialog's fields; `photo` is the chosen file, known by its name. */
  datatype FormData = FormData(
    name: string,
    dateOfBirth: string,
    dateOfDeath: string,
    gender: string,
    occupation: string,
    location: string,
    notes: string,
    photo: Option<string>)

  /** The form of a new member: gender "other", every other text empty, no photo. */
  const EmptyForm := FormData("", "", "", "other", "", "", "", None)

  /** What the dialog hands to the page: the form, the node id and the edit flag. */
  datatype Payload = Payload(form: FormData, nodeId: string, isEditing: bool)

  datatype SubmitError = NameRequired

  /** The id a new member's node gets: `node-` followed by the timestamp. */
  function FreshNodeId(now: nat): string {
    "node-" + Text.NatToString(now)
  }

  /**
   * `handleSubmit`: a blank name is refused before anything is sent; otherwise
   * the payload carries the form unchanged, the edited node's id (or a fresh
   * `node-<now>` when there is no editing member or its id is empty) and
   * whether an edit is under way.
   */
  function Submit(form: FormData, editing: Option<Flow.Node>, now: nat): (r: Result<Payload, SubmitError>)
    ensures r.Err? <==> Text.IsBlank(form.name)
    ensures r.Ok? ==> r.value.form == form
    ensures r.Ok? ==> (r.value.isEditing <==> editing.Some?)
    ensures r.Ok? && editing.Some? && editing.value.id != "" ==> r.value.nodeId == editing.value.id
    ensures r.Ok? && (editing.None? || editing.value.id == "") ==> r.value.nodeId == FreshNodeId(now)
  {
    Text.TrimEmptyIffBlank(form.name);
    if Text.Trim(form.name) == "" then Err(NameRequired)
    else
      var nodeId := if editing.Some? && editing.value.id != "" then editing.value.id else FreshNodeId(now);
      Ok(Payload(form, nodeId, editing.Some?))
  }

  /** New members submitted at different instants get different node ids. */
  lemma {:induction false} FreshNodeIdsDiffer(a: nat, b: nat)
    requires a != b
    ensures FreshNodeId(a) != FreshNodeId(b)
  {
    Text.NatToStringInjective(a, b);
    assert FreshNodeId(a)[5..] == Text.NatToString(a);
    assert FreshNodeId(b)[5..] == Text.NatToString(b);
  }

  /**
   * The prefill effect: the edited member's fields (with the dates already
   * normalised by the caller), gender "other" when it has none, and never a
   * photo; the empty form when there is no member being edited.
   */
  function Prefill(editing: Option<Flow.Node>, birthDay: string, deathDay: string): (f: FormData)
    ensures editing.None? ==> f == EmptyForm
    ensures f.photo.None?
    ensures editing.Some? ==>
              var d := editing.value.data;
              && f.name == d.name && f.occupation == d.occupation
              && f.location == d.location && f.notes == d.notes
              && f.gender == (if d.gender == "" then "other" else d.gender)
              && f.dateOfBirth == (if d.dateOfBirth == "" then "" else birthDay)
              && f.dateOfDeath == (if d.dateOfDeath == "" then "" else deathDay)
  {
    match editing
    case None => EmptyForm
    case Some(m) =>
      var d := m.data;
      FormData(
        d.name,
        if d.dateOfBirth != "" then birthDay else "",
        if d.dateOfDeath != "" then deathDay else "",
        if d.gender != "" then d.gender else "other",
        d.occupation,
        d.location,
        d.notes,
        None)
  }

  /**
   * Opening the dialog on a named node and submitting it untouched sends an
   * edit of that same node, with its name and without a new photo.
   */
  lemma PrefillThenSubmit(n: Flow.Node, birthDay: string, deathDay: string, now: nat)
    requires !Text.IsBlank(n.data.name) && n.id != ""
    ensures var r := Submit(Prefill(Some(n), birthDay, deathDay), Some(n), now);
      && r.Ok? && r.value.nodeId == n.id && r.value.isEditing
      && r.value.form.name == n.data.name && r.value.form.photo.None?
  {
  }

  /** The dialog's title, or nothing at all when it is closed. */
  function Title(isOpen: bool, editing: Option<Flow.Node>): (t: Option<string>)
    ensures t.None? <==> !isOpen
    ensures isOpen ==> t == Some(if editing.Some? then "Edit Family Member" else "Add Family Member")
  {
    if !isOpen then None
    else if editing.Some? then Some("Edit Family Member") else Some("Add Family Member")
  }

  /** The text inputs of the dialog, by their `name` attribute. */
  datatype TextField = Name | DateOfBirth | DateOfDeath | Gender | Occupation | Location | Notes

  /** The dialog's state: the form fields and the photo preview. */
  class Dialog {
    var formData: FormData
    var photoPreview: Option<string>

    constructor ()
      ensures formData == EmptyForm && photoPreview.None?
    {
      formData := EmptyForm;
      photoPreview := None;
    }

    /** The prefill effect run when the edited member or the open state changes. */
    method Load(editing: Option<Flow.Node>, birthDay: string, deathDay: string)
      modifies this
      ensures formData == Prefill(editing, birthDay, deathDay)
      ensures photoPreview ==
                if editing.Some? && editing.value.data.photo.Some? && editing.value.data.photo.value.url != ""
                then Some(editing.value.data.photo.value.url) else None
    {
      formData := Prefill(editing, birthDay, deathDay);
      photoPreview := None;
      if editing.Some? {
        match editing.value.data.photo
        case Some(p) =>
          if p.url != "" {
            photoPreview := Some(p.url);
          }
        case None =>
      }
    }

    /** `handleInputChange`: one text field takes the typed value, the others keep theirs. */
    method InputChange(field: TextField, value: string)
      modifies this
      ensures formData == match field
        case Name => old(formData).(name := value)
        case DateOfBirth => old(formData).(dateOfBirth := value)
        case DateOfDeath => old(formData).(dateOfDeath := value)
        case Gender => old(formData).(gender := value)
        case Occupation => old(formData).(occupation := value)
        case Location => old(formData).(location := value)
        case Notes => old(formData).(notes := value)
      ensures photoPreview == old(photoPreview)
    {
      match field
      case Name => formData := formData.(name := value);
      case DateOfBirth => formData := formData.(dateOfBirth := value);
      case DateOfDeath => formData := formData.(dateOfDeath := value);
      case Gender => formData := formData.(gender := value);
      case Occupation => formData := formData.(occupation := value);
      case Location => formData := formData.(location := value);
      case Notes => formData := formData.(notes := value);
    }

    /**
     * `handlePhotoChange`: a chosen file becomes the photo and its data URL the
     * preview (the reader's asynchronous load is taken as done); no file, no change.
     */
    method PhotoChange(file: Option<string>, dataUrl: string)
      modifies this
      ensures file.Some? ==> formData == old(formData).(photo := file) && photoPreview == Some(dataUrl)
      ensures file.None? ==> formData == old(formData) && photoPreview == old(photoPreview)
    {
      if file.Some? {
        formData := formData.(photo := file);
        photoPreview := Some(dataUrl);
      }
    }
  }
}
