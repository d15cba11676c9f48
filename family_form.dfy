/**
 * The add/edit page of the hierarchical tree: the member list used to pick a
 * parent (the server's forest flattened in pre-order with depths), the context
 * parent, the quick-add presets, the query-string prefill and the submit that
 * sends only the non-empty fields. The server's replies and the browser's
 * query string are parameters.
 */
module FamilyForm {
  import opened Wrappers
  import opened Family
  import Js
  import Seqs

  /** One line of the parent list: a member and how deep it sits. */
  datatype Entry = Entry(id: string, name: string, relation: string, depth: nat)

  function EntryOf(m: Member, depth: nat): Entry {
    Entry(m.id, m.name, m.relation, depth)
  }

  /**
   * The walk over the forest: each member, then (when its `children` is a
   * non-empty array) its descendants one level deeper, then its later siblings.
   */
  function Flatten(forest: seq<Member>, depth: nat): seq<Entry>
    decreases forest
  {
    if forest == [] then []
    else
      var m := forest[0];
      match m.children
      case NotAList => [EntryOf(m, depth)] + Flatten(forest[1..], depth)
      case Listed(items) => [EntryOf(m, depth)] + Flatten(items, depth + 1) + Flatten(forest[1..], depth)
  }

  /** The number of members the walk can reach: every member of every array of children. */
  function Count(forest: seq<Member>): nat
    decreases forest
  {
    if forest == [] then 0
    else
      match forest[0].children
      case NotAList => 1 + Count(forest[1..])
      case Listed(items) => 1 + Count(items) + Count(forest[1..])
  }

  /** The member reached from the roots by following `path`, one index per level. */
  ghost function At(forest: seq<Member>, path: seq<nat>): Option<Member>
    decreases |path|
  {
    if path == [] || path[0] >= |forest| then None
    else if |path| == 1 then Some(forest[path[0]])
    else
      match forest[path[0]].children
      case NotAList => None
      case Listed(items) => At(items, path[1..])
  }

  /** Flattening two runs of siblings lists the first run's entries, then the second's. */
  lemma {:induction false} FlattenAppend(a: seq<Member>, b: seq<Member>, depth: nat)
    ensures Flatten(a + b, depth) == Flatten(a, depth) + Flatten(b, depth)
    decreases a
  {
    if a == [] {
      assert a + b == b;
    } else {
      assert (a + b)[0] == a[0];
      assert (a + b)[1..] == a[1..] + b;
      FlattenAppend(a[1..], b, depth);
      match a[0].children {
        case NotAList =>
          assert Flatten(a + b, depth) == [EntryOf(a[0], depth)] + Flatten(a[1..] + b, depth);
        case Listed(items) =>
          var head := [EntryOf(a[0], depth)] + Flatten(items, depth + 1);
          assert Flatten(a + b, depth) == head + Flatten(a[1..] + b, depth);
          assert Flatten(a, depth) == head + Flatten(a[1..], depth);
      }
    }
  }

  /** The flattened list has exactly one entry per member the walk reaches. */
  lemma {:induction false} FlattenCount(forest: seq<Member>, depth: nat)
    ensures |Flatten(forest, depth)| == Count(forest)
    decreases forest
  {
    if forest != [] {
      FlattenCount(forest[1..], depth);
      match forest[0].children
      case NotAList =>
      case Listed(items) => FlattenCount(items, depth + 1);
    }
  }

  /**
   * Completeness: every member reachable by a path is listed, at the depth of
   * its number of ancestors.
   */
  lemma {:induction false} FlattenComplete(forest: seq<Member>, path: seq<nat>, depth: nat)
    requires At(forest, path).Some?
    ensures EntryOf(At(forest, path).value, depth + |path| - 1) in Flatten(forest, depth)
    decreases |path|
  {
    var i := path[0];
    var m := forest[i];
    assert forest == forest[..i] + forest[i..];
    FlattenAppend(forest[..i], forest[i..], depth);
    var rest := forest[i..];
    assert rest[0] == m;
    if |path| > 1 {
      match m.children {
        case NotAList =>
          assert false;
        case Listed(items) =>
          FlattenComplete(items, path[1..], depth + 1);
          assert Flatten(rest, depth) == [EntryOf(m, depth)] + Flatten(items, depth + 1) + Flatten(rest[1..], depth);
      }
    }
  }

  /** Soundness, as a witness: each entry is the member at some path, at that path's depth. */
  lemma {:induction false} FlattenSoundPath(forest: seq<Member>, depth: nat, e: Entry) returns (path: seq<nat>)
    requires e in Flatten(forest, depth)
    ensures At(forest, path).Some? && e == EntryOf(At(forest, path).value, depth + |path| - 1)
    decreases forest
  {
    var m := forest[0];
    var tail := forest[1..];
    if e == EntryOf(m, depth) {
      path := [0];
    } else if e in Flatten(tail, depth) {
      var p := FlattenSoundPath(tail, depth, e);
      path := [p[0] + 1] + p[1..];
      AtShift(forest, p);
    } else {
      match m.children {
        case NotAList =>
          assert false;
        case Listed(items) =>
          var p := FlattenSoundPath(items, depth + 1, e);
          path := [0] + p;
          assert path[1..] == p;
      }
    }
  }

  /** A path into the later siblings is the same path, shifted by one, into the whole forest. */
  lemma AtShift(forest: seq<Member>, p: seq<nat>)
    requires forest != [] && p != []
    ensures At(forest, [p[0] + 1] + p[1..]) == At(forest[1..], p)
  {
    var q := [p[0] + 1] + p[1..];
    assert q[1..] == p[1..];
  }

  /**
   * Soundness: every entry is a member reachable by a path, listed at the depth
   * of its number of ancestors.
   */
  lemma FlattenSound(forest: seq<Member>, depth: nat, e: Entry)
    requires e in Flatten(forest, depth)
    ensures exists path :: At(forest, path).Some? && e == EntryOf(At(forest, path).value, depth + |path| - 1)
  {
    var path := FlattenSoundPath(forest, depth, e);
  }

  /** The first entry with the given id, as `find` returns it. */
  function Find(list: seq<Entry>, id: string): (r: Option<Entry>)
    ensures r.None? <==> forall e :: e in list ==> e.id != id
    ensures r.Some? ==> r.value in list && r.value.id == id
    ensures r.Some? ==> exists k :: 0 <= k < |list| && list[k] == r.value && forall j :: 0 <= j < k ==> list[j].id != id
  {
    if list == [] then None
    else if list[0].id == id then Some(list[0])
    else
      var r := Find(list[1..], id);
      if r.Some? then
        var k :| 0 <= k < |list[1..]| && list[1..][k] == r.value && forall j :: 0 <= j < k ==> list[1..][j].id != id;
        assert list[k + 1] == r.value;
        r
      else r
  }

  /**
   * After a reload the context parent is kept while the new list still has an
   * entry with its id, and is cleared otherwise.
   */
  function Revalidate(current: Option<Entry>, list: seq<Entry>): (r: Option<Entry>)
    ensures r.None? <==> current.None? || forall e :: e in list ==> e.id != current.value.id
    ensures r.Some? ==> r == current
  {
    if current.Some? && Find(list, current.value.id).None? then None else current
  }

  /** Revalidating twice against the same list is revalidating once. */
  lemma RevalidateIdempotent(current: Option<Entry>, list: seq<Entry>)
    ensures Revalidate(Revalidate(current, list), list) == Revalidate(current, list)
  {
  }

  /** The form's fields; `photo` is the chosen file, known by its name. */
  datatype Fields = Fields(
    name: string,
    relation: string,
    gender: string,
    dob: string,
    occupation: string,
    houseNo: string,
    place: string,
    city: string,
    state: string,
    country: string,
    parentId: string,
    photo: Option<string>)

  /** The empty form: gender "other", every other text empty, no photo. */
  const DefaultFields := Fields("", "", "other", "", "", "", "", "", "", "", "", None)

  /** The keys of the form, in the order the form object lists them. */
  datatype FieldKey =
    | NameKey | RelationKey | GenderKey | DobKey | OccupationKey
    | HouseNoKey | PlaceKey | CityKey | StateKey | CountryKey | ParentIdKey | PhotoKey

  /** The form's entries in order, with their JavaScript values. */
  function Entries(f: Fields): seq<(FieldKey, Js.Value)> {
    [ (NameKey, Js.Str(f.name)), (RelationKey, Js.Str(f.relation)), (GenderKey, Js.Str(f.gender)),
      (DobKey, Js.Str(f.dob)), (OccupationKey, Js.Str(f.occupation)),
      (HouseNoKey, Js.Str(f.houseNo)), (PlaceKey, Js.Str(f.place)), (CityKey, Js.Str(f.city)),
      (StateKey, Js.Str(f.state)), (CountryKey, Js.Str(f.country)), (ParentIdKey, Js.Str(f.parentId)),
      (PhotoKey, if f.photo.Some? then Js.File(f.photo.value) else Js.Null) ]
  }

  /** A value that is sent: neither `null`, `undefined` nor the empty string. */
  predicate Sendable(entry: (FieldKey, Js.Value)) {
    entry.1 != Js.Null && entry.1 != Js.Undefined && entry.1 != Js.Str("")
  }

  /** The entries appended to the multipart body on submit. */
  function Submitted(f: Fields): (r: seq<(FieldKey, Js.Value)>)
    ensures forall e :: e in r ==> Sendable(e) && e in Entries(f)
    ensures forall e :: e in Entries(f) && Sendable(e) ==> e in r
  {
    Seqs.Filter(Entries(f), Sendable)
  }

  /** Of the empty form, only the gender is sent. */
  lemma SubmittedDefaults()
    ensures forall e :: e in Submitted(DefaultFields) <==> e == (GenderKey, Js.Str("other"))
  {
    assert Entries(DefaultFields)[2] == (GenderKey, Js.Str("other"));
  }

  /**
   * A quick-add preset: the relation and gender it sets ("" when it sets no
   * gender), whether it takes the context parent, whether it clears the parent.
   */
  datatype Preset = Preset(relation: string, gender: string, parentFromContext: bool, clearParent: bool)

  /** The toolbar's presets. */
  const SelfPreset := Preset("self", "male", false, true)
  const WifePreset := Preset("wife", "female", true, false)
  const HusbandPreset := Preset("husband", "male", true, false)
  const SonPreset := Preset("son", "male", true, false)
  const DaughterPreset := Preset("daughter", "female", true, false)

  /**
   * Applying a preset: the relation always becomes the preset's; the gender the
   * preset's when it names one; the parent is cleared, or taken from the context
   * parent when the preset asks and there is one, or else kept. Nothing else changes.
   */
  function SetQuick(f: Fields, preset: Preset, context: Option<Entry>): (r: Fields)
    ensures r.relation == preset.relation
    ensures preset.gender != "" ==> r.gender == preset.gender
    ensures preset.gender == "" ==> r.gender == f.gender
    ensures preset.clearParent ==> r.parentId == ""
    ensures !preset.clearParent && preset.parentFromContext && context.Some? ==> r.parentId == context.value.id
    ensures !preset.clearParent && !(preset.parentFromContext && context.Some?) ==> r.parentId == f.parentId
    ensures r.(relation := f.relation, gender := f.gender, parentId := f.parentId) == f
  {
    f.(relation := preset.relation,
       gender := Js.OrText(preset.gender, f.gender),
       parentId := if preset.clearParent then ""
                   else if preset.parentFromContext && context.Some? then context.value.id
                   else f.parentId)
  }

  /** Pressing the same preset twice is pressing it once. */
  lemma SetQuickIdempotent(f: Fields, preset: Preset, context: Option<Entry>)
    ensures SetQuick(SetQuick(f, preset, context), preset, context) == SetQuick(f, preset, context)
  {
  }

  /**
   * "Self" makes a root member; the four family presets attach the member to
   * the context parent when there is one and otherwise keep the chosen parent.
   */
  lemma {:induction false} ToolbarPresets(f: Fields, context: Option<Entry>)
    ensures SetQuick(f, SelfPreset, context).parentId == ""
    ensures forall p :: p in [WifePreset, HusbandPreset, SonPreset, DaughterPreset] ==>
              SetQuick(f, p, context).parentId == (if context.Some? then context.value.id else f.parentId)
              && SetQuick(f, p, context).gender == p.gender
  {
  }

  /**
   * The query-string prefill: when any of `parentId`, `relation`, `gender` is
   * non-empty, every one that is present (even empty) overrides its field;
   * otherwise the form is left alone. Nothing else changes.
   */
  function PrefillQuery(f: Fields, qpParent: Option<string>, qpRelation: Option<string>, qpGender: Option<string>): (r: Fields)
    ensures !(Js.PresentText(qpParent) || Js.PresentText(qpRelation) || Js.PresentText(qpGender)) ==> r == f
    ensures Js.PresentText(qpParent) || Js.PresentText(qpRelation) || Js.PresentText(qpGender) ==>
              && r.parentId == qpParent.GetOr(f.parentId)
              && r.relation == qpRelation.GetOr(f.relation)
              && r.gender == qpGender.GetOr(f.gender)
    ensures r.(relation := f.relation, gender := f.gender, parentId := f.parentId) == f
  {
    if Js.PresentText(qpParent) || Js.PresentText(qpRelation) || Js.PresentText(qpGender) then
      f.(parentId := qpParent.GetOr(f.parentId),
         relation := qpRelation.GetOr(f.relation),
         gender := qpGender.GetOr(f.gender))
    else f
  }

  /** Prefilling from the same query twice is prefilling once. */
  lemma PrefillQueryIdempotent(f: Fields, qpParent: Option<string>, qpRelation: Option<string>, qpGender: Option<string>)
    ensures PrefillQuery(PrefillQuery(f, qpParent, qpRelation, qpGender), qpParent, qpRelation, qpGender)
            == PrefillQuery(f, qpParent, qpRelation, qpGender)
  {
  }

  /** "Use my profile": the user's name when they have one, relation "self", and no parent. */
  function UseProfile(f: Fields, userName: string): (r: Fields)
    ensures userName != "" ==> r.name == userName
    ensures userName == "" ==> r.name == f.name
    ensures r.relation == "self" && r.parentId == ""
    ensures r.(name := f.name, relation := f.relation, parentId := f.parentId) == f
  {
    f.(name := Js.OrText(userName, f.name), relation := "self", parentId := "")
  }

  /** The address of a stored member; an absent part is "". */
  datatype Address = Address(houseNo: string, place: string, city: string, state: string, country: string)

  /**
   * A stored member as the edit endpoint returns it; an absent text is "" and
   * `dob` is the raw stored date (its `YYYY-MM-DD` form is a parameter).
   */
  datatype Stored = Stored(
    name: string,
    relation: string,
    gender: string,
    dob: string,
    occupation: string,
    parentId: string,
    address: Option<Address>)

  /**
   * The edit-mode prefill: every field from the stored member, gender "other"
   * when it has none, the normalised date only when it has one, the address
   * parts when it has an address, and no photo.
   */
  function EditPrefill(f: Fields, s: Stored, dobDay: string): (r: Fields)
    ensures r.name == s.name && r.relation == s.relation && r.occupation == s.occupation && r.parentId == s.parentId
    ensures r.gender == (if s.gender == "" then "other" else s.gender)
    ensures r.dob == (if s.dob == "" then "" else dobDay)
    ensures s.address.None? ==> r.houseNo == "" && r.place == "" && r.city == "" && r.state == "" && r.country == ""
    ensures s.address.Some? ==>
              && r.houseNo == s.address.value.houseNo && r.place == s.address.value.place
              && r.city == s.address.value.city && r.state == s.address.value.state
              && r.country == s.address.value.country
    ensures r.photo.None?
  {
    var a := s.address.GetOr(Address("", "", "", "", ""));
    f.(name := s.name, relation := s.relation, gender := Js.OrText(s.gender, "other"),
       dob := if s.dob != "" then dobDay else "", occupation := s.occupation, parentId := s.parentId,
       houseNo := a.houseNo, place := a.place, city := a.city, state := a.state, country := a.country,
       photo := None)
  }

  /** The edit-mode prefill overwrites every field: what was typed before does not survive. */
  lemma EditPrefillOverwritesAll(f: Fields, g: Fields, s: Stored, dobDay: string)
    ensures EditPrefill(f, s, dobDay) == EditPrefill(g, s, dobDay)
  {
  }

  /**
   * Submitting a freshly loaded member sends its name exactly when it has one,
   * and always sends a gender.
   */
  lemma EditPrefillThenSubmit(f: Fields, s: Stored, dobDay: string)
    ensures var body := Submitted(EditPrefill(f, s, dobDay));
      && ((NameKey, Js.Str(s.name)) in body <==> s.name != "")
      && (exists e :: e in body && e.0 == GenderKey)
  {
    var entries := Entries(EditPrefill(f, s, dobDay));
    assert entries[0] == (NameKey, Js.Str(s.name)) && entries[0] in entries;
    assert entries[2] in entries && Sendable(entries[2]);
  }

  /** The text inputs of the form, by their `name` attribute. */
  datatype TextInput =
    | NameInput | RelationInput | GenderInput | DobInput | OccupationInput
    | HouseNoInput | PlaceInput | CityInput | StateInput | CountryInput | ParentIdInput

  datatype Verb = Post | Put

  /** The request a submit sends: its verb, its path and the multipart entries. */
  datatype Request = Request(verb: Verb, path: string, body: seq<(FieldKey, Js.Value)>)

  /** The page's state. */
  class FamilyFormPage {
    var members: seq<Entry>
    var loading: bool
    var error: string
    var currentParent: Option<Entry>
    var form: Fields

    constructor ()
      ensures members == [] && loading && error == "" && currentParent == None && form == DefaultFields
    {
      members := [];
      loading := true;
      error := "";
      currentParent := None;
      form := DefaultFields;
    }

    /**
     * Loading the member list: nothing happens without a signed-in user; a
     * forest from the server is flattened into the list and the context parent
     * revalidated against it; a failure shows the server's message or a
     * fallback and keeps the old list. Loading ends either way.
     */
    method LoadMembers(hasUser: bool, reply: Result<seq<Member>, Option<string>>)
      modifies this
      ensures !hasUser ==>
                && members == old(members) && loading == old(loading) && error == old(error)
                && currentParent == old(currentParent)
      ensures hasUser && reply.Ok? ==>
                && members == Flatten(reply.value, 0)
                && currentParent == Revalidate(old(currentParent), members)
                && error == old(error) && !loading
      ensures hasUser && reply.Err? ==>
                && members == old(members) && currentParent == old(currentParent)
                && error == Js.MessageOr(reply.error, "Failed to load members") && !loading
      ensures form == old(form)
    {
      if !hasUser {
        return;
      }
      loading := true;
      match reply {
        case Ok(data) =>
          members := Flatten(data, 0);
          currentParent := Revalidate(currentParent, members);
        case Err(message) =>
          error := Js.MessageOr(message, "Failed to load members");
      }
      loading := false;
    }

    /**
     * The query-string effect: the prefill above and, when the gate opens and
     * the list has an entry with the non-empty `parentId` given, that entry as
     * context parent. An empty `parentId` selects nothing: an entry whose id
     * is "" stands for one without an id, which strict equality never matches.
     */
    method PrefillFromQuery(qpParent: Option<string>, qpRelation: Option<string>, qpGender: Option<string>)
      modifies this
      ensures form == PrefillQuery(old(form), qpParent, qpRelation, qpGender)
      ensures var gate := Js.PresentText(qpParent) || Js.PresentText(qpRelation) || Js.PresentText(qpGender);
              currentParent ==
                if gate && qpParent.Some? && qpParent.value != "" && Find(members, qpParent.value).Some?
                then Find(members, qpParent.value) else old(currentParent)
      ensures members == old(members) && loading == old(loading) && error == old(error)
    {
      form := PrefillQuery(form, qpParent, qpRelation, qpGender);
      if Js.PresentText(qpParent) || Js.PresentText(qpRelation) || Js.PresentText(qpGender) {
        if qpParent.Some? && qpParent.value != "" {
          var maybe := Find(members, qpParent.value);
          if maybe.Some? {
            currentParent := maybe;
          }
        }
      }
    }

    /**
     * The edit-mode effect: nothing without an `editId`; a stored member fills
     * the form and, when its parent is in the list, becomes the context
     * parent's source; a failure shows the server's message or a fallback.
     * Loading ends either way.
     */
    method LoadForEdit(editId: string, reply: Result<Stored, Option<string>>, dobDay: string)
      modifies this
      ensures editId == "" ==>
                && form == old(form) && currentParent == old(currentParent)
                && loading == old(loading) && error == old(error)
      ensures editId != "" && reply.Ok? ==>
                && form == EditPrefill(old(form), reply.value, dobDay)
                && currentParent ==
                     (if reply.value.parentId != "" && Find(members, reply.value.parentId).Some?
                      then Find(members, reply.value.parentId) else old(currentParent))
                && error == old(error) && !loading
      ensures editId != "" && reply.Err? ==>
                && form == old(form) && currentParent == old(currentParent)
                && error == Js.MessageOr(reply.error, "Failed to load member") && !loading
      ensures members == old(members)
    {
      if editId == "" {
        return;
      }
      loading := true;
      match reply {
        case Ok(data) =>
          form := EditPrefill(form, data, dobDay);
          if data.parentId != "" {
            var maybe := Find(members, data.parentId);
            if maybe.Some? {
              currentParent := maybe;
            }
          }
        case Err(message) =>
          error := Js.MessageOr(message, "Failed to load member");
      }
      loading := false;
    }

    /**
     * Submitting: the error is cleared and the non-empty fields are sent, as an
     * update of `editId` when there is one and as a new member otherwise. On
     * success the form goes back to the defaults and the list is reloaded; on
     * failure the form is kept and the server's message or a fallback is shown.
     */
    method Submit(editId: string, reply: Result<(), Option<string>>) returns (request: Request, reload: bool)
      modifies this
      ensures request.body == Submitted(old(form))
      ensures editId != "" ==> request.verb == Put && request.path == "/family/" + editId
      ensures editId == "" ==> request.verb == Post && request.path == "/family"
      ensures reload <==> reply.Ok?
      ensures reply.Ok? ==> form == DefaultFields && error == ""
      ensures reply.Err? ==>
                && form == old(form)
                && error == Js.MessageOr(reply.error, if editId != "" then "Failed to update member" else "Failed to create member")
      ensures members == old(members) && currentParent == old(currentParent) && loading == old(loading)
    {
      error := "";
      var body := Submitted(form);
      if editId != "" {
        request := Request(Put, "/family/" + editId, body);
      } else {
        request := Request(Post, "/family", body);
      }
      match reply {
        case Ok(_) =>
          form := DefaultFields;
          reload := true;
        case Err(message) =>
          error := Js.MessageOr(message, if editId != "" then "Failed to update member" else "Failed to create member");
          reload := false;
      }
    }

    /** Pressing a quick-add preset, with the current context parent. */
    method ApplyQuick(preset: Preset)
      modifies this
      ensures form == SetQuick(old(form), preset, currentParent)
      ensures members == old(members) && currentParent == old(currentParent)
      ensures loading == old(loading) && error == old(error)
    {
      form := SetQuick(form, preset, currentParent);
    }

    /** Clicking a listed member makes it the context parent and the form's parent. */
    method SelectContextParent(m: Entry)
      modifies this
      ensures currentParent == Some(m) && form == old(form).(parentId := m.id)
      ensures members == old(members) && loading == old(loading) && error == old(error)
    {
      currentParent := Some(m);
      form := form.(parentId := m.id);
    }

    /** "Use my profile", with the stored user's name ("" when there is none). */
    method UseMyProfile(userName: string)
      modifies this
      ensures form == UseProfile(old(form), userName)
      ensures members == old(members) && currentParent == old(currentParent)
      ensures loading == old(loading) && error == old(error)
    {
      form := UseProfile(form, userName);
    }

    /** Typing into a text input sets that field alone. */
    method Change(input: TextInput, value: string)
      modifies this
      ensures form == match input
        case NameInput => old(form).(name := value)
        case RelationInput => old(form).(relation := value)
        case GenderInput => old(form).(gender := value)
        case DobInput => old(form).(dob := value)
        case OccupationInput => old(form).(occupation := value)
        case HouseNoInput => old(form).(houseNo := value)
        case PlaceInput => old(form).(place := value)
        case CityInput => old(form).(city := value)
        case StateInput => old(form).(state := value)
        case CountryInput => old(form).(country := value)
        case ParentIdInput => old(form).(parentId := value)
      ensures members == old(members) && currentParent == old(currentParent)
      ensures loading == old(loading) && error == old(error)
    {
      match input {
        case NameInput => form := form.(name := value);
        case RelationInput => form := form.(relation := value);
        case GenderInput => form := form.(gender := value);
        case DobInput => form := form.(dob := value);
        case OccupationInput => form := form.(occupation := value);
        case HouseNoInput => form := form.(houseNo := value);
        case PlaceInput => form := form.(place := value);
        case CityInput => form := form.(city := value);
        case StateInput => form := form.(state := value);
        case CountryInput => form := form.(country := value);
        case ParentIdInput => form := form.(parentId := value);
      }
    }

    /** Choosing a photo: the first chosen file, or none. */
    method ChangePhoto(file: Option<string>)
      modifies this
      ensures form == old(form).(photo := file)
      ensures members == old(members) && currentParent == old(currentParent)
      ensures loading == old(loading) && error == old(error)
    {
      form := form.(photo := file);
    }
  }
}
