/**
 * The interactive family-tree page: it owns the `{ nodes, edges }` graph and
 * changes it through its handlers. Every browser or server input is a
 * parameter: the typed confirmation phrase, the confirm answer, whether the
 * request succeeded and what the server returned, and the object URL made for
 * a chosen photo. Each handler is one atomic step on the current state, and
 * `refetch` reports the delayed re-load a handler schedules.
 */
module InteractivePage {
  import opened Wrappers
  import opened Flow
  import Js
  import Seqs
  import MemberForm

  const NuclearPhrase := "NUCLEAR DELETE"
  const ClearAllPhrase := "DELETE ALL"
  const LoadFailed := "Failed to load family tree"

  /** What the graph endpoint returned; a missing `edges` list reads as empty. */
  datatype FetchedTree = FetchedTree(nodes: seq<Node>, edges: Option<seq<Edge>>)

  /** The slot of the next new member in the top row: 250 px apart from x = 100, at y = 50. */
  function NewSlot(count: nat): (p: Position)
    ensures p.y == 50
    ensures p.x == 250 * count + 100
  {
    Position(count * 250 + 100, 50)
  }

  /** A new member gets the slot after the existing nodes; an edit gets no position. */
  function SlotFor(p: MemberForm.Payload, count: nat): (pos: Option<Position>)
    ensures pos.None? <==> p.isEditing
    ensures pos.Some? ==> pos.value == NewSlot(count)
  {
    if p.isEditing then None else Some(NewSlot(count))
  }

  /** The node shown at once for a new member, before the server answers. */
  function TempNode(p: MemberForm.Payload, pos: Option<Position>, objectUrl: string): (n: Node)
    ensures n.id == p.nodeId && n.kind == "familyMember" && n.position == pos
    ensures n.data.photo == if p.form.photo.Some? then Some(Photo(objectUrl)) else None
    ensures n.data.name == p.form.name && n.data.gender == p.form.gender
    ensures n.data.dateOfBirth == p.form.dateOfBirth && n.data.dateOfDeath == p.form.dateOfDeath
    ensures n.data.occupation == p.form.occupation && n.data.location == p.form.location
    ensures n.data.notes == p.form.notes
  {
    var f := p.form;
    Node(p.nodeId, "familyMember", pos,
      NodeData(f.name, f.dateOfBirth, f.dateOfDeath, f.gender, f.occupation, f.location, f.notes,
        if f.photo.Some? then Some(Photo(objectUrl)) else None))
  }

  /** The keys of the multipart body: the payload's own, then the slot of a new member. */
  datatype FieldKey =
    | NameKey | DateOfBirthKey | DateOfDeathKey | GenderKey | OccupationKey | LocationKey | NotesKey
    | PhotoKey | NodeIdKey | IsEditingKey | PositionXKey | PositionYKey

  /** The name each key goes under in the form data. */
  function KeyText(k: FieldKey): (s: string)
    ensures s != ""
  {
    match k
    case NameKey => "name"
    case DateOfBirthKey => "dateOfBirth"
    case DateOfDeathKey => "dateOfDeath"
    case GenderKey => "gender"
    case OccupationKey => "occupation"
    case LocationKey => "location"
    case NotesKey => "notes"
    case PhotoKey => "photo"
    case NodeIdKey => "nodeId"
    case IsEditingKey => "isEditing"
    case PositionXKey => "positionX"
    case PositionYKey => "positionY"
  }

  /** The payload's keys in their object order, with their JavaScript values. */
  function PayloadEntries(p: MemberForm.Payload): seq<(FieldKey, Js.Value)> {
    var f := p.form;
    [ (NameKey, Js.Str(f.name)), (DateOfBirthKey, Js.Str(f.dateOfBirth)), (DateOfDeathKey, Js.Str(f.dateOfDeath)),
      (GenderKey, Js.Str(f.gender)), (OccupationKey, Js.Str(f.occupation)), (LocationKey, Js.Str(f.location)),
      (NotesKey, Js.Str(f.notes)),
      (PhotoKey, if f.photo.Some? then Js.File(f.photo.value) else Js.Null),
      (NodeIdKey, Js.Str(p.nodeId)), (IsEditingKey, Js.Bool(p.isEditing)) ]
  }

  /** A truthy photo is uploaded; any other entry unless it is `null` or `''` (so `undefined` and `false` go). */
  predicate KeptForUpload(entry: (FieldKey, Js.Value)) {
    (entry.0 == PhotoKey && Js.Truthy(entry.1)) || (entry.1 != Js.Null && entry.1 != Js.Str(""))
  }

  /** The position fields of the multipart body, which follow the payload's. */
  function PositionFields(pos: Option<Position>): seq<(FieldKey, Js.Value)> {
    if pos.Some? then [(PositionXKey, Js.Num(pos.value.x)), (PositionYKey, Js.Num(pos.value.y))] else []
  }

  /** The multipart fields sent for a member, followed by the slot of a new one. */
  function UploadFields(p: MemberForm.Payload, pos: Option<Position>): seq<(FieldKey, Js.Value)> {
    Seqs.Filter(PayloadEntries(p), KeptForUpload) + PositionFields(pos)
  }

  /** A text entry other than the photo goes into the body exactly when it is non-empty. */
  lemma TextEntryKept(entries: seq<(FieldKey, Js.Value)>, i: nat, k: FieldKey, v: string)
    requires i < |entries| && entries[i] == (k, Js.Str(v)) && k != PhotoKey
    ensures (k, Js.Str(v)) in Seqs.Filter(entries, KeptForUpload) <==> v != ""
  {
    assert entries[i] in entries;
  }

  /** The member's name and notes go into the multipart body exactly when they are non-empty. */
  lemma UploadedText(p: MemberForm.Payload)
    ensures var kept := Seqs.Filter(PayloadEntries(p), KeptForUpload);
      && ((NameKey, Js.Str(p.form.name)) in kept <==> p.form.name != "")
      && ((NotesKey, Js.Str(p.form.notes)) in kept <==> p.form.notes != "")
  {
    var entries := PayloadEntries(p);
    TextEntryKept(entries, 0, NameKey, p.form.name);
    TextEntryKept(entries, 6, NotesKey, p.form.notes);
  }

  /**
   * The photo goes into the multipart body exactly when one was chosen (never a
   * `null` photo); the node id and the edit flag always go.
   */
  lemma UploadedPhotoAndFlags(p: MemberForm.Payload)
    requires p.nodeId != ""
    ensures var kept := Seqs.Filter(PayloadEntries(p), KeptForUpload);
      && (p.form.photo.Some? ==> (PhotoKey, Js.File(p.form.photo.value)) in kept)
      && (PhotoKey, Js.Null) !in kept
      && (NodeIdKey, Js.Str(p.nodeId)) in kept
      && (IsEditingKey, Js.Bool(p.isEditing)) in kept
  {
    var entries := PayloadEntries(p);
    TextEntryKept(entries, 8, NodeIdKey, p.nodeId);
    assert entries[7] in entries && entries[9] in entries;
  }

  /** The slot is sent exactly for a new member, after the payload's fields. */
  lemma UploadedPosition(p: MemberForm.Payload, count: nat)
    ensures var fields := UploadFields(p, SlotFor(p, count));
      && ((PositionXKey, Js.Num(250 * count + 100)) in fields <==> !p.isEditing)
      && ((PositionYKey, Js.Num(50)) in fields <==> !p.isEditing)
  {
    var entries := PayloadEntries(p);
    var kept := Seqs.Filter(entries, KeptForUpload);
    assert forall e :: e in kept ==> e in entries;
    assert (PositionXKey, Js.Num(250 * count + 100)) !in entries;
    assert (PositionYKey, Js.Num(50)) !in entries;
  }

  /**
   * A failed add takes out the node(s) with the temporary id and nothing else:
   * the result is what removing that id from the list before the add gives,
   * which is that list itself when the id was fresh.
   */
  lemma {:induction false} RollbackUndoesAdd(before: seq<Node>, temp: Node)
    ensures WithoutNode(before + [temp], temp.id) == WithoutNode(before, temp.id)
    ensures (forall i :: 0 <= i < |before| ==> before[i].id != temp.id) ==>
              WithoutNode(before + [temp], temp.id) == before
  {
    var keep := (n: Node) => n.id != temp.id;
    Seqs.FilterAppend(before, [temp], keep);
    assert Seqs.Filter([temp], keep) == [];
    if forall i :: 0 <= i < |before| ==> before[i].id != temp.id {
      WithoutAbsentNode(before, temp.id);
    }
  }

  /**
   * A successful add keeps the appended node: the count grows by one, the
   * earlier nodes whose ids differ are untouched, and the new node keeps its
   * own photo unless the server returned one.
   */
  lemma AddThenMerge(before: seq<Node>, temp: Node, served: Option<Photo>)
    ensures var r := MergePhoto(before + [temp], temp.id, served);
      && |r| == |before| + 1
      && (forall i :: 0 <= i < |before| && before[i].id != temp.id ==> r[i] == before[i])
      && r[|before|] == temp.(data := temp.data.(photo := if served.Some? then served else temp.data.photo))
  {
  }

  /**
   * A successful edit replaces exactly the node with the edited id: when one
   * node carries it, the list is that node swapped for the server's record.
   */
  lemma {:induction false} EditReplacesOne(before: seq<Node>, k: nat, record: Node)
    requires k < |before|
    requires forall i :: 0 <= i < |before| && i != k ==> before[i].id != before[k].id
    ensures ReplaceNode(before, before[k].id, record) == before[k := record.(kind := "familyMember")]
  {
    var r := ReplaceNode(before, before[k].id, record);
    assert forall i :: 0 <= i < |before| ==> r[i] == before[k := record.(kind := "familyMember")][i];
  }

  /** The page's state. */
  class Page {
    var nodes: seq<Node>
    var edges: seq<Edge>
    var loading: bool
    var error: string
    var showForm: bool
    var editingMember: Option<Node>
    var saving: bool

    constructor ()
      ensures nodes == [] && edges == [] && loading && error == ""
      ensures !showForm && editingMember.None? && !saving
    {
      nodes, edges := [], [];
      loading, error := true, "";
      showForm, editingMember, saving := false, None, false;
    }

    /** `fetchFamilyTree`: a reply replaces the graph (no edges read as none); a failure sets the error. */
    method FetchFamilyTree(reply: Option<FetchedTree>)
      modifies this
      ensures reply.Some? ==> nodes == reply.value.nodes && edges == reply.value.edges.GetOr([]) && error == old(error)
      ensures reply.None? ==> nodes == old(nodes) && edges == old(edges) && error == LoadFailed
      ensures !loading
      ensures showForm == old(showForm) && editingMember == old(editingMember) && saving == old(saving)
    {
      loading := true;
      match reply {
        case Some(tree) =>
          nodes := tree.nodes;
          edges := tree.edges.GetOr([]);
        case None =>
          error := LoadFailed;
      }
      loading := false;
    }

    /** `handleSaveTree`: once the server has stored the snapshot it becomes the graph. */
    method SaveTree(state: Snapshot, ok: bool)
      modifies this
      ensures ok ==> nodes == state.nodes && edges == state.edges
      ensures !ok ==> nodes == old(nodes) && edges == old(edges)
      ensures !saving
      ensures loading == old(loading) && error == old(error)
      ensures showForm == old(showForm) && editingMember == old(editingMember)
    {
      saving := true;
      if ok {
        nodes, edges := state.nodes, state.edges;
      }
      saving := false;
    }

    /** `handleAddMember`: opens the dialog, on the given member for an edit. */
    method AddMember(memberToEdit: Option<Node>)
      modifies this
      ensures editingMember == memberToEdit && showForm
      ensures nodes == old(nodes) && edges == old(edges) && saving == old(saving)
      ensures loading == old(loading) && error == old(error)
    {
      editingMember := memberToEdit;
      showForm := true;
    }

    /** The dialog's close button. */
    method CloseForm()
      modifies this
      ensures !showForm && editingMember.None?
      ensures nodes == old(nodes) && edges == old(edges) && saving == old(saving)
      ensures loading == old(loading) && error == old(error)
    {
      showForm := false;
      editingMember := None;
    }

    /**
     * `handleNuclearDelete`: nothing is sent and nothing changes unless the
     * prompt answer is exactly "NUCLEAR DELETE"; after a successful wipe the
     * graph is empty and a re-load is scheduled.
     */
    method NuclearDelete(typed: Option<string>, ok: bool) returns (requested: bool, refetch: bool)
      modifies this
      ensures requested <==> typed == Some(NuclearPhrase)
      ensures refetch <==> requested && ok
      ensures if requested && ok then nodes == [] && edges == [] else nodes == old(nodes) && edges == old(edges)
      ensures requested ==> !saving
      ensures !requested ==> saving == old(saving)
      ensures loading == old(loading) && error == old(error)
      ensures showForm == old(showForm) && editingMember == old(editingMember)
    {
      requested, refetch := false, false;
      if typed != Some(NuclearPhrase) {
        return;
      }
      requested := true;
      saving := true;
      if ok {
        nodes, edges := [], [];
        refetch := true;
      }
      saving := false;
    }

    /**
     * `handleClearAll`: gated on exactly "DELETE ALL"; success empties the
     * graph, failure leaves it as it was.
     */
    method ClearAll(typed: Option<string>, ok: bool) returns (requested: bool)
      modifies this
      ensures requested <==> typed == Some(ClearAllPhrase)
      ensures if requested && ok then nodes == [] && edges == [] else nodes == old(nodes) && edges == old(edges)
      ensures requested ==> !saving
      ensures !requested ==> saving == old(saving)
      ensures loading == old(loading) && error == old(error)
      ensures showForm == old(showForm) && editingMember == old(editingMember)
    {
      requested := false;
      if typed != Some(ClearAllPhrase) {
        return;
      }
      requested := true;
      saving := true;
      if ok {
        nodes, edges := [], [];
      }
      saving := false;
    }

    /**
     * `handleDeleteNode`: a missing node, a node without a name or a declined
     * confirm sends nothing; after a successful delete the node and every edge
     * touching it are gone, everything else is kept, and a re-load is scheduled.
     */
    method DeleteNode(target: Option<Node>, confirmed: bool, ok: bool) returns (requested: bool, refetch: bool)
      modifies this
      ensures requested <==> target.Some? && target.value.data.name != "" && confirmed
      ensures refetch <==> requested && ok
      ensures requested && ok ==>
                nodes == WithoutNode(old(nodes), target.value.id)
                && edges == WithoutIncident(old(edges), target.value.id)
      ensures !(requested && ok) ==> nodes == old(nodes) && edges == old(edges)
      ensures requested ==> !saving
      ensures !requested ==> saving == old(saving)
      ensures loading == old(loading) && error == old(error)
      ensures showForm == old(showForm) && editingMember == old(editingMember)
    {
      requested, refetch := false, false;
      if target.None? || target.value.data.name == "" {
        return;
      }
      if !confirmed {
        return;
      }
      requested := true;
      saving := true;
      var id := target.value.id;
      if ok {
        nodes, edges := WithoutNode(nodes, id), WithoutIncident(edges, id);
        refetch := true;
      }
      saving := false;
    }

    /**
     * The first half of `handleSubmitMember`, up to the request: a new member
     * is appended at once at its slot; the multipart fields are built.
     */
    method BeginSubmit(p: MemberForm.Payload, objectUrl: string) returns (temp: Option<Node>, fields: seq<(FieldKey, Js.Value)>)
      modifies this
      ensures temp.None? <==> p.isEditing
      ensures temp.Some? ==> temp.value == TempNode(p, Some(NewSlot(|old(nodes)|)), objectUrl)
      ensures nodes == if temp.Some? then old(nodes) + [temp.value] else old(nodes)
      ensures fields == UploadFields(p, SlotFor(p, |old(nodes)|))
      ensures saving
      ensures edges == old(edges) && loading == old(loading) && error == old(error)
      ensures showForm == old(showForm) && editingMember == old(editingMember)
    {
      saving := true;
      var pos := SlotFor(p, |nodes|);
      temp := None;
      if !p.isEditing {
        temp := Some(TempNode(p, pos, objectUrl));
        nodes := nodes + [temp.value];
      }
      fields := UploadFields(p, pos);
    }

    /**
     * The second half, once the request settles (`reply` is the server's
     * record, or nothing when the request failed): an edit replaces the node
     * with the record, an add merges the returned photo into the node, a failed
     * add removes the temporary node and a failed edit changes nothing.
     */
    method FinishSubmit(p: MemberForm.Payload, temp: Option<Node>, reply: Option<Node>)
      modifies this
      ensures reply.Some? && p.isEditing ==> nodes == ReplaceNode(old(nodes), p.nodeId, reply.value)
      ensures reply.Some? && !p.isEditing ==> nodes == MergePhoto(old(nodes), p.nodeId, reply.value.data.photo)
      ensures reply.None? && !p.isEditing && temp.Some? ==> nodes == WithoutNode(old(nodes), temp.value.id)
      ensures reply.None? && (p.isEditing || temp.None?) ==> nodes == old(nodes)
      ensures reply.Some? ==> !showForm && editingMember.None?
      ensures reply.None? ==> showForm == old(showForm) && editingMember == old(editingMember)
      ensures !saving
      ensures edges == old(edges) && loading == old(loading) && error == old(error)
    {
      match reply {
        case Some(record) =>
          if p.isEditing {
            nodes := ReplaceNode(nodes, p.nodeId, record);
          } else {
            nodes := MergePhoto(nodes, p.nodeId, record.data.photo);
          }
          showForm := false;
          editingMember := None;
        case None =>
          if !p.isEditing && temp.Some? {
            nodes := WithoutNode(nodes, temp.value.id);
          }
      }
      saving := false;
    }

    /**
     * `handleSubmitMember` from start to end, stated against the graph before
     * the submit.
     */
    method SubmitMember(p: MemberForm.Payload, objectUrl: string, reply: Option<Node>) returns (fields: seq<(FieldKey, Js.Value)>)
      modifies this
      ensures fields == UploadFields(p, SlotFor(p, |old(nodes)|))
      ensures var temp := TempNode(p, Some(NewSlot(|old(nodes)|)), objectUrl);
        && (!p.isEditing && reply.Some? ==> nodes == MergePhoto(old(nodes) + [temp], p.nodeId, reply.value.data.photo))
        && (!p.isEditing && reply.None? ==> nodes == WithoutNode(old(nodes), p.nodeId))
      ensures p.isEditing && reply.Some? ==> nodes == ReplaceNode(old(nodes), p.nodeId, reply.value)
      ensures p.isEditing && reply.None? ==> nodes == old(nodes)
      ensures reply.Some? ==> !showForm && editingMember.None?
      ensures reply.None? ==> showForm == old(showForm) && editingMember == old(editingMember)
      ensures !saving
      ensures edges == old(edges) && loading == old(loading) && error == old(error)
    {
      var before := nodes;
      var temp;
      temp, fields := BeginSubmit(p, objectUrl);
      FinishSubmit(p, temp, reply);
      if !p.isEditing && reply.None? {
        RollbackUndoesAdd(before, temp.value);
      }
    }
  }
}
