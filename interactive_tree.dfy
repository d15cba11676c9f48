/**
 * The drawing canvas of the interactive editor: connecting two nodes asks for
 * a relationship from a numbered menu and adds a styled edge; a selected node
 * can be edited or deleted together with its edges; saving hands the current
 * graph to the page. The menu answer, the confirmation, the clock and the
 * graph widget's own `addEdge` decision are parameters.
 */
module InteractiveTree {
  import opened Wrappers
  import opened Flow
  import Text

  datatype LineStyle = Solid | Dashed | Dotted

  /** A relationship of the menu: its tag, its colour and its line style. */
  datatype Relationship = Relationship(tag: string, color: string, style: LineStyle)

  /** The five relationships in menu order; the fifth is the fallback. */
  const Relationships: seq<Relationship> := [
    Relationship("spouse", "#ef4444", Solid),
    Relationship("parent-child", "#3b82f6", Solid),
    Relationship("sibling", "#10b981", Dashed),
    Relationship("grandparent-grandchild", "#8b5cf6", Dotted),
    Relationship("other", "#6b7280", Solid)
  ]

  /** An answer that names one of the menu entries, "1" to "5". */
  predicate IsMenuAnswer(answer: Option<string>) {
    answer.Some? && |answer.value| == 1 && '1' <= answer.value[0] <= '5'
  }

  /**
   * The relationship chosen by the answer to the menu prompt (`None` when the
   * prompt was cancelled): the numbered entry, or "other" for any other answer.
   */
  function RelationshipFor(answer: Option<string>): (r: Relationship)
    ensures r in Relationships
    ensures IsMenuAnswer(answer) ==> r == Relationships[answer.value[0] as int - '1' as int]
    ensures !IsMenuAnswer(answer) ==> r == Relationships[4]
  {
    match answer
    case None => Relationships[4]
    case Some(key) =>
      if key == "1" then Relationships[0]
      else if key == "2" then Relationships[1]
      else if key == "3" then Relationships[2]
      else if key == "4" then Relationships[3]
      else Relationships[4]
  }

  /** The stroke dash pattern of a line style. */
  function DashArray(style: LineStyle): (r: string)
    ensures r != ""
  {
    match style
    case Dashed => "8,4"
    case Dotted => "2,2"
    case Solid => "0"
  }

  /** Different line styles are drawn with different dash patterns, and only a solid line has none. */
  lemma DashArrayInjective(a: LineStyle, b: LineStyle)
    ensures DashArray(a) == DashArray(b) <==> a == b
    ensures DashArray(a) == "0" <==> a == Solid
  {
  }

  /** The edge label: the tag with its first hyphen shown as an arrow. */
  function Label(tag: string): string {
    Text.ReplaceFirst(tag, '-', " → ")
  }

  /** A tag whose first hyphen joins `a` and `b` is labelled `a → b`. */
  lemma LabelOfSplit(a: string, b: string)
    requires '-' !in a
    ensures Label(a + ['-'] + b) == a + " → " + b
  {
    Text.ReplaceFirstSplit(a, '-', b, " → ");
  }

  /** A tag without a hyphen is its own label. */
  lemma LabelWithoutHyphen(tag: string)
    requires '-' !in tag
    ensures Label(tag) == tag
  {
  }

  /** The endpoints of a connection the user drew. */
  datatype Connection = Connection(
    source: string,
    target: string,
    sourceHandle: Option<string>,
    targetHandle: Option<string>)

  /** The edge id: source, target and the clock reading at the time of connecting. */
  function EdgeId(c: Connection, now: nat): string {
    c.source + "-" + c.target + "-" + Text.NatToString(now)
  }

  /** The edge built for a connection, styled after the chosen relationship. */
  function NewEdge(c: Connection, answer: Option<string>, now: nat): (e: Edge)
    ensures e.id == EdgeId(c, now)
    ensures e.source == c.source && e.target == c.target
    ensures e.sourceHandle == c.sourceHandle && e.targetHandle == c.targetHandle
    ensures e.relationshipType in set r | r in Relationships :: r.tag
    ensures e.labelText == Label(e.relationshipType)
    ensures e.color == e.markerColor
  {
    var rel := RelationshipFor(answer);
    Edge(EdgeId(c, now), c.source, c.target, c.sourceHandle, c.targetHandle,
      rel.tag, Label(rel.tag), rel.color, DashArray(rel.style), rel.color)
  }

  /**
   * The edge carries exactly the relationship the answer chose: the numbered
   * entry's tag, colour and dash pattern, or the solid grey "other" line for any
   * other answer; only solid relationships are drawn without dashes.
   */
  lemma NewEdgeStyle(c: Connection, answer: Option<string>, now: nat)
    ensures var e := NewEdge(c, answer, now);
      && (IsMenuAnswer(answer) ==>
            var rel := Relationships[answer.value[0] as int - '1' as int];
            e.relationshipType == rel.tag && e.color == rel.color && e.dashArray == DashArray(rel.style))
      && (!IsMenuAnswer(answer) ==> e.relationshipType == "other" && e.color == "#6b7280" && e.dashArray == "0")
      && (e.dashArray == "0" <==> RelationshipFor(answer).style == Solid)
  {
    DashArrayInjective(RelationshipFor(answer).style, Solid);
  }

  /**
   * The clock reading can be read back from the edge id, so connections made
   * at different times get different ids.
   */
  lemma {:induction false} EdgeIdTimestamp(c: Connection, now: nat, later: nat)
    ensures var id := EdgeId(c, now);
      Text.ParseDigits(id[|c.source| + |c.target| + 2..]) == now
    ensures now != later ==> EdgeId(c, now) != EdgeId(c, later)
  {
    var k := |c.source| + |c.target| + 2;
    assert EdgeId(c, now)[k..] == Text.NatToString(now);
    assert EdgeId(c, later)[k..] == Text.NatToString(later);
    Text.ParseNatToString(now);
    Text.ParseNatToString(later);
  }

  /**
   * Keys every object inherits in JavaScript; looking one of them up in the
   * relationship table finds an inherited member instead of a relationship.
   */
  const InheritedKeys: set<string> := {
    "constructor", "__proto__", "toString", "toLocaleString", "valueOf",
    "hasOwnProperty", "isPrototypeOf", "propertyIsEnumerable",
    "__defineGetter__", "__defineSetter__", "__lookupGetter__", "__lookupSetter__"
  }

  /**
   * The lookup as written: an inherited key yields a truthy member with no
   * `type`, building the label then throws and no edge is made (`None`); every
   * other answer behaves as the corrected lookup.
   */
  function ConnectAsWritten(answer: Option<string>): (r: Option<Relationship>)
    ensures r.None? <==> answer.Some? && answer.value in InheritedKeys
    ensures r.Some? ==> r.value == RelationshipFor(answer)
  {
    if answer.Some? && answer.value in InheritedKeys then None
    else Some(RelationshipFor(answer))
  }

  /** Answering "toString" makes the lookup as written fail, where the fallback to "other" was intended. */
  lemma ToStringAnswerLosesEdge()
    ensures ConnectAsWritten(Some("toString")).None?
    ensures RelationshipFor(Some("toString")).tag == "other"
  {
    assert "toString" in InheritedKeys;
  }

  /** The canvas state: the graph on screen and the selected node. */
  class Canvas {
    const readOnly: bool
    var nodes: seq<Node>
    var edges: seq<Edge>
    var selected: Option<Node>

    constructor(initialNodes: seq<Node>, initialEdges: seq<Edge>, readOnly: bool)
      ensures this.readOnly == readOnly
      ensures nodes == initialNodes && edges == initialEdges && selected == None
    {
      this.readOnly := readOnly;
      nodes := initialNodes;
      edges := initialEdges;
      selected := None;
    }

    /**
     * Connecting two nodes. A read-only canvas ignores it; otherwise the new
     * edge is built and handed to the widget, which may decline to append it
     * (`appended` says which happened).
     */
    method Connect(c: Connection, answer: Option<string>, now: nat, appended: bool) returns (added: Option<Edge>)
      modifies this
      ensures readOnly ==> added == None && edges == old(edges)
      ensures !readOnly ==> added == Some(NewEdge(c, answer, now))
      ensures !readOnly && appended ==> edges == old(edges) + [added.value]
      ensures !appended ==> edges == old(edges)
      ensures nodes == old(nodes) && selected == old(selected)
    {
      if readOnly {
        return None;
      }
      var e := NewEdge(c, answer, now);
      added := Some(e);
      if appended {
        edges := edges + [e];
      }
    }

    /** Clicking a node selects it. */
    method SelectNode(n: Node)
      modifies this
      ensures selected == Some(n)
      ensures nodes == old(nodes) && edges == old(edges)
    {
      selected := Some(n);
    }

    /** Clicking the empty pane clears the selection. */
    method ClearSelection()
      modifies this
      ensures selected == None
      ensures nodes == old(nodes) && edges == old(edges)
    {
      selected := None;
    }

    /** Saving hands the graph, positions included, to the save callback when there is one. */
    method Save(hasCallback: bool) returns (snapshot: Option<Snapshot>)
      ensures snapshot.Some? <==> hasCallback
      ensures snapshot.Some? ==> snapshot.value.nodes == nodes && snapshot.value.edges == edges
    {
      if hasCallback {
        snapshot := Some(Snapshot(nodes, edges));
      } else {
        snapshot := None;
      }
    }

    /** Editing asks the page to open the form on the selected node, when there is one and a callback. */
    method EditSelected(hasCallback: bool) returns (request: Option<Node>)
      ensures request.Some? <==> selected.Some? && hasCallback
      ensures request.Some? ==> request == selected
    {
      if selected.Some? && hasCallback {
        request := selected;
      } else {
        request := None;
      }
    }

    /**
     * Deleting the selected node: only with a selection on an editable canvas
     * is the user asked; when they confirm, the node and every edge touching it
     * go and the selection is cleared, and a graph whose edges were all
     * attached stays so.
     */
    method DeleteSelected(confirmed: bool) returns (asked: bool)
      modifies this
      ensures asked <==> old(selected).Some? && !readOnly
      ensures !(asked && confirmed) ==> nodes == old(nodes) && edges == old(edges) && selected == old(selected)
      ensures asked && confirmed ==>
        && nodes == WithoutNode(old(nodes), old(selected).value.id)
        && edges == WithoutIncident(old(edges), old(selected).value.id)
        && selected == None
      ensures Attached(old(nodes), old(edges)) ==> Attached(nodes, edges)
    {
      asked := selected.Some? && !readOnly;
      if asked && confirmed {
        var id := selected.value.id;
        CascadeDelete(nodes, edges, id);
        nodes := WithoutNode(nodes, id);
        edges := WithoutIncident(edges, id);
        selected := None;
      }
    }
  }
}
