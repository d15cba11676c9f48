/**
 * The free-form graph shared by the interactive editor page and its canvas:
 * positioned nodes and typed edges, and the list updates both apply to them.
 * A text field holding "" stands for a field that is absent or empty; the
 * code only ever tests these fields for truthiness. The `onEdit`/`onDelete`
 * closures the page attaches to each node's data are not part of the model.
 */
module Flow {
  import opened Wrappers
  import Seqs

  datatype Position = Position(x: int, y: int)

  /** A photo reference as `{ url }`. */
  datatype Photo = Photo(url: string)

  /** What a node displays. */
  datatype NodeData = NodeData(
    name: string,
    dateOfBirth: string,
    dateOfDeath: string,
    gender: string,
    occupation: string,
    location: string,
    notes: string,
    photo: Option<Photo>)

  /** A node; `kind` is the widget's node `type` ("familyMember"). */
  datatype Node = Node(id: string, kind: string, position: Option<Position>, data: NodeData)

  /** An edge with the label and style the canvas gives it. */
  datatype Edge = Edge(
    id: string,
    source: string,
    target: string,
    sourceHandle: Option<string>,
    targetHandle: Option<string>,
    relationshipType: string,
    labelText: string,
    color: string,
    dashArray: string,
    markerColor: string)

  /** The `{ nodes, edges }` pair handed to the save callback. */
  datatype Snapshot = Snapshot(nodes: seq<Node>, edges: seq<Edge>)

  /** The nodes whose id differs from `id`, in their order. */
  function WithoutNode(nodes: seq<Node>, id: string): (r: seq<Node>)
    ensures forall n :: n in r <==> n in nodes && n.id != id
  {
    Seqs.Filter(nodes, (n: Node) => n.id != id)
  }

  /** The edges touching neither end at `id`, in their order. */
  function WithoutIncident(edges: seq<Edge>, id: string): (r: seq<Edge>)
    ensures forall e :: e in r <==> e in edges && e.source != id && e.target != id
  {
    Seqs.Filter(edges, (e: Edge) => e.source != id && e.target != id)
  }

  function Ids(nodes: seq<Node>): set<string> {
    set n | n in nodes :: n.id
  }

  /** Every edge joins two nodes that are on the canvas. */
  predicate Attached(nodes: seq<Node>, edges: seq<Edge>) {
    forall e :: e in edges ==> e.source in Ids(nodes) && e.target in Ids(nodes)
  }

  /**
   * Removing a node together with its incident edges: no node with that id and
   * no edge touching it survive, everything else survives in its original order
   * and multiplicity, and a graph whose edges were all attached stays so.
   */
  lemma {:induction false} CascadeDelete(nodes: seq<Node>, edges: seq<Edge>, id: string)
    ensures forall n :: n in WithoutNode(nodes, id) ==> n.id != id
    ensures forall e :: e in WithoutIncident(edges, id) ==> e.source != id && e.target != id
    ensures Seqs.IsSubsequence(WithoutNode(nodes, id), nodes)
    ensures Seqs.IsSubsequence(WithoutIncident(edges, id), edges)
    ensures forall n: Node :: n.id != id ==> multiset(WithoutNode(nodes, id))[n] == multiset(nodes)[n]
    ensures forall e: Edge :: e.source != id && e.target != id ==>
              multiset(WithoutIncident(edges, id))[e] == multiset(edges)[e]
    ensures Attached(nodes, edges) ==> Attached(WithoutNode(nodes, id), WithoutIncident(edges, id))
  {
    var keepNode := (n: Node) => n.id != id;
    var keepEdge := (e: Edge) => e.source != id && e.target != id;
    Seqs.FilterOrder(nodes, keepNode);
    Seqs.FilterOrder(edges, keepEdge);
    forall n: Node | n.id != id
      ensures multiset(WithoutNode(nodes, id))[n] == multiset(nodes)[n]
    {
      Seqs.FilterCounts(nodes, keepNode, n);
    }
    forall e: Edge | e.source != id && e.target != id
      ensures multiset(WithoutIncident(edges, id))[e] == multiset(edges)[e]
    {
      Seqs.FilterCounts(edges, keepEdge, e);
    }
    if Attached(nodes, edges) {
      var ns, es := WithoutNode(nodes, id), WithoutIncident(edges, id);
      forall e | e in es
        ensures e.source in Ids(ns) && e.target in Ids(ns)
      {
        var s :| s in nodes && s.id == e.source;
        var t :| t in nodes && t.id == e.target;
        assert s in ns && t in ns;
      }
    }
  }

  /** When no node carries the id, removing it changes nothing. */
  lemma WithoutAbsentNode(nodes: seq<Node>, id: string)
    requires forall i :: 0 <= i < |nodes| ==> nodes[i].id != id
    ensures WithoutNode(nodes, id) == nodes
  {
    Seqs.FilterKeepsAll(nodes, (n: Node) => n.id != id);
  }

  /**
   * The photo the server returned is merged into the node(s) with that id;
   * every node keeps its place and all of its other fields.
   */
  function MergePhoto(nodes: seq<Node>, id: string, served: Option<Photo>): (r: seq<Node>)
    ensures |r| == |nodes|
    ensures forall i :: 0 <= i < |nodes| ==>
              r[i].id == nodes[i].id && r[i].kind == nodes[i].kind && r[i].position == nodes[i].position
              && r[i].data.(photo := nodes[i].data.photo) == nodes[i].data
    ensures forall i :: 0 <= i < |nodes| && nodes[i].id != id ==> r[i] == nodes[i]
    ensures forall i :: 0 <= i < |nodes| && nodes[i].id == id && served.Some? ==> r[i].data.photo == served
    ensures served.None? ==> r == nodes
  {
    seq(|nodes|, i requires 0 <= i < |nodes| =>
      if nodes[i].id == id then nodes[i].(data := nodes[i].data.(photo := PhotoOr(served, nodes[i].data.photo)))
      else nodes[i])
  }

  /** The served photo when there is one, else the current: any photo object counts, even one whose `url` is empty. */
  function PhotoOr(served: Option<Photo>, current: Option<Photo>): Option<Photo> {
    if served.Some? then served else current
  }

  /**
   * The node(s) with that id are replaced by the server's record, typed as a
   * family-member node; every other node keeps its place.
   */
  function ReplaceNode(nodes: seq<Node>, id: string, record: Node): (r: seq<Node>)
    ensures |r| == |nodes|
    ensures forall i :: 0 <= i < |nodes| && nodes[i].id != id ==> r[i] == nodes[i]
    ensures forall i :: 0 <= i < |nodes| && nodes[i].id == id ==> r[i] == record.(kind := "familyMember")
  {
    seq(|nodes|, i requires 0 <= i < |nodes| =>
      if nodes[i].id == id then record.(kind := "familyMember") else nodes[i])
  }
}
