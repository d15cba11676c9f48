/**
 * The read-only family tree page: each member is drawn as a card (with its
 * spouse beside it) over a row of child branches, connected by a vertical
 * line per child and, for several children, one horizontal line spanning
 * them. Offsets are in rem from the centre of the couple; they are exact
 * multiples of 6, so they are modelled as reals without rounding.
 */
module FamilyTree {
  import opened Wrappers
  import opened Family
  import Js
  import Text

  /** The horizontal offset of child `i` of `n`: `i` steps of 12 from the centre of the row. */
  function ChildOffset(i: int, n: int): real {
    ((i as real) - ((n - 1) as real) / 2.0) * 12.0
  }

  /** Offsets are whole numbers of rem, in steps of 6: 12 per index, shifted back by 6 per extra child. */
  lemma OffsetInHalfUnits(i: int, n: int)
    ensures ChildOffset(i, n) == (12 * i - 6 * (n - 1)) as real
  {
  }

  /** The row is symmetric about the centre: child `i` mirrors child `n - 1 - i`. */
  lemma OffsetAntisymmetric(i: int, n: int)
    ensures ChildOffset(i, n) == -ChildOffset(n - 1 - i, n)
  {
  }

  /** Neighbouring children sit exactly 12 apart, and a single child sits at the centre. */
  lemma OffsetSpacing(i: int, n: int)
    ensures ChildOffset(i + 1, n) - ChildOffset(i, n) == 12.0
    ensures ChildOffset(0, 1) == 0.0
  {
  }

  /** The offsets of a row of `n` children, left to right. */
  function Offsets(n: nat): (r: seq<real>)
    ensures |r| == n
    ensures forall i :: 0 <= i < n ==> r[i] == ChildOffset(i, n)
  {
    seq(n, i => ChildOffset(i, n))
  }

  function Sum(xs: seq<real>): real {
    if xs == [] then 0.0 else xs[0] + Sum(xs[1..])
  }

  /** The closed form of the sum of the last `k` offsets of a row of `n`. */
  function ClosedSum(k: int, n: int): int {
    6 * k * (k - 1) - 6 * k * (n - 1) + 12 * k * (n - k)
  }

  /** Taking one more offset into the sum adds child `n - k`'s offset to the closed form. */
  lemma ClosedSumStep(k: int, n: int)
    ensures ClosedSum(k, n) - ClosedSum(k - 1, n) == 12 * (n - k) - 6 * (n - 1)
  {
    assert 6 * k * (k - 1) - 6 * (k - 1) * (k - 2) == 12 * (k - 1);
    assert 6 * k * (n - 1) - 6 * (k - 1) * (n - 1) == 6 * (n - 1);
    assert 12 * k * (n - k) - 12 * (k - 1) * (n - k + 1) == 12 * (n - k) - 12 * (k - 1);
  }

  /** The sum of the last `k` offsets of a row of `n`, in closed form. */
  lemma {:induction false} PartialSum(k: nat, n: nat)
    requires k <= n
    ensures Sum(Offsets(n)[n - k..]) == ClosedSum(k, n) as real
  {
    if k > 0 {
      var s := Offsets(n)[n - k..];
      assert s[1..] == Offsets(n)[n - (k - 1)..];
      PartialSum(k - 1, n);
      OffsetInHalfUnits(n - k, n);
      ClosedSumStep(k, n);
      var x := 12 * (n - k) - 6 * (n - 1);
      var a := ClosedSum(k - 1, n);
      assert s[0] == x as real;
      assert Sum(s) == x as real + a as real;
      assert ClosedSum(k, n) == x + a;
    }
  }

  /** The offsets of a row cancel out: the children are centred under the couple. */
  lemma OffsetsSumToZero(n: nat)
    ensures Sum(Offsets(n)) == 0.0
  {
    PartialSum(n, n);
    assert Offsets(n)[0..] == Offsets(n);
    assert ClosedSum(n, n) == 0;
  }

  /** The horizontal line over several children: its width and its left edge from the centre. */
  datatype Line = Line(width: real, left: real)

  /** The line drawn for `n` children, only when there are at least two. */
  function DistributionLine(n: nat): Option<Line> {
    if n > 1 then Some(Line(((n - 1) * 12) as real, -(((n - 1) * 12) as real) / 2.0)) else None
  }

  /** The line, when there is one, runs exactly from the first child's offset to the last child's. */
  lemma LineSpansChildren(n: nat)
    ensures DistributionLine(n).Some? <==> n > 1
    ensures n > 1 ==>
              && DistributionLine(n).value.left == ChildOffset(0, n)
              && DistributionLine(n).value.left + DistributionLine(n).value.width == ChildOffset(n - 1, n)
  {
  }

  /** A drawn member: its card, its spouse's card, and the children block when it has children. */
  datatype Branch = Hidden | Shown(card: Member, spouse: Option<Member>, block: Option<Block>)

  /** The children block: the optional spanning line, one offset per child, and the children's branches. */
  datatype Block = Block(line: Option<Line>, offsets: seq<real>, branches: seq<Branch>)

  /**
   * Drawing a member: nothing for a member without an id; otherwise its card,
   * its spouse's card, and a children block only when its `children` is a
   * non-empty array.
   */
  function Render(m: Member): Branch
    decreases m
  {
    if m.id == "" then Hidden
    else
      match m.children
      case NotAList => Shown(m, m.spouse, None)
      case Listed(items) =>
        if |items| == 0 then Shown(m, m.spouse, None)
        else Shown(m, m.spouse, Some(Block(DistributionLine(|items|), Offsets(|items|),
          seq(|items|, i requires 0 <= i < |items| => Render(items[i])))))
  }

  /**
   * A branch whose children block, at every level, has one offset per child
   * branch, the spanning line exactly when there are several children, offsets
   * 12 apart that cancel out, and a line running from the first to the last.
   */
  predicate LaidOut(b: Branch)
    decreases b
  {
    b.Shown? && b.block.Some? ==>
      var blk := b.block.value;
      var n := |blk.branches|;
      && n > 0 && |blk.offsets| == n
      && (blk.line.Some? <==> n > 1)
      && (forall i :: 0 <= i < n - 1 ==> blk.offsets[i + 1] - blk.offsets[i] == 12.0)
      && Sum(blk.offsets) == 0.0
      && (blk.line.Some? ==> blk.line.value.left == blk.offsets[0]
                             && blk.line.value.left + blk.line.value.width == blk.offsets[n - 1])
      && (forall i :: 0 <= i < n ==> LaidOut(blk.branches[i]))
  }

  /**
   * Every drawn member is laid out well, and the drawing follows the member:
   * hidden exactly without an id, a children block exactly for a non-empty
   * array of children, one branch per child in order.
   */
  lemma {:induction false} RenderLaidOut(m: Member)
    ensures Render(m).Hidden? <==> m.id == ""
    ensures Render(m).Shown? ==> Render(m).card == m && Render(m).spouse == m.spouse
    ensures Render(m).Shown? ==> (Render(m).block.Some? <==> |ChildList(m)| > 0)
    ensures Render(m).Shown? && Render(m).block.Some? ==>
              Render(m).block.value.branches == seq(|ChildList(m)|, i requires 0 <= i < |ChildList(m)| => Render(ChildList(m)[i]))
    ensures LaidOut(Render(m))
    decreases m
  {
    if m.id != "" {
      match m.children {
        case NotAList =>
        case Listed(items) =>
          if |items| > 0 {
            var n := |items|;
            forall i | 0 <= i < n
              ensures LaidOut(Render(items[i]))
            {
              RenderLaidOut(items[i]);
            }
            OffsetsSumToZero(n);
            LineSpansChildren(n);
            forall i | 0 <= i < n - 1
              ensures Offsets(n)[i + 1] - Offsets(n)[i] == 12.0
            {
              OffsetSpacing(i, n);
            }
          }
      }
    }
  }

  /** The relation and gender proposed by "Add Spouse". */
  datatype SpouseChoice = SpouseChoice(relation: string, gender: string)

  /**
   * "Add Spouse": a wife for a member whose gender is "male" in any letter
   * case, a husband for everyone else, with the matching gender.
   */
  function AddSpouse(selectedGender: string): (c: SpouseChoice)
    ensures Text.ToLower(selectedGender) == "male" ==> c == SpouseChoice("wife", "female")
    ensures Text.ToLower(selectedGender) != "male" ==> c == SpouseChoice("husband", "male")
  {
    var relation := if Text.ToLower(selectedGender) == "male" then "wife" else "husband";
    SpouseChoice(relation, if relation == "wife" then "female" else "male")
  }

  /** The proposed spouse's gender always agrees with the proposed relation. */
  lemma AddSpouseConsistent(selectedGender: string)
    ensures AddSpouse(selectedGender).relation == "wife" <==> AddSpouse(selectedGender).gender == "female"
    ensures AddSpouse(Text.ToLower(selectedGender)) == AddSpouse(selectedGender)
  {
    Text.ToLowerIdempotent(selectedGender);
  }

  /** What a delete on the tree page leads to. */
  datatype DeleteOutcome = Invalid | Declined | Deleted | Failed(message: string)

  /** The page's state. */
  class FamilyTreeView {
    var tree: seq<Member>
    var loading: bool
    var error: string
    var selected: Option<Member>

    constructor ()
      ensures tree == [] && loading && error == "" && selected == None
    {
      tree := [];
      loading := true;
      error := "";
      selected := None;
    }

    /**
     * Deleting a member and its subtree: a member without an id is refused
     * with a warning and a declined confirm does nothing, neither sending a
     * request; a successful delete reloads the tree and closes the details;
     * a failure reports the server's message or a fallback. Loading ends
     * whenever a request was sent.
     */
    method HandleDelete(node: Option<Member>, confirmed: bool, reply: Result<(), Option<string>>)
      returns (outcome: DeleteOutcome, requested: bool, reload: bool)
      modifies this
      ensures requested <==> node.Some? && node.value.id != "" && confirmed
      ensures node.None? || node.value.id == "" ==> outcome == Invalid
      ensures !requested ==> loading == old(loading) && selected == old(selected)
      ensures requested ==> !loading
      ensures reload <==> requested && reply.Ok?
      ensures requested && reply.Ok? ==> outcome == Deleted && selected == None
      ensures requested && reply.Err? ==>
                outcome == Failed(Js.MessageOr(reply.error, "Delete failed")) && selected == old(selected)
      ensures node.Some? && node.value.id != "" && !confirmed ==> outcome == Declined
      ensures tree == old(tree) && error == old(error)
    {
      requested := false;
      reload := false;
      if node.None? || node.value.id == "" {
        return Invalid, false, false;
      }
      if !confirmed {
        return Declined, false, false;
      }
      requested := true;
      loading := true;
      match reply {
        case Ok(_) =>
          reload := true;
          selected := None;
          outcome := Deleted;
        case Err(message) =>
          outcome := Failed(Js.MessageOr(message, "Delete failed"));
      }
      loading := false;
    }

    /** Loading the tree: nothing without a user; the server's forest, or its message or a fallback. */
    method Load(hasUser: bool, reply: Result<seq<Member>, Option<string>>)
      modifies this
      ensures !hasUser ==> tree == old(tree) && loading == old(loading) && error == old(error)
      ensures hasUser ==> !loading
      ensures hasUser && reply.Ok? ==> tree == reply.value && error == old(error)
      ensures hasUser && reply.Err? ==> tree == old(tree) && error == Js.MessageOr(reply.error, "Failed to load tree")
      ensures selected == old(selected)
    {
      if !hasUser {
        return;
      }
      loading := true;
      match reply {
        case Ok(data) => tree := data;
        case Err(message) => error := Js.MessageOr(message, "Failed to load tree");
      }
      loading := false;
    }
  }
}
