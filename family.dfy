/**
 * A member of the hierarchical family tree as the server returns it: the
 * member's own fields, an optional spouse shown beside them, and the children
 * below. `children` is whatever the server sent; only an array is walked.
 * An absent text field is "".
 */
module Family {
  import opened Wrappers

  datatype Member = Member(
    id: string,
    name: string,
    relation: string,
    gender: string,
    spouse: Option<Member>,
    children: Children)

  /** The `children` field: an array of members, or any other value. */
  datatype Children = Listed(items: seq<Member>) | NotAList

  /** The children as a list: a non-array counts as none. */
  function ChildList(m: Member): seq<Member> {
    match m.children
    case Listed(items) => items
    case NotAList => []
  }
}
