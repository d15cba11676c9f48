# FamilyTree front end: a Dafny model of its pages and editor

This project models the client-side logic of the FamilyTree web front end in Dafny.
It proves properties of that logic. The modelled parts are:

- **The interactive family-tree editor** (module `InteractivePage`, class `Page`).
  It holds a free-form graph of member nodes and relationship edges.
  Its handlers load the graph, save it, wipe it behind a typed phrase, and delete one member with its connections.
  They also submit a new or edited member: a new node appears at once in the next slot of the top row.
  It is rolled back when the server refuses it, and it takes the server's photo when the server accepts it.
- **The editor's canvas** (module `InteractiveTree`, class `Canvas`).
  Connecting two nodes asks for a relationship from a five-entry menu.
  The resulting edge gets the relationship's colour, dash pattern, arrow label and a time-stamped id.
  A selected node can be edited, or deleted together with every edge touching it.
- **The add/edit dialog** (module `MemberForm`, class `Dialog`).
  It prefills the form from the member being edited and refuses a blank name.
  It builds the payload with the node's id, or a fresh `node-<time>` id.
- **The member card** (module `MemberNode`). It shows the age text, the deceased mark, and the gender colouring and avatar.
- **The hierarchical family pages.**
  - The tree view (module `FamilyTree`) draws each member over a centred row of children, with connecting lines.
    It also handles deleting a subtree and proposing a spouse.
  - The add/edit form (module `FamilyForm`) flattens the server's forest into a parent list with depths.
    It keeps a context parent and applies quick-add presets.
    It prefills the form from the query string or from a stored member.
    Its submit sends only the non-empty fields.
- **The album page** (module `Album`): loading, uploading, deleting and category titles.
- **The route guards** (module `Routes`): a signed-in guard, and a guard that also requires a paid account.
- **The HTTP client** (module `Api`): the bearer header, and the redirects on 401 and 402.

Modules `Flow` (the editor's graph and its list updates), `Family` (a member of the hierarchical tree), `Js`, `Text`, `Seqs` and `Wrappers` hold the shared data and helpers.

Every input from the browser or the server is a parameter of the operation that consumes it:

- the answer to a prompt or confirm dialog;
- whether a request succeeded, and what the server returned;
- the clock reading;
- the object URL or data URL made for a chosen file;
- the calendar year of a date.

A text field that the source reads only for truthiness is a `string`, in which "" stands for absent or empty.
Components whose fields change over time are classes whose methods change those fields.
Pure computations are functions with lemmas about them.

## Model

| member | source | states |
|---|---|---|
| Flow.WithoutNode | src/pages/InteractiveFamilyTreePage.jsx:157 | a node is kept exactly when it was there and its id differs from the deleted one |
| Flow.WithoutIncident | src/pages/InteractiveFamilyTreePage.jsx:158-160 | an edge is kept exactly when it was there and neither end is the deleted id |
| Flow.CascadeDelete | src/pages/InteractiveFamilyTreePage.jsx:156-165 | after removing a node with its edges, no node with the id and no edge touching it remains; every other node and edge keeps its order and its number of copies; a graph whose edges all joined existing nodes stays so |
| Flow.WithoutAbsentNode | src/pages/InteractiveFamilyTreePage.jsx:296 | removing an id that no node carries leaves the list unchanged |
| Flow.MergePhoto | src/pages/InteractiveFamilyTreePage.jsx:269-278 | the list keeps its length and order; only the nodes with the id change, and only in their photo; they get the served photo when there is one; with no served photo nothing changes |
| Flow.ReplaceNode | src/pages/InteractiveFamilyTreePage.jsx:253-266 | the list keeps its length and order; nodes with another id are unchanged, and every node carrying the edited id becomes the server's record typed as a family member |
| InteractivePage.SlotFor | src/pages/InteractiveFamilyTreePage.jsx:190-195 | an edit gets no position; a new member gets x = 250 × (number of nodes) + 100 and y = 50 |
| InteractivePage.TempNode | src/pages/InteractiveFamilyTreePage.jsx:199-215 | the placeholder node has the payload's id, the family-member type, the slot, the form's texts, and a photo URL exactly when a file was chosen |
| InteractivePage.UploadedText | src/pages/InteractiveFamilyTreePage.jsx:229-236 | the name and the notes go into the multipart body exactly when they are non-empty |
| InteractivePage.UploadedPhotoAndFlags | src/pages/InteractiveFamilyTreePage.jsx:229-236 | a chosen photo is sent, a null photo never is, and the node id and the edit flag always are |
| InteractivePage.UploadedPosition | src/pages/InteractiveFamilyTreePage.jsx:238-242 | positionX and positionY are sent exactly for a new member, with the slot's values |
| InteractivePage.RollbackUndoesAdd | src/pages/InteractiveFamilyTreePage.jsx:292-297 | removing the temporary node after a failed add gives back the list from before the add, when its id was fresh |
| InteractivePage.AddThenMerge | src/pages/InteractiveFamilyTreePage.jsx:269-278 | after a successful add, the new node is still last with the served photo, or its own when none was served; the earlier nodes with other ids are untouched |
| InteractivePage.EditReplacesOne | src/pages/InteractiveFamilyTreePage.jsx:251-266 | when one node carries the edited id, a successful edit swaps exactly that node for the server's record |
| InteractivePage.Page.constructor | src/pages/InteractiveFamilyTreePage.jsx:7-12 | an empty graph, loading, no error, no dialog, not saving |
| InteractivePage.Page.FetchFamilyTree | src/pages/InteractiveFamilyTreePage.jsx:18-45 | a reply replaces the graph, with missing edges read as none; a failure keeps the graph and sets the load error; loading ends |
| InteractivePage.Page.SaveTree | src/pages/InteractiveFamilyTreePage.jsx:47-58 | a stored snapshot becomes the graph; a failed save keeps the graph; saving ends |
| InteractivePage.Page.AddMember | src/pages/InteractiveFamilyTreePage.jsx:60-63 | the dialog opens on the given member, or on none |
| InteractivePage.Page.CloseForm | src/pages/InteractiveFamilyTreePage.jsx:385-388 | the dialog closes and forgets the edited member; the graph is unchanged |
| InteractivePage.Page.NuclearDelete | src/pages/InteractiveFamilyTreePage.jsx:65-100 | a request is sent only when the typed answer is exactly "NUCLEAR DELETE"; success empties the graph and schedules a re-load; otherwise the graph is unchanged |
| InteractivePage.Page.ClearAll | src/pages/InteractiveFamilyTreePage.jsx:102-129 | a request is sent only when the typed answer is exactly "DELETE ALL"; success empties the graph; failure keeps it |
| InteractivePage.Page.DeleteNode | src/pages/InteractiveFamilyTreePage.jsx:131-180 | nothing is sent for a missing or nameless node or a declined confirm; success removes the node and its edges and schedules a re-load; failure keeps the graph |
| InteractivePage.Page.BeginSubmit | src/pages/InteractiveFamilyTreePage.jsx:182-242 | a new member's placeholder node is appended at its slot and an edit appends nothing; the multipart fields are the kept payload fields plus the slot |
| InteractivePage.Page.FinishSubmit | src/pages/InteractiveFamilyTreePage.jsx:250-304 | on success an edit replaces the node, an add merges the photo, and the dialog closes; on failure an add's placeholder is removed and an edit changes nothing |
| InteractivePage.Page.SubmitMember | src/pages/InteractiveFamilyTreePage.jsx:182-305 | the whole submit, stated against the graph before it: a failed add leaves the earlier list minus the new id, a successful add keeps the placeholder with the merged photo, and an edit replaces the node or changes nothing |
| InteractiveTree.RelationshipFor | src/components/InteractiveFamilyTree.jsx:65-73 | the answers "1" to "5" choose that menu entry; any other answer, including a cancelled prompt, chooses "other" |
| InteractiveTree.DashArrayInjective | src/components/InteractiveFamilyTree.jsx:97-98 | the three line styles get three different dash patterns, and only a solid line gets "0" |
| InteractiveTree.LabelOfSplit | src/components/InteractiveFamilyTree.jsx:81 | a tag whose first hyphen joins a and b is labelled "a → b" |
| InteractiveTree.LabelWithoutHyphen | src/components/InteractiveFamilyTree.jsx:81 | a tag without a hyphen is its own label |
| InteractiveTree.NewEdge | src/components/InteractiveFamilyTree.jsx:76-106 | the edge keeps the connection's ends and handles; its type is one of the menu's tags and its label is derived from that tag; its arrow has the line's colour |
| InteractiveTree.NewEdgeStyle | src/components/InteractiveFamilyTree.jsx:73-106 | the edge carries the chosen entry's tag, colour and dash pattern, or the solid grey "other" line for any other answer |
| InteractiveTree.EdgeIdTimestamp | src/components/InteractiveFamilyTree.jsx:78 | the clock reading can be parsed back from the end of the edge id, so connections made at different times get different ids |
| InteractiveTree.ConnectAsWritten | src/components/InteractiveFamilyTree.jsx:73 | the lookup as written makes no edge exactly for an answer naming an inherited object member, and otherwise agrees with the intended lookup |
| InteractiveTree.ToStringAnswerLosesEdge | src/components/InteractiveFamilyTree.jsx:73 | the answer "toString" loses the edge under the lookup as written, where the intended lookup falls back to "other" |
| InteractiveTree.Canvas.constructor | src/components/InteractiveFamilyTree.jsx:37-46 | the canvas starts from the given graph with nothing selected |
| InteractiveTree.Canvas.Connect | src/components/InteractiveFamilyTree.jsx:50-111 | a read-only canvas ignores the connection; otherwise the new edge is built with the corrected menu lookup and appended when the widget accepts it |
| InteractiveTree.Canvas.SelectNode | src/components/InteractiveFamilyTree.jsx:114-116 | the clicked node becomes the selection |
| InteractiveTree.Canvas.ClearSelection | src/components/InteractiveFamilyTree.jsx:119-121 | clicking the empty pane clears the selection |
| InteractiveTree.Canvas.Save | src/components/InteractiveFamilyTree.jsx:124-134 | with a save callback, the current nodes and edges are handed over; without one, nothing |
| InteractiveTree.Canvas.EditSelected | src/components/InteractiveFamilyTree.jsx:144-148 | the selected node is handed to the edit callback exactly when both exist |
| InteractiveTree.Canvas.DeleteSelected | src/components/InteractiveFamilyTree.jsx:151-161 | the user is asked only with a selection on an editable canvas; on confirm the node and its edges go, the selection clears, and attached edges stay attached |
| MemberForm.Submit | src/components/FamilyMemberForm.jsx:78-90 | a blank name is refused; otherwise the payload holds the form unchanged, the edited node's id or a fresh `node-<time>` id, and the edit flag exactly when a member is edited |
| MemberForm.FreshNodeIdsDiffer | src/components/FamilyMemberForm.jsx:87 | fresh node ids made at different instants differ |
| MemberForm.Prefill | src/components/FamilyMemberForm.jsx:24-53 | the edited member's texts, gender "other" when it has none, dates only when present, and never a photo; the empty form when nothing is edited |
| MemberForm.PrefillThenSubmit | src/components/FamilyMemberForm.jsx:24-90 | opening the dialog on a named node and submitting it untouched sends an edit of that node, with its name and no new photo |
| MemberForm.Title | src/components/FamilyMemberForm.jsx:92-101 | a closed dialog shows nothing; an open one is titled for an edit or for an add |
| MemberForm.Dialog.constructor | src/components/FamilyMemberForm.jsx:10-21 | the empty form and no preview |
| MemberForm.Dialog.Load | src/components/FamilyMemberForm.jsx:24-53 | the prefilled form, with the member's photo URL as preview when it has one |
| MemberForm.Dialog.InputChange | src/components/FamilyMemberForm.jsx:55-61 | only the named field takes the typed value |
| MemberForm.Dialog.PhotoChange | src/components/FamilyMemberForm.jsx:63-76 | a chosen file becomes the photo and its data URL the preview; no file, no change |
| MemberNode.AgeText | src/components/FamilyMemberNode.jsx:17-28 | empty exactly without a date of birth; "(N years)" for a deceased member and "Age N" otherwise |
| MemberNode.AgeTextReadsBack | src/components/FamilyMemberNode.jsx:20-27 | the number in the age text is the difference of the years: the death year, or the current year for a living member |
| MemberNode.DeceasedMatchesAgeText | src/components/FamilyMemberNode.jsx:147 | the deceased mark shows exactly when the age text has the "(N years)" form |
| MemberNode.ToneOf | src/components/FamilyMemberNode.jsx:31-40 | blue exactly for "male", pink exactly for "female", grey otherwise |
| MemberNode.GenderSplitShared | src/components/FamilyMemberNode.jsx:82 | the card's colouring and its placeholder avatar split genders the same way: two genders share a style exactly when they share an avatar |
| MemberNode.PictureOf | src/components/FamilyMemberNode.jsx:74-84 | the photo is shown exactly when it has a non-empty URL; otherwise the avatar of the gender |
| FamilyForm.FlattenAppend | src/pages/FamilyForm.jsx:37-42 | flattening two runs of siblings lists the first run's entries and then the second's |
| FamilyForm.FlattenCount | src/pages/FamilyForm.jsx:37-42 | the list has one entry per member the walk reaches |
| FamilyForm.FlattenComplete | src/pages/FamilyForm.jsx:37-42 | every member reachable along arrays of children is listed, at the depth of its number of ancestors |
| FamilyForm.FlattenSound | src/pages/FamilyForm.jsx:37-42 | every listed entry is a reachable member, at the depth of its number of ancestors |
| FamilyForm.Find | src/pages/FamilyForm.jsx:46 | nothing exactly when no entry has the id; otherwise the first entry with it |
| FamilyForm.Revalidate | src/pages/FamilyForm.jsx:46-48 | the context parent is kept exactly while the list still has its id |
| FamilyForm.RevalidateIdempotent | src/pages/FamilyForm.jsx:46-48 | revalidating twice is revalidating once |
| FamilyForm.PrefillQuery | src/pages/FamilyForm.jsx:62-72 | when any of parentId, relation or gender is non-empty, every present one overrides its field; otherwise the form is unchanged; other fields never change |
| FamilyForm.PrefillQueryIdempotent | src/pages/FamilyForm.jsx:66-72 | applying the same query twice is applying it once |
| FamilyForm.EditPrefill | src/pages/FamilyForm.jsx:87-101 | every field comes from the stored member, with gender "other" when absent, the date only when present, the address parts, and no photo |
| FamilyForm.EditPrefillOverwritesAll | src/pages/FamilyForm.jsx:87-101 | the result does not depend on what the form held before |
| FamilyForm.EditPrefillThenSubmit | src/pages/FamilyForm.jsx:87-131 | submitting a freshly loaded member sends its name exactly when it has one, and always sends a gender |
| FamilyForm.Submitted | src/pages/FamilyForm.jsx:129-131 | exactly the form's entries that are neither null, undefined nor empty are sent |
| FamilyForm.SubmittedDefaults | src/pages/FamilyForm.jsx:139-142 | of the form after a reset, only the gender "other" is sent |
| FamilyForm.SetQuick | src/pages/FamilyForm.jsx:149-157 | the relation becomes the preset's; the gender the preset's when it names one; the parent is cleared, taken from the context parent, or kept; nothing else changes |
| FamilyForm.SetQuickIdempotent | src/pages/FamilyForm.jsx:149-157 | pressing a preset twice is pressing it once |
| FamilyForm.ToolbarPresets | src/pages/FamilyForm.jsx:166-170 | "Self" clears the parent; wife, husband, son and daughter take the context parent when there is one and set their gender |
| FamilyForm.UseProfile | src/pages/FamilyForm.jsx:173 | the user's name when there is one, relation "self", no parent, nothing else changed |
| FamilyForm.FamilyFormPage.constructor | src/pages/FamilyForm.jsx:9-28 | an empty list, loading, no error, no context parent, the default form |
| FamilyForm.FamilyFormPage.LoadMembers | src/pages/FamilyForm.jsx:30-54 | nothing without a user; a reply becomes the flattened list and the context parent is revalidated; a failure shows the message or "Failed to load members" |
| FamilyForm.FamilyFormPage.PrefillFromQuery | src/pages/FamilyForm.jsx:62-78 | the query prefill, and the listed entry whose id is the non-empty `parentId` as context parent |
| FamilyForm.FamilyFormPage.LoadForEdit | src/pages/FamilyForm.jsx:81-113 | nothing without an editId; a stored member fills the form and its listed parent becomes the context parent; a failure shows the message or "Failed to load member" |
| FamilyForm.FamilyFormPage.Submit | src/pages/FamilyForm.jsx:124-147 | the sendable fields go by PUT to /family/<editId> or by POST to /family; success resets the form and reloads; failure keeps the form and shows the matching message |
| FamilyForm.FamilyFormPage.ApplyQuick | src/pages/FamilyForm.jsx:149-157 | the preset is applied with the current context parent |
| FamilyForm.FamilyFormPage.SelectContextParent | src/pages/FamilyForm.jsx:264 | the clicked entry becomes the context parent and the form's parent |
| FamilyForm.FamilyFormPage.UseMyProfile | src/pages/FamilyForm.jsx:173 | the profile prefill is applied to the form |
| FamilyForm.FamilyFormPage.Change | src/pages/FamilyForm.jsx:115-122 | only the named text field takes the typed value |
| FamilyForm.FamilyFormPage.ChangePhoto | src/pages/FamilyForm.jsx:117-118 | the photo becomes the chosen file, or none |
| FamilyTree.OffsetInHalfUnits | src/pages/FamilyTree.jsx:98-99 | child i of n sits 12i − 6(n − 1) rem from the centre |
| FamilyTree.OffsetAntisymmetric | src/pages/FamilyTree.jsx:98-99 | the row is symmetric: child i mirrors child n − 1 − i |
| FamilyTree.OffsetSpacing | src/pages/FamilyTree.jsx:98-99 | neighbouring children are exactly 12 rem apart, and an only child sits at the centre |
| FamilyTree.Offsets | src/pages/FamilyTree.jsx:95-99 | one offset per child, in order |
| FamilyTree.OffsetsSumToZero | src/pages/FamilyTree.jsx:95-99 | the offsets cancel out, so the children are centred under the couple |
| FamilyTree.LineSpansChildren | src/pages/FamilyTree.jsx:82-91 | the horizontal line is drawn exactly for two or more children, and runs from the first child's offset to the last's |
| FamilyTree.RenderLaidOut | src/pages/FamilyTree.jsx:34-128 | a member is hidden exactly without an id; a shown member has its spouse beside it and a children block exactly for a non-empty array of children, with one branch per child; every level is laid out as above |
| FamilyTree.AddSpouse | src/pages/FamilyTree.jsx:222-223 | a wife for a member whose gender is "male" in any letter case, otherwise a husband, with the matching gender |
| FamilyTree.AddSpouseConsistent | src/pages/FamilyTree.jsx:222-223 | the proposed gender always matches the proposed relation, and letter case does not matter |
| FamilyTree.FamilyTreeView.constructor | src/pages/FamilyTree.jsx:132-135 | an empty tree, loading, no error, nothing selected |
| FamilyTree.FamilyTreeView.Load | src/pages/FamilyTree.jsx:138-149 | nothing without a user; a reply becomes the tree; a failure shows the message or "Failed to load tree" |
| FamilyTree.FamilyTreeView.HandleDelete | src/pages/FamilyTree.jsx:153-170 | a member without an id or a declined confirm sends nothing; success reloads and closes the details; failure reports the message or "Delete failed" |
| Album.WithoutPhoto | src/pages/AlbumPage.jsx:38 | a photo is kept exactly when its id differs from the deleted one |
| Album.DeleteUndoesUpload | src/pages/AlbumPage.jsx:30-38 | deleting a just-uploaded photo with a fresh id gives back the list from before the upload |
| Album.DeleteKeepsOthers | src/pages/AlbumPage.jsx:38 | the other photos keep their order and their number of copies |
| Album.Pretty | src/pages/AlbumPage.jsx:44-49 | the three known categories get their titles; any other key is shown as it is |
| Album.PrettyIdempotent | src/pages/AlbumPage.jsx:44-49 | a title is its own title, and a key changes exactly when it is a known category |
| Album.AlbumPage.constructor | src/pages/AlbumPage.jsx:9-11 | no photos, loading, no error |
| Album.AlbumPage.Load | src/pages/AlbumPage.jsx:13-24 | a reply becomes the photos and clears the error; a failure shows the message or "Failed to load photos"; loading ends |
| Album.AlbumPage.Uploaded | src/pages/AlbumPage.jsx:30-32 | the uploaded photo goes in front |
| Album.AlbumPage.Delete | src/pages/AlbumPage.jsx:34-42 | a request is sent exactly on confirm; success removes the photo; failure alerts the message or "Delete failed" and keeps the list |
| Routes.PrivateRoute | src/App.js:17-20 | the page is shown exactly with a token; otherwise the guard redirects to /login |
| Routes.PrivatePaidRoute | src/App.js:22-28 | /login without a token; /upgrade with a token but no paid user; the page exactly with both |
| Routes.PaidRouteStricter | src/App.js:17-28 | the paid guard lets through only what the plain guard lets through, and both send the same visitors to /login |
| Api.BearerRoundTrip | src/api.js:12 | the token can be read back from the header built for it |
| Api.RequestConfig.Authorize | src/api.js:9-15 | a stored token sets the Authorization header to "Bearer <token>"; without one the headers are unchanged |
| Api.Redirect | src/api.js:20-33 | /login exactly for a 401 away from /login; /upgrade exactly for a 402 away from /upgrade; no other redirect |
| Api.NoRedirectLoop | src/api.js:22-33 | a redirect never targets the current page, and repeating the error on the target page redirects no further |
| Api.Intercept | src/api.js:18-35 | a success passes through untouched; a failure is still rejected, with the redirect its status calls for |

## Left out

- Network requests, `localStorage`, `prompt`, `confirm`, `alert` and the clock are not performed. Their results are parameters.
- `console` logging is not modelled; it does not affect state.
- The delayed re-loads (`setTimeout`, then a fetch) after a delete or a wipe are not run. They are reported as the `refetch` or `reload` results.
- Date parsing (`new Date`, `getFullYear`, `toISOString`) is not modelled. The years and the `YYYY-MM-DD` strings are parameters, and an invalid date (NaN) is not modelled.
- The `onEdit`/`onDelete` closures attached to each node, and the stale state they capture, are not modelled.
- React's asynchronous batching of state updates is not modelled. Each handler is one atomic step on the current state.
- The graph widget's own `addEdge` de-duplication is not modelled. Its decision is the `appended` parameter of `InteractiveTree.Canvas.Connect`.
- InteractiveTree.Canvas.Connect: follows the corrected menu lookup `InteractiveTree.RelationshipFor`. As written, an answer naming an inherited object member ("toString", "constructor", …) throws and adds no edge, while the model appends an "other" edge (see "## Findings").
- A member or entry id is "" when the server sent none. An id that is literally the empty string is not told apart from a missing one.
- Node dragging and the widget's change handlers are not modelled.
- The canvas's add button is not modelled separately: it only calls the page's `AddMember` with no member, which `InteractivePage.Page.AddMember` models.
- The asynchronous `FileReader` load is not modelled. The data URL is a parameter of `MemberForm.Dialog.PhotoChange`.
- `JSON.parse` failures on stored data are not modelled.
- Query strings built by navigation are not URL-encoded in the model.
- In `FamilyForm.Flatten`, a `children` value that is not an array but has a truthy `length` would make the walk throw. The model treats every non-array as having no children.
- Rendering markup, CSS classes and other pages of the app are not part of this model.
- Multipart field names are modelled as the enumerations `InteractivePage.FieldKey` and `FamilyForm.FieldKey`, not as strings. `InteractivePage.KeyText` gives the wire name of each key.
- InteractivePage.UploadedPhotoAndFlags: requires a non-empty node id. `MemberForm.Submit` always produces one, but an empty id would not be sent.
- InteractiveTree.NewEdgeStyle: the label is stated through `InteractiveTree.LabelOfSplit` and `InteractiveTree.LabelWithoutHyphen` for any tag, not per menu entry.
- FamilyForm.EditPrefillThenSubmit: states the name and the gender only, not the other fields.

## Findings

| source | as written | input that shows it | evidently intended | confidence | as-written member | corrected member |
|---|---|---|---|---|---|---|
| src/components/InteractiveFamilyTree.jsx:73 | the menu answer is looked up in a plain object, so a name inherited from `Object.prototype` finds a truthy member with no `type`; building the label then throws, and no edge is added | the answer "toString" (also "constructor", "valueOf", "__proto__") | any answer other than "1" to "5" falls back to the "other" relationship | not executed | InteractiveTree.ConnectAsWritten | InteractiveTree.RelationshipFor |
