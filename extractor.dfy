/** `extractDOMTree` and its helpers: from a page snapshot and a root
    `projectid` to the extracted outline, or a failure. */
module Extractor {
  import opened Wrappers
  import opened Text
  import opened Dom
  import opened Tree

  /** The extraction root: its own fields, without its children. */
  datatype RootRecord = RootRecord(id: string, name: string, note: Option<string>, parentId: Option<string>)

  /** The reply object: `{success: true, root, children, node_count, depth}`
      or `{success: false, error}`. */
  datatype ExtractionResult =
    | Success(root: RootRecord, children: seq<NodeRecord>, nodeCount: int, depth: int)
    | Failure(error: string)

  const NotFoundPrefix := "Node "
  const NotFoundSuffix := " not found in DOM (may be collapsed or not loaded)"

  function NotFoundMessage(nodeId: string): string
  {
    NotFoundPrefix + nodeId + NotFoundSuffix
  }

  /** The name of an outline node: `"Untitled"` when its name region is
      absent, otherwise the region's text trimmed, which is `""` when the
      text is all white space. */
  function ExtractNodeName(e: Element): (r: string)
    ensures e.nameText.None? ==> r == "Untitled"
    ensures e.nameText.Some? ==> r == Trim(e.nameText.value)
    ensures e.nameText.Some? ==> (r == "" <==> AllWhitespace(e.nameText.value))
  {
    match e.nameText
    case None => "Untitled"
    case Some(text) => Trim(text)
  }

  /** The note of an outline node: `None` when its note region is absent or
      holds only white space, otherwise the region's text exactly as it is,
      not trimmed. */
  function ExtractNodeNote(e: Element): (r: Option<string>)
    ensures r.None? <==> (e.noteText.None? || AllWhitespace(e.noteText.value))
    ensures r.Some? ==> r.value == e.noteText.value
  {
    match e.noteText
    case None => None
    case Some(text) => if Trim(text) == "" then None else Some(text)
  }

  /** What `extractChildren(p)` returns: one record per direct outline child
      of `p`'s `.children` region, in document order. */
  function ChildRecords(p: Element): seq<NodeRecord>
    requires p.projectId.Some?
    decreases p, 1
  {
    RecordsOf(p, DirectNodes(Items(p)))
  }

  /** The records of `nodes`, outline children of `p`, in order. */
  function RecordsOf(p: Element, nodes: seq<Element>): seq<NodeRecord>
    requires p.projectId.Some?
    requires forall x | x in nodes :: x in Items(p) && IsNode(x)
    decreases p, 0, |nodes|
  {
    if nodes == [] then []
    else
      var c := nodes[|nodes| - 1];
      assert c in nodes && c in Items(p);
      assert p.container.Present? && c in p.container.items;
      RecordsOf(p, nodes[..|nodes| - 1]) + [Record(c, p.projectId.value)]
  }

  /** The record of the outline node `c` whose parent has id `parentId`. */
  function Record(c: Element, parentId: string): NodeRecord
    requires IsNode(c)
    decreases c, 2
  {
    NodeRecord(c.projectId.value, ExtractNodeName(c), ExtractNodeNote(c), parentId, ChildRecords(c))
  }

  /** `... || null`: an empty id counts as no id. */
  function NullIfEmpty(id: Option<string>): (r: Option<string>)
    ensures r.Some? <==> id.Some? && id.value != ""
    ensures r.Some? ==> r == id
  {
    if id == Some("") then None else id
  }

  /** What `extractDOMTree(nodeId)` returns for the page `page`. */
  function Extract(page: Page, nodeId: string): ExtractionResult
  {
    match FindRoot(page, nodeId)
    case None => Failure(NotFoundMessage(nodeId))
    case Some((root, ancestor)) =>
      assert Matches(root, nodeId) by { FindRootMatches(page, nodeId); }
      var children := ChildRecords(root);
      Success(RootRecord(nodeId, ExtractNodeName(root), ExtractNodeNote(root), NullIfEmpty(ancestor)),
              children, 1 + |Flatten(children)|, Height(children))
  }

  lemma FindRootMatches(page: Page, id: string)
    ensures FindRoot(page, id).Some? ==> Matches(FindRoot(page, id).value.0, id)
  {
  }

  // ---------------------------------------------------------------------
  // Properties of the specification

  /** `RecordsOf` keeps order: record `k` is the record of node `k`. */
  lemma {:induction false} RecordsOfInOrder(p: Element, nodes: seq<Element>)
    requires p.projectId.Some?
    requires forall x | x in nodes :: x in Items(p) && IsNode(x)
    ensures |RecordsOf(p, nodes)| == |nodes|
    ensures forall k | 0 <= k < |nodes| :: RecordsOf(p, nodes)[k] == Record(nodes[k], p.projectId.value)
    decreases |nodes|
  {
    if nodes != [] {
      var init := nodes[..|nodes| - 1];
      RecordsOfInOrder(p, init);
      forall k | 0 <= k < |nodes| - 1 ensures RecordsOf(p, nodes)[k] == Record(nodes[k], p.projectId.value) {
        assert nodes[k] == init[k];
      }
    }
  }

  /** `extractChildren(p)` has one record per direct `div[projectid]` child,
      in document order, each carrying that child's id, name and note and
      `p`'s id as its `parent_id`. */
  lemma ChildRecordsInOrder(p: Element)
    requires p.projectId.Some?
    ensures |ChildRecords(p)| == |DirectNodes(Items(p))|
    ensures forall k | 0 <= k < |ChildRecords(p)| ::
              var c := DirectNodes(Items(p))[k];
              c.projectId == Some(ChildRecords(p)[k].id) &&
              ChildRecords(p)[k].name == ExtractNodeName(c) &&
              ChildRecords(p)[k].note == ExtractNodeNote(c) &&
              ChildRecords(p)[k].parentId == p.projectId.value &&
              ChildRecords(p)[k].children == ChildRecords(c)
  {
    var nodes := DirectNodes(Items(p));
    RecordsOfInOrder(p, nodes);
    forall k | 0 <= k < |nodes| ensures IsNode(nodes[k]) {
      assert nodes[k] in nodes;
    }
  }

  /** A node with no `.children` region, one whose region is empty, and one
      whose region holds no outline node all get no children; in particular
      the `hasChildren` guard of `extractChildren` never changes a result. */
  lemma CollapsedIsChildless(p: Element)
    requires p.projectId.Some?
    ensures DirectNodes(Items(p)) == [] ==> ChildRecords(p) == []
    ensures p.container == Absent ==> ChildRecords(p) == []
    ensures p.container == Present([]) ==> ChildRecords(p) == []
    ensures (if p.container.Present? && |p.container.items| > 0 then ChildRecords(p) else []) == ChildRecords(p)
  {
  }

  /** Every record of `extractChildren(p)` names `p` as its parent, and every
      nested record names the record that contains it. */
  lemma {:induction false} ChildRecordsWellParented(p: Element)
    requires p.projectId.Some?
    ensures WellParented(ChildRecords(p), p.projectId.value)
    decreases p, 1
  {
    RecordsOfWellParented(p, DirectNodes(Items(p)));
  }

  lemma {:induction false} RecordsOfWellParented(p: Element, nodes: seq<Element>)
    requires p.projectId.Some?
    requires forall x | x in nodes :: x in Items(p) && IsNode(x)
    ensures WellParented(RecordsOf(p, nodes), p.projectId.value)
    decreases p, 0, |nodes|
  {
    RecordsOfInOrder(p, nodes);
    var rs := RecordsOf(p, nodes);
    forall k | 0 <= k < |rs|
      ensures rs[k].parentId == p.projectId.value && WellParented(rs[k].children, rs[k].id)
    {
      var c := nodes[k];
      assert c in nodes && c in Items(p);
      assert p.container.Present? && c in p.container.items;
      ChildRecordsWellParented(c);
    }
  }

  /** The result of `extractDOMTree`: a failure naming `nodeId` exactly when
      no element of the page is `div[projectid="<nodeId>"]`; otherwise the
      first such element in document order is the root, its `parent_id` is
      its nearest enclosing outline id (an empty one read as `null`), its
      children are its extracted children, `node_count` counts the root and
      every record below it, and `depth` is the number of levels below it. */
  lemma ExtractCorrect(page: Page, nodeId: string)
    ensures Extract(page, nodeId).Failure? <==>
              forall k | 0 <= k < |Preorder(page)| :: !Matches(Preorder(page)[k], nodeId)
    ensures Extract(page, nodeId).Failure? ==>
              var msg := Extract(page, nodeId).error;
              |NotFoundPrefix| + |nodeId| <= |msg| &&
              msg[|NotFoundPrefix|..|NotFoundPrefix| + |nodeId|] == nodeId
    ensures Extract(page, nodeId).Success? ==>
              var r := Extract(page, nodeId);
              r.root.id == nodeId &&
              r.nodeCount == 1 + |Flatten(r.children)| &&
              r.depth == Height(r.children) &&
              (r.depth == 0 <==> r.children == []) &&
              r.depth < r.nodeCount &&
              WellParented(r.children, nodeId) &&
              exists k | 0 <= k < |Preorder(page)| ::
                Matches(Preorder(page)[k], nodeId) &&
                (forall j | 0 <= j < k :: !Matches(Preorder(page)[j], nodeId)) &&
                |Annotated(page, None)| == |Preorder(page)| &&
                r.root.parentId == NullIfEmpty(Annotated(page, None)[k].1) &&
                r.root.name == ExtractNodeName(Preorder(page)[k]) &&
                r.root.note == ExtractNodeNote(Preorder(page)[k]) &&
                r.children == ChildRecords(Preorder(page)[k])
  {
    FindRootIsFirstInDocumentOrder(page, nodeId);
    match FindRoot(page, nodeId)
    case None =>
    case Some((root, ancestor)) =>
      FindRootMatches(page, nodeId);
      var children := ChildRecords(root);
      HeightBounds(children);
      ChildRecordsWellParented(root);
  }

  /** A worked page: root `A` without a note, whose `.children` region holds
      `B` (note `"hi"`) and `C` (no `.children` region), inside a wrapper. */
  function ExampleB(): Element { Element(true, Some("B"), Some("B"), Some("hi"), Absent) }
  function ExampleC(): Element { Element(true, Some("C"), Some("C"), None, Absent) }
  function ExampleA(): Element { Element(true, Some("A"), Some("A"), None, Present([ExampleB(), ExampleC()])) }
  function ExamplePage(): Page { Element(false, None, None, None, Present([ExampleA()])) }

  function ExampleChildren(): seq<NodeRecord>
  {
    [NodeRecord("B", "B", Some("hi"), "A", []), NodeRecord("C", "C", None, "A", [])]
  }

  lemma ExampleTextsA()
    ensures ExtractNodeName(ExampleA()) == "A" && ExtractNodeNote(ExampleA()) == None
  {
    TrimKeepsTrimmed("A");
  }

  lemma ExampleTextsB()
    ensures ExtractNodeName(ExampleB()) == "B"
  {
    TrimKeepsTrimmed("B");
  }

  lemma ExampleNoteB()
    ensures ExtractNodeNote(ExampleB()) == Some("hi")
  {
    assert !AllWhitespace("hi") by { assert !IsWhitespace("hi"[0]); }
  }

  lemma ExampleTextsC()
    ensures ExtractNodeName(ExampleC()) == "C" && ExtractNodeNote(ExampleC()) == None
  {
    TrimKeepsTrimmed("C");
  }

  lemma ExampleRecordB()
    ensures Record(ExampleB(), "A") == ExampleChildren()[0]
  {
    ExampleTextsB();
    ExampleNoteB();
  }

  lemma ExampleRecordC()
    ensures Record(ExampleC(), "A") == ExampleChildren()[1]
  {
    ExampleTextsC();
  }

  lemma ExampleDirectNodes()
    ensures DirectNodes(Items(ExampleA())) == [ExampleB(), ExampleC()]
  {
    var b, c := ExampleB(), ExampleC();
    assert [b, c][..1] == [b];
    assert [b][..0] == [];
  }

  lemma ExampleRecordsOf()
    ensures RecordsOf(ExampleA(), [ExampleB(), ExampleC()]) == [Record(ExampleB(), "A"), Record(ExampleC(), "A")]
  {
    RecordsOfInOrder(ExampleA(), [ExampleB(), ExampleC()]);
  }

  lemma ExampleChildRecords()
    ensures ChildRecords(ExampleA()) == ExampleChildren()
  {
    ExampleDirectNodes();
    ExampleRecordsOf();
    ExampleRecordB();
    ExampleRecordC();
  }

  lemma ExampleAccounting()
    ensures |Flatten(ExampleChildren())| == 2 && Height(ExampleChildren()) == 1
  {
    var kids := ExampleChildren();
    assert kids[..1] == [kids[0]];
    assert kids[..1][..0] == [];
  }

  lemma ExampleListingA()
    ensures Annotated(ExampleA(), None) == [(ExampleA(), None), (ExampleB(), Some("A")), (ExampleC(), Some("A"))]
  {
    var a, b, c := ExampleA(), ExampleB(), ExampleC();
    assert Annotated(b, Some("A")) == [(b, Some("A"))];
    assert Annotated(c, Some("A")) == [(c, Some("A"))];
    assert AnnotatedUpTo(a, 1, Some("A")) == [(b, Some("A"))];
  }

  lemma ExampleListing()
    ensures Annotated(ExamplePage(), None) ==
              [(ExamplePage(), None), (ExampleA(), None), (ExampleB(), Some("A")), (ExampleC(), Some("A"))]
  {
    ExampleListingA();
    assert AnnotatedUpTo(ExamplePage(), 0, None) == [];
  }

  lemma ExampleLookup()
    ensures FindRoot(ExamplePage(), "A") == Some((ExampleA(), None))
    ensures FindRoot(ExamplePage(), "Z") == None
  {
    ExampleListing();
  }

  /** On the worked page, `A` extracts to three nodes over one level... */
  lemma ExampleExtraction()
    ensures Extract(ExamplePage(), "A") == Success(RootRecord("A", "A", None, None), ExampleChildren(), 3, 1)
  {
    ExampleLookup();
    ExampleChildRecords();
    ExampleAccounting();
    ExampleTextsA();
  }

  /** ... and an id missing from the page yields the not-found failure. */
  lemma ExampleNotFound()
    ensures Extract(ExamplePage(), "Z") == Failure(NotFoundPrefix + "Z" + NotFoundSuffix)
  {
    ExampleLookup();
  }

  // ---------------------------------------------------------------------
  // The extraction as the source computes it

  /** `extractChildren(parentElement)`: pushes one record per direct
      outline child, recursing only into children whose `.children` region
      is non-empty. */
  method ExtractChildren(parentElement: Element) returns (children: seq<NodeRecord>)
    requires parentElement.projectId.Some?
    ensures children == ChildRecords(parentElement)
    decreases parentElement
  {
    children := [];
    if parentElement.container.Absent? {
      return;
    }
    var childElements := DirectNodes(parentElement.container.items);
    var i := 0;
    while i < |childElements|
      invariant 0 <= i <= |childElements|
      invariant children == RecordsOf(parentElement, childElements[..i])
    {
      var childElement := childElements[i];
      assert childElement in parentElement.container.items;
      var childId := childElement.projectId.value;
      var childName := ExtractNodeName(childElement);
      var childNote := ExtractNodeNote(childElement);
      var hasChildren := childElement.container.Present? && |childElement.container.items| > 0;
      var grandchildren := [];
      if hasChildren {
        grandchildren := ExtractChildren(childElement);
      } else {
        CollapsedIsChildless(childElement);
      }
      children := children + [NodeRecord(childId, childName, childNote, parentElement.projectId.value, grandchildren)];
      assert childElements[..i + 1][..i] == childElements[..i];
      i := i + 1;
    }
    assert childElements[..i] == childElements;
  }

  /** `countNodesRecursive(nodes)`: the number of records in the forest. */
  method CountNodesRecursive(nodes: seq<NodeRecord>) returns (count: nat)
    ensures count == |Flatten(nodes)|
    decreases nodes
  {
    count := |nodes|;
    var i := 0;
    while i < |nodes|
      invariant 0 <= i <= |nodes|
      invariant count == |nodes| - i + |Flatten(nodes[..i])|
    {
      var node := nodes[i];
      FlattenSnoc(nodes[..i], node);
      assert nodes[..i + 1] == nodes[..i] + [node];
      if |node.children| > 0 {
        var sub := CountNodesRecursive(node.children);
        count := count + sub;
      }
      i := i + 1;
    }
    assert nodes[..i] == nodes;
  }

  /** `calculateDepth(nodes, currentDepth)`: `currentDepth - 1` plus the
      number of levels of the forest. */
  method CalculateDepth(nodes: seq<NodeRecord>, currentDepth: int) returns (depth: int)
    ensures depth == currentDepth - 1 + Height(nodes)
    decreases nodes
  {
    if |nodes| == 0 {
      return currentDepth - 1;
    }
    var maxDepth := currentDepth;
    var i := 0;
    while i < |nodes|
      invariant 0 <= i <= |nodes|
      invariant maxDepth == currentDepth - 1 + Max(1, Height(nodes[..i]))
    {
      var node := nodes[i];
      assert nodes[..i + 1][..i] == nodes[..i];
      if |node.children| > 0 {
        var childDepth := CalculateDepth(node.children, currentDepth + 1);
        maxDepth := Max(maxDepth, childDepth);
      }
      i := i + 1;
    }
    assert nodes[..i] == nodes;
    return maxDepth;
  }

  /** `extractDOMTree(nodeId)` over the page `page`. */
  method ExtractDomTree(page: Page, nodeId: string) returns (result: ExtractionResult)
    ensures result == Extract(page, nodeId)
  {
    var found := FindRoot(page, nodeId);
    if found.None? {
      return Failure(NotFoundMessage(nodeId));
    }
    FindRootMatches(page, nodeId);
    var rootElement, ancestor := found.value.0, found.value.1;
    var rootName := ExtractNodeName(rootElement);
    var rootNote := ExtractNodeNote(rootElement);
    var children := ExtractChildren(rootElement);
    var count := CountNodesRecursive(children);
    var nodeCount := 1 + count;
    var depth := CalculateDepth(children, 1);
    return Success(RootRecord(nodeId, rootName, rootNote, NullIfEmpty(ancestor)), children, nodeCount, depth);
  }
}
