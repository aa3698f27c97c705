/** An immutable snapshot of the rendered outline page, reduced to what the
    extractor reads: which elements are `div[projectid]` outline nodes, the
    text of their fixed name and note regions, and the elements nested in
    them. */
module Dom {
  import opened Wrappers

  /** One page element.
      - `isDiv`, `projectId`: its tag is `div`, and its `projectid` attribute
        (`None` when the attribute is missing); outline nodes are both.
      - `nameText`: the text content of `:scope > .name > .content >
        .innerContentContainer`, `None` when that region is absent.
      - `noteText`: the same for `:scope > .notes > .content >
        .innerContentContainer`.
      - `container`: for an outline node, its direct `:scope > .children`
        region and the element children of that region in document order;
        for any other element, the element children it wraps. Some of these
        children may not be outline nodes. */
  datatype Element = Element(
    isDiv: bool,
    projectId: Option<string>,
    nameText: Option<string>,
    noteText: Option<string>,
    container: Container)

  datatype Container = Absent | Present(items: seq<Element>)

  /** The page, given by its document element. */
  type Page = Element

  /** The elements in `e`'s container (none when it is absent). */
  function Items(e: Element): seq<Element>
  {
    match e.container
    case Absent => []
    case Present(items) => items
  }

  /** `e` matches the selector `div[projectid]`. */
  predicate IsNode(e: Element)
  {
    e.isDiv && e.projectId.Some?
  }

  /** `e` matches the selector `div[projectid="<id>"]`. */
  predicate Matches(e: Element, id: string)
  {
    e.isDiv && e.projectId == Some(id)
  }

  /** The nearest-enclosing outline id handed down to `e`'s descendants:
      `e`'s own id when `e` is an outline node, otherwise the one `e` got. */
  function Enclosing(e: Element, anc: Option<string>): Option<string>
  {
    if IsNode(e) then e.projectId else anc
  }

  /** `e` and every element nested in it, in document (pre-)order. */
  function Preorder(e: Element): seq<Element>
    decreases e, 1
  {
    [e] + PreorderUpTo(e, |Items(e)|)
  }

  /** The subtrees of the first `n` items of `e`'s container, in order. */
  function PreorderUpTo(e: Element, n: nat): seq<Element>
    requires n <= |Items(e)|
    decreases e, 0, n
  {
    if n == 0 then []
    else
      var c := Items(e)[n - 1];
      assert c in e.container.items;
      PreorderUpTo(e, n - 1) + Preorder(c)
  }

  /** `Preorder(e)` with each element paired with the `projectid` of its
      nearest proper ancestor that is a `div[projectid]` (`anc` for `e`
      itself): the element `parentElement.closest('div[projectid]')` finds. */
  function Annotated(e: Element, anc: Option<string>): seq<(Element, Option<string>)>
    decreases e, 1
  {
    [(e, anc)] + AnnotatedUpTo(e, |Items(e)|, Enclosing(e, anc))
  }

  function AnnotatedUpTo(e: Element, n: nat, inner: Option<string>): seq<(Element, Option<string>)>
    requires n <= |Items(e)|
    decreases e, 0, n
  {
    if n == 0 then []
    else
      var c := Items(e)[n - 1];
      assert c in e.container.items;
      AnnotatedUpTo(e, n - 1, inner) + Annotated(c, inner)
  }

  /** Indexing into a concatenation, the step the two lemmas below share. */
  lemma ConcatAt<T, U>(a: seq<T>, b: seq<T>, x: seq<U>, y: seq<U>, f: U -> T)
    requires |a| == |x| && |b| == |y|
    requires forall k | 0 <= k < |a| :: f(x[k]) == a[k]
    requires forall k | 0 <= k < |b| :: f(y[k]) == b[k]
    ensures forall k | 0 <= k < |a + b| :: f((x + y)[k]) == (a + b)[k]
  {
  }

  /** The annotated listing lists exactly the elements in document order. */
  lemma {:induction false} AnnotatedIsPreorder(e: Element, anc: Option<string>)
    ensures |Annotated(e, anc)| == |Preorder(e)|
    ensures forall k | 0 <= k < |Preorder(e)| :: Annotated(e, anc)[k].0 == Preorder(e)[k]
    decreases e, 1
  {
    AnnotatedUpToIsPreorderUpTo(e, |Items(e)|, Enclosing(e, anc));
    ConcatAt([e], PreorderUpTo(e, |Items(e)|),
             [(e, anc)], AnnotatedUpTo(e, |Items(e)|, Enclosing(e, anc)),
             (p: (Element, Option<string>)) => p.0);
  }

  lemma {:induction false} AnnotatedUpToIsPreorderUpTo(e: Element, n: nat, inner: Option<string>)
    requires n <= |Items(e)|
    ensures |AnnotatedUpTo(e, n, inner)| == |PreorderUpTo(e, n)|
    ensures forall k | 0 <= k < |PreorderUpTo(e, n)| :: AnnotatedUpTo(e, n, inner)[k].0 == PreorderUpTo(e, n)[k]
    decreases e, 0, n
  {
    if n > 0 {
      var c := Items(e)[n - 1];
      assert c in e.container.items;
      AnnotatedUpToIsPreorderUpTo(e, n - 1, inner);
      AnnotatedIsPreorder(c, inner);
      ConcatAt(PreorderUpTo(e, n - 1), Preorder(c),
               AnnotatedUpTo(e, n - 1, inner), Annotated(c, inner),
               (p: (Element, Option<string>)) => p.0);
    }
  }

  /** Index of the first entry of `xs` whose element matches `id`
      (`querySelector` returns the first match in document order). */
  function FirstMatch(xs: seq<(Element, Option<string>)>, id: string): (r: Option<nat>)
    ensures r.Some? ==> r.value < |xs| && Matches(xs[r.value].0, id)
    ensures r.Some? ==> forall j | 0 <= j < r.value :: !Matches(xs[j].0, id)
    ensures r.None? <==> forall j | 0 <= j < |xs| :: !Matches(xs[j].0, id)
  {
    if xs == [] then None
    else if Matches(xs[0].0, id) then Some(0)
    else match FirstMatch(xs[1..], id)
      case None => None
      case Some(k) => Some(k + 1)
  }

  /** `document.querySelector('div[projectid="<id>"]')`, together with that
      element's nearest enclosing outline id; `None` when nothing matches. */
  function FindRoot(page: Page, id: string): Option<(Element, Option<string>)>
  {
    var xs := Annotated(page, None);
    match FirstMatch(xs, id)
    case None => None
    case Some(k) => Some(xs[k])
  }

  /** The root lookup finds the first matching element in document order,
      and finds nothing exactly when no element of the page matches. */
  lemma FindRootIsFirstInDocumentOrder(page: Page, id: string)
    ensures FindRoot(page, id).None? <==>
              forall k | 0 <= k < |Preorder(page)| :: !Matches(Preorder(page)[k], id)
    ensures FindRoot(page, id).Some? ==>
              exists k | 0 <= k < |Preorder(page)| ::
                Preorder(page)[k] == FindRoot(page, id).value.0 &&
                |Annotated(page, None)| == |Preorder(page)| &&
                FindRoot(page, id).value == Annotated(page, None)[k] &&
                Matches(Preorder(page)[k], id) &&
                forall j | 0 <= j < k :: !Matches(Preorder(page)[j], id)
  {
    AnnotatedIsPreorder(page, None);
    var xs := Annotated(page, None);
    match FirstMatch(xs, id)
    case None =>
    case Some(k) =>
      assert Preorder(page)[k] == xs[k].0;
  }

  /** The outline nodes among `items`, in order: what
      `container.querySelectorAll(':scope > div[projectid]')` returns. */
  function DirectNodes(items: seq<Element>): (r: seq<Element>)
    ensures |r| <= |items|
    ensures forall x | x in r :: x in items && IsNode(x)
    ensures forall x | x in items && IsNode(x) :: x in r
  {
    if items == [] then []
    else
      var last := items[|items| - 1];
      DirectNodes(items[..|items| - 1]) + (if IsNode(last) then [last] else [])
  }

  /** A single item is kept exactly when it is an outline node. */
  lemma DirectNodesOne(x: Element)
    ensures DirectNodes([x]) == (if IsNode(x) then [x] else [])
  {
    assert [x][..0] == [];
  }

  /** Dropping the last item of `a + b`, for non-empty `b`. */
  lemma DropLastOfConcat<T>(a: seq<T>, b: seq<T>)
    requires b != []
    ensures (a + b)[..|a + b| - 1] == a + b[..|b| - 1]
    ensures (a + b)[|a + b| - 1] == b[|b| - 1]
  {
  }

  /** `DirectNodes` keeps document order and every copy: the nodes of a
      concatenation are the nodes of the first part followed by those of
      the second. */
  lemma {:induction false} DirectNodesConcat(a: seq<Element>, b: seq<Element>)
    ensures DirectNodes(a + b) == DirectNodes(a) + DirectNodes(b)
    decreases |b|
  {
    if b == [] {
      assert a + b == a;
    } else {
      var ab, init, last := a + b, b[..|b| - 1], b[|b| - 1];
      var t := if IsNode(last) then [last] else [];
      DropLastOfConcat(a, b);
      calc {
        DirectNodes(ab);
        DirectNodes(a + init) + t;
        { DirectNodesConcat(a, init); }
        DirectNodes(a) + DirectNodes(init) + t;
        DirectNodes(a) + DirectNodes(b);
      }
    }
  }
}
