/** The extracted outline: records `{id, name, note, parent_id, children}`
    and the accounting over a forest of them. */
module Tree {
  import opened Wrappers

  /** One extracted outline node below the extraction root. `parentId` is
      the `projectid` attribute of the element whose children were being
      extracted, so it is always a string. */
  datatype NodeRecord = NodeRecord(
    id: string,
    name: string,
    note: Option<string>,
    parentId: string,
    children: seq<NodeRecord>)

  /** Every record of the forest `f`, in document (pre-)order. */
  function Flatten(f: seq<NodeRecord>): seq<NodeRecord>
  {
    if f == [] then []
    else
      var last := f[|f| - 1];
      Flatten(f[..|f| - 1]) + [last] + Flatten(last.children)
  }

  function Max(a: int, b: int): int
  {
    if a < b then b else a
  }

  /** The number of levels of the forest `f`: 0 for no records, otherwise 1
      plus the highest of the records' own child forests. */
  function Height(f: seq<NodeRecord>): nat
  {
    if f == [] then 0
    else
      var last := f[|f| - 1];
      Max(Height(f[..|f| - 1]), 1 + Height(last.children))
  }

  /** Every record of `f` names `parentId` as its parent, and, all the way
      down, every record names the record that contains it. */
  predicate WellParented(f: seq<NodeRecord>, parentId: string)
  {
    forall k | 0 <= k < |f| :: f[k].parentId == parentId && WellParented(f[k].children, f[k].id)
  }

  /** Extending a forest by one record adds that record and its subtree to
      the flattened listing. */
  lemma FlattenSnoc(f: seq<NodeRecord>, r: NodeRecord)
    ensures Flatten(f + [r]) == Flatten(f) + [r] + Flatten(r.children)
  {
    assert (f + [r])[..|f|] == f;
  }

  /** Flattening distributes over concatenation of forests. */
  lemma {:induction false} FlattenConcat(f: seq<NodeRecord>, g: seq<NodeRecord>)
    ensures Flatten(f + g) == Flatten(f) + Flatten(g)
    decreases |g|
  {
    if g == [] {
      assert f + g == f;
    } else {
      var last := g[|g| - 1];
      var init := g[..|g| - 1];
      assert g == init + [last];
      assert f + g == (f + init) + [last];
      FlattenSnoc(f + init, last);
      FlattenSnoc(init, last);
      FlattenConcat(f, init);
    }
  }

  /** A forest has height 0 exactly when it is empty, and a forest never
      has more levels than records. */
  lemma {:induction false} HeightBounds(f: seq<NodeRecord>)
    ensures Height(f) == 0 <==> f == []
    ensures Height(f) <= |Flatten(f)|
  {
    if f != [] {
      var last := f[|f| - 1];
      HeightBounds(f[..|f| - 1]);
      HeightBounds(last.children);
    }
  }

  /** The height is attained: some record of the forest heads a chain of
      `Height(f)` levels, and no record's own subtree reaches one level more. */
  lemma {:induction false} HeightIsMaxLevel(f: seq<NodeRecord>)
    ensures forall k | 0 <= k < |f| :: 1 + Height(f[k].children) <= Height(f)
    ensures f != [] ==> exists k | 0 <= k < |f| :: Height(f) == 1 + Height(f[k].children)
  {
    if f != [] {
      var init := f[..|f| - 1];
      HeightIsMaxLevel(init);
      forall k | 0 <= k < |f| ensures 1 + Height(f[k].children) <= Height(f) {
        if k < |f| - 1 {
          assert f[k] == init[k];
        }
      }
      if Height(init) <= 1 + Height(f[|f| - 1].children) {
        assert Height(f) == 1 + Height(f[|f| - 1].children);
      } else {
        var k :| 0 <= k < |init| && Height(init) == 1 + Height(init[k].children);
        assert f[k] == init[k];
      }
    }
  }
}
