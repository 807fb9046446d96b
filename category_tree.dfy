/**
 * The tree helpers of the admin portal's category page
 * (manager_PC/auto-service-admin/src/pages/MasterData/Category/index.tsx):
 * the search for a category by id and the conversion to the tree widget's
 * nodes. Categories form a forest; `children` may be absent.
 */
module CategoryTree {
  import opened Wrappers

  /** An attribute a leaf category asks suppliers to fill in. */
  datatype Attribute = Attribute(name: string, kind: string)

  /** An optional `children` array: absent (`undefined`) or present, possibly empty. */
  datatype Children = Undefined | Defined(items: seq<CategoryItem>)

  /** `CategoryItem` */
  datatype CategoryItem = CategoryItem(
    id: int,
    name: string,
    parentId: Option<int>,
    sort: int,
    attributes: Option<seq<Attribute>>,
    children: Children)

  /** The tree widget's optional `children`. */
  datatype NodeChildren = NoNodes | Nodes(items: seq<DataNode>)

  /** The tree widget's `DataNode`: key, title and optional children. */
  datatype DataNode = DataNode(key: int, title: string, children: NodeChildren)

  // ---------------------------------------------------------------------------
  // Sizes, the measure the recursions over a forest decrease
  // ---------------------------------------------------------------------------

  /** The number of categories in a subtree. */
  function Size(c: CategoryItem): nat
    decreases c, 1
  {
    1 + (if c.children.Defined? then ChildrenSize(c, 0) else 0)
  }

  /** The number of categories below the children of `c` from the `i`-th on. */
  function ChildrenSize(c: CategoryItem, i: nat): nat
    requires c.children.Defined? && i <= |c.children.items|
    decreases c, 0, |c.children.items| - i
  {
    if i == |c.children.items| then 0 else Size(c.children.items[i]) + ChildrenSize(c, i + 1)
  }

  /** The number of categories in a forest. */
  function ForestSize(data: seq<CategoryItem>): nat {
    if data == [] then 0 else Size(data[0]) + ForestSize(data[1..])
  }

  lemma {:induction false} ChildrenSizeIs(c: CategoryItem, i: nat)
    requires c.children.Defined? && i <= |c.children.items|
    ensures ChildrenSize(c, i) == ForestSize(c.children.items[i..])
    decreases |c.children.items| - i
  {
    if i < |c.children.items| {
      ChildrenSizeIs(c, i + 1);
      assert c.children.items[i..][1..] == c.children.items[i + 1..];
    }
  }

  /** A subtree is its root and the forest of its children. */
  lemma SizeUnfold(c: CategoryItem)
    ensures Size(c) == 1 + ForestSize(Kids(c))
  {
    if c.children.Defined? {
      ChildrenSizeIs(c, 0);
      assert c.children.items[0..] == c.children.items;
    }
  }

  /** The number of nodes in a widget subtree. */
  function NodeSize(n: DataNode): nat
    decreases n, 1
  {
    1 + (if n.children.Nodes? then NodeChildrenSize(n, 0) else 0)
  }

  function NodeChildrenSize(n: DataNode, i: nat): nat
    requires n.children.Nodes? && i <= |n.children.items|
    decreases n, 0, |n.children.items| - i
  {
    if i == |n.children.items| then 0 else NodeSize(n.children.items[i]) + NodeChildrenSize(n, i + 1)
  }

  function NodeForestSize(nodes: seq<DataNode>): nat {
    if nodes == [] then 0 else NodeSize(nodes[0]) + NodeForestSize(nodes[1..])
  }

  lemma {:induction false} NodeChildrenSizeIs(n: DataNode, i: nat)
    requires n.children.Nodes? && i <= |n.children.items|
    ensures NodeChildrenSize(n, i) == NodeForestSize(n.children.items[i..])
    decreases |n.children.items| - i
  {
    if i < |n.children.items| {
      NodeChildrenSizeIs(n, i + 1);
      assert n.children.items[i..][1..] == n.children.items[i + 1..];
    }
  }

  lemma NodeSizeUnfold(n: DataNode)
    ensures NodeSize(n) == 1 + NodeForestSize(NodeKids(n))
  {
    if n.children.Nodes? {
      NodeChildrenSizeIs(n, 0);
      assert n.children.items[0..] == n.children.items;
    }
  }

  /** The children of a widget node, empty when absent. */
  function NodeKids(n: DataNode): seq<DataNode> {
    if n.children.Nodes? then n.children.items else []
  }

  // ---------------------------------------------------------------------------
  // The reference order: every node before its children, siblings in order
  // ---------------------------------------------------------------------------

  /** The children of a category, empty when absent. */
  function Kids(item: CategoryItem): seq<CategoryItem> {
    if item.children.Defined? then item.children.items else []
  }

  /** All categories of a forest in preorder. */
  function Preorder(data: seq<CategoryItem>): seq<CategoryItem>
    decreases ForestSize(data)
  {
    if data == [] then []
    else
      SizeUnfold(data[0]);
      [data[0]] + Preorder(Kids(data[0])) + Preorder(data[1..])
  }

  /** The ids of a forest in preorder. */
  function PreorderIds(data: seq<CategoryItem>): seq<int>
    decreases ForestSize(data)
  {
    if data == [] then []
    else
      SizeUnfold(data[0]);
      [data[0].id] + PreorderIds(Kids(data[0])) + PreorderIds(data[1..])
  }

  /** The first category of a list with the given id. */
  function FirstWithId(items: seq<CategoryItem>, id: int): (r: Option<CategoryItem>)
    ensures r.None? <==> forall k :: 0 <= k < |items| ==> items[k].id != id
    ensures r.Some? ==> exists k :: 0 <= k < |items| && items[k] == r.value
                                    && r.value.id == id && forall j :: 0 <= j < k ==> items[j].id != id
  {
    if items == [] then None
    else if items[0].id == id then Some(items[0])
    else
      var r := FirstWithId(items[1..], id);
      assert forall k :: 1 <= k < |items| ==> items[1..][k - 1] == items[k];
      r
  }

  lemma {:induction false} FirstWithIdAppend(a: seq<CategoryItem>, b: seq<CategoryItem>, id: int)
    ensures FirstWithId(a + b, id) == if FirstWithId(a, id).Some? then FirstWithId(a, id) else FirstWithId(b, id)
  {
    if a == [] {
      assert a + b == b;
    } else {
      assert (a + b)[1..] == a[1..] + b;
      FirstWithIdAppend(a[1..], b, id);
    }
  }

  // ---------------------------------------------------------------------------
  // findNodeById
  // ---------------------------------------------------------------------------

  /**
   * `findNodeById(data, id)`: each category in turn is compared, then its
   * children searched, before the next sibling.
   */
  function FindNodeById(data: seq<CategoryItem>, id: int): Option<CategoryItem>
    decreases ForestSize(data)
  {
    if data == [] then None
    else if data[0].id == id then Some(data[0])
    else
      SizeUnfold(data[0]);
      var found := if data[0].children.Defined? then FindNodeById(data[0].children.items, id) else None;
      if found.Some? then found else FindNodeById(data[1..], id)
  }

  /** The search returns the first category in preorder that has the id. */
  lemma {:induction false} FindIsFirstInPreorder(data: seq<CategoryItem>, id: int)
    ensures FindNodeById(data, id) == FirstWithId(Preorder(data), id)
    decreases ForestSize(data)
  {
    if data != [] {
      SizeUnfold(data[0]);
      var head, rest := data[0], data[1..];
      FindIsFirstInPreorder(Kids(head), id);
      FindIsFirstInPreorder(rest, id);
      FirstWithIdAppend([head] + Preorder(Kids(head)), Preorder(rest), id);
      FirstWithIdAppend([head], Preorder(Kids(head)), id);
    }
  }

  /**
   * What the search promises: a result has the id and occurs in the forest;
   * no result exactly when no category of the forest has the id.
   */
  lemma FindNodeByIdSpec(data: seq<CategoryItem>, id: int)
    ensures FindNodeById(data, id).Some? ==>
              FindNodeById(data, id).value.id == id && FindNodeById(data, id).value in Preorder(data)
    ensures FindNodeById(data, id).None? <==> forall c :: c in Preorder(data) ==> c.id != id
  {
    FindIsFirstInPreorder(data, id);
  }

  /** A category at the top level is found before anything below it. */
  lemma TopLevelFirst(data: seq<CategoryItem>, id: int, k: int)
    requires 0 <= k < |data| && data[k].id == id
    requires forall j :: 0 <= j < k ==> id !in PreorderIds([data[j]])
    ensures FindNodeById(data, id) == Some(data[k])
    decreases k
  {
    if k > 0 {
      assert data[1..][k - 1] == data[k];
      assert id != data[0].id && id !in PreorderIds(Kids(data[0])) by {
        assert PreorderIds([data[0]]) == [data[0].id] + PreorderIds(Kids(data[0])) + PreorderIds([]);
      }
      NotFoundWhenAbsent(Kids(data[0]), id);
      TopLevelFirst(data[1..], id, k - 1);
    }
  }

  /** An id that is not among a forest's ids is not found there. */
  lemma {:induction false} NotFoundWhenAbsent(data: seq<CategoryItem>, id: int)
    requires id !in PreorderIds(data)
    ensures FindNodeById(data, id).None?
    decreases ForestSize(data)
  {
    if data != [] {
      SizeUnfold(data[0]);
      NotFoundWhenAbsent(Kids(data[0]), id);
      NotFoundWhenAbsent(data[1..], id);
    }
  }

  // ---------------------------------------------------------------------------
  // convertToTreeData
  // ---------------------------------------------------------------------------

  /** `convertToTreeData(data)`: key from id, title from name, children converted when present. */
  function ConvertToTreeData(data: seq<CategoryItem>): (r: seq<DataNode>)
    ensures |r| == |data|
    ensures forall k :: 0 <= k < |data| ==>
              && r[k].key == data[k].id && r[k].title == data[k].name
              && (r[k].children.NoNodes? <==> data[k].children.Undefined?)
    decreases ForestSize(data)
  {
    if data == [] then []
    else
      var item := data[0];
      SizeUnfold(item);
      var node := DataNode(item.id, item.name,
                           if item.children.Defined? then Nodes(ConvertToTreeData(item.children.items)) else NoNodes);
      var r := [node] + ConvertToTreeData(data[1..]);
      assert forall k :: 1 <= k < |data| ==> data[1..][k - 1] == data[k] && r[k] == ConvertToTreeData(data[1..])[k - 1];
      r
  }

  /** The keys of a converted forest in preorder. */
  function PreorderKeys(nodes: seq<DataNode>): seq<int>
    decreases NodeForestSize(nodes)
  {
    if nodes == [] then []
    else
      NodeSizeUnfold(nodes[0]);
      [nodes[0].key] + PreorderKeys(NodeKids(nodes[0])) + PreorderKeys(nodes[1..])
  }

  /** Nesting and order are kept: the converted forest lists the same keys in preorder as the ids. */
  lemma {:induction false} ConvertKeepsPreorder(data: seq<CategoryItem>)
    ensures PreorderKeys(ConvertToTreeData(data)) == PreorderIds(data)
    decreases ForestSize(data)
  {
    if data != [] {
      SizeUnfold(data[0]);
      ConvertKeepsPreorder(Kids(data[0]));
      ConvertKeepsPreorder(data[1..]);
      var r := ConvertToTreeData(data);
      assert r[1..] == ConvertToTreeData(data[1..]);
    }
  }

  /** A present children list is converted to a list of the same length; an empty one stays empty. */
  lemma ConvertChildren(data: seq<CategoryItem>, k: int)
    requires 0 <= k < |data| && data[k].children.Defined?
    ensures ConvertToTreeData(data)[k].children == Nodes(ConvertToTreeData(data[k].children.items))
    ensures |ConvertToTreeData(data)[k].children.items| == |data[k].children.items|
    ensures data[k].children.items == [] ==> ConvertToTreeData(data)[k].children == Nodes([])
    decreases k
  {
    if k > 0 {
      assert data[1..][k - 1] == data[k];
      ConvertChildren(data[1..], k - 1);
    }
  }
}
