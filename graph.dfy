/** Optional values, for the fields a node's data may or may not carry. */
module Wrappers {

  datatype Option<T> = None | Some(value: T)

  /** JavaScript truthiness of an optional string: present and not empty. */
  predicate Truthy(o: Option<string>) {
    o.Some? && o.value != ""
  }

  /** `${o}` in a template literal: an absent field prints as `undefined`. */
  function Show(o: Option<string>): string {
    if o.Some? then o.value else "undefined"
  }
}

/** The graph the builder canvas hands to the compiler: React Flow nodes
    carrying dataset or function data, and directed edges between node ids. */
module Graph {
  import opened Wrappers

  /** The React Flow node type: `'dataset'`, `'function'`, or anything else. */
  datatype NodeKind = DatasetKind | FunctionKind | OtherKind

  /** A canvas node. `labelText` is `data.label`; the other data fields are
      the dataset fields (`type`, `filepath`, `description`) and the function
      fields (`function_name`, `code`, `description`), each of which the node
      may lack. */
  datatype Node = Node(
    id: string,
    kind: NodeKind,
    labelText: string,
    dataType: Option<string>,
    filepath: Option<string>,
    description: Option<string>,
    functionName: Option<string>,
    code: Option<string>)

  datatype Edge = Edge(id: string, source: string, target: string)

  /** Some node of the list has this id. */
  predicate HasNode(nodes: seq<Node>, id: string) {
    exists i :: 0 <= i < |nodes| && nodes[i].id == id
  }

  /** The id-to-node lookup filled by `nodes.forEach(node => nodeMap.set(node.id, node))`:
      a later node with the same id replaces an earlier one. */
  function NodeMap(nodes: seq<Node>): map<string, Node> {
    if nodes == [] then map[]
    else NodeMap(nodes[..|nodes| - 1])[nodes[|nodes| - 1].id := nodes[|nodes| - 1]]
  }

  /** An id is in the lookup exactly when some node carries it. */
  lemma {:induction false} NodeMapDomain(nodes: seq<Node>, id: string)
    ensures id in NodeMap(nodes) <==> HasNode(nodes, id)
  {
    if nodes != [] {
      var init := nodes[..|nodes| - 1];
      NodeMapDomain(init, id);
      if HasNode(init, id) {
        var i :| 0 <= i < |init| && init[i].id == id;
        assert nodes[i].id == id;
      }
      if HasNode(nodes, id) && nodes[|nodes| - 1].id != id {
        var i :| 0 <= i < |nodes| && nodes[i].id == id;
        assert init[i].id == id;
      }
    }
  }

  /** The lookup returns the last node carrying the id. */
  lemma {:induction false} NodeMapLast(nodes: seq<Node>, i: nat)
    requires i < |nodes|
    requires forall j :: i < j < |nodes| ==> nodes[j].id != nodes[i].id
    ensures nodes[i].id in NodeMap(nodes) && NodeMap(nodes)[nodes[i].id] == nodes[i]
  {
    if i < |nodes| - 1 {
      var init := nodes[..|nodes| - 1];
      assert init[i] == nodes[i];
      NodeMapLast(init, i);
    }
  }

  /** The loop of line 90 that fills the lookup. */
  method BuildNodeMap(nodes: seq<Node>) returns (m: map<string, Node>)
    ensures m == NodeMap(nodes)
  {
    m := map[];
    for i := 0 to |nodes|
      invariant m == NodeMap(nodes[..i])
    {
      assert nodes[..i + 1][..i] == nodes[..i];
      m := m[nodes[i].id := nodes[i]];
    }
    assert nodes[..|nodes|] == nodes;
  }

  /** `nodes.filter(node => node.type === kind)`. */
  function OfKind(nodes: seq<Node>, kind: NodeKind): seq<Node> {
    if nodes == [] then []
    else (if nodes[0].kind == kind then [nodes[0]] else []) + OfKind(nodes[1..], kind)
  }

  lemma {:induction false} OfKindAppend(a: seq<Node>, b: seq<Node>, kind: NodeKind)
    ensures OfKind(a + b, kind) == OfKind(a, kind) + OfKind(b, kind)
  {
    if a == [] {
      assert a + b == b;
    } else {
      assert (a + b)[0] == a[0];
      assert (a + b)[1..] == a[1..] + b;
      OfKindAppend(a[1..], b, kind);
      var h := if a[0].kind == kind then [a[0]] else [];
      assert OfKind(a + b, kind) == h + OfKind(a[1..] + b, kind);
      assert h + (OfKind(a[1..], kind) + OfKind(b, kind)) == (h + OfKind(a[1..], kind)) + OfKind(b, kind);
    }
  }

  /** The filter keeps exactly the nodes of that kind. */
  lemma {:induction false} OfKindMember(nodes: seq<Node>, kind: NodeKind, n: Node)
    ensures n in OfKind(nodes, kind) <==> n in nodes && n.kind == kind
  {
    if nodes != [] {
      OfKindMember(nodes[1..], kind, n);
      assert nodes == [nodes[0]] + nodes[1..];
    }
  }
}
