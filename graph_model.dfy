/** The in-memory call graph: typed, labelled nodes and directed
    caller-to-callee edges, kept in insertion order and never removed. */
module GraphModel {

  /** A node's kind decides only how it is drawn (ellipse or rectangle). */
  datatype Kind = PlaybookKind | TaskKind

  /** `title` is the label the node is drawn with. */
  datatype Node = Node(id: string, title: string, kind: Kind)

  /** An edge names its endpoints by node id, as the renderer does. */
  datatype Edge = Edge(src: string, dst: string)

  /** What a piece of the analysis appends to the graph, in order. */
  datatype Trace = Trace(nodes: seq<Node>, edges: seq<Edge>)

  const NoEffect: Trace := Trace([], [])

  /** `a` appended first, then `b`. */
  function Then(a: Trace, b: Trace): Trace {
    Trace(a.nodes + b.nodes, a.edges + b.edges)
  }

  /** One node appended together with the edge that reaches it from `caller`. */
  function Link(caller: string, callee: Node): Trace {
    Trace([callee], [Edge(caller, callee.id)])
  }

  /** Appending in two steps is appending the concatenation. */
  lemma ConcatAssoc<T>(a: seq<T>, b: seq<T>, c: seq<T>)
    ensures a + b + c == a + (b + c)
  {
  }

  /** The number of edges leaving the node with id `src`. */
  function EdgesFrom(edges: seq<Edge>, src: string): nat {
    if edges == [] then 0
    else (if edges[0].src == src then 1 else 0) + EdgesFrom(edges[1..], src)
  }

  lemma {:induction false} EdgesFromConcat(a: seq<Edge>, b: seq<Edge>, src: string)
    ensures EdgesFrom(a + b, src) == EdgesFrom(a, src) + EdgesFrom(b, src)
  {
    if a == [] {
      assert a + b == b;
    } else {
      assert (a + b)[0] == a[0];
      assert (a + b)[1..] == a[1..] + b;
      EdgesFromConcat(a[1..], b, src);
    }
  }

  /** No edge of `edges` leaves `src` when every source differs from it. */
  lemma {:induction false} EdgesFromNone(edges: seq<Edge>, src: string)
    requires forall j :: 0 <= j < |edges| ==> edges[j].src != src
    ensures EdgesFrom(edges, src) == 0
  {
    if edges != [] {
      EdgesFromNone(edges[1..], src);
    }
  }
}
