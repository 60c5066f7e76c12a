/**
 The values a saved workflow is rebuilt from, and the specification of what
 the workflow loader makes of them: which vertex records become vertices,
 the id-to-vertex table, which connector records become connectors, and the
 graph the workflow is attached to.
 */
module WorkflowModel {
  import opened Wrappers

  /** A pipeline node, as far as loading is concerned: its id and whether it has completed. */
  datatype Node = Node(id: string, completed: bool)

  /** The run state shown on a vertex: its initial state, or completed. */
  datatype RunState = Idle | Completed

  /** A vertex on the canvas: its position, its node and its run state. */
  datatype Vertex = Vertex(x: real, y: real, node: Node, state: RunState) {
    function ID(): string { node.id }
  }

  datatype PortKind = Input | Output

  /** A connection point of a vertex. */
  datatype Port = Port(vertex: Vertex, kind: PortKind)

  /** A drawn connection from a source port to a target port. */
  datatype Connector = Connector(source: Port, target: Port)

  /** A saved vertex: its position, and its node or None when the node failed to load. */
  datatype VertexRecord = VertexRecord(x: real, y: real, node: Option<Node>)

  /** A saved connector: the ids of its source and target vertices. */
  datatype ConnectorRecord = ConnectorRecord(source: string, target: string)

  /** A saved workflow, already parsed; absent optional fields are empty strings. */
  datatype WorkflowJson = WorkflowJson(
    id: string, creator: string, name: string, owner: string, creationTime: string,
    description: string, lastSavedTime: string,
    vertices: seq<VertexRecord>, connectors: seq<ConnectorRecord>)

  /** The pipeline graph a workflow shows. */
  datatype Graph = Graph(
    id: string, creator: string, name: string, owner: string, creationTime: string,
    userContent: string, description: Option<string>, lastSavedTime: Option<string>,
    optionsRefreshed: bool)

  /** The vertex made from a record whose node loaded. */
  function VertexOf(r: VertexRecord): (v: Vertex)
    requires r.node.Some?
    ensures v.node == r.node.value && v.x == r.x && v.y == r.y
    ensures v.state == Completed <==> r.node.value.completed
  {
    var n := r.node.value;
    Vertex(r.x, r.y, n, if n.completed then Completed else Idle)
  }

  /**
   The vertices the records yield, in record order; records without a node
   yield none, and each vertex is marked completed exactly when its node has
   completed.
   */
  function LoadedVertices(rs: seq<VertexRecord>): (vs: seq<Vertex>)
    ensures |vs| <= |rs|
    ensures forall v :: v in vs ==> (v.state == Completed <==> v.node.completed)
  {
    if rs == [] then []
    else
      var last := rs[|rs| - 1];
      LoadedVertices(rs[..|rs| - 1]) + (if last.node.Some? then [VertexOf(last)] else [])
  }

  /**
   The id-to-vertex table built from `vs` in order, a later vertex replacing
   an earlier one with its id: every entry is one of the vertices, filed
   under its own id.
   */
  function MapOf(vs: seq<Vertex>): (m: map<string, Vertex>)
    ensures forall id :: id in m ==> m[id] in vs && m[id].ID() == id
  {
    if vs == [] then map[]
    else
      var init := vs[..|vs| - 1];
      assert vs == init + [vs[|vs| - 1]];
      MapOf(init)[vs[|vs| - 1].ID() := vs[|vs| - 1]]
  }

  /** The connector from `source`'s output port to `target`'s input port. */
  function Join(source: Vertex, target: Vertex): (c: Connector)
    ensures c.source.kind == Output && c.target.kind == Input
    ensures c.source.vertex == source && c.target.vertex == target
  {
    Connector(Port(source, Output), Port(target, Input))
  }

  /** Both endpoints of the record name vertices of the table. */
  function Resolves(r: ConnectorRecord, vertices: map<string, Vertex>): (b: bool)
    ensures b <==> {r.source, r.target} <= vertices.Keys
  {
    r.source in vertices && r.target in vertices
  }

  /**
   The connectors the records yield, in record order; a record with a
   dangling end yields none. Each runs from an output port to an input
   port, both on vertices of the table.
   */
  function ConnectorsFor(rs: seq<ConnectorRecord>, vertices: map<string, Vertex>): (cs: seq<Connector>)
    ensures |cs| <= |rs|
    ensures forall c :: c in cs ==> c.source.kind == Output && c.target.kind == Input
    ensures forall c :: c in cs ==> c.source.vertex in vertices.Values && c.target.vertex in vertices.Values
  {
    if rs == [] then []
    else
      var last := rs[|rs| - 1];
      ConnectorsFor(rs[..|rs| - 1], vertices)
        + (if Resolves(last, vertices) then [Join(vertices[last.source], vertices[last.target])] else [])
  }

  /**
   The graph a load attaches the workflow to: the stored graph with that id,
   its options refreshed, or else a new graph built from the saved fields,
   with a description and a last-saved time only when those are non-empty.
   */
  function LoadGraph(json: WorkflowJson, content: string, store: map<string, Graph>): (g: Graph)
    ensures json.id in store ==> g == store[json.id].(optionsRefreshed := true)
    ensures json.id !in store ==>
      && g.id == json.id && g.creator == json.creator && g.name == json.name
      && g.owner == json.owner && g.creationTime == json.creationTime
      && g.userContent == content && !g.optionsRefreshed
      && (g.description.Some? <==> json.description != "")
      && (g.description.Some? ==> g.description.value == json.description)
      && (g.lastSavedTime.Some? <==> json.lastSavedTime != "")
      && (g.lastSavedTime.Some? ==> g.lastSavedTime.value == json.lastSavedTime)
  {
    if json.id in store then
      store[json.id].(optionsRefreshed := true)
    else
      Graph(json.id, json.creator, json.name, json.owner, json.creationTime, content,
            if json.description != "" then Some(json.description) else None,
            if json.lastSavedTime != "" then Some(json.lastSavedTime) else None,
            false)
  }

  // ---------------------------------------------------------------------
  // Vertices

  /** Loading a concatenation loads each part in turn: record order is kept. */
  lemma {:induction false} LoadedVerticesAppend(rs: seq<VertexRecord>, more: seq<VertexRecord>)
    ensures LoadedVertices(rs + more) == LoadedVertices(rs) + LoadedVertices(more)
    decreases |more|
  {
    if more == [] {
      assert rs + more == rs;
    } else {
      var init := more[..|more| - 1];
      assert (rs + more)[..|rs + more| - 1] == rs + init;
      LoadedVerticesAppend(rs, init);
    }
  }

  /**
   A vertex is loaded exactly when some record with a node yields it: a
   record whose node failed to load contributes nothing.
   */
  lemma {:induction false} LoadedVerticesFromRecords(rs: seq<VertexRecord>, v: Vertex)
    ensures v in LoadedVertices(rs) <==> exists r :: r in rs && r.node.Some? && v == VertexOf(r)
  {
    if rs != [] {
      var init := rs[..|rs| - 1];
      LoadedVerticesFromRecords(init, v);
      assert rs == init + [rs[|rs| - 1]];
      if v in LoadedVertices(rs) && v !in LoadedVertices(init) {
        assert rs[|rs| - 1] in rs;
      }
      if exists r :: r in rs && r.node.Some? && v == VertexOf(r) {
        var r :| r in rs && r.node.Some? && v == VertexOf(r);
        if r !in init {
          assert r == rs[|rs| - 1];
        }
      }
    }
  }

  /** Loading one more record appends that record's vertex, if it has one. */
  lemma LoadedVerticesStep(rs: seq<VertexRecord>, i: nat)
    requires i < |rs|
    ensures LoadedVertices(rs[..i + 1])
         == LoadedVertices(rs[..i]) + (if rs[i].node.Some? then [VertexOf(rs[i])] else [])
  {
    assert rs[..i + 1][..i] == rs[..i];
  }

  /** One vertex per record whose node loaded. */
  lemma {:induction false} LoadedVerticesCount(rs: seq<VertexRecord>)
    ensures |LoadedVertices(rs)| <= |rs|
    ensures |LoadedVertices(rs)| == |rs| <==> forall r :: r in rs ==> r.node.Some?
  {
    if rs != [] {
      var init := rs[..|rs| - 1];
      LoadedVerticesCount(init);
      assert rs == init + [rs[|rs| - 1]];
    }
  }

  // ---------------------------------------------------------------------
  // The id-to-vertex table

  /** The table has one entry per id of the vertices it was built from. */
  lemma {:induction false} MapOfKeys(vs: seq<Vertex>)
    ensures MapOf(vs).Keys == set v | v in vs :: v.ID()
  {
    if vs != [] {
      var init := vs[..|vs| - 1];
      MapOfKeys(init);
      assert vs == init + [vs[|vs| - 1]];
    }
  }

  /** Adding one more vertex files it under its id, over any earlier entry. */
  lemma MapOfSnoc(vs: seq<Vertex>, v: Vertex)
    ensures MapOf(vs + [v]) == MapOf(vs)[v.ID() := v]
  {
    assert (vs + [v])[..|vs|] == vs;
  }

  /** The table is empty exactly when there are no vertices. */
  lemma MapOfEmpty(vs: seq<Vertex>)
    ensures MapOf(vs) == map[] <==> vs == []
  {
    if vs != [] {
      assert vs[|vs| - 1].ID() in MapOf(vs);
    }
  }

  /** The entry for an id is the last vertex with that id: the last write wins. */
  lemma {:induction false} MapOfLastWins(vs: seq<Vertex>, k: nat)
    requires k < |vs|
    requires forall j :: k < j < |vs| ==> vs[j].ID() != vs[k].ID()
    ensures vs[k].ID() in MapOf(vs) && MapOf(vs)[vs[k].ID()] == vs[k]
  {
    if k < |vs| - 1 {
      var init := vs[..|vs| - 1];
      MapOfLastWins(init, k);
    }
  }

  // ---------------------------------------------------------------------
  // Connectors

  /** Connecting a concatenation connects each part in turn: record order is kept. */
  lemma {:induction false} ConnectorsForAppend(rs: seq<ConnectorRecord>, more: seq<ConnectorRecord>,
                                               vertices: map<string, Vertex>)
    ensures ConnectorsFor(rs + more, vertices) == ConnectorsFor(rs, vertices) + ConnectorsFor(more, vertices)
    decreases |more|
  {
    if more == [] {
      assert rs + more == rs;
    } else {
      var init := more[..|more| - 1];
      assert (rs + more)[..|rs + more| - 1] == rs + init;
      ConnectorsForAppend(rs, init, vertices);
    }
  }

  /**
   A connector is added exactly when some record with both ends in the table
   yields it, and it always runs from the source vertex's output port to the
   target vertex's input port.
   */
  lemma {:induction false} ConnectorsFromRecords(rs: seq<ConnectorRecord>, vertices: map<string, Vertex>,
                                                 c: Connector)
    ensures c in ConnectorsFor(rs, vertices) <==>
      exists r :: r in rs && Resolves(r, vertices) && c == Join(vertices[r.source], vertices[r.target])
  {
    if rs != [] {
      var init := rs[..|rs| - 1];
      var last := rs[|rs| - 1];
      ConnectorsFromRecords(init, vertices, c);
      assert rs == init + [last];
      if c in ConnectorsFor(rs, vertices) && c !in ConnectorsFor(init, vertices) {
        assert last in rs;
      }
      if exists r :: r in rs && Resolves(r, vertices) && c == Join(vertices[r.source], vertices[r.target]) {
        var r :| r in rs && Resolves(r, vertices) && c == Join(vertices[r.source], vertices[r.target]);
        if r !in init {
          assert r == last;
        }
      }
    }
  }

  /** Every record yields a connector exactly when none of them dangles. */
  lemma {:induction false} ConnectorsForCount(rs: seq<ConnectorRecord>, vertices: map<string, Vertex>)
    ensures |ConnectorsFor(rs, vertices)| <= |rs|
    ensures |ConnectorsFor(rs, vertices)| == |rs| <==> forall r :: r in rs ==> Resolves(r, vertices)
  {
    if rs != [] {
      var init := rs[..|rs| - 1];
      ConnectorsForCount(init, vertices);
      assert rs == init + [rs[|rs| - 1]];
    }
  }
}
