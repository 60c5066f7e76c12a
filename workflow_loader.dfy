/**
 Rebuilding a workflow on the canvas from a saved one: the graph is looked up
 or built, the vertices and then the connectors are added while the workflow
 is flagged as loading and event capture is suppressed, and finally a head
 node is selected.
 */
module WorkflowLoading {
  import opened Wrappers
  import opened WorkflowModel

  /** The canvas-side workflow the loader fills in. */
  class Workflow {
    var graph: Graph
    var vertices: seq<Vertex>
    var connectors: seq<Connector>
    var loading: bool
    var selected: Option<Node>

    constructor (g: Graph)
      ensures graph == g && vertices == [] && connectors == []
      ensures !loading && selected == None
    {
      graph, vertices, connectors := g, [], [];
      loading, selected := false, None;
    }

    /** Attaches the workflow to `g`, with no vertices and no connectors. */
    method Clear(g: Graph)
      modifies this`graph, this`vertices, this`connectors
      ensures graph == g && vertices == [] && connectors == []
    {
      graph, vertices, connectors := g, [], [];
    }

    method SetLoading(b: bool)
      modifies this`loading
      ensures loading == b
    {
      loading := b;
    }

    method AddVertex(v: Vertex)
      modifies this`vertices
      ensures vertices == old(vertices) + [v]
    {
      vertices := vertices + [v];
    }

    method AddConnector(c: Connector)
      modifies this`connectors
      ensures connectors == old(connectors) + [c]
    {
      connectors := connectors + [c];
    }

    method SetSelectedNode(n: Node)
      modifies this`selected
      ensures selected == Some(n)
    {
      selected := Some(n);
    }
  }

  /** Loads saved workflows into one canvas workflow. */
  class WorkflowLoader {
    const workflow: Workflow
    /** Whether the event logger records events; the logger's process-wide flag. */
    var capturing: bool

    constructor (w: Workflow, capturing: bool)
      ensures workflow == w && this.capturing == capturing
    {
      workflow := w;
      this.capturing := capturing;
    }

    /**
     Replaces the workflow's content with the saved workflow `json` (whose
     text is `content`). `store` holds the graphs this deployment already
     knows, by id; `heads` is the head set the graph reports once loaded.
     */
    method Load(json: WorkflowJson, content: string, store: map<string, Graph>, heads: set<Node>)
      modifies this`capturing, workflow
      ensures workflow.graph == LoadGraph(json, content, store)
      ensures workflow.vertices == LoadedVertices(json.vertices)
      ensures workflow.connectors == ConnectorsFor(json.connectors, MapOf(LoadedVertices(json.vertices)))
      ensures !workflow.loading && capturing
      ensures LoadedVertices(json.vertices) != [] && heads != {} ==>
                workflow.selected.Some? && workflow.selected.value in heads
      ensures LoadedVertices(json.vertices) == [] || heads == {} ==>
                workflow.selected == old(workflow.selected)
    {
      ghost var loaded := LoadedVertices(json.vertices);
      capturing := false;
      var graph := LoadGraph(json, content, store);
      workflow.Clear(graph);
      workflow.SetLoading(true);
      var vertices := LoadVertices(json.vertices);
      LoadConnectors(json.connectors, vertices);
      workflow.SetLoading(false);
      capturing := true;
      MapOfEmpty(loaded);
      SelectHeadVertex(vertices, heads);
    }

    /**
     Adds a vertex for each record whose node loaded, in record order, and
     returns the table from vertex id to vertex. Runs while the workflow is
     loading and events are not captured.
     */
    method LoadVertices(records: seq<VertexRecord>) returns (vertexMap: map<string, Vertex>)
      requires workflow.loading && !capturing
      modifies workflow`vertices
      ensures workflow.vertices == old(workflow.vertices) + LoadedVertices(records)
      ensures vertexMap == MapOf(LoadedVertices(records))
    {
      vertexMap := map[];
      var i := 0;
      while i < |records|
        invariant 0 <= i <= |records|
        invariant workflow.vertices == old(workflow.vertices) + LoadedVertices(records[..i])
        invariant vertexMap == MapOf(LoadedVertices(records[..i]))
      {
        var record := records[i];
        LoadedVerticesStep(records, i);
        ghost var before := LoadedVertices(records[..i]);
        if record.node.Some? {
          var node := record.node.value;
          var vertex := Vertex(record.x, record.y, node, Idle);
          if node.completed {
            vertex := vertex.(state := Completed);
          }
          assert vertex == VertexOf(record);
          workflow.AddVertex(vertex);
          MapOfSnoc(before, vertex);
          vertexMap := vertexMap[vertex.ID() := vertex];
          assert LoadedVertices(records[..i + 1]) == before + [vertex];
        } else {
          assert LoadedVertices(records[..i + 1]) == before + [] == before;
        }
        i := i + 1;
      }
      assert records[..i] == records;
    }

    /**
     Adds, in record order, a connector from the source vertex's output port
     to the target vertex's input port for each record whose two ends are in
     `vertices`, and skips the others. Runs while the workflow is loading and
     events are not captured.
     */
    method LoadConnectors(records: seq<ConnectorRecord>, vertices: map<string, Vertex>)
      requires workflow.loading && !capturing
      modifies workflow`connectors
      ensures workflow.connectors == old(workflow.connectors) + ConnectorsFor(records, vertices)
    {
      var i := 0;
      while i < |records|
        invariant 0 <= i <= |records|
        invariant workflow.connectors == old(workflow.connectors) + ConnectorsFor(records[..i], vertices)
      {
        var record := records[i];
        assert records[..i + 1][..i] == records[..i];
        if record.source in vertices && record.target in vertices {
          var source := vertices[record.source];
          var target := vertices[record.target];
          workflow.AddConnector(Connector(Port(source, Output), Port(target, Input)));
        }
        i := i + 1;
      }
      assert records[..i] == records;
    }

    /**
     Selects some head node when there are vertices and the graph has a
     head; otherwise the selection is left alone.
     */
    method SelectHeadVertex(vertices: map<string, Vertex>, heads: set<Node>)
      modifies workflow`selected
      ensures vertices != map[] && heads != {} ==> workflow.selected.Some? && workflow.selected.value in heads
      ensures vertices == map[] || heads == {} ==> workflow.selected == old(workflow.selected)
    {
      if vertices != map[] {
        if heads != {} {
          var head :| head in heads;
          workflow.SetSelectedNode(head);
        }
      }
    }
  }
}
