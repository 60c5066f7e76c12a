# Distorted-label detection and workflow loading, in Dafny

This project models two parts of the Praeclarus process-data-quality tool.

- **The Levenshtein distorted-label detector** (`DistortedLabelLevenshtein`).
  For a pair of labels from a string column, the detector computes their
  Levenshtein edit distance with a bounded distance object. It reports the
  pair when `0 < distance <= Threshold`. The `Threshold` option defaults to 2.
  The bounded distance object is built once, when the detector is
  constructed, with the threshold of that moment. It returns -1 for any
  pair further apart than that threshold. The threshold in the comparison
  is read again on every call. So a pair further apart than the
  construction-time threshold is never reported, even when the option is
  raised later.
  - `levenshtein.dfy`: the edit distance as a recursive function over
    sequences of any element type. It proves the distance is zero exactly on
    equal sequences and symmetric, and gives bounds. It also defines the
    bounded distance of the commons-text `LevenshteinDistance(threshold)` and
    a few laws used by the worked example.
  - `utf16.dfy`: Java strings as sequences of UTF-16 code units, the units
    the commons-text distance compares. A character outside the Basic
    Multilingual Plane is a surrogate pair, so it counts as two units.
  - `distorted_label.dfy`: the accept rule, the option default, and the
    detector as a class. The class holds its options map, the threshold
    captured at construction and its result store. Lemmas state when a pair
    is reported.
  - `detector_example.dfy`: the decisions on "create PO", "creat PO" and
    "ship item", and on a label ending in a surrogate pair.
- **The workflow loader** (`WorkflowLoader`). It rebuilds a saved workflow on
  the canvas. It reuses the stored graph when its id is already known, and
  otherwise builds a new graph. It then clears the workflow. Next, with the
  workflow flagged as loading and event capture off, it adds one vertex per
  vertex record whose node loaded, and marks completed nodes' vertices
  COMPLETED. It then adds one connector per connector record whose two ends
  name loaded vertices, in record order. It then turns the loading flag off
  and switches event capture back on. Finally, when the vertex table and the
  graph's head set are both non-empty, it selects one head node; otherwise
  the selection is left as it was.
  - `workflow_model.dfy`: the records and values, and the specification
    functions (`LoadedVertices`, `MapOf`, `ConnectorsFor`, `LoadGraph`) with
    their lemmas.
  - `workflow_loader.dfy`: the canvas workflow and the loader as classes.
    Their loop methods are proved against those functions.
- `wrappers.dfy`: `Option` and `Result`.

Inputs the source reads from outside are parameters:
- the already-parsed JSON (`WorkflowJson`),
- the graph store (`store`),
- the head set the graph reports (`heads`),
- the options a detector inherits (`inherited`).

The event logger's process-wide capture flag is the field
`WorkflowLoader.capturing`.

## Model

| member | source | states |
|---|---|---|
| Levenshtein.Distance | src/main/java/com/processdataquality/praeclarus/pattern/DistortedLabelLevenshtein.java:47 | the edit distance is at least the difference of the lengths and at most the longer length |
| Levenshtein.BoundedDistance | src/main/java/com/processdataquality/praeclarus/pattern/DistortedLabelLevenshtein.java:38-39 | the bounded distance is the exact distance when that is within the construction bound, and -1 exactly when the distance exceeds it |
| Levenshtein.DistanceToSelf | src/main/java/com/processdataquality/praeclarus/pattern/DistortedLabelLevenshtein.java:48 | a label is at distance 0 from itself |
| Levenshtein.DistanceZeroIffEqual | src/main/java/com/processdataquality/praeclarus/pattern/DistortedLabelLevenshtein.java:48 | distance 0 holds exactly for identical labels |
| Levenshtein.DistanceSymmetric | src/main/java/com/processdataquality/praeclarus/pattern/DistortedLabelLevenshtein.java:47 | distance(a, b) = distance(b, a) |
| Levenshtein.CountInLowerBound | src/main/java/com/processdataquality/praeclarus/pattern/DistortedLabelLevenshtein.java:47 | the distance is at least the surplus, in the first label over the second, of elements from any chosen set |
| Levenshtein.OneInsertionApart | src/main/java/com/processdataquality/praeclarus/pattern/DistortedLabelLevenshtein.java:47 | two labels that differ by one inserted element are at distance exactly 1 |
| Utf16.UnitsOf | src/main/java/com/processdataquality/praeclarus/pattern/DistortedLabelLevenshtein.java:47 | a character is one code unit, itself, inside the Basic Multilingual Plane, and otherwise a high and a low surrogate that together encode it |
| Utf16.Encode | src/main/java/com/processdataquality/praeclarus/pattern/DistortedLabelLevenshtein.java:47 | a string's code units number between its length and twice its length, and exactly its length iff every character is in the Basic Multilingual Plane |
| Utf16.EncodeBmp | src/main/java/com/processdataquality/praeclarus/pattern/DistortedLabelLevenshtein.java:47 | on Basic Multilingual Plane text the i-th code unit is the i-th character |
| Utf16.BmpDistance | src/main/java/com/processdataquality/praeclarus/pattern/DistortedLabelLevenshtein.java:47 | on Basic Multilingual Plane text the distance over code units equals the distance over characters |
| DistortedLabel.WithDefaultThreshold | src/main/java/com/processdataquality/praeclarus/pattern/DistortedLabelLevenshtein.java:54-60 | after getOptions the Threshold key is present; its value is 2 when it was absent; a map that had the key is unchanged; other keys keep their values |
| DistortedLabel.WithDefaultThresholdIdempotent | src/main/java/com/processdataquality/praeclarus/pattern/DistortedLabelLevenshtein.java:56-58 | a second getOptions changes nothing |
| DistortedLabel.Accepts | src/main/java/com/processdataquality/praeclarus/pattern/DistortedLabelLevenshtein.java:48 | the accept rule never accepts distance 0 (identical labels), never accepts the -1 of a pair beyond the bound, accepts nothing under a threshold below 1, and an accepted distance lies in 1..threshold |
| DistortedLabel.Reports | src/main/java/com/processdataquality/praeclarus/pattern/DistortedLabelLevenshtein.java:47-48 | a pair is reported iff its true distance is positive, within the construction-time bound and within the current threshold |
| DistortedLabel.IdenticalNeverReported | src/main/java/com/processdataquality/praeclarus/pattern/DistortedLabelLevenshtein.java:48 | identical labels are never reported, whatever the thresholds |
| DistortedLabel.ReportedLabelsDiffer | src/main/java/com/processdataquality/praeclarus/pattern/DistortedLabelLevenshtein.java:48 | the two labels of a reported pair differ |
| DistortedLabel.ZeroThresholdReportsNothing | src/main/java/com/processdataquality/praeclarus/pattern/DistortedLabelLevenshtein.java:46-48 | with a threshold of 0 or less no pair is reported |
| DistortedLabel.BeyondBoundNeverReported | src/main/java/com/processdataquality/praeclarus/pattern/DistortedLabelLevenshtein.java:38-48 | a pair further apart than the construction-time threshold is never reported, for any later threshold |
| DistortedLabel.ReportsSymmetric | src/main/java/com/processdataquality/praeclarus/pattern/DistortedLabelLevenshtein.java:47-48 | (s1, s2) is reported iff (s2, s1) is |
| DistortedLabel.ReportsMonotoneInThreshold | src/main/java/com/processdataquality/praeclarus/pattern/DistortedLabelLevenshtein.java:46-48 | raising the threshold read at the call never withdraws a report |
| DistortedLabel.DistortedLabelLevenshtein.constructor | src/main/java/com/processdataquality/praeclarus/pattern/DistortedLabelLevenshtein.java:38-41 | construction adds the threshold default, captures the threshold as the distance bound, and starts with no results |
| DistortedLabel.DistortedLabelLevenshtein.Create | src/main/java/com/processdataquality/praeclarus/pattern/DistortedLabelLevenshtein.java:38-39 | construction fails exactly when the threshold is negative, which the bounded distance refuses; otherwise it yields a fresh detector as the constructor does |
| DistortedLabel.DistortedLabelLevenshtein.GetOptions | src/main/java/com/processdataquality/praeclarus/pattern/DistortedLabelLevenshtein.java:54-60 | the options become WithDefaultThreshold of the old options and are returned |
| DistortedLabel.DistortedLabelLevenshtein.Detect | src/main/java/com/processdataquality/praeclarus/pattern/DistortedLabelLevenshtein.java:45-51 | the options get the default; the candidate (column, s1, s2) is appended iff the pair is reported under the bound and the re-read threshold; otherwise the results are unchanged |
| DetectorExample.ReportsBmp | src/main/java/com/processdataquality/praeclarus/pattern/DistortedLabelLevenshtein.java:47-48 | on Basic Multilingual Plane labels a pair is reported iff its distance over characters is positive and within both thresholds |
| DetectorExample.DefaultThresholdExample | src/main/java/com/processdataquality/praeclarus/pattern/DistortedLabelLevenshtein.java:45-51 | with threshold 2, ("create PO", "creat PO") is reported; neither label pairs with "ship item"; with bound and threshold 0 no pair of the three is reported |
| DetectorExample.SurrogatePairExample | src/main/java/com/processdataquality/praeclarus/pattern/DistortedLabelLevenshtein.java:47-48 | "a" followed by U+1F600 is one character but two code units from "a", so under threshold 1 the pair is not reported |
| WorkflowModel.VertexOf | src/main/java/com/processdataquality/praeclarus/ui/canvas/WorkflowLoader.java:104-110 | a loaded vertex keeps the record's position and node, and is COMPLETED iff its node has completed |
| WorkflowModel.Join | src/main/java/com/processdataquality/praeclarus/ui/canvas/WorkflowLoader.java:127-129 | a connector runs from the source vertex's output port to the target vertex's input port |
| WorkflowModel.LoadedVertices | src/main/java/com/processdataquality/praeclarus/ui/canvas/WorkflowLoader.java:100-112 | at most one vertex per record, and every vertex is COMPLETED iff its node has completed |
| WorkflowModel.MapOf | src/main/java/com/processdataquality/praeclarus/ui/canvas/WorkflowLoader.java:98-111 | every entry of the id-to-vertex table is one of the vertices, filed under its own id |
| WorkflowModel.Resolves | src/main/java/com/processdataquality/praeclarus/ui/canvas/WorkflowLoader.java:124-126 | a connector record resolves iff both its source and its target ids are keys of the table |
| WorkflowModel.ConnectorsFor | src/main/java/com/processdataquality/praeclarus/ui/canvas/WorkflowLoader.java:120-131 | at most one connector per record, each from an output port to an input port, both on vertices of the table |
| WorkflowModel.LoadGraph | src/main/java/com/processdataquality/praeclarus/ui/canvas/WorkflowLoader.java:63-93 | a known id yields the stored graph with its options refreshed; otherwise a new graph carries the saved fields and the content, with a description and a last-saved time exactly when those are non-empty |
| WorkflowModel.LoadedVerticesAppend | src/main/java/com/processdataquality/praeclarus/ui/canvas/WorkflowLoader.java:100-112 | vertices are added in record order |
| WorkflowModel.LoadedVerticesFromRecords | src/main/java/com/processdataquality/praeclarus/ui/canvas/WorkflowLoader.java:104-112 | a vertex is added iff some record whose node loaded yields it; a record whose node is null adds nothing |
| WorkflowModel.LoadedVerticesStep | src/main/java/com/processdataquality/praeclarus/ui/canvas/WorkflowLoader.java:100-112 | one more record appends its vertex when its node loaded, and nothing otherwise |
| WorkflowModel.LoadedVerticesCount | src/main/java/com/processdataquality/praeclarus/ui/canvas/WorkflowLoader.java:100-112 | at most one vertex per record, and one per record exactly when every node loaded |
| WorkflowModel.MapOfKeys | src/main/java/com/processdataquality/praeclarus/ui/canvas/WorkflowLoader.java:111 | the vertex table's keys are exactly the ids of the added vertices |
| WorkflowModel.MapOfSnoc | src/main/java/com/processdataquality/praeclarus/ui/canvas/WorkflowLoader.java:111 | putting one more vertex files it under its id, replacing any earlier entry |
| WorkflowModel.MapOfEmpty | src/main/java/com/processdataquality/praeclarus/ui/canvas/WorkflowLoader.java:136 | the vertex table is empty iff no vertex was added |
| WorkflowModel.MapOfLastWins | src/main/java/com/processdataquality/praeclarus/ui/canvas/WorkflowLoader.java:111 | for a repeated id the table holds the last vertex added with it |
| WorkflowModel.ConnectorsForAppend | src/main/java/com/processdataquality/praeclarus/ui/canvas/WorkflowLoader.java:120-131 | connectors are added in record order |
| WorkflowModel.ConnectorsFromRecords | src/main/java/com/processdataquality/praeclarus/ui/canvas/WorkflowLoader.java:124-129 | a connector is added iff some record with both ends in the table yields it, joining output port to input port |
| WorkflowModel.ConnectorsForCount | src/main/java/com/processdataquality/praeclarus/ui/canvas/WorkflowLoader.java:124-126 | at most one connector per record, and one per record exactly when no record dangles |
| WorkflowLoading.Workflow.Clear | src/main/java/com/processdataquality/praeclarus/ui/canvas/WorkflowLoader.java:53 | the workflow shows the given graph with no vertices and no connectors |
| WorkflowLoading.Workflow.SetLoading | src/main/java/com/processdataquality/praeclarus/ui/canvas/WorkflowLoader.java:54 | the loading flag takes the given value |
| WorkflowLoading.Workflow.AddVertex | src/main/java/com/processdataquality/praeclarus/ui/canvas/WorkflowLoader.java:107 | the vertex is appended |
| WorkflowLoading.Workflow.AddConnector | src/main/java/com/processdataquality/praeclarus/ui/canvas/WorkflowLoader.java:129 | the connector is appended |
| WorkflowLoading.Workflow.SetSelectedNode | src/main/java/com/processdataquality/praeclarus/ui/canvas/WorkflowLoader.java:139 | the given node becomes the selection |
| WorkflowLoading.WorkflowLoader.constructor | src/main/java/com/processdataquality/praeclarus/ui/canvas/WorkflowLoader.java:44-46 | the loader works on the given workflow |
| WorkflowLoading.WorkflowLoader.Load | src/main/java/com/processdataquality/praeclarus/ui/canvas/WorkflowLoader.java:49-60 | after a load the workflow shows LoadGraph's graph, the loaded vertices and the resolvable connectors; loading is off and events are captured; a head is selected iff there are vertices and heads, otherwise the selection is kept |
| WorkflowLoading.WorkflowLoader.LoadVertices | src/main/java/com/processdataquality/praeclarus/ui/canvas/WorkflowLoader.java:96-115 | runs only while loading with capture off; appends LoadedVertices of the records and returns MapOf of them |
| WorkflowLoading.WorkflowLoader.LoadConnectors | src/main/java/com/processdataquality/praeclarus/ui/canvas/WorkflowLoader.java:118-132 | runs only while loading with capture off; appends ConnectorsFor of the records and the table |
| WorkflowLoading.WorkflowLoader.SelectHeadVertex | src/main/java/com/processdataquality/praeclarus/ui/canvas/WorkflowLoader.java:135-142 | some head becomes the selection when the table and the head set are non-empty; otherwise the selection is untouched |

## Left out

- JSON parsing is left out. The saved workflow arrives as records. A missing field, which raises a JSON exception in the source, is not modelled. An absent optional field is an empty string, as `optString` returns.
- Parsing of creation and last-saved times into date-times is left out; they stay strings.
- The graph store is a map from id to graph.
- `Graph.refreshOptions` is not part of this model. It is recorded as the flag `optionsRefreshed`.
- `Graph.getHeads` is not part of this model. Its result is the `heads` parameter. Which head `heads.iterator().next()` yields is left open: any head may be chosen.
- The `Workflow` class is not part of this model. `clear` is taken to install the graph and drop all vertices and connectors and leave the selection alone. `addVertex` and `addConnector` are taken to append.
- Vertex positions are doubles in the source; here they are reals that are only stored.
- `Vertex` is a value here, not a shared object. Its run state is set before it is added to the workflow. The source sets it after `addVertex` on the same object, and before `vertexMap.put`, so the workflow and the table end up with equal vertices, and no other code observes the order.
- `Vertex.getID` is not part of this model. A vertex's id is taken to be its node's id.
- `VertexStateIndicator.State` has more states than the two used here. Loading only ever sets COMPLETED.
- `NodeLoader.fromJson` is not part of this model. A record carries the node it yields, or None when it yields null.
- The exception paths of `load` are left out. They leave the loading flag set and event capture off, because the source has no try/finally. `Load` states its results for normal completion only.
- `AbstractImperfectLabel` is not part of this model. Which label pairs it passes to `detect` is not modelled. `addResult` appends a candidate (column name, s1, s2) to the result store, and the column is named by a string.
- Option values are modelled as integers only. `Options.addDefault` is taken to insert the key with its value.
- The commons-text distance is specified by its contract: the exact distance or -1. Its banded dynamic-programming algorithm is not modelled. `Distance` is the recursive definition of that metric, applied to the UTF-16 code units of the two labels as Java compares them.
- Labels are sequences of UTF-16 code units. How a Java string got its code units, including unpaired surrogates, is not modelled; `Utf16.Encode` relates labels to Dafny strings of Unicode scalar values.
- DistortedLabel.DistortedLabelLevenshtein.constructor: requires a non-negative threshold. In the source a negative one makes the bounded distance throw during construction. `Create` models that failure as a `Result`.
