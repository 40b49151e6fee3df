/**
 `print_tasks`: the optional "only projects" pruning of the record tree,
 then the choice of exactly one renderer.

 Printing is not modelled: the dispatcher returns what it would print. JSON
 encoding, XML serialisation and CSV quoting are not modelled either; for
 those modes the output holds the value handed to the encoder.
 */
module Dispatch {
  import opened Records
  import opened Strings
  import Csv
  import Outline
  import Gantt

  /** The output switches of the command line. */
  datatype Flags = Flags(json: bool, opml: bool, csv: bool, gantt: bool, onlyProjects: bool)

  datatype Mode = JsonMode | OpmlMode | CsvMode | GanttMode | TextMode

  /** The renderer print_tasks runs for the given switches. */
  function SelectMode(f: Flags): (m: Mode)
    ensures m == JsonMode <==> f.json
    ensures m == OpmlMode <==> !f.json && f.opml
    ensures m == CsvMode <==> !f.json && !f.opml && f.csv
    ensures m == GanttMode <==> !f.json && !f.opml && !f.csv && f.gantt
    ensures m == TextMode <==> !f.json && !f.opml && !f.csv && !f.gantt
  {
    if f.json then JsonMode
    else if f.opml then OpmlMode
    else if f.csv then CsvMode
    else if f.gantt then GanttMode
    else TextMode
  }

  /** `x["type"] in ["area", "project"]`. */
  predicate Keep(n: Node)
  {
    Get(n, "type") == Str("area") || Get(n, "type") == Str("project")
  }

  /** The list comprehension keeping areas and projects, in order. */
  function Filter(ts: seq<Node>): seq<Node>
  {
    if ts == [] then []
    else (if Keep(ts[0]) then [ts[0]] else []) + Filter(ts[1..])
  }

  /** The filter keeps exactly the areas and projects. */
  lemma {:induction false} FilterMembers(ts: seq<Node>)
    ensures |Filter(ts)| <= |ts|
    ensures forall x :: x in Filter(ts) <==> x in ts && Keep(x)
  {
    if ts != [] {
      FilterMembers(ts[1..]);
      assert ts == [ts[0]] + ts[1..];
    }
  }

  /** Filtering a concatenation filters each part: the kept records stay in order. */
  lemma {:induction false} FilterAppend(a: seq<Node>, b: seq<Node>)
    ensures Filter(a + b) == Filter(a) + Filter(b)
  {
    if a == [] {
      assert a + b == b;
    } else {
      assert (a + b)[0] == a[0] && (a + b)[1..] == a[1..] + b;
      FilterAppend(a[1..], b);
    }
  }

  /** Filtering twice is filtering once. */
  lemma {:induction false} FilterTwice(ts: seq<Node>)
    ensures Filter(Filter(ts)) == Filter(ts)
  {
    if ts != [] {
      FilterTwice(ts[1..]);
      var head := if Keep(ts[0]) then [ts[0]] else [];
      FilterAppend(head, Filter(ts[1..]));
      if Keep(ts[0]) {
        assert Filter(head) == head;
      }
    }
  }

  /** The list under `items`: `x["items"] if x.get("items") else []`. */
  function ItemsList(n: Node): seq<Node>
  {
    match n.items
    case Some(Nodes(l)) => l
    case _ => []
  }

  /** The second level after pruning: its `items` filtered. */
  function PruneChild(c: Node): Node
  {
    c.(items := Some(Nodes(Filter(ItemsList(c)))))
  }

  /** Each kept child pruned, in order. */
  function PruneChildren(kept: seq<Node>): (r: seq<Node>)
    ensures |r| == |kept|
    ensures forall i :: 0 <= i < |kept| ==> r[i] == PruneChild(kept[i])
  {
    if kept == [] then [] else [PruneChild(kept[0])] + PruneChildren(kept[1..])
  }

  /** The first level after pruning: its `items` filtered, each kept child pruned. */
  function PruneTop(t: Node): Node
  {
    t.(items := Some(Nodes(PruneChildren(Filter(ItemsList(t))))))
  }

  /** What the pruning loops need to run: no `items` holding the `True` marker on
      the two levels they iterate, and a `type` key on every record they test. */
  predicate PruneReady(ts: seq<Node>)
  {
    forall i :: 0 <= i < |ts| ==> TopReady(ts[i])
  }

  predicate TopReady(t: Node)
  {
    && t.items != Some(Consumed)
    && (forall c :: c in ItemsList(t) ==> "type" in FieldKeys(c))
    && (forall c :: c in Filter(ItemsList(t)) ==> ChildReady(c))
  }

  predicate ChildReady(c: Node)
  {
    && c.items != Some(Consumed)
    && (forall g :: g in ItemsList(c) ==> "type" in FieldKeys(g))
  }

  /** After pruning, a top-level record keeps its fields and checklist; its items
      are exactly its areas and projects, in order; each of those keeps its fields
      and checklist and has exactly its own areas and projects as items; the
      records below are untouched. */
  lemma PruneTopShape(t: Node)
    ensures PruneTop(t).fields == t.fields && PruneTop(t).checklist == t.checklist
    ensures PruneTop(t).items.Some? && PruneTop(t).items.value.Nodes?
    ensures |ItemsList(PruneTop(t))| == |Filter(ItemsList(t))|
    ensures forall i :: 0 <= i < |Filter(ItemsList(t))| ==>
              var c := Filter(ItemsList(t))[i];
              var p := ItemsList(PruneTop(t))[i];
              && Keep(c) && c in ItemsList(t)
              && p.fields == c.fields && p.checklist == c.checklist
              && p.items == Some(Nodes(Filter(ItemsList(c))))
              && ItemsList(p) == Filter(ItemsList(c))
    ensures forall c :: c in ItemsList(t) && Keep(c) ==> PruneChild(c) in ItemsList(PruneTop(t))
  {
    var kept := Filter(ItemsList(t));
    FilterMembers(ItemsList(t));
    forall c | c in ItemsList(t) && Keep(c) ensures PruneChild(c) in ItemsList(PruneTop(t)) {
      var i :| 0 <= i < |kept| && kept[i] == c;
      assert ItemsList(PruneTop(t))[i] == PruneChild(c);
    }
  }

  /** Pruning twice is pruning once. */
  lemma PruneTopTwice(t: Node)
    ensures PruneTop(PruneTop(t)) == PruneTop(t)
  {
    var kept := Filter(ItemsList(t));
    var ps := PruneChildren(kept);
    FilterMembers(ItemsList(t));
    KeepPruned(kept);
    PruneChildrenTwice(kept);
    assert ItemsList(PruneTop(t)) == ps;
  }

  /** Pruning a child leaves its type alone, so a list of kept children stays kept. */
  lemma {:induction false} KeepPruned(kept: seq<Node>)
    requires forall c :: c in kept ==> Keep(c)
    ensures Filter(PruneChildren(kept)) == PruneChildren(kept)
  {
    if kept != [] {
      var ps := PruneChildren(kept);
      KeepPruned(kept[1..]);
      assert ps == [PruneChild(kept[0])] + PruneChildren(kept[1..]);
      assert ps[1..] == PruneChildren(kept[1..]);
      assert kept[0] in kept && Keep(kept[0]);
      assert Get(ps[0], "type") == Get(kept[0], "type");
      assert Keep(ps[0]);
      assert Filter(ps) == [ps[0]] + Filter(ps[1..]);
    }
  }

  /** Pruning the pruned children again changes nothing. */
  lemma {:induction false} PruneChildrenTwice(kept: seq<Node>)
    ensures PruneChildren(PruneChildren(kept)) == PruneChildren(kept)
  {
    if kept != [] {
      var ps := PruneChildren(kept);
      PruneChildrenTwice(kept[1..]);
      assert ps[1..] == PruneChildren(kept[1..]);
      FilterTwice(ItemsList(kept[0]));
    }
  }

  /** The list comprehension `[x for x in ts if x["type"] in ["area", "project"]]`. */
  method FilterAreas(ts: seq<Node>) returns (kept: seq<Node>)
    requires forall c :: c in ts ==> "type" in FieldKeys(c)
    ensures kept == Filter(ts)
  {
    kept := [];
    var i := 0;
    while i < |ts|
      invariant 0 <= i <= |ts|
      invariant kept + Filter(ts[i..]) == Filter(ts)
    {
      assert ts[i..][0] == ts[i] && ts[i..][1..] == ts[i + 1..];
      if Get(ts[i], "type") == Str("area") || Get(ts[i], "type") == Str("project") {
        assert Filter(ts[i..]) == [ts[i]] + Filter(ts[i + 1..]);
        Assoc(kept, [ts[i]], Filter(ts[i + 1..]));
        kept := kept + [ts[i]];
      } else {
        assert Filter(ts[i..]) == Filter(ts[i + 1..]);
      }
      i := i + 1;
    }
    assert ts[i..] == [];
  }

  /** The `only_projects` block of print_tasks. */
  method Prune(ts: seq<Node>) returns (ts': seq<Node>)
    requires PruneReady(ts)
    ensures |ts'| == |ts|
    ensures forall i :: 0 <= i < |ts| ==> ts'[i] == PruneTop(ts[i])
  {
    ts' := ts;
    var i := 0;
    while i < |ts|
      invariant 0 <= i <= |ts| == |ts'|
      invariant forall j :: 0 <= j < i ==> ts'[j] == PruneTop(ts[j])
    {
      var task := PruneTask(ts[i]);
      ts' := ts'[i := task];
      i := i + 1;
    }
  }

  /** One pass of the pruning loop: filter the record's items, then each kept
      child's items. */
  method PruneTask(t: Node) returns (t': Node)
    requires TopReady(t)
    ensures t' == PruneTop(t)
  {
    var kept := FilterAreas(ItemsList(t));
    var children := kept;
    var j := 0;
    while j < |kept|
      invariant 0 <= j <= |kept| == |children|
      invariant forall k :: 0 <= k < j ==> children[k] == PruneChild(kept[k])
      invariant forall k :: j <= k < |kept| ==> children[k] == kept[k]
    {
      var c := kept[j];
      FilterMembers(ItemsList(t));
      assert c in Filter(ItemsList(t));
      var grand := FilterAreas(ItemsList(c));
      children := children[j := c.(items := Some(Nodes(grand)))];
      j := j + 1;
    }
    t' := t.(items := Some(Nodes(children)));
    assert children == PruneChildren(kept);
  }

  /** The tree the renderer sees. */
  function Pruned(f: Flags, ts: seq<Node>): (r: seq<Node>)
    requires f.onlyProjects ==> PruneReady(ts)
    ensures |r| == |ts|
  {
    if f.onlyProjects then seq(|ts|, i requires 0 <= i < |ts| => PruneTop(ts[i])) else ts
  }

  /** The four lines printed before the Gantt chart body. */
  const GanttPreamble: string :=
    "gantt\n" + "  dateFormat  YYYY-MM-DD\n" + "  title       Things To-Dos\n" + "  excludes    weekends\n"

  /** What print_tasks prints, before serialisation. */
  datatype Output =
    | JsonOut(tree: seq<Node>)
    | OpmlOut(doc: Outline.Opml)
    | CsvOut(header: seq<string>, rows: seq<Csv.Row>)
    | GanttOut(text: string)
    | TextOut(text: string)

  /** What the selected renderer needs of the tree it gets. */
  predicate Renderable(m: Mode, ts: seq<Node>)
  {
    match m
    case JsonMode => true
    case OpmlMode => AllNodes(ts, Both, Outline.HasTitle)
    case CsvMode => AllNodes(ts, ItemsOnly, Anything) && AllNodes(ts, Both, (n: Node) => Csv.FitsHeader(n, Csv.CsvHeader(ts)))
    case GanttMode => AllNodes(ts, ItemsOnly, Gantt.GanttReady)
    case TextMode => AllNodes(ts, Both, Outline.TxtReady)
  }

  /** `print_tasks(tasks)`: exactly one renderer runs, chosen by precedence
      JSON, OPML, CSV, Gantt, text, on the tree pruned when only projects are
      asked for. */
  method PrintTasks(f: Flags, ts: seq<Node>) returns (out: Output)
    requires f.onlyProjects ==> PruneReady(ts)
    requires Renderable(SelectMode(f), Pruned(f, ts))
    ensures out.JsonOut? <==> SelectMode(f) == JsonMode
    ensures out.OpmlOut? <==> SelectMode(f) == OpmlMode
    ensures out.CsvOut? <==> SelectMode(f) == CsvMode
    ensures out.GanttOut? <==> SelectMode(f) == GanttMode
    ensures out.TextOut? <==> SelectMode(f) == TextMode
    ensures out.JsonOut? ==> out.tree == Pruned(f, ts)
    ensures out.OpmlOut? ==> out.doc.title == Outline.DocumentTitle
    ensures out.OpmlOut? ==> Outline.Flatten(out.doc.body, 0) == Outline.LabelsOf(TourList(Pruned(f, ts), Both, 0))
    ensures out.CsvOut? ==> out.header == Csv.CsvHeader(Pruned(f, ts)) && out.rows == Csv.RowsList(Pruned(f, ts), out.header)
    ensures out.GanttOut? ==> forall v :: v in TourList(Pruned(f, ts), ItemsOnly, 0) ==> Gantt.GanttReady(v.node)
    ensures out.GanttOut? ==>
              out.text == GanttPreamble + Concat(Gantt.Listing(Gantt.AddAll([], TourList(Pruned(f, ts), ItemsOnly, 0)))) + "\n"
    ensures out.TextOut? ==> out.text == Outline.TxtList(Pruned(f, ts), "")
  {
    var tree := ts;
    if f.onlyProjects {
      tree := Prune(ts);
      assert tree == Pruned(f, ts);
    }
    if f.json {
      out := JsonOut(tree);
    } else if f.opml {
      var doc, done := Outline.OpmlDumps(tree);
      out := OpmlOut(doc);
    } else if f.csv {
      var header, rows, done := Csv.CsvDumps(tree);
      out := CsvOut(header, rows);
    } else if f.gantt {
      var body := Gantt.GanttDumps(tree);
      out := GanttOut(GanttPreamble + body + "\n");
    } else {
      var text, done := Outline.TxtDumps(Nodes(tree), "", "");
      out := TextOut(text);
    }
  }
}
