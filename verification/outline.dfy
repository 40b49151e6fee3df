/**
 Outline renderers: the OPML outline tree (`opml_convert`, `opml_dumps`) and
 the indented text listing (`txt_dumps`).

 Both visit every record reached through `items` and `checklist`, in
 pre-order, `items` first. The OPML renderer removes both structural keys;
 the text renderer removes `items` only. XML serialisation and
 pretty-printing are not modelled: the result of the OPML renderer is the
 element tree it builds.
 */
module Outline {
  import opened Records
  import opened Strings

  /** An `<outline text="...">` element and the outlines nested in it. */
  datatype Element = Element(text: string, children: seq<Element>)

  /** The document opml_dumps builds: the text of `<head><title>` and the
      outlines of `<body>`. */
  datatype Opml = Opml(title: string, body: seq<Element>)

  const DocumentTitle: string := "Things 3 Database"

  /** `task["title"]` does not fail. */
  predicate HasTitle(n: Node)
  {
    "title" in FieldKeys(n)
  }

  /** The text of a record's outline. */
  function Label(n: Node): string
  {
    var title := Show(Get(n, "title"));
    var scheduled := Get(n, "start_date");
    var start := Get(n, "start");
    if Truthy(scheduled) then title + " (Scheduled: " + Show(scheduled) + ")"
    else if Truthy(start) then title + " (" + Show(start) + ")"
    else title
  }

  /** The label starts with the title; it is the bare title exactly when neither
      the start date nor the start is truthy; a truthy start date wins over the start. */
  lemma LabelFormat(n: Node)
    ensures Show(Get(n, "title")) <= Label(n)
    ensures Label(n) == Show(Get(n, "title")) <==> !Truthy(Get(n, "start_date")) && !Truthy(Get(n, "start"))
    ensures Truthy(Get(n, "start_date")) ==>
              Label(n) == Show(Get(n, "title")) + " (Scheduled: " + Show(Get(n, "start_date")) + ")"
    ensures !Truthy(Get(n, "start_date")) && Truthy(Get(n, "start")) ==>
              Label(n) == Show(Get(n, "title")) + " (" + Show(Get(n, "start")) + ")"
  {
  }

  /** The outlines opml_convert appends for a list of records. */
  function Outlines(ks: Kids): seq<Element>
  {
    match ks
    case Consumed => []
    case Nodes(ts) => OutlinesList(ts)
  }

  function OutlinesList(ts: seq<Node>): seq<Element>
  {
    if ts == [] then [] else [OutlineOf(ts[0])] + OutlinesList(ts[1..])
  }

  function OutlineOf(n: Node): Element
  {
    Element(Label(n),
            (if n.items.Some? then Outlines(n.items.value) else [])
            + (if n.checklist.Some? then Outlines(n.checklist.value) else []))
  }

  /** An outline text with its nesting depth. */
  datatype Flat = Flat(text: string, depth: nat)

  /** The outlines in document order, each with its nesting depth. */
  function Flatten(es: seq<Element>, d: nat): seq<Flat>
  {
    if es == [] then [] else [Flat(es[0].text, d)] + Flatten(es[0].children, d + 1) + Flatten(es[1..], d)
  }

  lemma {:induction false} FlattenAppend(a: seq<Element>, b: seq<Element>, d: nat)
    ensures Flatten(a + b, d) == Flatten(a, d) + Flatten(b, d)
  {
    if a == [] {
      assert a + b == b;
    } else {
      assert (a + b)[0] == a[0] && (a + b)[1..] == a[1..] + b;
      FlattenAppend(a[1..], b, d);
    }
  }

  lemma FlattenCons(e: Element, r: seq<Element>, d: nat)
    ensures Flatten([e] + r, d) == [Flat(e.text, d)] + Flatten(e.children, d + 1) + Flatten(r, d)
  {
    assert ([e] + r)[0] == e && ([e] + r)[1..] == r;
  }

  /** The label and depth of each visited record. */
  function LabelsOf(vs: seq<Visit>): (fs: seq<Flat>)
    ensures |fs| == |vs|
  {
    if vs == [] then [] else [Flat(Label(vs[0].node), vs[0].depth)] + LabelsOf(vs[1..])
  }

  lemma {:induction false} LabelsOfAppend(a: seq<Visit>, b: seq<Visit>)
    ensures LabelsOf(a + b) == LabelsOf(a) + LabelsOf(b)
  {
    if a == [] {
      assert a + b == b;
    } else {
      assert (a + b)[0] == a[0] && (a + b)[1..] == a[1..] + b;
      LabelsOfAppend(a[1..], b);
    }
  }

  /** The outline tree holds one outline per record reached through `items` and
      `checklist`: read in document order, the outlines are the records' labels in
      pre-order (`items` before `checklist`), each nested as deep as its record. */
  lemma {:induction false} OutlinesFollowTour(ts: seq<Node>, d: nat)
    ensures Flatten(OutlinesList(ts), d) == LabelsOf(TourList(ts, Both, d))
    decreases ts
  {
    if ts != [] {
      var n := ts[0];
      var oi := if n.items.Some? then Outlines(n.items.value) else [];
      var oc := if n.checklist.Some? then Outlines(n.checklist.value) else [];
      var a := if n.items.Some? then Tour(n.items.value, Both, d + 1) else [];
      var b := if n.checklist.Some? then Tour(n.checklist.value, Both, d + 1) else [];
      var rest := TourList(ts[1..], Both, d);
      assert Flatten(oi, d + 1) == LabelsOf(a) by {
        match n.items {
          case Some(Nodes(cs)) => OutlinesFollowTour(cs, d + 1);
          case _ =>
        }
      }
      assert Flatten(oc, d + 1) == LabelsOf(b) by {
        match n.checklist {
          case Some(Nodes(cs)) => OutlinesFollowTour(cs, d + 1);
          case _ =>
        }
      }
      OutlinesFollowTour(ts[1..], d);
      var e := OutlineOf(n);
      var os := OutlinesList(ts);
      assert os == [e] + OutlinesList(ts[1..]);
      assert e.text == Label(n) && e.children == oi + oc;
      FlattenAppend(oi, oc, d + 1);
      assert Flatten(e.children, d + 1) == LabelsOf(a) + LabelsOf(b);
      FlattenCons(e, OutlinesList(ts[1..]), d);
      assert TourList(ts, Both, d) == [Visit(n, d)] + a + b + rest;
      LabelsOfAppend([Visit(n, d)] + a + b, rest);
      LabelsOfAppend([Visit(n, d)] + a, b);
      LabelsOfAppend([Visit(n, d)], a);
      assert LabelsOf([Visit(n, d)]) == [Flat(Label(n), d)];
      Regroup([Flat(e.text, d)], LabelsOf(a), LabelsOf(b), LabelsOf(rest));
      calc {
        LabelsOf(TourList(ts, Both, d));
        LabelsOf([Visit(n, d)]) + LabelsOf(a) + LabelsOf(b) + LabelsOf(rest);
        [Flat(e.text, d)] + (LabelsOf(a) + LabelsOf(b)) + LabelsOf(rest);
        [Flat(e.text, d)] + Flatten(e.children, d + 1) + Flatten(OutlinesList(ts[1..]), d);
        Flatten(os, d);
      }
    }
  }

  /** `opml_convert(tasks, top)`: appends one outline per record to the parent's
      children and removes both structural keys from every record it visits. */
  method OpmlConvert(ks: Kids, siblings: seq<Element>) returns (siblings': seq<Element>, done: Kids)
    requires ks.Nodes? ==> AllNodes(ks.list, Both, HasTitle)
    ensures siblings' == siblings + Outlines(ks)
    ensures ks.Consumed? ==> done == ks
    ensures ks.Nodes? ==> done.Nodes? && |done.list| == |ks.list|
    ensures ks.Nodes? ==> forall j :: 0 <= j < |ks.list| ==> done.list[j] == Node(ks.list[j].fields, None, None)
    decreases ks, 1
  {
    if ks.Consumed? {
      return siblings, ks;
    }
    var ts := ks.list;
    siblings' := siblings;
    var i := 0;
    while i < |ts|
      invariant 0 <= i <= |ts| == |ks.list|
      invariant forall j :: 0 <= j < i ==> ts[j] == Node(ks.list[j].fields, None, None)
      invariant siblings' + OutlinesList(ks.list[i..]) == siblings + OutlinesList(ks.list)
    {
      var task := ks.list[i];
      var area, popped := OpmlTask(task);
      assert ks.list[i..][0] == task && ks.list[i..][1..] == ks.list[i + 1..];
      assert OutlinesList(ks.list[i..]) == [area] + OutlinesList(ks.list[i + 1..]);
      Assoc(siblings', [area], OutlinesList(ks.list[i + 1..]));
      siblings' := siblings' + [area];
      ts := ts[i := popped];
      i := i + 1;
    }
    done := Nodes(ts);
  }

  /** One pass of opml_convert's loop: the record's outline, filled from its
      `items` and then its `checklist`, and the record without both keys. */
  method OpmlTask(task: Node) returns (area: Element, popped: Node)
    requires AllBelow(task, Both, HasTitle)
    ensures area == OutlineOf(task)
    ensures popped == Node(task.fields, None, None)
    decreases task, 0
  {
    var text := Label(task);
    ghost var oi := if task.items.Some? then Outlines(task.items.value) else [];
    ghost var oc := if task.checklist.Some? then Outlines(task.checklist.value) else [];
    var inner: seq<Element> := [];
    if task.items.Some? {
      var sub;
      inner, sub := OpmlConvert(task.items.value, inner);
    }
    assert inner == oi;
    popped := task.(items := None);
    if task.checklist.Some? {
      var sub;
      inner, sub := OpmlConvert(task.checklist.value, inner);
    }
    assert inner == oi + oc;
    popped := popped.(checklist := None);
    area := Element(text, inner);
  }

  /** `opml_dumps(tasks)`: the document, and the top-level list afterwards. */
  method OpmlDumps(ts: seq<Node>) returns (doc: Opml, done: seq<Node>)
    requires AllNodes(ts, Both, HasTitle)
    ensures doc.title == DocumentTitle
    ensures Flatten(doc.body, 0) == LabelsOf(TourList(ts, Both, 0))
    ensures |done| == |ts| && forall j :: 0 <= j < |ts| ==> done[j] == Node(ts[j].fields, None, None)
  {
    var body, k := OpmlConvert(Nodes(ts), []);
    assert body == OutlinesList(ts);
    doc := Opml(DocumentTitle, body);
    done := k.list;
    OutlinesFollowTour(ts, 0);
  }

  /** One outline per record reached through `items` and `checklist`. */
  lemma OutlineCount(ts: seq<Node>)
    ensures |Flatten(OutlinesList(ts), 0)| == |TourList(ts, Both, 0)|
  {
    OutlinesFollowTour(ts, 0);
  }

  /** What txt_dumps needs of a record: a title, and text values for the start
      date and the context when they are truthy (`" | ".join` fails on others). */
  predicate TxtReady(n: Node)
  {
    && HasTitle(n)
    && (Truthy(Get(n, "start_date")) ==> Get(n, "start_date").Str?)
    && (Context(n).Some? ==> Context(n).value.Str?)
  }

  /** `" | ".join(filter(None, [start_date, context]))`. */
  function Details(n: Node): string
  {
    var scheduled := Get(n, "start_date");
    var context := Context(n);
    Join((if Truthy(scheduled) then [Show(scheduled)] else [])
         + (if context.Some? then [Show(context.value)] else []), " | ")
  }

  /** The details are the truthy start date and the context, in that order,
      separated by `" | "`; whichever is missing is left out with its separator. */
  lemma DetailsFormat(n: Node)
    ensures !Truthy(Get(n, "start_date")) && Context(n).None? ==> Details(n) == ""
    ensures Truthy(Get(n, "start_date")) && Context(n).None? ==> Details(n) == Show(Get(n, "start_date"))
    ensures !Truthy(Get(n, "start_date")) && Context(n).Some? ==> Details(n) == Show(Context(n).value)
    ensures Truthy(Get(n, "start_date")) && Context(n).Some? ==>
              Details(n) == Show(Get(n, "start_date")) + " | " + Show(Context(n).value)
  {
    var context := Context(n);
    JoinSmall(Show(Get(n, "start_date")), if context.Some? then Show(context.value) else "", " | ");
  }

  /** One line of the text listing. */
  function TxtLine(n: Node, indentation: string): string
  {
    indentation + "- " + Show(Get(n, "title")) + " (" + Details(n) + ")\n"
  }

  /** A text line is the indentation, a dash, the title, then the details in
      parentheses, and one newline at its end. */
  lemma TxtLineFormat(n: Node, indentation: string)
    ensures var line := TxtLine(n, indentation);
            var title := Show(Get(n, "title"));
            && |line| == |indentation| + |title| + |Details(n)| + 6
            && line[..|indentation|] == indentation
            && line[|indentation|..|indentation| + 2] == "- "
            && line[|indentation| + 2..|indentation| + 2 + |title|] == title
            && line[|indentation| + 2 + |title|..|line| - 2] == " (" + Details(n)
            && line[|line| - 2..] == ")\n"
  {
    LineParts(indentation, Show(Get(n, "title")), Details(n));
  }

  /** Where the pieces of `f"{indentation}- {title} ({details})\n"` sit. */
  lemma LineParts(indentation: string, title: string, details: string)
    ensures var line := indentation + "- " + title + " (" + details + ")\n";
            && |line| == |indentation| + |title| + |details| + 6
            && line[..|indentation|] == indentation
            && line[|indentation|..|indentation| + 2] == "- "
            && line[|indentation| + 2..|indentation| + 2 + |title|] == title
            && line[|indentation| + 2 + |title|..|line| - 2] == " (" + details
            && line[|line| - 2..] == ")\n"
  {
    var line := indentation + "- " + title + " (" + details + ")\n";
    assert line == indentation + "- " + title + (" (" + details) + ")\n";
    FiveParts(indentation, "- ", title, " (" + details, ")\n");
  }

  /** Where each of five concatenated pieces sits. */
  lemma FiveParts(a: string, b: string, c: string, d: string, e: string)
    ensures var s := a + b + c + d + e;
            && |s| == |a| + |b| + |c| + |d| + |e|
            && s[..|a|] == a
            && s[|a|..|a| + |b|] == b
            && s[|a| + |b|..|a| + |b| + |c|] == c
            && s[|a| + |b| + |c|..|s| - |e|] == d
            && s[|s| - |e|..] == e
  {
    var s := a + b + c + d + e;
    assert s == (((a + b) + c) + d) + e;
  }

  /** What `txt_dumps(tasks, indentation)` appends to its result. */
  function Txt(ks: Kids, indentation: string): string
  {
    match ks
    case Consumed => ""
    case Nodes(ts) => TxtList(ts, indentation)
  }

  function TxtList(ts: seq<Node>, indentation: string): string
  {
    if ts == [] then "" else TxtNode(ts[0], indentation) + TxtList(ts[1..], indentation)
  }

  function TxtNode(n: Node, indentation: string): string
  {
    TxtLine(n, indentation)
    + (if n.items.Some? then Txt(n.items.value, indentation + "  ") else "")
    + (if n.checklist.Some? then Txt(n.checklist.value, indentation + "  ") else "")
  }

  /** The line of each visited record, indented two spaces per level. */
  function TxtLines(vs: seq<Visit>): (ls: seq<string>)
    ensures |ls| == |vs|
  {
    if vs == [] then [] else [TxtLine(vs[0].node, Spaces(2 * vs[0].depth))] + TxtLines(vs[1..])
  }

  lemma {:induction false} TxtLinesAppend(a: seq<Visit>, b: seq<Visit>)
    ensures TxtLines(a + b) == TxtLines(a) + TxtLines(b)
  {
    if a == [] {
      assert a + b == b;
    } else {
      assert (a + b)[0] == a[0] && (a + b)[1..] == a[1..] + b;
      TxtLinesAppend(a[1..], b);
    }
  }

  lemma SpacesStep(d: nat)
    ensures Spaces(2 * d) + "  " == Spaces(2 * (d + 1))
  {
  }

  /** The text listing is one line per record reached through `items` and
      `checklist`, in pre-order, each indented two spaces per level. */
  lemma {:induction false} TxtFollowsTour(ts: seq<Node>, d: nat)
    ensures TxtList(ts, Spaces(2 * d)) == Concat(TxtLines(TourList(ts, Both, d)))
    decreases ts
  {
    if ts != [] {
      var n := ts[0];
      var ind := Spaces(2 * d);
      SpacesStep(d);
      var ti := if n.items.Some? then Txt(n.items.value, ind + "  ") else "";
      var tc := if n.checklist.Some? then Txt(n.checklist.value, ind + "  ") else "";
      var a := if n.items.Some? then Tour(n.items.value, Both, d + 1) else [];
      var b := if n.checklist.Some? then Tour(n.checklist.value, Both, d + 1) else [];
      var rest := TourList(ts[1..], Both, d);
      assert ti == Concat(TxtLines(a)) by {
        match n.items {
          case Some(Nodes(cs)) => TxtFollowsTour(cs, d + 1);
          case _ =>
        }
      }
      assert tc == Concat(TxtLines(b)) by {
        match n.checklist {
          case Some(Nodes(cs)) => TxtFollowsTour(cs, d + 1);
          case _ =>
        }
      }
      TxtFollowsTour(ts[1..], d);
      assert TourList(ts, Both, d) == [Visit(n, d)] + a + b + rest;
      TxtLinesAppend([Visit(n, d)] + a + b, rest);
      TxtLinesAppend([Visit(n, d)] + a, b);
      TxtLinesAppend([Visit(n, d)], a);
      ConcatAppend([TxtLine(n, ind)] + TxtLines(a) + TxtLines(b), TxtLines(rest));
      ConcatAppend([TxtLine(n, ind)] + TxtLines(a), TxtLines(b));
      ConcatAppend([TxtLine(n, ind)], TxtLines(a));
      assert Concat([TxtLine(n, ind)]) == TxtLine(n, ind);
    }
  }

  /** The tree txt_dumps leaves behind: `items` popped from every record it visits;
      `checklist` stays, and the records under it are visited too. */
  function TxtPopped(n: Node): Node
  {
    Node(n.fields, None, if n.checklist.Some? then Some(TxtPoppedKids(n.checklist.value)) else None)
  }

  function TxtPoppedKids(ks: Kids): Kids
  {
    match ks
    case Consumed => Consumed
    case Nodes(ts) => Nodes(seq(|ts|, i requires 0 <= i < |ts| => TxtPopped(ts[i])))
  }

  /** After txt_dumps no record reachable from the list has `items`, every record
      keeps its plain fields, and a second listing over the `items` walk only
      reaches the top-level records. */
  lemma {:induction false} TxtPoppedFacts(ts: seq<Node>)
    ensures forall j :: 0 <= j < |ts| ==> TxtPopped(ts[j]).fields == ts[j].fields
    ensures forall j :: 0 <= j < |ts| ==> TxtPopped(ts[j]).items.None?
    ensures forall j :: 0 <= j < |ts| ==> TxtPopped(ts[j]).checklist.Some? == ts[j].checklist.Some?
    ensures NodesOf(TourList(seq(|ts|, i requires 0 <= i < |ts| => TxtPopped(ts[i])), ItemsOnly, 0))
            == seq(|ts|, i requires 0 <= i < |ts| => TxtPopped(ts[i]))
  {
    var ps := seq(|ts|, i requires 0 <= i < |ts| => TxtPopped(ts[i]));
    TopOnly(ps);
  }

  lemma {:induction false} TopOnly(ps: seq<Node>)
    requires forall j :: 0 <= j < |ps| ==> ps[j].items.None?
    ensures NodesOf(TourList(ps, ItemsOnly, 0)) == ps
  {
    if ps != [] {
      TopOnly(ps[1..]);
      assert TourNode(ps[0], ItemsOnly, 0) == [Visit(ps[0], 0)];
      assert TourList(ps, ItemsOnly, 0) == [Visit(ps[0], 0)] + TourList(ps[1..], ItemsOnly, 0);
      assert ps == [ps[0]] + ps[1..];
    }
  }

  /** A record's text line depends on its plain fields only. */
  lemma TxtLineSameFields(n: Node, m: Node, indentation: string)
    requires n.fields == m.fields
    ensures TxtLine(n, indentation) == TxtLine(m, indentation)
  {
    FirstTruthySameFields(n, m, ContextKeys);
    assert Get(n, "title") == Get(m, "title") && Get(n, "start_date") == Get(m, "start_date");
    assert Details(n) == Details(m);
  }

  /** Childless records print the same after txt_dumps has popped them. */
  lemma {:induction false} TxtLeavesPopped(cs: seq<Node>, ps: seq<Node>, indentation: string)
    requires |ps| == |cs| && forall j :: 0 <= j < |cs| ==> ps[j] == TxtPopped(cs[j])
    requires forall j :: 0 <= j < |cs| ==> cs[j].items.None? && cs[j].checklist.None?
    ensures TxtList(ps, indentation) == TxtList(cs, indentation)
  {
    if cs != [] {
      assert ps[0] == cs[0];
      TxtLeavesPopped(cs[1..], ps[1..], indentation);
    }
  }

  /** Popping a record whose checklist is a list pops each checklist child. */
  lemma TxtPoppedChecklist(n: Node)
    requires n.checklist.Some? && n.checklist.value.Nodes?
    ensures TxtPopped(n).fields == n.fields && TxtPopped(n).items.None?
    ensures TxtPopped(n).checklist.Some? && TxtPopped(n).checklist.value.Nodes?
    ensures |TxtPopped(n).checklist.value.list| == |n.checklist.value.list|
    ensures forall j :: 0 <= j < |n.checklist.value.list| ==>
              TxtPopped(n).checklist.value.list[j] == TxtPopped(n.checklist.value.list[j])
  {
  }

  /** A record with no `items` and a checklist list prints its line, then that list. */
  lemma TxtNodeChecklistOnly(p: Node, indentation: string)
    requires p.items.None? && p.checklist.Some? && p.checklist.value.Nodes?
    ensures TxtNode(p, indentation)
            == TxtLine(p, indentation) + TxtList(p.checklist.value.list, indentation + "  ")
  {
    assert TxtNode(p, indentation)
           == TxtLine(p, indentation) + "" + Txt(p.checklist.value, indentation + "  ");
  }

  /** A second text pass over a record that txt_dumps has already visited prints
      its line and its leaf checklist lines again: only `items` was popped. */
  lemma TxtSecondPass(n: Node, indentation: string)
    requires n.checklist.Some? && n.checklist.value.Nodes?
    requires forall j :: 0 <= j < |n.checklist.value.list| ==>
               n.checklist.value.list[j].items.None? && n.checklist.value.list[j].checklist.None?
    ensures TxtNode(TxtPopped(n), indentation)
            == TxtLine(n, indentation) + TxtList(n.checklist.value.list, indentation + "  ")
  {
    var p := TxtPopped(n);
    TxtPoppedChecklist(n);
    var ps := p.checklist.value.list;
    TxtNodeChecklistOnly(p, indentation);
    TxtLineSameFields(p, n, indentation);
    TxtLeavesPopped(n.checklist.value.list, ps, indentation + "  ");
  }

  /** `txt_dumps(tasks, indentation, result)`: the text and the list afterwards. */
  method TxtDumps(ks: Kids, indentation: string, result: string) returns (out: string, done: Kids)
    requires ks.Nodes? ==> AllNodes(ks.list, Both, TxtReady)
    ensures out == result + Txt(ks, indentation)
    ensures ks.Consumed? ==> done == ks
    ensures ks.Nodes? ==> done.Nodes? && |done.list| == |ks.list|
    ensures ks.Nodes? ==> forall j :: 0 <= j < |ks.list| ==> done.list[j] == TxtPopped(ks.list[j])
    decreases ks, 1
  {
    if ks.Consumed? {
      return result, ks;
    }
    var ts := ks.list;
    out := result;
    var i := 0;
    while i < |ts|
      invariant 0 <= i <= |ts| == |ks.list|
      invariant forall j :: 0 <= j < i ==> ts[j] == TxtPopped(ks.list[j])
      invariant forall j :: i <= j < |ts| ==> ts[j] == ks.list[j]
      invariant out + TxtList(ks.list[i..], indentation) == result + TxtList(ks.list, indentation)
    {
      var task := ks.list[i];
      ghost var before := out;
      var popped;
      out, popped := TxtTask(task, indentation, out);
      assert ks.list[i..][0] == task && ks.list[i..][1..] == ks.list[i + 1..];
      assert TxtList(ks.list[i..], indentation) == TxtNode(task, indentation) + TxtList(ks.list[i + 1..], indentation);
      Assoc(before, TxtNode(task, indentation), TxtList(ks.list[i + 1..], indentation));
      ts := ts[i := popped];
      i := i + 1;
    }
    done := Nodes(ts);
  }

  /** One pass of txt_dumps' loop: the record's line, its `items` (then popped),
      its `checklist` (kept). */
  method TxtTask(task: Node, indentation: string, result: string) returns (out: string, popped: Node)
    requires AllBelow(task, Both, TxtReady)
    ensures out == result + TxtNode(task, indentation)
    ensures popped == TxtPopped(task)
    decreases task, 0
  {
    var line := TxtLine(task, indentation);
    ghost var ti := if task.items.Some? then Txt(task.items.value, indentation + "  ") else "";
    ghost var tc := if task.checklist.Some? then Txt(task.checklist.value, indentation + "  ") else "";
    out := result + line;
    if task.items.Some? {
      var sub;
      out, sub := TxtDumps(task.items.value, indentation + "  ", out);
    }
    assert out == result + line + ti;
    popped := task.(items := None);
    if task.checklist.Some? {
      var sub;
      out, sub := TxtDumps(task.checklist.value, indentation + "  ", out);
      assert sub == TxtPoppedKids(task.checklist.value);
      popped := popped.(checklist := Some(sub));
    }
    assert out == result + line + ti + tc;
    Regroup(result, line, ti, tc);
  }

  /** Its context is its start, and it has no start date. */
  lemma WriteReportDetails()
    ensures Show(Get(WriteReport, "title")) == "Write report"
    ensures Details(WriteReport) == "Today"
  {
    var n := WriteReport;
    assert Get(n, "title") == Str("Write report");
    assert Get(n, "start") == Str("Today");
    assert Get(n, "start_date") == Nil;
    assert Get(n, "project_title") == Nil && Get(n, "area_title") == Nil && Get(n, "heading_title") == Nil;
    assert Context(n) == Some(Str("Today"));
    DetailsFormat(n);
  }

  /** Its listing is the single line "- Write report (Today)". */
  lemma WriteReportExample()
    ensures TxtList([WriteReport], "") == "- " + "Write report" + " (" + "Today" + ")\n"
  {
    var n := WriteReport;
    WriteReportDetails();
    assert TxtLine(n, "") == "- " + "Write report" + " (" + "Today" + ")\n";
    assert TxtNode(n, "") == TxtLine(n, "");
    assert TxtList([n], "") == TxtNode(n, "") + TxtList([], "");
  }
}
