/**
 The mermaid-js Gantt renderer (`gantt_dumps`, `gantt_add_task`).

 The chart is built in a dict from section name (a record's context) to the
 list of entry lines filed under it, in insertion order; here that dict is an
 association list of sections. `gantt_add_task` files one record,
 `gantt_dumps` files every record reached through `items` in pre-order and
 then writes each section header followed by its entry lines.
 */
module Gantt {
  import opened Records
  import opened Strings

  /** The fields of one chart entry, as gantt_add_task derives them. */
  datatype Entry = Entry(context: Scalar, title: string, start: Scalar, deadline: Scalar, visual: string)

  /** The deadline that marks an entry as a one-hour milestone. */
  const Hour: Scalar := Str("1h")

  /** `task["title"].replace(":", " ")` does not fail. */
  predicate GanttReady(n: Node)
  {
    Get(n, "title").Str?
  }

  /** The entry derived from a record. */
  function MakeEntry(n: Node): (e: Entry)
    requires GanttReady(n)
    ensures e.title == ReplaceColons(Get(n, "title").s)
    ensures ':' !in e.title && |e.title| == |Get(n, "title").s|
    ensures e.visual == ":milestone" <==> e.deadline == Hour
    ensures e.visual == ":milestone" || e.visual == ":active"
    ensures Context(n).None? ==> e.context == Str("")
    ensures Context(n).Some? ==> e.context == Context(n).value
    ensures !Truthy(Get(n, "deadline")) ==> e.deadline == Hour
    ensures e.deadline != Hour ==> e.deadline == Get(n, "deadline") && e.start == Get(n, "start_date") && e.start != e.deadline
    ensures Truthy(Get(n, "start_date")) ==> e.start == Get(n, "start_date")
    ensures !Truthy(Get(n, "start_date")) && Truthy(Get(n, "deadline")) && Get(n, "deadline") != Hour ==>
              e.start == Get(n, "deadline") && e.deadline == Hour
    ensures !Truthy(Get(n, "start_date")) && (!Truthy(Get(n, "deadline")) || Get(n, "deadline") == Hour) ==>
              e.start == Get(n, "start_date")
    ensures Truthy(Get(n, "start_date")) && Truthy(Get(n, "deadline")) && Get(n, "deadline") != Get(n, "start_date") ==>
              e.deadline == Get(n, "deadline")
  {
    var context := match Context(n) case None => Str("") case Some(v) => v;
    var title := ReplaceColons(Get(n, "title").s);
    var start0 := Get(n, "start_date");
    var deadline0 := if Truthy(Get(n, "deadline")) then Get(n, "deadline") else Hour;
    var start := if !Truthy(start0) && deadline0 != Hour then deadline0 else start0;
    var deadline := if start == deadline0 then Hour else deadline0;
    Entry(context, title, start, deadline, if deadline == Hour then ":milestone" else ":active")
  }

  /** An entry is filed when it has a truthy start and the record is not finished. */
  predicate Included(n: Node)
    requires GanttReady(n)
  {
    Truthy(MakeEntry(n).start) && !Truthy(Get(n, "stop_date"))
  }

  /** The line filed for an entry. */
  function EntryLine(e: Entry): (line: string)
    ensures |line| > 4 && line[..4] == "    " && line[|line| - 1] == '\n'
  {
    "    " + e.title + " " + e.visual + ", " + Show(e.start) + ", " + Show(e.deadline) + "\n"
  }

  /** One key of the chart dict and the lines filed under it. */
  datatype Section = Section(group: Scalar, entries: seq<string>)

  /** The chart dict, in insertion order. */
  type Board = seq<Section>

  /** The position of group g in the chart, or -1 when g is not a key. */
  function IndexOf(b: Board, g: Scalar): (k: int)
    ensures -1 <= k < |b|
    ensures k >= 0 ==> b[k].group == g
    ensures k < 0 <==> forall i :: 0 <= i < |b| ==> b[i].group != g
  {
    if b == [] then -1
    else if b[0].group == g then 0
    else var k := IndexOf(b[1..], g); if k < 0 then -1 else k + 1
  }

  /** `array.get(g, [])`. */
  function SectionOf(b: Board, g: Scalar): seq<string>
  {
    var k := IndexOf(b, g);
    if k < 0 then [] else b[k].entries
  }

  /** The groups in insertion order. */
  function Groups(b: Board): (gs: seq<Scalar>)
    ensures |gs| == |b| && forall i :: 0 <= i < |b| ==> gs[i] == b[i].group
  {
    seq(|b|, i requires 0 <= i < |b| => b[i].group)
  }

  /** What the chart dict always satisfies: each key once, every section
      holds at least one line, and no line is empty. */
  predicate Valid(b: Board)
  {
    && (forall i, j :: 0 <= i < j < |b| ==> b[i].group != b[j].group)
    && (forall i :: 0 <= i < |b| ==> |b[i].entries| > 0)
    && (forall i, k :: 0 <= i < |b| && 0 <= k < |b[i].entries| ==> b[i].entries[k] != "")
  }

  /** The lines of a section whose lower-cased text contains t, in order. */
  function Matching(lines: seq<string>, t: string): seq<string>
  {
    if lines == [] then []
    else (if Contains(Lower(lines[0]), t) then [lines[0]] else []) + Matching(lines[1..], t)
  }

  /** Some line of section g already mentions t. */
  predicate Duplicate(b: Board, g: Scalar, t: string)
  {
    exists k :: 0 <= k < |SectionOf(b, g)| && Contains(Lower(SectionOf(b, g)[k]), t)
  }

  /** The filing step of gantt_add_task: make sure group g exists (new groups go
      last, with an empty list), then append line unless a line of the group
      mentions t. */
  function File(b: Board, g: Scalar, t: string, line: string): Board
  {
    var k := IndexOf(b, g);
    var b1 := if k < 0 then b + [Section(g, [])] else b;
    var k1 := if k < 0 then |b| else k;
    if Concat(Matching(b1[k1].entries, t)) == "" then b1[k1 := Section(g, b1[k1].entries + [line])]
    else b1
  }

  /** The chart after gantt_add_task files one record. */
  function AddTask(b: Board, n: Node): Board
    requires GanttReady(n)
  {
    var e := MakeEntry(n);
    if Included(n) then File(b, e.context, Lower(e.title), EntryLine(e)) else b
  }

  /** The joined matching lines are empty exactly when every matching line is empty. */
  lemma {:induction false} MatchingEmpty(lines: seq<string>, t: string)
    ensures Concat(Matching(lines, t)) == "" <==>
            forall k :: 0 <= k < |lines| && Contains(Lower(lines[k]), t) ==> lines[k] == ""
  {
    if lines != [] {
      MatchingEmpty(lines[1..], t);
      var head := if Contains(Lower(lines[0]), t) then [lines[0]] else [];
      ConcatAppend(head, Matching(lines[1..], t));
      if head != [] {
        assert Concat(head) == lines[0];
      }
      forall k | 0 < k < |lines| ensures lines[k] == lines[1..][k - 1] { }
    }
  }

  /** On a valid chart, filing appends the line to group g exactly when no line
      of g mentions t, and otherwise changes nothing. */
  lemma FileSection(b: Board, g: Scalar, t: string, line: string)
    requires Valid(b)
    ensures !Duplicate(b, g, t) ==> SectionOf(File(b, g, t, line), g) == SectionOf(b, g) + [line]
    ensures Duplicate(b, g, t) ==> File(b, g, t, line) == b
  {
    var k := IndexOf(b, g);
    var b1 := if k < 0 then b + [Section(g, [])] else b;
    var k1 := if k < 0 then |b| else k;
    MatchingEmpty(b1[k1].entries, t);
    assert b1[k1].entries == SectionOf(b, g);
    if Concat(Matching(b1[k1].entries, t)) == "" {
      assert !Duplicate(b, g, t);
      var j := FileShape(b, g, t, line);
      assert j == k1;
      var r := File(b, g, t, line);
      var kr := IndexOf(r, g);
      assert kr == k1;
    } else {
      assert Duplicate(b, g, t);
    }
  }

  /** Where filing puts group g: at its old position, or at the end when g is new;
      every other position keeps its section. */
  lemma FileShape(b: Board, g: Scalar, t: string, line: string) returns (k1: nat)
    ensures k1 <= |b|
    ensures k1 < |b| ==> b[k1].group == g && |File(b, g, t, line)| == |b|
    ensures k1 == |b| ==> (forall i :: 0 <= i < |b| ==> b[i].group != g) && |File(b, g, t, line)| == |b| + 1
    ensures File(b, g, t, line)[k1].group == g
    ensures File(b, g, t, line)[k1].entries == SectionOf(b, g) || File(b, g, t, line)[k1].entries == SectionOf(b, g) + [line]
    ensures forall i :: 0 <= i < |b| && i != k1 ==> File(b, g, t, line)[i] == b[i]
  {
    var k := IndexOf(b, g);
    k1 := if k < 0 then |b| else k;
  }

  /** Filing keeps every other group's lines. */
  lemma FileOthers(b: Board, g: Scalar, t: string, line: string)
    requires Valid(b)
    ensures forall h :: h != g ==> SectionOf(File(b, g, t, line), h) == SectionOf(b, h)
  {
    var k1 := FileShape(b, g, t, line);
    var r := File(b, g, t, line);
    forall h | h != g ensures SectionOf(r, h) == SectionOf(b, h) {
      var kb := IndexOf(b, h);
      var kr := IndexOf(r, h);
      if kr >= 0 {
        assert kr != k1 && r[kr] == b[kr];
        assert kb >= 0 && b[kb].group == b[kr].group;
        assert kb == kr;
      }
    }
  }

  /** Filing keeps the groups in order; a new group goes last. */
  lemma FileGroups(b: Board, g: Scalar, t: string, line: string)
    ensures Groups(File(b, g, t, line)) == Groups(b) || Groups(File(b, g, t, line)) == Groups(b) + [g]
  {
    var k1 := FileShape(b, g, t, line);
    var r := File(b, g, t, line);
    if k1 == |b| {
      assert Groups(r) == Groups(b) + [g];
    } else {
      assert Groups(r) == Groups(b);
    }
  }

  /** Filing a non-empty line keeps the chart valid. */
  lemma FileValid(b: Board, g: Scalar, t: string, line: string)
    requires Valid(b) && line != ""
    ensures Valid(File(b, g, t, line))
    ensures IndexOf(File(b, g, t, line), g) >= 0
  {
    var k1 := FileShape(b, g, t, line);
    var r := File(b, g, t, line);
    assert r[k1].group == g;
  }

  /** An entry with a truthy start whose record is not finished is filed
      under its context exactly when no line of that section mentions its
      title (lower-cased, as a substring); otherwise the chart is unchanged. A
      new context is added at the end, every other section is unchanged, and
      the chart stays valid. */
  lemma AddTaskEffect(b: Board, n: Node)
    requires Valid(b) && GanttReady(n)
    ensures Valid(AddTask(b, n))
    ensures Included(n) && !Duplicate(b, MakeEntry(n).context, Lower(MakeEntry(n).title)) ==>
              SectionOf(AddTask(b, n), MakeEntry(n).context) == SectionOf(b, MakeEntry(n).context) + [EntryLine(MakeEntry(n))]
    ensures !Included(n) || Duplicate(b, MakeEntry(n).context, Lower(MakeEntry(n).title)) ==> AddTask(b, n) == b
    ensures forall g :: g != MakeEntry(n).context ==> SectionOf(AddTask(b, n), g) == SectionOf(b, g)
    ensures Groups(AddTask(b, n)) == Groups(b) || Groups(AddTask(b, n)) == Groups(b) + [MakeEntry(n).context]
  {
    var e := MakeEntry(n);
    FileSection(b, e.context, Lower(e.title), EntryLine(e));
    FileOthers(b, e.context, Lower(e.title), EntryLine(e));
    FileGroups(b, e.context, Lower(e.title), EntryLine(e));
    FileValid(b, e.context, Lower(e.title), EntryLine(e));
  }

  /** `gantt_add_task` applied to each visited record in turn. */
  function AddAll(b: Board, vs: seq<Visit>): Board
    requires forall v :: v in vs ==> GanttReady(v.node)
    decreases vs
  {
    if vs == [] then b else AddAll(AddTask(b, vs[0].node), vs[1..])
  }

  lemma {:induction false} AddAllAppend(b: Board, xs: seq<Visit>, ys: seq<Visit>)
    requires forall v :: v in xs + ys ==> GanttReady(v.node)
    ensures AddAll(b, xs + ys) == AddAll(AddAll(b, xs), ys)
    decreases xs
  {
    if xs == [] {
      assert xs + ys == ys;
    } else {
      assert (xs + ys)[0] == xs[0] && (xs + ys)[1..] == xs[1..] + ys;
      AddAllAppend(AddTask(b, xs[0].node), xs[1..], ys);
    }
  }

  /** Filing any records keeps the chart valid and only adds groups at the end. */
  lemma {:induction false} AddAllValid(b: Board, vs: seq<Visit>)
    requires Valid(b)
    requires forall v :: v in vs ==> GanttReady(v.node)
    ensures Valid(AddAll(b, vs))
    ensures Groups(b) <= Groups(AddAll(b, vs))
    decreases vs
  {
    if vs != [] {
      AddTaskEffect(b, vs[0].node);
      AddAllValid(AddTask(b, vs[0].node), vs[1..]);
    }
  }

  /** `gantt_add_task(task, array)`. */
  method GanttAddTask(task: Node, board: Board) returns (board': Board)
    requires GanttReady(task)
    ensures board' == AddTask(board, task)
  {
    var e := MakeEntry(task);
    if !(Truthy(e.start) && !Truthy(Get(task, "stop_date"))) {
      return board;
    }
    board' := board;
    var k := IndexOf(board', e.context);
    if k < 0 {
      board' := board' + [Section(e.context, [])];
      k := |board|;
    }
    var needle := Lower(e.title);
    var section := board'[k].entries;
    var joined := JoinMatching(section, needle);
    if joined == "" {
      board' := board'[k := Section(e.context, section + [EntryLine(e)])];
    }
  }

  /** `"".join(s for s in section if needle in s.lower())`. */
  method JoinMatching(section: seq<string>, needle: string) returns (joined: string)
    ensures joined == Concat(Matching(section, needle))
  {
    joined := "";
    var i := 0;
    while i < |section|
      invariant 0 <= i <= |section|
      invariant joined + Concat(Matching(section[i..], needle)) == Concat(Matching(section, needle))
    {
      assert section[i..][0] == section[i] && section[i..][1..] == section[i + 1..];
      var head := if Contains(Lower(section[i]), needle) then [section[i]] else [];
      ConcatAppend(head, Matching(section[i + 1..], needle));
      if Contains(Lower(section[i]), needle) {
        assert Concat(head) == section[i];
        Assoc(joined, section[i], Concat(Matching(section[i + 1..], needle)));
        joined := joined + section[i];
      }
      i := i + 1;
    }
    assert section[i..] == [];
  }

  /** `gantt_dumps(tasks, array)` without its text: files each record, then
      the records under its `items`, in pre-order. */
  method GanttCollect(ts: seq<Node>, board: Board, ghost d: nat) returns (board': Board)
    requires AllNodes(ts, ItemsOnly, GanttReady)
    ensures forall v :: v in TourList(ts, ItemsOnly, d) ==> GanttReady(v.node)
    ensures board' == AddAll(board, TourList(ts, ItemsOnly, d))
    decreases ts, 1
  {
    AllNodesTour(ts, ItemsOnly, GanttReady, d);
    board' := board;
    var i := 0;
    while i < |ts|
      invariant 0 <= i <= |ts|
      invariant forall v :: v in TourList(ts[i..], ItemsOnly, d) ==> GanttReady(v.node)
      invariant AddAll(board', TourList(ts[i..], ItemsOnly, d)) == AddAll(board, TourList(ts, ItemsOnly, d))
    {
      assert ts[i..][0] == ts[i] && ts[i..][1..] == ts[i + 1..];
      assert TourList(ts[i..], ItemsOnly, d) == TourNode(ts[i], ItemsOnly, d) + TourList(ts[i + 1..], ItemsOnly, d);
      AddAllAppend(board', TourNode(ts[i], ItemsOnly, d), TourList(ts[i + 1..], ItemsOnly, d));
      board' := GanttTask(ts[i], board', d);
      i := i + 1;
    }
    assert ts[i..] == [];
  }

  /** One pass of gantt_dumps' loop: the record itself, then its `items`. */
  method GanttTask(task: Node, board: Board, ghost d: nat) returns (board': Board)
    requires AllBelow(task, ItemsOnly, GanttReady)
    requires forall v :: v in TourNode(task, ItemsOnly, d) ==> GanttReady(v.node)
    ensures board' == AddAll(board, TourNode(task, ItemsOnly, d))
    decreases task, 0
  {
    board' := GanttAddTask(task, board);
    var below := if task.items.Some? then Tour(task.items.value, ItemsOnly, d + 1) else [];
    assert TourNode(task, ItemsOnly, d) == [Visit(task, d)] + below;
    AddAllAppend(board, [Visit(task, d)], below);
    if task.items.Some? {
      assert KidsAll(task.items, ItemsOnly, GanttReady);
      board' := GanttCollect(task.items.value.list, board', d + 1);
    }
  }

  /** The lines gantt_dumps writes: each section header, then its entries. */
  function Listing(b: Board): seq<string>
  {
    if b == [] then [] else [Header(b[0].group)] + b[0].entries + Listing(b[1..])
  }

  /** `f"  section {group}\n"`: two spaces, where an entry line has four. */
  function Header(g: Scalar): (h: string)
    ensures |h| > 10 && h[..10] == "  section " && h[|h| - 1] == '\n'
  {
    "  section " + Show(g) + "\n"
  }

  /** A section header is never mistaken for an entry line. */
  lemma HeaderNotEntry(g: Scalar, e: Entry)
    ensures Header(g) != EntryLine(e)
  {
    assert Header(g)[2] == "  section "[2] == 's';
    assert EntryLine(e)[2] == "    "[2] == ' ';
  }

  /** The listing holds one header per group, every filed line, and nothing else. */
  lemma ListingHolds(b: Board)
    ensures forall i :: 0 <= i < |b| ==> Header(b[i].group) in Listing(b)
    ensures forall i, k :: 0 <= i < |b| && 0 <= k < |b[i].entries| ==> b[i].entries[k] in Listing(b)
    ensures forall l :: l in Listing(b) ==> InChart(b, l)
  {
    ListingCovers(b);
    ListingWithin(b);
  }

  lemma {:induction false} ListingCovers(b: Board)
    ensures forall i :: 0 <= i < |b| ==> Header(b[i].group) in Listing(b)
    ensures forall i, k :: 0 <= i < |b| && 0 <= k < |b[i].entries| ==> b[i].entries[k] in Listing(b)
  {
    if b != [] {
      ListingCovers(b[1..]);
      assert Listing(b) == [Header(b[0].group)] + b[0].entries + Listing(b[1..]);
      forall i | 0 < i < |b| ensures b[i] == b[1..][i - 1] { }
    }
  }

  lemma {:induction false} ListingWithin(b: Board)
    ensures forall l :: l in Listing(b) ==> InChart(b, l)
  {
    if b != [] {
      ListingWithin(b[1..]);
      var head := [Header(b[0].group)] + b[0].entries;
      assert Listing(b) == head + Listing(b[1..]);
      forall l | l in Listing(b) ensures InChart(b, l) {
        if l in Listing(b[1..]) {
          InChartTail(b, l);
        } else if l != head[0] {
          var k :| 0 <= k < |head| && head[k] == l;
          assert l == b[0].entries[k - 1];
        }
      }
    }
  }

  /** l is a group header or a filed line of b. */
  predicate InChart(b: Board, l: string)
  {
    (exists i :: 0 <= i < |b| && l == Header(b[i].group)) ||
    (exists i, k :: 0 <= i < |b| && 0 <= k < |b[i].entries| && l == b[i].entries[k])
  }

  lemma InChartTail(b: Board, l: string)
    requires b != [] && InChart(b[1..], l)
    ensures InChart(b, l)
  {
    if exists i :: 0 <= i < |b[1..]| && l == Header(b[1..][i].group) {
      var i :| 0 <= i < |b[1..]| && l == Header(b[1..][i].group);
      assert l == Header(b[i + 1].group);
    } else {
      var i, k :| 0 <= i < |b[1..]| && 0 <= k < |b[1..][i].entries| && l == b[1..][i].entries[k];
      assert l == b[i + 1].entries[k];
    }
  }

  /** The `for group in array` loop of gantt_dumps. */
  method Render(board: Board) returns (result: string)
    ensures result == Concat(Listing(board))
  {
    result := "";
    var i := 0;
    while i < |board|
      invariant 0 <= i <= |board|
      invariant result + Concat(Listing(board[i..])) == Concat(Listing(board))
    {
      assert board[i..][0] == board[i] && board[i..][1..] == board[i + 1..];
      var header := Header(board[i].group);
      var entries := board[i].entries;
      ConcatAppend([header] + entries, Listing(board[i + 1..]));
      ConcatAppend([header], entries);
      assert Concat([header]) == header;
      ghost var before := result;
      result := AppendAll(result + header, entries);
      Regroup(before, header, Concat(entries), Concat(Listing(board[i + 1..])));
      i := i + 1;
    }
    assert board[i..] == [];
  }

  /** `for item in entries: result += item`. */
  method AppendAll(result: string, entries: seq<string>) returns (result': string)
    ensures result' == result + Concat(entries)
  {
    result' := result;
    var j := 0;
    while j < |entries|
      invariant 0 <= j <= |entries|
      invariant result' + Concat(entries[j..]) == result + Concat(entries)
    {
      assert entries[j..][0] == entries[j] && entries[j..][1..] == entries[j + 1..];
      Assoc(result', entries[j], Concat(entries[j + 1..]));
      result' := result' + entries[j];
      j := j + 1;
    }
    assert entries[j..] == [];
  }

  /** `gantt_dumps(tasks)`: the chart body for the records reached through `items`. */
  method GanttDumps(ts: seq<Node>) returns (result: string)
    requires AllNodes(ts, ItemsOnly, GanttReady)
    ensures forall v :: v in TourList(ts, ItemsOnly, 0) ==> GanttReady(v.node)
    ensures Valid(AddAll([], TourList(ts, ItemsOnly, 0)))
    ensures result == Concat(Listing(AddAll([], TourList(ts, ItemsOnly, 0))))
  {
    var board := GanttCollect(ts, [], 0);
    AddAllValid([], TourList(ts, ItemsOnly, 0));
    result := Render(board);
  }

  /** A to-do in the "Home" project, scheduled for 2024-01-01, with the given title. */
  function HomeTask(title: string): Node
  {
    Node([Field("title", Str(title)), Field("start_date", Str("2024-01-01")), Field("project_title", Str("Home"))], None, None)
  }

  /** Such a to-do becomes a milestone entry in the "Home" section. */
  lemma HomeTaskEntry(title: string)
    requires ':' !in title
    ensures GanttReady(HomeTask(title)) && Included(HomeTask(title))
    ensures MakeEntry(HomeTask(title)) == Entry(Str("Home"), title, Str("2024-01-01"), Hour, ":milestone")
  {
    var n := HomeTask(title);
    var fs := n.fields;
    assert fs[1..][1..] == [Field("project_title", Str("Home"))];
    assert Lookup(fs[1..][1..][1..], "project_title") == Nil;
    assert Get(n, "title") == Str(title);
    assert Lookup(fs[1..], "start_date") == Str("2024-01-01");
    assert Get(n, "start_date") == Str("2024-01-01");
    assert Lookup(fs[1..][1..], "project_title") == Str("Home");
    assert Lookup(fs[1..], "project_title") == Str("Home");
    assert Get(n, "project_title") == Str("Home");
    assert "deadline" !in FieldKeys(n) && "stop_date" !in FieldKeys(n);
    assert Context(n) == Some(Str("Home"));
    assert ReplaceColons(title) == title;
  }

  /** The line filed for such a to-do. */
  function HomeLine(title: string): string
  {
    "    " + title + " " + ":milestone" + ", " + "2024-01-01" + ", " + "1h" + "\n"
  }

  /** Filing into an empty chart opens the group with the line. */
  lemma FileEmpty(g: Scalar, t: string, line: string)
    ensures File([], g, t, line) == [Section(g, [line])]
  {
    assert Matching([], t) == [];
    assert [] + [line] == [line];
  }

  /** Filing into a one-line group: kept out exactly when the line mentions t. */
  lemma FileOne(g: Scalar, first: string, t: string, line: string)
    requires first != ""
    ensures Contains(Lower(first), t) ==> File([Section(g, [first])], g, t, line) == [Section(g, [first])]
    ensures !Contains(Lower(first), t) ==> File([Section(g, [first])], g, t, line) == [Section(g, [first, line])]
  {
    var b := [Section(g, [first])];
    assert IndexOf(b, g) == 0;
    assert [first][1..] == [];
    assert Matching([], t) == [];
    if Contains(Lower(first), t) {
      assert Matching([first], t) == [first] + [];
      assert Concat([first]) == first + Concat([]);
    } else {
      assert Matching([first], t) == [] + [];
      assert [first] + [line] == [first, line];
    }
  }

  /** The fixed parts of a Home line hold no x. */
  lemma NoX(title: string)
    requires 'x' !in title && 'X' !in title
    ensures 'x' !in HomeLine(title) && 'X' !in HomeLine(title)
  {
    var fixed := ["    ", " ", ":milestone", ", ", "2024-01-01", ", ", "1h", "\n"];
    assert forall i :: 0 <= i < |fixed| ==> 'x' !in fixed[i] && 'X' !in fixed[i];
  }

  /** "buy milk extra" is not part of the "Buy milk" line: that line has no x. */
  lemma BuyMilkMisses()
    ensures !Contains(Lower(HomeLine("Buy milk")), Lower("buy milk extra"))
  {
    var first := HomeLine("Buy milk");
    var t := Lower("buy milk extra");
    assert t[10] == 'x';
    NoX("Buy milk");
    LowerAbsent(first, 'x');
    if Contains(Lower(first), t) {
      ContainsChar(Lower(first), t, 'x');
    }
  }

  /** "buy milk" is part of the "buy milk extra" line, from position 4. */
  lemma ExtraMatches()
    ensures Contains(Lower(HomeLine("buy milk extra")), Lower("Buy milk"))
  {
    var first := HomeLine("buy milk extra");
    var t := Lower("Buy milk");
    assert |t| == 8;
    forall i | 0 <= i < 8 ensures Lower(first)[4 + i] == t[i] {
      assert first[4 + i] == "buy milk extra"[i];
    }
    assert Lower(first)[4..12] == t;
    assert OccursAt(Lower(first), t, 4);
    ContainsAt(Lower(first), t);
  }

  lemma PlainTitles()
    ensures ':' !in "Buy milk" && ':' !in "buy milk extra" && ':' !in "Launch" && ':' !in "Milestone"
  {
  }

  /** Filing a Home to-do into a chart. */
  lemma AddHome(b: Board, title: string)
    requires ':' !in title
    ensures AddTask(b, HomeTask(title)) == File(b, Str("Home"), Lower(title), HomeLine(title))
  {
    HomeTaskEntry(title);
  }

  /** The title check depends on filing order. "buy milk extra" filed after
      "Buy milk" gets a line of its own, since it is not part of the earlier
      line... */
  lemma BuyMilkFirst()
    ensures AddTask(AddTask([], HomeTask("Buy milk")), HomeTask("buy milk extra"))
            == [Section(Str("Home"), [HomeLine("Buy milk"), HomeLine("buy milk extra")])]
  {
    var first := HomeLine("Buy milk");
    PlainTitles();
    AddHome([], "Buy milk");
    FileEmpty(Str("Home"), Lower("Buy milk"), first);
    var t := Lower("buy milk extra");
    BuyMilkMisses();
    AddHome([Section(Str("Home"), [first])], "buy milk extra");
    FileOne(Str("Home"), first, t, HomeLine("buy milk extra"));
  }

  /** ...while "Buy milk" filed after "buy milk extra" is dropped, since it is
      part of the earlier line. */
  lemma ExtraFirst()
    ensures AddTask(AddTask([], HomeTask("buy milk extra")), HomeTask("Buy milk"))
            == [Section(Str("Home"), [HomeLine("buy milk extra")])]
  {
    var first := HomeLine("buy milk extra");
    PlainTitles();
    AddHome([], "buy milk extra");
    FileEmpty(Str("Home"), Lower("buy milk extra"), first);
    var t := Lower("Buy milk");
    ExtraMatches();
    AddHome([Section(Str("Home"), [first])], "Buy milk");
    FileOne(Str("Home"), first, t, HomeLine("Buy milk"));
  }

  /** "milestone" is part of every milestone line, from the marker on. */
  lemma LaunchMatches()
    ensures Contains(Lower(HomeLine("Launch")), Lower("Milestone"))
  {
    var first := HomeLine("Launch");
    var t := Lower("Milestone");
    assert |t| == 9;
    forall i | 0 <= i < 9 ensures Lower(first)[12 + i] == t[i] {
      assert first[12 + i] == ":milestone"[i + 1];
    }
    assert Lower(first)[12..21] == t;
    assert OccursAt(Lower(first), t, 12);
    ContainsAt(Lower(first), t);
  }

  /** The title is looked for in the whole line, markers and dates included: a
      to-do titled "Milestone" is dropped from a section that holds any
      milestone, though no to-do there has that title. */
  lemma MilestoneSwallowed()
    ensures AddTask(AddTask([], HomeTask("Launch")), HomeTask("Milestone"))
            == [Section(Str("Home"), [HomeLine("Launch")])]
  {
    var first := HomeLine("Launch");
    PlainTitles();
    AddHome([], "Launch");
    FileEmpty(Str("Home"), Lower("Launch"), first);
    LaunchMatches();
    AddHome([Section(Str("Home"), [first])], "Milestone");
    FileOne(Str("Home"), first, Lower("Milestone"), HomeLine("Milestone"));
  }
}
