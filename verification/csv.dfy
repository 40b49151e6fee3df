/**
 CSV export (`csv_dumps`, `csv_header`, `csv_converter`).

 The header is the list of every key met on the records reached through
 `items`, first-seen first, without the two structural keys; the rows are
 one per record reached through `items` and `checklist`, children before
 their parent. Quoting and escaping by the csv module are not modelled: a row
 is a map from header column to value.
 */
module Csv {
  import opened Records

  /** The keys of a record in dict order. The structural keys are listed after
      the plain fields; where they sit does not matter, because csv_dumps
      removes them again (CsvHeaderFirstSeen). */
  function DictKeys(n: Node): seq<string>
  {
    FieldKeys(n)
    + (if n.items.Some? then ["items"] else [])
    + (if n.checklist.Some? then ["checklist"] else [])
  }

  predicate NoDups(s: seq<string>)
  {
    forall i, j :: 0 <= i < j < |s| ==> s[i] != s[j]
  }

  /** `names.extend(k for k in keys if k not in names)`. The generator runs while
      the list grows, so each key is added once, at its first occurrence. */
  function Extend(names: seq<string>, keys: seq<string>): (r: seq<string>)
    ensures names <= r
    ensures forall x :: x in r <==> x in names || x in keys
    ensures NoDups(names) ==> NoDups(r)
    decreases |keys|
  {
    if keys == [] then names
    else
      assert keys == [keys[0]] + keys[1..];
      Extend(if keys[0] in names then names else names + [keys[0]], keys[1..])
  }

  /** Keys not yet listed, and distinct, are appended as they are. */
  lemma {:induction false} ExtendFresh(names: seq<string>, keys: seq<string>)
    requires NoDups(names + keys)
    ensures Extend(names, keys) == names + keys
    decreases |keys|
  {
    if keys != [] {
      var next := names + [keys[0]];
      assert next + keys[1..] == names + keys;
      assert keys[0] !in names by {
        forall i | 0 <= i < |names| ensures names[i] != keys[0] {
          assert (names + keys)[i] == names[i] && (names + keys)[|names|] == keys[0];
        }
      }
      assert Extend(names, keys) == Extend(next, keys[1..]);
      ExtendFresh(next, keys[1..]);
    }
  }

  /** Extending by two key lists one after the other is extending by both. */
  lemma {:induction false} ExtendAppend(names: seq<string>, x: seq<string>, y: seq<string>)
    ensures Extend(names, x + y) == Extend(Extend(names, x), y)
    decreases |x|
  {
    if x == [] {
      assert x + y == y;
    } else {
      assert (x + y)[0] == x[0] && (x + y)[1..] == x[1..] + y;
      ExtendAppend(if x[0] in names then names else names + [x[0]], x[1..], y);
    }
  }

  /** `csv_header(tasks, names)`: each record's keys, then its `items`, recursively;
      `checklist` is never entered. An `items` holding the `True` marker fails in
      the source; callers exclude it (CollectHeader's requires). */
  function HeaderList(ts: seq<Node>, names: seq<string>): seq<string>
  {
    if ts == [] then names else HeaderList(ts[1..], HeaderNode(ts[0], names))
  }

  function HeaderNode(n: Node, names: seq<string>): seq<string>
  {
    var after := Extend(names, DictKeys(n));
    match n.items
    case Some(Nodes(cs)) => HeaderList(cs, after)
    case _ => after
  }

  /** The keys of the visited records, one record after the other. */
  function KeyStream(vs: seq<Visit>): seq<string>
  {
    if vs == [] then [] else DictKeys(vs[0].node) + KeyStream(vs[1..])
  }

  /** The plain keys of the visited records, one record after the other. */
  function FieldStream(vs: seq<Visit>): seq<string>
  {
    if vs == [] then [] else FieldKeys(vs[0].node) + FieldStream(vs[1..])
  }

  lemma {:induction false} KeyStreamAppend(a: seq<Visit>, b: seq<Visit>)
    ensures KeyStream(a + b) == KeyStream(a) + KeyStream(b)
  {
    if a == [] {
      assert a + b == b;
    } else {
      assert (a + b)[0] == a[0] && (a + b)[1..] == a[1..] + b;
      KeyStreamAppend(a[1..], b);
    }
  }

  /** csv_header collects the keys met in a pre-order walk over `items`, each
      once, at its first occurrence. */
  lemma {:induction false} HeaderIsFirstSeen(ts: seq<Node>, names: seq<string>, d: nat)
    ensures HeaderList(ts, names) == Extend(names, KeyStream(TourList(ts, ItemsOnly, d)))
    decreases ts
  {
    if ts == [] {
    } else {
      var n := ts[0];
      var after := Extend(names, DictKeys(n));
      var below := if n.items.Some? then Tour(n.items.value, ItemsOnly, d + 1) else [];
      assert TourNode(n, ItemsOnly, d) == [Visit(n, d)] + below;
      KeyStreamAppend([Visit(n, d)] + below, TourList(ts[1..], ItemsOnly, d));
      KeyStreamAppend([Visit(n, d)], below);
      assert KeyStream([Visit(n, d)]) == DictKeys(n);
      match n.items {
        case Some(Nodes(cs)) =>
          HeaderIsFirstSeen(cs, after, d + 1);
        case _ =>
          assert below == [];
      }
      assert HeaderNode(n, names) == Extend(after, KeyStream(below));
      ExtendAppend(names, DictKeys(n), KeyStream(below));
      HeaderIsFirstSeen(ts[1..], HeaderNode(n, names), d);
      ExtendAppend(names, DictKeys(n) + KeyStream(below), KeyStream(TourList(ts[1..], ItemsOnly, d)));
    }
  }

  /** `list.remove(x)` behind an `if x in list` guard: drops the first x, if any. */
  function RemoveFirst(s: seq<string>, x: string): seq<string>
  {
    if s == [] then []
    else if s[0] == x then s[1..]
    else [s[0]] + RemoveFirst(s[1..], x)
  }

  /** s without any occurrence of x. */
  function Without(s: seq<string>, x: string): (r: seq<string>)
    ensures forall y :: y in r <==> y in s && y != x
  {
    if s == [] then []
    else
      assert s == [s[0]] + s[1..];
      (if s[0] == x then [] else [s[0]]) + Without(s[1..], x)
  }

  lemma {:induction false} WithoutAppend(a: seq<string>, b: seq<string>, x: string)
    ensures Without(a + b, x) == Without(a, x) + Without(b, x)
  {
    if a == [] {
      assert a + b == b;
    } else {
      var head := if a[0] == x then [] else [a[0]];
      assert (a + b)[0] == a[0] && (a + b)[1..] == a[1..] + b;
      assert Without(a + b, x) == head + Without(a[1..] + b, x);
      WithoutAppend(a[1..], b, x);
      assert Without(a, x) == head + Without(a[1..], x);
      Assoc(head, Without(a[1..], x), Without(b, x));
    }
  }

  lemma {:induction false} WithoutAbsent(s: seq<string>, x: string)
    requires x !in s
    ensures Without(s, x) == s
  {
    if s != [] {
      assert s == [s[0]] + s[1..];
      WithoutAbsent(s[1..], x);
    }
  }

  lemma {:induction false} RemoveFirstAbsent(s: seq<string>, x: string)
    requires x !in s
    ensures RemoveFirst(s, x) == s
  {
    if s != [] {
      assert s == [s[0]] + s[1..];
      RemoveFirstAbsent(s[1..], x);
    }
  }

  lemma {:induction false} RemoveFirstSnoc(s: seq<string>, y: string, x: string)
    requires y != x
    ensures RemoveFirst(s + [y], x) == RemoveFirst(s, x) + [y]
  {
    if s == [] {
      assert s + [y] == [y];
    } else {
      assert (s + [y])[0] == s[0] && (s + [y])[1..] == s[1..] + [y];
      RemoveFirstSnoc(s[1..], y, x);
    }
  }

  lemma {:induction false} RemoveFirstKeeps(s: seq<string>, x: string, y: string)
    requires y != x
    ensures y in RemoveFirst(s, x) <==> y in s
  {
    if s != [] {
      assert s == [s[0]] + s[1..];
      RemoveFirstKeeps(s[1..], x, y);
    }
  }

  /** Removing a key after collecting is collecting without that key. */
  lemma {:induction false} RemoveAfterExtend(names: seq<string>, s: seq<string>, x: string)
    requires NoDups(names)
    ensures RemoveFirst(Extend(names, s), x) == Extend(RemoveFirst(names, x), Without(s, x))
    decreases |s|
  {
    if s != [] {
      var y := s[0];
      var names' := if y in names then names else names + [y];
      assert s == [y] + s[1..];
      assert NoDups(names') by {
        if y !in names {
          forall i, j | 0 <= i < j < |names'| ensures names'[i] != names'[j] {
            if j == |names| { assert names'[i] in names; }
          }
        }
      }
      RemoveAfterExtend(names', s[1..], x);
      if y == x {
        assert Without(s, x) == Without(s[1..], x);
        if y !in names {
          RemoveFirstAbsent(names, x);
          assert names' == names + [x];
          RemoveFirstAbsent(names, x);
          assert RemoveFirst(names + [x], x) == names by {
            RemoveFirstFirst(names, x);
          }
        }
      } else {
        assert Without(s, x) == [y] + Without(s[1..], x);
        RemoveFirstKeeps(names, x, y);
        if y !in names {
          RemoveFirstSnoc(names, y, x);
        }
      }
    }
  }

  lemma {:induction false} RemoveFirstFirst(s: seq<string>, x: string)
    requires x !in s
    ensures RemoveFirst(s + [x], x) == s
  {
    if s == [] {
      assert s + [x] == [x];
    } else {
      assert (s + [x])[0] == s[0] && (s + [x])[1..] == s[1..] + [x];
      RemoveFirstFirst(s[1..], x);
    }
  }

  /** The header csv_dumps writes: the collected keys without `items` and `checklist`. */
  function CsvHeader(ts: seq<Node>): seq<string>
  {
    RemoveFirst(RemoveFirst(HeaderList(ts, []), "items"), "checklist")
  }

  /** Dropping the structural keys from a record's dict keys leaves its plain keys. */
  lemma PlainKeys(n: Node)
    ensures Without(Without(DictKeys(n), "items"), "checklist") == FieldKeys(n)
  {
    var fk := FieldKeys(n);
    var si: seq<string> := if n.items.Some? then ["items"] else [];
    var sc: seq<string> := if n.checklist.Some? then ["checklist"] else [];
    assert DictKeys(n) == fk + si + sc;
    WithoutAppend(fk + si, sc, "items");
    WithoutAppend(fk, si, "items");
    WithoutAbsent(fk, "items");
    WithoutAbsent(sc, "items");
    assert Without(si, "items") == [];
    assert fk + [] == fk;
    WithoutAppend(fk, sc, "checklist");
    WithoutAbsent(fk, "checklist");
    assert Without(sc, "checklist") == [];
  }

  lemma {:induction false} PlainStream(vs: seq<Visit>)
    ensures Without(Without(KeyStream(vs), "items"), "checklist") == FieldStream(vs)
  {
    if vs != [] {
      var n := vs[0].node;
      var rest := KeyStream(vs[1..]);
      PlainStream(vs[1..]);
      PlainKeys(n);
      WithoutAppend(DictKeys(n), rest, "items");
      WithoutAppend(Without(DictKeys(n), "items"), Without(rest, "items"), "checklist");
    }
  }

  /** The CSV header is the first-seen list of the plain keys of the records
      reached through `items`, in pre-order. */
  lemma CsvHeaderFirstSeen(ts: seq<Node>)
    ensures CsvHeader(ts) == Extend([], FieldStream(TourList(ts, ItemsOnly, 0)))
  {
    var ks := KeyStream(TourList(ts, ItemsOnly, 0));
    HeaderIsFirstSeen(ts, [], 0);
    RemoveAfterExtend([], ks, "items");
    RemoveAfterExtend([], Without(ks, "items"), "checklist");
    PlainStream(TourList(ts, ItemsOnly, 0));
  }

  /** What the header promises: no key twice, no structural key, exactly the
      plain keys of the records reached through `items`, and every prefix of the
      key stream collected into a prefix of the header (first-seen order). */
  lemma CsvHeaderFacts(ts: seq<Node>)
    ensures NoDups(CsvHeader(ts))
    ensures "items" !in CsvHeader(ts) && "checklist" !in CsvHeader(ts)
    ensures forall x :: x in CsvHeader(ts) <==>
              exists v :: v in TourList(ts, ItemsOnly, 0) && x in FieldKeys(v.node)
    ensures forall k :: 0 <= k <= |FieldStream(TourList(ts, ItemsOnly, 0))| ==>
              Extend([], FieldStream(TourList(ts, ItemsOnly, 0))[..k]) <= CsvHeader(ts)
  {
    var vs := TourList(ts, ItemsOnly, 0);
    var s := FieldStream(vs);
    CsvHeaderFirstSeen(ts);
    FieldStreamHas(vs);
    forall k | 0 <= k <= |s| ensures Extend([], s[..k]) <= CsvHeader(ts) {
      assert s == s[..k] + s[k..];
      ExtendAppend([], s[..k], s[k..]);
    }
  }

  lemma {:induction false} FieldStreamHas(vs: seq<Visit>)
    ensures forall x :: x in FieldStream(vs) <==> exists v :: v in vs && x in FieldKeys(v.node)
  {
    if vs != [] {
      FieldStreamHas(vs[1..]);
      assert vs == [vs[0]] + vs[1..];
    }
  }

  /** A CSV row: one value per header column. */
  type Row = map<string, Scalar>

  /** `DictWriter.writerow(task)`: each column takes the record's value, or "" when
      the record lacks that key. */
  function RowOf(n: Node, header: seq<string>): Row
  {
    map k | k in header :: if k in FieldKeys(n) then Get(n, k) else Str("")
  }

  /** A row has exactly the header's columns; a column the record lacks is "" (the
      writer's `restval`), any other holds the record's value. */
  lemma RowOfColumns(n: Node, header: seq<string>)
    ensures forall k :: k in RowOf(n, header) <==> k in header
    ensures forall k :: k in header && k !in FieldKeys(n) ==> RowOf(n, header)[k] == Str("")
    ensures forall k :: k in header && k in FieldKeys(n) ==> RowOf(n, header)[k] == Get(n, k)
  {
  }

  /** A row depends on the plain fields only. */
  lemma RowOfFields(n: Node, m: Node, h: seq<string>)
    requires n.fields == m.fields
    ensures RowOf(n, h) == RowOf(m, h)
  {
    assert FieldKeys(n) == FieldKeys(m);
  }

  /** DictWriter raises on a record key that is not a header column. */
  predicate FitsHeader(n: Node, header: seq<string>)
  {
    forall k :: k in FieldKeys(n) ==> k in header
  }

  /** `csv_converter(tasks, writer)`: for each record, the rows of its `items`, then
      of its `checklist`, then its own row. */
  function Rows(ks: Kids, h: seq<string>): seq<Row>
  {
    match ks
    case Consumed => []
    case Nodes(ts) => RowsList(ts, h)
  }

  function RowsList(ts: seq<Node>, h: seq<string>): seq<Row>
  {
    if ts == [] then [] else RowsNode(ts[0], h) + RowsList(ts[1..], h)
  }

  function RowsNode(n: Node, h: seq<string>): seq<Row>
  {
    (if n.items.Some? then Rows(n.items.value, h) else [])
    + (if n.checklist.Some? then Rows(n.checklist.value, h) else [])
    + [RowOf(n, h)]
  }

  /** The rows of the visited records, in visiting order. */
  function RowsOf(vs: seq<Visit>, h: seq<string>): (rs: seq<Row>)
    ensures |rs| == |vs|
  {
    if vs == [] then [] else [RowOf(vs[0].node, h)] + RowsOf(vs[1..], h)
  }

  lemma {:induction false} RowsOfAppend(a: seq<Visit>, b: seq<Visit>, h: seq<string>)
    ensures RowsOf(a + b, h) == RowsOf(a, h) + RowsOf(b, h)
  {
    if a == [] {
      assert a + b == b;
    } else {
      assert (a + b)[0] == a[0] && (a + b)[1..] == a[1..] + b;
      RowsOfAppend(a[1..], b, h);
    }
  }

  /** csv_converter writes the rows of exactly the records a pre-order walk over
      `items` and `checklist` reaches, one each: the same rows, in another order. */
  lemma {:induction false} RowsArePermutation(ts: seq<Node>, h: seq<string>, d: nat)
    ensures multiset(RowsList(ts, h)) == multiset(RowsOf(TourList(ts, Both, d), h))
    decreases ts
  {
    if ts != [] {
      var n := ts[0];
      var a := if n.items.Some? then Tour(n.items.value, Both, d + 1) else [];
      var b := if n.checklist.Some? then Tour(n.checklist.value, Both, d + 1) else [];
      var ra := if n.items.Some? then Rows(n.items.value, h) else [];
      var rb := if n.checklist.Some? then Rows(n.checklist.value, h) else [];
      var rest := TourList(ts[1..], Both, d);
      assert multiset(ra) == multiset(RowsOf(a, h)) by {
        match n.items {
          case Some(Nodes(cs)) => RowsArePermutation(cs, h, d + 1);
          case _ =>
        }
      }
      assert multiset(rb) == multiset(RowsOf(b, h)) by {
        match n.checklist {
          case Some(Nodes(cs)) => RowsArePermutation(cs, h, d + 1);
          case _ =>
        }
      }
      RowsArePermutation(ts[1..], h, d);
      assert RowsList(ts, h) == ra + rb + [RowOf(n, h)] + RowsList(ts[1..], h);
      assert TourList(ts, Both, d) == [Visit(n, d)] + a + b + rest;
      RowsOfAppend([Visit(n, d)] + a + b, rest, h);
      RowsOfAppend([Visit(n, d)] + a, b, h);
      RowsOfAppend([Visit(n, d)], a, h);
      var own := RowOf(n, h);
      assert RowsOf(TourList(ts, Both, d), h) == [own] + RowsOf(a, h) + RowsOf(b, h) + RowsOf(rest, h);
      var ma, mb, mo, mr := multiset(RowsOf(a, h)), multiset(RowsOf(b, h)), multiset{own}, multiset(RowsOf(rest, h));
      assert multiset(RowsList(ts, h)) == ma + mb + mo + mr;
      assert multiset([own] + RowsOf(a, h) + RowsOf(b, h) + RowsOf(rest, h)) == mo + ma + mb + mr;
      UnionRotate(ma, mb, mo, mr);
    }
  }

  lemma UnionRotate<T>(a: multiset<T>, b: multiset<T>, c: multiset<T>, d: multiset<T>)
    ensures a + b + c + d == c + a + b + d
  {
    assert forall x :: (a + b + c + d)[x] == (c + a + b + d)[x];
  }

  /** One row per record reached through `items` and `checklist`. */
  lemma RowsCount(ts: seq<Node>, h: seq<string>)
    ensures |RowsList(ts, h)| == |TourList(ts, Both, 0)|
  {
    RowsArePermutation(ts, h, 0);
    assert |multiset(RowsList(ts, h))| == |RowsList(ts, h)|;
    assert |multiset(RowsOf(TourList(ts, Both, 0), h))| == |TourList(ts, Both, 0)|;
  }

  /** `csv_header(tasks, fieldnames)`, extending the list in place. */
  method CollectHeader(ts: seq<Node>, names: seq<string>) returns (names': seq<string>)
    requires AllNodes(ts, ItemsOnly, Anything)
    ensures names' == HeaderList(ts, names)
    ensures names' == Extend(names, KeyStream(TourList(ts, ItemsOnly, 0)))
    decreases ts
  {
    names' := names;
    var i := 0;
    while i < |ts|
      invariant 0 <= i <= |ts|
      invariant HeaderList(ts[i..], names') == HeaderList(ts, names)
    {
      var task := ts[i];
      ghost var before := names';
      assert AllBelow(task, ItemsOnly, Anything);
      names' := ExtendInPlace(names', DictKeys(task));
      if task.items.Some? {
        assert KidsAll(task.items, ItemsOnly, Anything);
        names' := CollectHeader(task.items.value.list, names');
      }
      assert names' == HeaderNode(task, before);
      assert ts[i..][0] == task && ts[i..][1..] == ts[i + 1..];
      assert HeaderList(ts[i..], before) == HeaderList(ts[i + 1..], names');
      i := i + 1;
    }
    HeaderIsFirstSeen(ts, names, 0);
  }

  /** `fieldnames.extend(field for field in task if field not in fieldnames)`. */
  method ExtendInPlace(names: seq<string>, keys: seq<string>) returns (names': seq<string>)
    ensures names' == Extend(names, keys)
  {
    names' := names;
    var j := 0;
    while j < |keys|
      invariant 0 <= j <= |keys|
      invariant Extend(names', keys[j..]) == Extend(names, keys)
    {
      assert keys[j..][0] == keys[j] && keys[j..][1..] == keys[j + 1..];
      var next := if keys[j] in names' then names' else names' + [keys[j]];
      assert Extend(names', keys[j..]) == Extend(next, keys[j + 1..]);
      names' := next;
      j := j + 1;
    }
  }

  /** `csv_converter(tasks, writer)`: the rows written, and the list afterwards,
      whose records have lost both structural keys. */
  method Convert(ks: Kids, header: seq<string>) returns (rows: seq<Row>, done: Kids)
    requires ks.Nodes? ==> AllNodes(ks.list, Both, (n: Node) => FitsHeader(n, header))
    ensures rows == Rows(ks, header)
    ensures ks.Consumed? ==> done == ks
    ensures ks.Nodes? ==> done.Nodes? && |done.list| == |ks.list|
    ensures ks.Nodes? ==> forall j :: 0 <= j < |ks.list| ==> done.list[j] == Node(ks.list[j].fields, None, None)
    decreases ks, 1
  {
    if ks.Consumed? {
      return [], ks;
    }
    var ts := ks.list;
    rows := [];
    var i := 0;
    while i < |ts|
      invariant 0 <= i <= |ts| == |ks.list|
      invariant forall j :: 0 <= j < i ==> ts[j] == Node(ks.list[j].fields, None, None)
      invariant rows + RowsList(ks.list[i..], header) == RowsList(ks.list, header)
    {
      var task := ks.list[i];
      var mine, popped := ConvertTask(task, header);
      assert ks.list[i..][0] == task && ks.list[i..][1..] == ks.list[i + 1..];
      assert RowsList(ks.list[i..], header) == mine + RowsList(ks.list[i + 1..], header);
      Assoc(rows, mine, RowsList(ks.list[i + 1..], header));
      rows := rows + mine;
      ts := ts[i := popped];
      i := i + 1;
    }
    done := Nodes(ts);
  }

  /** One pass of csv_converter's loop: recurse into `items`, pop it, recurse into
      `checklist`, pop it, write the record's own row. */
  method ConvertTask(task: Node, header: seq<string>) returns (rows: seq<Row>, popped: Node)
    requires AllBelow(task, Both, (n: Node) => FitsHeader(n, header))
    ensures rows == RowsNode(task, header)
    ensures popped == Node(task.fields, None, None)
    decreases task, 0
  {
    var fromItems: seq<Row> := [];
    if task.items.Some? {
      var sub;
      fromItems, sub := Convert(task.items.value, header);
    }
    popped := task.(items := None);
    var fromChecklist: seq<Row> := [];
    if task.checklist.Some? {
      var sub;
      fromChecklist, sub := Convert(task.checklist.value, header);
    }
    popped := popped.(checklist := None);
    RowOfFields(popped, task, header);
    rows := fromItems + fromChecklist + [RowOf(popped, header)];
  }

  /** `csv_dumps(tasks)`: the header, the rows, and the top-level list afterwards. */
  method CsvDumps(ts: seq<Node>) returns (header: seq<string>, rows: seq<Row>, done: seq<Node>)
    requires AllNodes(ts, ItemsOnly, Anything)
    requires AllNodes(ts, Both, (n: Node) => FitsHeader(n, CsvHeader(ts)))
    ensures header == CsvHeader(ts)
    ensures NoDups(header) && "items" !in header && "checklist" !in header
    ensures forall x :: x in header <==> exists v :: v in TourList(ts, ItemsOnly, 0) && x in FieldKeys(v.node)
    ensures rows == RowsList(ts, header)
    ensures |rows| == |TourList(ts, Both, 0)|
    ensures multiset(rows) == multiset(RowsOf(TourList(ts, Both, 0), header))
    ensures |done| == |ts| && forall j :: 0 <= j < |ts| ==> done[j] == Node(ts[j].fields, None, None)
  {
    var names := CollectHeader(ts, []);
    if "items" in names {
      names := RemoveFirst(names, "items");
    }
    if "checklist" in names {
      names := RemoveFirst(names, "checklist");
    }
    RemoveFirstAbsentGuard(HeaderList(ts, []));
    header := names;
    assert header == CsvHeader(ts);
    CsvHeaderFacts(ts);
    var k;
    rows, k := Convert(Nodes(ts), header);
    done := k.list;
    RowsArePermutation(ts, header, 0);
    RowsCount(ts, header);
  }

  lemma RemoveFirstAbsentGuard(s: seq<string>)
    ensures "items" !in s ==> RemoveFirst(s, "items") == s
    ensures "checklist" !in RemoveFirst(s, "items") ==>
              RemoveFirst(RemoveFirst(s, "items"), "checklist") == RemoveFirst(s, "items")
  {
    if "items" !in s {
      RemoveFirstAbsent(s, "items");
    }
    if "checklist" !in RemoveFirst(s, "items") {
      RemoveFirstAbsent(RemoveFirst(s, "items"), "checklist");
    }
  }

  /** A lone record whose `items` is empty and that has no checklist: the header
      is its own keys, in order. */
  lemma LeafHeader(n: Node)
    requires n.items == Some(Nodes([])) && n.checklist.None?
    requires NoDups(FieldKeys(n))
    ensures CsvHeader([n]) == FieldKeys(n)
  {
    var keys := FieldKeys(n);
    assert [n][1..] == [];
    assert HeaderList([n], []) == HeaderNode(n, []);
    assert HeaderNode(n, []) == HeaderList([], Extend([], DictKeys(n)));
    assert DictKeys(n) == keys + ["items"];
    NoDupsSnoc(keys, "items");
    assert [] + (keys + ["items"]) == keys + ["items"];
    ExtendFresh([], keys + ["items"]);
    RemoveFirstFirst(keys, "items");
    RemoveFirstAbsent(keys, "checklist");
  }

  /** A new key appended to a list without duplicates keeps it without duplicates. */
  lemma NoDupsSnoc(s: seq<string>, x: string)
    requires NoDups(s) && x !in s
    ensures NoDups(s + [x])
  {
    forall i, j | 0 <= i < j < |s + [x]| ensures (s + [x])[i] != (s + [x])[j] {
      assert (s + [x])[i] == s[i];
    }
  }

  /** In CSV mode the header for the "Write report" record is its two plain keys. */
  lemma WriteReportHeader()
    ensures CsvHeader([WriteReport]) == ["title", "start"]
  {
    assert FieldKeys(WriteReport) == ["title", "start"];
    LeafHeader(WriteReport);
  }

  /** The one CSV row for that record holds its two values. */
  lemma WriteReportRow()
    ensures RowsList([WriteReport], ["title", "start"])
            == [map["title" := Str("Write report"), "start" := Str("Today")]]
  {
    var n := WriteReport;
    var h := ["title", "start"];
    var row := RowOf(n, h);
    var want := map["title" := Str("Write report"), "start" := Str("Today")];
    assert FieldKeys(n) == h;
    assert Get(n, "title") == Str("Write report") && Get(n, "start") == Str("Today");
    assert row.Keys == want.Keys;
    assert row == want;
    assert RowsNode(n, h) == [row];
    assert RowsList([n], h) == RowsNode(n, h) + RowsList([], h);
  }
}
