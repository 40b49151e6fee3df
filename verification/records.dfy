/**
 The task records that the export renderers consume: a tree of dictionaries.

 A record is a Python dict. Its plain fields are kept here as an ordered
 association list (dict iteration order); the two structural keys, `items`
 and `checklist`, are kept apart because every renderer treats them
 specially. A child field holds either a list of records or the value
 `True` that the query layer leaves in `checklist` when it did not load the
 sub-items; the renderers catch that value with `tasks is True`, and it is
 `Consumed` here.
 */
module Records {

  datatype Option<T> = None | Some(value: T)

  /** A plain field value: Python None, a text value, or any other value
      (number, boolean, tag list), known by the text str() gives for it and
      by its truthiness. */
  datatype Scalar = Nil | Str(s: string) | Other(shown: string, truthy: bool)

  /** Python truthiness of a plain value. */
  predicate Truthy(v: Scalar)
  {
    match v
    case Nil => false
    case Str(s) => s != ""
    case Other(_, t) => t
  }

  /** str(v), as an f-string interpolates it. */
  function Show(v: Scalar): string
  {
    match v
    case Nil => "None"
    case Str(s) => s
    case Other(shown, _) => shown
  }

  /** The name of a plain field: never one of the two structural keys. */
  type Key = k: string | k != "items" && k != "checklist" witness "title"

  datatype Field = Field(key: Key, value: Scalar)

  /** The value of a child field: a list of records, or the `True` marker. */
  datatype Kids = Consumed | Nodes(list: seq<Node>)

  datatype Node = Node(fields: seq<Field>, items: Option<Kids>, checklist: Option<Kids>)

  /** Which child fields a traversal follows. */
  datatype Walk = ItemsOnly | Both

  /** One record reached by a traversal, with its depth below the roots. */
  datatype Visit = Visit(node: Node, depth: nat)

  /** The keys of the plain fields, in dict order. */
  function FieldKeys(n: Node): (ks: seq<string>)
    ensures |ks| == |n.fields|
    ensures forall i :: 0 <= i < |ks| ==> ks[i] == n.fields[i].key
    ensures "items" !in ks && "checklist" !in ks
  {
    seq(|n.fields|, i requires 0 <= i < |n.fields| => n.fields[i].key)
  }

  function Lookup(fs: seq<Field>, k: string): Scalar
  {
    if fs == [] then Nil
    else if fs[0].key == k then fs[0].value
    else Lookup(fs[1..], k)
  }

  /** `task.get(k)`: the value under plain key k, or None when it is absent. */
  function Get(n: Node, k: string): (v: Scalar)
    ensures k !in FieldKeys(n) ==> v == Nil
    ensures v != Nil ==> exists i :: 0 <= i < |n.fields| && n.fields[i] == Field(k, v)
  {
    LookupFound(n.fields, k);
    Lookup(n.fields, k)
  }

  lemma {:induction false} LookupFound(fs: seq<Field>, k: string)
    ensures (forall i :: 0 <= i < |fs| ==> fs[i].key != k) ==> Lookup(fs, k) == Nil
    ensures Lookup(fs, k) != Nil ==> exists i :: 0 <= i < |fs| && fs[i] == Field(k, Lookup(fs, k))
  {
    if fs != [] {
      LookupFound(fs[1..], k);
      if fs[0].key != k && Lookup(fs, k) != Nil {
        var i :| 0 <= i < |fs[1..]| && fs[1..][i] == Field(k, Lookup(fs, k));
        assert fs[i + 1] == Field(k, Lookup(fs, k));
      }
    }
  }

  /** A record read from a dict has each plain key at most once. */
  predicate DistinctKeys(n: Node)
  {
    forall i, j :: 0 <= i < j < |n.fields| ==> n.fields[i].key != n.fields[j].key
  }

  lemma {:induction false} LookupDistinct(fs: seq<Field>, i: nat)
    requires i < |fs|
    requires forall a, b :: 0 <= a < b < |fs| ==> fs[a].key != fs[b].key
    ensures Lookup(fs, fs[i].key) == fs[i].value
  {
    if i > 0 {
      assert fs[0].key != fs[i].key;
      assert fs[1..][i - 1] == fs[i];
      LookupDistinct(fs[1..], i - 1);
    }
  }

  /** On a record with distinct keys, `task.get(k)` is the value stored under k. */
  lemma GetDistinct(n: Node, i: nat)
    requires DistinctKeys(n) && i < |n.fields|
    ensures Get(n, n.fields[i].key) == n.fields[i].value
  {
    LookupDistinct(n.fields, i);
  }

  /** The records a traversal along w reaches from ks, in pre-order: each record,
      then (one level deeper) what its `items` reach, then, on a Both walk, what its
      `checklist` reaches. The `True` marker reaches nothing. */
  function Tour(ks: Kids, w: Walk, d: nat): seq<Visit>
  {
    match ks
    case Consumed => []
    case Nodes(ts) => TourList(ts, w, d)
  }

  function TourList(ts: seq<Node>, w: Walk, d: nat): seq<Visit>
  {
    if ts == [] then [] else TourNode(ts[0], w, d) + TourList(ts[1..], w, d)
  }

  function TourNode(n: Node, w: Walk, d: nat): seq<Visit>
  {
    [Visit(n, d)]
    + (if n.items.Some? then Tour(n.items.value, w, d + 1) else [])
    + (if w == Both && n.checklist.Some? then Tour(n.checklist.value, w, d + 1) else [])
  }

  /** The nodes of a sequence of visits. */
  function NodesOf(vs: seq<Visit>): (ns: seq<Node>)
    ensures |ns| == |vs|
    ensures forall i :: 0 <= i < |vs| ==> ns[i] == vs[i].node
  {
    seq(|vs|, i requires 0 <= i < |vs| => vs[i].node)
  }

  /** Every record a walk along w reaches from the roots satisfies p, and, on an
      ItemsOnly walk, no `items` holds the `True` marker (iterating it fails). */
  predicate AllNodes(ts: seq<Node>, w: Walk, p: Node -> bool)
  {
    forall i :: 0 <= i < |ts| ==> AllBelow(ts[i], w, p)
  }

  predicate AllBelow(n: Node, w: Walk, p: Node -> bool)
  {
    && p(n)
    && KidsAll(n.items, w, p)
    && (w == Both ==> KidsAll(n.checklist, w, p))
  }

  predicate KidsAll(k: Option<Kids>, w: Walk, p: Node -> bool)
  {
    match k
    case None => true
    case Some(Consumed) => w == Both
    case Some(Nodes(cs)) => AllNodes(cs, w, p)
  }

  /** The structural predicate says the same as a statement about the tour. */
  lemma {:induction false} AllNodesTour(ts: seq<Node>, w: Walk, p: Node -> bool, d: nat)
    requires AllNodes(ts, w, p)
    ensures forall v :: v in TourList(ts, w, d) ==> p(v.node)
  {
    if ts != [] {
      AllNodesTour(ts[1..], w, p, d);
      var n := ts[0];
      assert TourList(ts, w, d) == TourNode(n, w, d) + TourList(ts[1..], w, d);
      assert AllBelow(n, w, p);
      assert KidsAll(n.items, w, p);
      match n.items {
        case Some(Nodes(cs)) => AllNodesTour(cs, w, p, d + 1);
        case _ =>
      }
      if w == Both {
        assert KidsAll(n.checklist, w, p);
        match n.checklist {
          case Some(Nodes(cs)) => AllNodesTour(cs, w, p, d + 1);
          case _ =>
        }
      }
    }
  }

  /** Regrouping a concatenation of four sequences. */
  lemma Regroup<T>(w: seq<T>, x: seq<T>, y: seq<T>, z: seq<T>)
    ensures w + x + y + z == w + (x + y) + z
    ensures w + x + y + z == w + (x + y + z)
  {
  }

  lemma Assoc<T>(x: seq<T>, y: seq<T>, z: seq<T>)
    ensures x + y + z == x + (y + z)
  {
  }

  /** A to-do titled "Write report", started "Today", with no sub-items. */
  const WriteReport: Node := Node([Field("title", Str("Write report")), Field("start", Str("Today"))], Some(Nodes([])), None)

  /** A predicate that holds of every record. */
  predicate Anything(n: Node)
  {
    true
  }

  /** The keys consulted, in order, for a record's context label. */
  const ContextKeys: seq<string> := ["project_title", "area_title", "heading_title", "start"]

  /** The first truthy value among keys, as a Python `or` chain picks it. */
  function FirstTruthy(n: Node, keys: seq<string>): Option<Scalar>
  {
    if keys == [] then None
    else if Truthy(Get(n, keys[0])) then Some(Get(n, keys[0]))
    else FirstTruthy(n, keys[1..])
  }

  /** The chain yields nothing exactly when every key's value is falsy, and
      otherwise the truthy value of the first key whose value is truthy. */
  lemma {:induction false} FirstTruthyPicks(n: Node, keys: seq<string>)
    ensures FirstTruthy(n, keys).None? <==> forall i :: 0 <= i < |keys| ==> !Truthy(Get(n, keys[i]))
    ensures FirstTruthy(n, keys).Some? ==> Truthy(FirstTruthy(n, keys).value)
    ensures FirstTruthy(n, keys).Some? ==>
              exists i :: 0 <= i < |keys| && FirstTruthy(n, keys).value == Get(n, keys[i]) &&
                          forall j :: 0 <= j < i ==> !Truthy(Get(n, keys[j]))
  {
    if keys != [] && !Truthy(Get(n, keys[0])) {
      FirstTruthyPicks(n, keys[1..]);
      var r := FirstTruthy(n, keys[1..]);
      if r.None? {
        forall i | 0 <= i < |keys| ensures !Truthy(Get(n, keys[i])) {
          if i > 0 { assert keys[i] == keys[1..][i - 1]; }
        }
      } else {
        var i :| 0 <= i < |keys[1..]| && r.value == Get(n, keys[1..][i]) &&
                 forall j :: 0 <= j < i ==> !Truthy(Get(n, keys[1..][j]));
        assert r.value == Get(n, keys[i + 1]);
        forall j | 0 <= j < i + 1 ensures !Truthy(Get(n, keys[j])) {
          if j > 0 { assert keys[j] == keys[1..][j - 1]; }
        }
      }
    }
  }

  /** The first truthy value depends on the plain fields only. */
  lemma {:induction false} FirstTruthySameFields(n: Node, m: Node, keys: seq<string>)
    requires n.fields == m.fields
    ensures FirstTruthy(n, keys) == FirstTruthy(m, keys)
  {
    if keys != [] {
      assert Get(n, keys[0]) == Get(m, keys[0]);
      FirstTruthySameFields(n, m, keys[1..]);
    }
  }

  /** The context label: the first truthy of project_title, area_title,
      heading_title and start. */
  function Context(n: Node): Option<Scalar>
  {
    FirstTruthy(n, ContextKeys)
  }
}

/** Text helpers over Python strings. */
module Strings {

  /** str.lower() restricted to ASCII letters. */
  function LowerChar(c: char): char
  {
    if 'A' <= c <= 'Z' then (c as int + 32) as char else c
  }

  function Lower(s: string): (r: string)
    ensures |r| == |s|
  {
    seq(|s|, i requires 0 <= i < |s| => LowerChar(s[i]))
  }

  /** Lower-casing never produces a lower-case letter whose letter is absent. */
  lemma LowerAbsent(s: string, c: char)
    requires 'a' <= c <= 'z'
    requires c !in s && (c as int - 32) as char !in s
    ensures c !in Lower(s)
  {
    forall i | 0 <= i < |s| ensures Lower(s)[i] != c {
      assert s[i] != c && s[i] != (c as int - 32) as char;
    }
  }

  /** Python `t in s` for strings: t occurs in s as a contiguous substring. */
  predicate Contains(s: string, t: string)
    decreases |s|
  {
    |t| <= |s| && (s[..|t|] == t || Contains(s[1..], t))
  }

  /** t occurs in s at position i. */
  predicate OccursAt(s: string, t: string, i: int)
  {
    0 <= i <= |s| - |t| && s[i..i + |t|] == t
  }

  /** Contains says that t occurs at some position of s. */
  lemma {:induction false} ContainsAt(s: string, t: string)
    ensures Contains(s, t) <==> exists i :: OccursAt(s, t, i)
    decreases |s|
  {
    if |t| <= |s| && s[..|t|] != t {
      ContainsAt(s[1..], t);
      if Contains(s[1..], t) {
        var i :| OccursAt(s[1..], t, i);
        assert s[i + 1..i + 1 + |t|] == s[1..][i..i + |t|];
        assert OccursAt(s, t, i + 1);
      }
      if exists i :: OccursAt(s, t, i) {
        var i :| OccursAt(s, t, i);
        assert i != 0;
        assert s[1..][i - 1..i - 1 + |t|] == s[i..i + |t|];
        assert OccursAt(s[1..], t, i - 1);
      }
    } else if |t| <= |s| {
      assert OccursAt(s, t, 0);
    }
  }

  /** Every character of an occurring text occurs. */
  lemma ContainsChar(s: string, t: string, c: char)
    requires Contains(s, t) && c in t
    ensures c in s
  {
    ContainsAt(s, t);
    var i :| OccursAt(s, t, i);
    var j :| 0 <= j < |t| && t[j] == c;
    assert s[i..i + |t|][j] == s[i + j];
  }

  /** `s.replace(":", " ")`. */
  function ReplaceColons(s: string): (r: string)
    ensures |r| == |s|
    ensures ':' !in r
    ensures forall i :: 0 <= i < |s| && s[i] != ':' ==> r[i] == s[i]
    ensures forall i :: 0 <= i < |s| && s[i] == ':' ==> r[i] == ' '
  {
    seq(|s|, i requires 0 <= i < |s| => if s[i] == ':' then ' ' else s[i])
  }

  /** n spaces. */
  function Spaces(n: nat): (r: string)
    ensures |r| == n
    ensures forall i :: 0 <= i < n ==> r[i] == ' '
  {
    if n == 0 then "" else " " + Spaces(n - 1)
  }

  /** `"".join(parts)`. */
  function Concat(parts: seq<string>): string
  {
    if parts == [] then "" else parts[0] + Concat(parts[1..])
  }

  /** `sep.join(parts)`. */
  function Join(parts: seq<string>, sep: string): string
  {
    if parts == [] then ""
    else if |parts| == 1 then parts[0]
    else parts[0] + sep + Join(parts[1..], sep)
  }

  /** Joining no, one or two parts. */
  lemma JoinSmall(x: string, y: string, sep: string)
    ensures Join([], sep) == ""
    ensures Join([x], sep) == x
    ensures Join([x, y], sep) == x + sep + y
  {
    assert [x, y][1..] == [y];
  }

  lemma {:induction false} ConcatAppend(a: seq<string>, b: seq<string>)
    ensures Concat(a + b) == Concat(a) + Concat(b)
  {
    if a == [] {
      assert a + b == b;
    } else {
      assert (a + b)[1..] == a[1..] + b;
      ConcatAppend(a[1..], b);
    }
  }
}
