/**
 * Three small helpers of robot_db/python/typeDB_main/auxiliary.py:
 * the schema-text parser `concept_dict` (68-73), the pair-slot builder
 * `pair_element_id` (208-227) and the key-path search `find_paths` (44-55).
 */
module Schema {
  import opened Wrappers
  import opened Text
  import opened Intent

  // ---------------------------------------------------------------------------
  // concept_dict

  /** The three lists `concept_dict` returns, under the keys `entity`, `attribute` and `relation`. */
  datatype Concepts = Concepts(entity: seq<string>, attribute: seq<string>, relation: seq<string>)

  /** A schema line `concept_dict` keeps: not blank after stripping, not starting with `//`. */
  predicate Kept(line: string) {
    !IsBlank(line) && !StartsWith(line, "//")
  }

  /** `line.split()[0]` for a line that is not blank. */
  function FirstWord(line: string): (w: string)
    requires !IsBlank(line)
    ensures |w| > 0 && forall i :: 0 <= i < |w| ==> !IsSpace(w[i])
  {
    WordsOfNonBlank(line);
    Words(line)[0]
  }

  /** `[line.split()[0] for line in lines if marker in line]` over the kept lines. */
  function FirstWords(lines: seq<string>, marker: string): (ws: seq<string>)
    ensures |ws| <= |lines|
    ensures forall k :: 0 <= k < |ws| ==> |ws[k]| > 0
  {
    if |lines| == 0 then []
    else
      var head := if Kept(lines[0]) && Contains(lines[0], marker) then [FirstWord(lines[0])] else [];
      head + FirstWords(lines[1..], marker)
  }

  /** `concept_dict(db_schema)`. */
  function ConceptDict(schema: string): (c: Concepts)
    ensures var lines := |Split(schema, '\n')|; |c.entity| <= lines && |c.attribute| <= lines && |c.relation| <= lines
    ensures forall k :: 0 <= k < |c.entity| ==> |c.entity[k]| > 0
    ensures forall k :: 0 <= k < |c.attribute| ==> |c.attribute[k]| > 0
    ensures forall k :: 0 <= k < |c.relation| ==> |c.relation[k]| > 0
  {
    var lines := Split(schema, '\n');
    Concepts(FirstWords(lines, "sub entity"), FirstWords(lines, "sub attribute"), FirstWords(lines, "sub relation"))
  }

  /** What one schema line contributes to a list. */
  function LineContribution(line: string, marker: string): seq<string> {
    if Kept(line) && Contains(line, marker) then [FirstWord(line)] else []
  }

  lemma {:induction false} FirstWordsAppend(a: seq<string>, b: seq<string>, marker: string)
    ensures FirstWords(a + b, marker) == FirstWords(a, marker) + FirstWords(b, marker)
    decreases |a|
  {
    if |a| > 0 {
      assert (a + b)[1..] == a[1..] + b;
      FirstWordsAppend(a[1..], b, marker);
    } else {
      assert a + b == b;
    }
  }

  /**
   * Parsing two schema texts joined by a newline gives, kind by kind, the
   * concepts of the first followed by those of the second: the lists keep
   * source order.
   */
  lemma ConceptDictConcat(a: string, b: string)
    ensures ConceptDict(a + "\n" + b).entity == ConceptDict(a).entity + ConceptDict(b).entity
    ensures ConceptDict(a + "\n" + b).attribute == ConceptDict(a).attribute + ConceptDict(b).attribute
    ensures ConceptDict(a + "\n" + b).relation == ConceptDict(a).relation + ConceptDict(b).relation
  {
    SplitConcat(a, '\n', b);
    var la := Split(a, '\n');
    var lb := Split(b, '\n');
    FirstWordsAppend(la, lb, "sub entity");
    FirstWordsAppend(la, lb, "sub attribute");
    FirstWordsAppend(la, lb, "sub relation");
  }

  /**
   * A single line contributes its first word to the list of each kind whose
   * `sub <kind>` it contains, and nothing when it is blank or a `//` comment.
   */
  lemma ConceptDictLine(line: string)
    requires '\n' !in line
    ensures ConceptDict(line).entity == LineContribution(line, "sub entity")
    ensures ConceptDict(line).attribute == LineContribution(line, "sub attribute")
    ensures ConceptDict(line).relation == LineContribution(line, "sub relation")
    ensures !Kept(line) ==> ConceptDict(line) == Concepts([], [], [])
  {
    SplitNoSep(line, '\n');
    assert [line][1..] == [];
  }

  // ---------------------------------------------------------------------------
  // pair_element_id

  /** Python truthiness of a slot value: a non-empty string, or a two-element list. */
  predicate Truthy(v: SlotValue) {
    match v
    case Word(w) => w != ""
    case Pair(_, _) => true
  }

  /** What `pair_element_id(e, eid, d_phrase)` returns, or the `IndexError` it lets escape. */
  datatype PairOutcome =
    | NoPair                                                 // None
    | Single(key: string, value: SlotValue)                  // {e: element}
    | Paired(key: string, element: SlotValue, id: SlotValue) // {'pair-<n>': [element, element_id]}
    | NoSuffix                                               // `e.split("-")[1]` raised IndexError

  /** `pair_element_id(e, eid, d_phrase)` over the string-keyed phrase dictionary. */
  function PairElementId(e: string, eid: string, d: map<string, SlotValue>): (r: PairOutcome)
    ensures r == NoPair <==> e !in d || !Truthy(d[e])
    ensures r.Single? ==> r.key == e && e in d && r.value == d[e] && (eid !in d || !Truthy(d[eid]))
    ensures r.Paired? ==>
      && e in d && eid in d && r.element == d[e] && r.id == d[eid] && Truthy(d[eid])
      && Field(e, '-', 1).Some? && r.key == "pair-" + Field(e, '-', 1).value
    ensures r == NoSuffix <==> e in d && Truthy(d[e]) && eid in d && Truthy(d[eid]) && '-' !in e
  {
    if e !in d || !Truthy(d[e]) then NoPair
    else if eid in d && Truthy(d[eid]) then
      if '-' !in e then
        SplitNoSep(e, '-');
        NoSuffix
      else
        SplitMany(e, '-');
        var suffix := Split(e, '-')[1];
        Paired("pair-" + suffix, d[e], d[eid])
    else Single(e, d[e])
  }

  /** `element-<n>` with a truthy id is renamed `pair-<n>`: the element slot's number carries over. */
  lemma ElementKeyBecomesPairKey(n: string, eid: string, d: map<string, SlotValue>)
    requires '-' !in n
    requires "element-" + n in d && Truthy(d["element-" + n])
    requires eid in d && Truthy(d[eid])
    ensures PairElementId("element-" + n, eid, d) == Paired("pair-" + n, d["element-" + n], d[eid])
  {
    assert "element-" + n == "element" + ['-'] + n;
    SplitAppend("element", '-', n);
    SplitNoSep(n, '-');
  }

  // ---------------------------------------------------------------------------
  // find_paths

  /** A nested dictionary, its items in insertion order. */
  datatype Node = Node(items: seq<Item>)
  datatype Item = Item(key: string, value: Value)
  datatype Value = Scalar(text: string) | Sub(node: Node)

  /**
   * The paths `find_paths` collects from the items at index `i` onward:
   * a key equal to `leaf` ends a path there; any other key whose value is a
   * dictionary is searched below.
   */
  function PathsFrom(d: Node, leaf: string, cur: seq<string>, i: nat): seq<seq<string>>
    requires i <= |d.items|
    decreases d, |d.items| - i + 1
  {
    if i == |d.items| then []
    else PathsAt(d, leaf, cur, i) + PathsFrom(d, leaf, cur, i + 1)
  }

  /** The paths contributed by the item at index `i`. */
  function PathsAt(d: Node, leaf: string, cur: seq<string>, i: nat): seq<seq<string>>
    requires i < |d.items|
    decreases d, 0
  {
    var it := d.items[i];
    var path := cur + [it.key];
    if it.key == leaf then [path]
    else if it.value.Sub? then PathsFrom(it.value.node, leaf, path, 0)
    else []
  }

  /**
   * `q` leads from `d` to a key `leaf`: each step names a key present at that
   * level, no step before the last is `leaf`, and every step but the last
   * holds a dictionary.
   */
  predicate LeafPath(d: Node, leaf: string, q: seq<string>)
    decreases |q|
  {
    |q| > 0 &&
    exists i :: 0 <= i < |d.items| && d.items[i].key == q[0] &&
      if |q| == 1 then q[0] == leaf
      else q[0] != leaf && d.items[i].value.Sub? && LeafPath(d.items[i].value.node, leaf, q[1..])
  }

  /** Every path found extends the current path by a path to the leaf key. */
  lemma {:induction false} PathsSound(d: Node, leaf: string, cur: seq<string>, i: nat, p: seq<string>)
    requires i <= |d.items|
    requires p in PathsFrom(d, leaf, cur, i)
    ensures |p| > |cur| && p[..|cur|] == cur && LeafPath(d, leaf, p[|cur|..])
    decreases d, |d.items| - i + 1
  {
    if p in PathsAt(d, leaf, cur, i) {
      PathsAtSound(d, leaf, cur, i, p);
    } else {
      PathsSound(d, leaf, cur, i + 1, p);
    }
  }

  lemma {:induction false} PathsAtSound(d: Node, leaf: string, cur: seq<string>, i: nat, p: seq<string>)
    requires i < |d.items|
    requires p in PathsAt(d, leaf, cur, i)
    ensures |p| > |cur| && p[..|cur|] == cur && LeafPath(d, leaf, p[|cur|..])
    decreases d, 0
  {
    var it := d.items[i];
    var path := cur + [it.key];
    if it.key == leaf {
      assert p == path;
      assert p[|cur|..] == [it.key];
    } else {
      PathsSound(it.value.node, leaf, path, 0, p);
      var q := p[|cur|..];
      assert q[0] == it.key;
      assert q[1..] == p[|path|..];
      assert p[..|cur|] == path[..|cur|];
    }
  }

  /** Every path to the leaf key below `d` is found, prefixed by the current path. */
  lemma {:induction false} PathsComplete(d: Node, leaf: string, cur: seq<string>, q: seq<string>)
    requires LeafPath(d, leaf, q)
    ensures cur + q in PathsFrom(d, leaf, cur, 0)
    decreases d
  {
    var i :| 0 <= i < |d.items| && d.items[i].key == q[0] &&
      if |q| == 1 then q[0] == leaf
      else q[0] != leaf && d.items[i].value.Sub? && LeafPath(d.items[i].value.node, leaf, q[1..]);
    var path := cur + [q[0]];
    if |q| == 1 {
      assert cur + q == path;
    } else {
      PathsComplete(d.items[i].value.node, leaf, path, q[1..]);
      assert cur + q == path + q[1..];
    }
    PathsAtInFrom(d, leaf, cur, 0, i, cur + q);
  }

  /** What the item at index `i` contributes is part of what the search from any earlier index collects. */
  lemma {:induction false} PathsAtInFrom(d: Node, leaf: string, cur: seq<string>, j: nat, i: nat, p: seq<string>)
    requires j <= i < |d.items|
    requires p in PathsAt(d, leaf, cur, i)
    ensures p in PathsFrom(d, leaf, cur, j)
    decreases i - j
  {
    if j < i {
      PathsAtInFrom(d, leaf, cur, j + 1, i, p);
    }
  }

  /** `find_paths(d, leaf_key, current_path)`, calling itself on nested dictionaries. */
  method FindPaths(d: Node, leaf: string, cur: seq<string>) returns (paths: seq<seq<string>>)
    ensures paths == PathsFrom(d, leaf, cur, 0)
    decreases d
  {
    paths := [];
    var i := 0;
    while i < |d.items|
      invariant 0 <= i <= |d.items|
      invariant paths + PathsFrom(d, leaf, cur, i) == PathsFrom(d, leaf, cur, 0)
    {
      var it := d.items[i];
      var path := cur + [it.key];
      var found: seq<seq<string>> := [];
      if it.key == leaf {
        found := [path];
      } else if it.value.Sub? {
        found := FindPaths(it.value.node, leaf, path);
      }
      assert found == PathsAt(d, leaf, cur, i);
      assert PathsFrom(d, leaf, cur, i) == found + PathsFrom(d, leaf, cur, i + 1);
      assert (paths + found) + PathsFrom(d, leaf, cur, i + 1) == paths + PathsFrom(d, leaf, cur, i);
      paths := paths + found;
      i := i + 1;
    }
  }
}
