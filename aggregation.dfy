/**
 * Relation and location aggregation of `get_relations`
 * (robot_db/python/typeDB_main/auxiliary.py:476-542): the closures
 * `retrieve_relations` and `retrieve_location`, lifted to top-level methods,
 * the row loop that drives them, and `filter_relations` (545-548).
 *
 * Each dictionary is a specification value (`RelDict`, `LocDict`) and a
 * class that holds it and is updated in place; the methods are proved
 * against the specification functions, and the invariants are proved about
 * those functions.
 */
module Aggregation {
  import opened Wrappers
  import opened Text
  import opened Classifier
  import opened Query

  /** The relation kinds `retrieve_relations` records. */
  const RelationKinds: set<string> := {"forming", "assembling", "composing", "linking", "positioning"}

  /** The targets `retrieve_location` records. */
  const LocationTargets: set<string> := {"equipment", "vessel", "storage"}

  predicate Distinct<T(==)>(s: seq<T>) {
    forall i, j :: 0 <= i < j < |s| ==> s[i] != s[j]
  }

  // ---------------------------------------------------------------------------
  // Relation dictionaries

  /** `[e1, tgl, tgn, re1]`: element, attribute type, attribute value (`None` when no tag was given), role. */
  datatype Entry = Entry(elem: string, attrType: string, tag: Option<string>, role: string)

  /** A value of a relation dictionary: the `{}` placeholder, a list of entries, or the lines `filter_relations` makes. */
  datatype RelValue = Placeholder | Entries(list: seq<Entry>) | Lines(lines: seq<string>)

  /** A relation dictionary: its keys in insertion order and its values. */
  datatype RelDict = RelDict(order: seq<string>, val: map<string, RelValue>)

  const EmptyRelDict: RelDict := RelDict([], map[])

  /** The dictionary has not been through `filter_relations` yet. */
  predicate Building(d: RelDict) {
    forall k :: k in d.val ==> !d.val[k].Lines?
  }

  /** `'element-type' in lz[1]`: a substring test on the attribute type. */
  predicate IsElementType(v: Entry) {
    Occurs(v.attrType, "element-type")
  }

  /** `l.remove(first entry whose attribute type mentions element-type)`, or `l` when there is none. */
  function RemoveFirstElementType(l: seq<Entry>): (r: seq<Entry>)
    ensures |r| <= |l|
  {
    if |l| == 0 then []
    else if IsElementType(l[0]) then l[1..]
    else [l[0]] + RemoveFirstElementType(l[1..])
  }

  /** A list without element-type entries is kept as it is. */
  lemma {:induction false} NoElementTypeKept(l: seq<Entry>)
    requires forall i :: 0 <= i < |l| ==> !IsElementType(l[i])
    ensures RemoveFirstElementType(l) == l
    decreases |l|
  {
    if |l| > 0 {
      assert forall i :: 0 <= i < |l[1..]| ==> l[1..][i] == l[i + 1];
      NoElementTypeKept(l[1..]);
      assert [l[0]] + l[1..] == l;
    }
  }

  /** Exactly the first element-type entry is removed. */
  lemma {:induction false} FirstElementTypeRemoved(l: seq<Entry>, i: nat)
    requires i < |l| && IsElementType(l[i])
    requires forall j :: 0 <= j < i ==> !IsElementType(l[j])
    ensures RemoveFirstElementType(l) == l[..i] + l[i + 1..]
    decreases i
  {
    if i > 0 {
      assert forall j :: 0 <= j < i - 1 ==> l[1..][j] == l[j + 1];
      FirstElementTypeRemoved(l[1..], i - 1);
      assert [l[0]] + (l[1..][..i - 1] + l[1..][i..]) == l[..i] + l[i + 1..];
    }
  }

  /** What the removal keeps: only entries of `l`, every entry that is not an element-type entry, all but at most one. */
  lemma {:induction false} RemoveFirstElementTypeKeeps(l: seq<Entry>)
    ensures forall x :: x in RemoveFirstElementType(l) ==> x in l
    ensures forall x :: x in l && !IsElementType(x) ==> x in RemoveFirstElementType(l)
    ensures |RemoveFirstElementType(l)| >= |l| - 1
    decreases |l|
  {
    if |l| > 0 {
      RemoveFirstElementTypeKeeps(l[1..]);
      assert forall x :: x in l ==> x == l[0] || x in l[1..];
    }
  }

  /** Every entry after the first is a tag-number entry. */
  predicate TagTail(l: seq<Entry>) {
    forall i :: 1 <= i < |l| ==> l[i].attrType == "tag-number"
  }

  /** The entry lists a relation dictionary keeps: no duplicate, no placeholder role, tag-number entries after the first. */
  predicate SoundList(l: seq<Entry>) {
    && Distinct(l)
    && TagTail(l)
    && (forall i :: 0 <= i < |l| ==> l[i].role != "role")
  }

  /** The invariant of a relation dictionary under construction. */
  ghost predicate Sound(d: RelDict) {
    && Distinct(d.order)
    && (forall k :: k in d.val <==> k in d.order)
    && (forall k :: k in d.val ==> k in RelationKinds && !d.val[k].Lines?)
    && (forall k :: k in d.val && d.val[k].Entries? ==> SoundList(d.val[k].list))
  }

  /** `r_dict` after `retrieve_relations(r, e1, tgl, tgn, re1, re2, r_dict)`. */
  function AfterRelationRow(d: RelDict, r: string, e1: string, tgl: string, tgn: Option<string>, re1: string, re2: string): (d': RelDict)
    requires Building(d)
    ensures Building(d')
  {
    if r !in RelationKinds then d
    else
      var d1 := if r in d.val then d else RelDict(d.order + [r], d.val[r := Placeholder]);
      if re1 == "role" || re2 == "role" then d1
      else
        var v := Entry(e1, tgl, tgn, re1);
        if d1.val[r].Entries? then
          var l := d1.val[r].list;
          if v in l then d1
          else
            var l1 := RemoveFirstElementType(l);
            RelDict(d1.order, d1.val[r := Entries(if tgl == "tag-number" then l1 + [v] else l1)])
        else RelDict(d1.order, d1.val[r := Entries([v])])
  }

  /** Keys are only ever added, and only for the five relation kinds. */
  lemma RelationKeysWhitelisted(d: RelDict, r: string, e1: string, tgl: string, tgn: Option<string>, re1: string, re2: string)
    requires Building(d)
    ensures AfterRelationRow(d, r, e1, tgl, tgn, re1, re2).val.Keys
      == if r in RelationKinds then d.val.Keys + {r} else d.val.Keys
  {
  }

  /** A row with the placeholder role on either side adds no entry: at most the `{}` placeholder appears. */
  lemma RoleRowAddsNoEntry(d: RelDict, r: string, e1: string, tgl: string, tgn: Option<string>, re1: string, re2: string)
    requires Building(d)
    requires re1 == "role" || re2 == "role"
    ensures var d' := AfterRelationRow(d, r, e1, tgl, tgn, re1, re2);
      forall k :: k in d'.val ==> d'.val[k] == if k in d.val then d.val[k] else Placeholder
  {
  }

  /** The first entry of a fresh key is stored whatever its attribute type. */
  lemma FirstRowStored(d: RelDict, r: string, e1: string, tgl: string, tgn: Option<string>, re1: string, re2: string)
    requires Building(d)
    requires r in RelationKinds && re1 != "role" && re2 != "role"
    requires r !in d.val || d.val[r] == Placeholder
    ensures AfterRelationRow(d, r, e1, tgl, tgn, re1, re2).val[r] == Entries([Entry(e1, tgl, tgn, re1)])
  {
  }

  /**
   * Once a list exists it gains only tag-number entries, never a duplicate,
   * loses nothing but at most one element-type entry, and a row already
   * present changes nothing.
   */
  lemma ExistingListUpdate(d: RelDict, r: string, e1: string, tgl: string, tgn: Option<string>, re1: string, re2: string, l: seq<Entry>)
    requires Building(d)
    requires r in RelationKinds && re1 != "role" && re2 != "role"
    requires r in d.val && d.val[r] == Entries(l)
    ensures var d' := AfterRelationRow(d, r, e1, tgl, tgn, re1, re2);
      var v := Entry(e1, tgl, tgn, re1);
      && d'.val[r].Entries?
      && (v in l ==> d'.val[r].list == l)
      && (forall x :: x in d'.val[r].list ==> x in l || (x == v && tgl == "tag-number"))
      && (forall x :: x in l && !IsElementType(x) ==> x in d'.val[r].list)
      && (v !in l && tgl == "tag-number" ==> v in d'.val[r].list)
      && |d'.val[r].list| >= |l| - 1
  {
    var v := Entry(e1, tgl, tgn, re1);
    if v !in l {
      RemoveFirstElementTypeKeeps(l);
    }
  }

  lemma {:induction false} DistinctRemoveAt<T>(l: seq<T>, i: nat)
    requires Distinct(l) && i < |l|
    ensures Distinct(l[..i] + l[i + 1..])
    ensures forall x :: x in l[..i] + l[i + 1..] ==> x in l
  {
    var r := l[..i] + l[i + 1..];
    forall a, b | 0 <= a < b < |r|
      ensures r[a] != r[b]
    {
      var a' := if a < i then a else a + 1;
      var b' := if b < i then b else b + 1;
      assert r[a] == l[a'] && r[b] == l[b'];
    }
    forall x | x in r
      ensures x in l
    {
      var j :| 0 <= j < |r| && r[j] == x;
      assert x == l[if j < i then j else j + 1];
    }
  }

  /** An attribute type equal to `tag-number` does not mention `element-type`. */
  lemma TagNumberIsNotElementType(v: Entry)
    requires v.attrType == "tag-number"
    ensures !IsElementType(v)
  {
  }

  /** In a sound list only the first entry can be an element-type entry. */
  lemma OnlyHeadElementType(l: seq<Entry>, i: nat)
    requires TagTail(l) && 0 < i < |l|
    ensures !IsElementType(l[i])
  {
    TagNumberIsNotElementType(l[i]);
  }

  /** The list update of `retrieve_relations` keeps a list sound. */
  lemma {:induction false} SoundListUpdate(l: seq<Entry>, v: Entry)
    requires SoundList(l) && v !in l && v.role != "role"
    ensures SoundList(RemoveFirstElementType(l))
    ensures v.attrType == "tag-number" ==> SoundList(RemoveFirstElementType(l) + [v])
  {
    var l1 := RemoveFirstElementType(l);
    SoundListRemove(l);
    if v.attrType == "tag-number" {
      assert v !in l1;
      DistinctAppend(l1, v);
    }
  }

  /** Dropping the element-type entry keeps a list sound and adds nothing to it. */
  lemma {:induction false} SoundListRemove(l: seq<Entry>)
    requires SoundList(l)
    ensures SoundList(RemoveFirstElementType(l))
    ensures forall x :: x in RemoveFirstElementType(l) ==> x in l
  {
    if |l| > 0 && IsElementType(l[0]) {
      DistinctRemoveAt(l, 0);
      assert RemoveFirstElementType(l) == l[..0] + l[1..];
    } else {
      forall i | 0 <= i < |l|
        ensures !IsElementType(l[i])
      {
        if i > 0 {
          OnlyHeadElementType(l, i);
        }
      }
      NoElementTypeKept(l);
    }
  }

  /** `retrieve_relations` keeps a relation dictionary sound. */
  lemma AfterRelationRowSound(d: RelDict, r: string, e1: string, tgl: string, tgn: Option<string>, re1: string, re2: string)
    requires Sound(d)
    ensures Sound(AfterRelationRow(d, r, e1, tgl, tgn, re1, re2))
  {
    if r in RelationKinds && r !in d.val {
      var o := d.order + [r];
      forall a, b | 0 <= a < b < |o|
        ensures o[a] != o[b]
      {
        if b == |d.order| {
          assert o[a] in d.order;
        }
      }
    }
    var v := Entry(e1, tgl, tgn, re1);
    if r in RelationKinds && re1 != "role" && re2 != "role" && r in d.val && d.val[r].Entries? && v !in d.val[r].list {
      SoundListUpdate(d.val[r].list, v);
    }
  }

  /** The line `filter_relations` makes of one entry: `"<e> <tag> ▶ <role>"`, with an absent tag shown as `None`. */
  function EntryLine(v: Entry): string {
    v.elem + " " + TagText(v.tag) + " ▶ " + v.role
  }

  /** Python's `str` of the tag value. */
  function TagText(t: Option<string>): string {
    match t
    case None => "None"
    case Some(s) => s
  }

  /** The lines for one value: the placeholder `{}` maps to an empty list. */
  function ValueLines(v: RelValue): seq<string> {
    match v
    case Placeholder => []
    case Entries(l) => seq(|l|, i requires 0 <= i < |l| => EntryLine(l[i]))
    case Lines(ls) => ls
  }

  /** `filter_relations(p_dict)`. */
  function Filtered(d: RelDict): (f: RelDict)
    ensures f.order == d.order && f.val.Keys == d.val.Keys
    ensures forall k :: k in f.val ==> f.val[k].Lines?
  {
    RelDict(d.order, map k | k in d.val :: Lines(ValueLines(d.val[k])))
  }

  /**
   * The text before `▶` in a filtered line is the element and its tag,
   * each followed by a space, when neither holds a `▶` itself.
   */
  lemma EntryLinePrefix(v: Entry)
    requires '▶' !in v.elem && '▶' !in TagText(v.tag)
    ensures Before(EntryLine(v), '▶') == v.elem + " " + TagText(v.tag) + " "
  {
    var a := v.elem + " " + TagText(v.tag) + " ";
    assert '▶' !in a;
    assert EntryLine(v) == a + ['▶'] + (" " + v.role);
    SplitAppend(a, '▶', " " + v.role);
    SplitHead(EntryLine(v), '▶');
  }

  /** Filtering keeps every key and its position, and turns each list into as many lines, in order. */
  lemma FilteredShape(d: RelDict, k: string)
    requires Building(d) && k in d.val
    ensures Filtered(d).order == d.order && Filtered(d).val.Keys == d.val.Keys
    ensures Filtered(d).val[k].Lines?
    ensures |Filtered(d).val[k].lines| == if d.val[k].Entries? then |d.val[k].list| else 0
    ensures d.val[k].Entries? ==> forall i :: 0 <= i < |d.val[k].list| ==>
      Before(Filtered(d).val[k].lines[i], '▶') == d.val[k].list[i].elem + " " + TagText(d.val[k].list[i].tag) + " "
      || '▶' in d.val[k].list[i].elem || '▶' in TagText(d.val[k].list[i].tag)
  {
    if d.val[k].Entries? {
      var l := d.val[k].list;
      forall i | 0 <= i < |l| && '▶' !in l[i].elem && '▶' !in TagText(l[i].tag)
        ensures Before(Filtered(d).val[k].lines[i], '▶') == l[i].elem + " " + TagText(l[i].tag) + " "
      {
        EntryLinePrefix(l[i]);
      }
    }
  }

  /** A relation dictionary held by a variable of `get_relations`, updated in place. */
  class RelationTable {
    var order: seq<string>
    var val: map<string, RelValue>

    function State(): RelDict
      reads this
    {
      RelDict(order, val)
    }

    constructor ()
      ensures State() == EmptyRelDict
    {
      order := [];
      val := map[];
    }

    /** `retrieve_relations(r, e1, tgl, tgn, re1, re2, r_dict)`. */
    method RetrieveRelations(r: string, e1: string, tgl: string, tgn: Option<string>, re1: string, re2: string)
      requires Building(State())
      modifies this
      ensures State() == AfterRelationRow(old(State()), r, e1, tgl, tgn, re1, re2)
    {
      if r in RelationKinds {
        if r !in val {
          order := order + [r];
          val := val[r := Placeholder];
        }
        if re1 != "role" && re2 != "role" {
          var v := Entry(e1, tgl, tgn, re1);
          if val[r].Entries? {
            var l := val[r].list;
            if v !in l {
              var l1 := RemoveFirstElementType(l);
              if tgl == "tag-number" {
                l1 := l1 + [v];
              }
              val := val[r := Entries(l1)];
            }
          } else {
            val := val[r := Entries([v])];
          }
        }
      }
    }

    /** `filter_relations(p_dict)`: rewrite every value into its lines, key by key. */
    method FilterRelations()
      requires Building(State())
      requires Distinct(order) && forall k :: k in val <==> k in order
      modifies this
      ensures State() == Filtered(old(State()))
    {
      var i := 0;
      while i < |order|
        invariant 0 <= i <= |order|
        invariant order == old(order)
        invariant val.Keys == old(val).Keys
        invariant forall k :: k in val ==> val[k] == if k in order[..i] then Lines(ValueLines(old(val)[k])) else old(val)[k]
      {
        var k := order[i];
        assert forall j :: 0 <= j < i ==> order[j] != k;
        val := val[k := Lines(ValueLines(val[k]))];
        assert order[..i + 1] == order[..i] + [k];
        i := i + 1;
      }
      assert order[..i] == order;
    }
  }

  // ---------------------------------------------------------------------------
  // Location facts

  /** `l_d[target]`: `[t_role, t_tag]`. */
  datatype Located = Located(role: string, tag: string)

  /** `l_dict`: targets in insertion order and their latest role and tag. */
  datatype LocDict = LocDict(order: seq<string>, at: map<string, Located>)

  /** An item `[target, t_tag]` of a location-pair list. */
  datatype LocPair = LocPair(target: string, tag: string)

  const EmptyLocDict: LocDict := LocDict([], map[])

  /** The row `retrieve_location` records: a known target, no placeholder role, a tag-number attribute. */
  predicate Recorded(target: string, eRole: string, tRole: string, tType: string) {
    target in LocationTargets && eRole != "role" && tRole != "role" && tType == "tag-number"
  }

  /** `(l_d, l_pair)` after `retrieve_location(target, e_role, t_role, t_tag, t_type, l_d, l_pair)`. */
  function AfterLocationRow(l: LocDict, p: seq<LocPair>, target: string, eRole: string, tRole: string, tTag: string, tType: string): (r: (LocDict, seq<LocPair>))
    ensures !Recorded(target, eRole, tRole, tType) ==> r == (l, p)
    ensures Recorded(target, eRole, tRole, tType) ==> target in r.0.at && r.0.at[target] == Located(tRole, tTag) && LocPair(target, tTag) in r.1
    ensures |p| <= |r.1| <= |p| + 1 && r.1[..|p|] == p
  {
    if Recorded(target, eRole, tRole, tType) then
      var order := if target in l.at then l.order else l.order + [target];
      var pair := LocPair(target, tTag);
      (LocDict(order, l.at[target := Located(tRole, tTag)]), if pair in p then p else p + [pair])
    else (l, p)
  }

  /** The invariant of the location facts: known targets, keys in order once each, no duplicate pair. */
  ghost predicate LocSound(l: LocDict, p: seq<LocPair>) {
    && Distinct(l.order)
    && (forall k :: k in l.at <==> k in l.order)
    && (forall k :: k in l.at ==> k in LocationTargets)
    && Distinct(p)
    && (forall i :: 0 <= i < |p| ==> p[i].target in LocationTargets)
  }

  /**
   * A recorded row overwrites `l_d[target]` with its latest role and tag and
   * appends `[target, tag]` unless present; any other row changes nothing.
   * The pair list only grows at its end, by at most one item.
   */
  lemma LocationRowEffect(l: LocDict, p: seq<LocPair>, target: string, eRole: string, tRole: string, tTag: string, tType: string)
    ensures var (l', p') := AfterLocationRow(l, p, target, eRole, tRole, tTag, tType);
      && (Recorded(target, eRole, tRole, tType) ==> target in l'.at && l'.at[target] == Located(tRole, tTag) && LocPair(target, tTag) in p')
      && (!Recorded(target, eRole, tRole, tType) ==> l' == l && p' == p)
      && (forall k :: k in l.at && k != target ==> k in l'.at && l'.at[k] == l.at[k])
      && |p| <= |p'| <= |p| + 1 && p'[..|p|] == p
  {
  }

  /** `retrieve_location` keeps the location facts sound. */
  lemma AfterLocationRowSound(l: LocDict, p: seq<LocPair>, target: string, eRole: string, tRole: string, tTag: string, tType: string)
    requires LocSound(l, p)
    ensures var (l', p') := AfterLocationRow(l, p, target, eRole, tRole, tTag, tType); LocSound(l', p')
  {
    if Recorded(target, eRole, tRole, tType) {
      if target !in l.at {
        DistinctAppend(l.order, target);
      }
      if LocPair(target, tTag) !in p {
        DistinctAppend(p, LocPair(target, tTag));
      }
    }
  }

  lemma DistinctAppend<T>(s: seq<T>, x: T)
    requires Distinct(s) && x !in s
    ensures Distinct(s + [x])
  {
    var s' := s + [x];
    forall a, b | 0 <= a < b < |s'|
      ensures s'[a] != s'[b]
    {
      if b == |s| {
        assert s'[a] in s;
      }
    }
  }

  /** The dictionary `l_dict` of `get_relations`, updated in place. */
  class LocationBook {
    var order: seq<string>
    var at: map<string, Located>

    function State(): LocDict
      reads this
    {
      LocDict(order, at)
    }

    constructor ()
      ensures State() == EmptyLocDict
    {
      order := [];
      at := map[];
    }
  }

  /** A list `location_pair1` or `location_pair2` of `get_relations`, appended to in place. */
  class PairList {
    var items: seq<LocPair>

    constructor ()
      ensures items == []
    {
      items := [];
    }
  }

  /** `retrieve_location(target, e_role, t_role, t_tag, t_type, l_d, l_pair)`. */
  method RetrieveLocation(target: string, eRole: string, tRole: string, tTag: string, tType: string, book: LocationBook, pairs: PairList)
    modifies book, pairs
    ensures (book.State(), pairs.items) == AfterLocationRow(old(book.State()), old(pairs.items), target, eRole, tRole, tTag, tType)
  {
    if target == "equipment" || target == "vessel" || target == "storage" {
      if eRole != "role" && tRole != "role" {
        if tType == "tag-number" {
          if target !in book.at {
            book.order := book.order + [target];
          }
          book.at := book.at[target := Located(tRole, tTag)];
          if LocPair(target, tTag) !in pairs.items {
            pairs.items := pairs.items + [LocPair(target, tTag)];
          }
        }
      }
    }
  }

  // ---------------------------------------------------------------------------
  // The row loop of get_relations

  /** The variables a row binds when `pair2` is given: `z`, `w`, their roles, `s` and its type, `rxz`, `rwz`. */
  datatype PairRow = PairRow(z: string, w: string, rz: string, r2x: string, rw: string, r2z: string,
                             s: string, ss: string, rxz: string, rwz: string)

  /** One answer of the relation query, as labels and attribute values. */
  datatype Row = Row(x: string, y: string, rxy: string, rx: string, ry: string, t: string, tt: string, pair: Option<PairRow>)

  /** Everything the row loop builds. */
  datatype Aggregate = Aggregate(rxy: RelDict, rxz: RelDict, rwz: RelDict, locations: LocDict,
                                 pairs1: seq<LocPair>, pairs2: seq<LocPair>)

  const EmptyAggregate: Aggregate := Aggregate(EmptyRelDict, EmptyRelDict, EmptyRelDict, EmptyLocDict, [], [])

  /** Rows of the query with `pair2` bind the pair variables. */
  predicate RowsFit(rows: seq<Row>, withPair: bool) {
    withPair ==> forall i :: 0 <= i < |rows| ==> rows[i].pair.Some?
  }

  predicate AggregateBuilding(a: Aggregate) {
    Building(a.rxy) && Building(a.rxz) && Building(a.rwz)
  }

  /** One iteration of `for i in iterator_r`. */
  function RowStep(a: Aggregate, row: Row, tag: Option<string>, withPair: bool): (a': Aggregate)
    requires AggregateBuilding(a)
    requires withPair ==> row.pair.Some?
    ensures AggregateBuilding(a')
  {
    var (l1, p1) := AfterLocationRow(a.locations, a.pairs1, row.y, row.rx, row.ry, row.t, row.tt);
    var b := if withPair then
        var pr := row.pair.value;
        var (l2, p2) := AfterLocationRow(l1, a.pairs2, pr.w, pr.r2z, pr.rw, pr.s, pr.ss);
        Aggregate(a.rxy,
                  AfterRelationRow(a.rxz, pr.rxz, row.x, row.tt, tag, pr.r2x, pr.rz),
                  AfterRelationRow(a.rwz, pr.rwz, pr.w, pr.ss, Some(pr.s), pr.rw, pr.rw),
                  l2, p1, p2)
      else Aggregate(a.rxy, a.rxz, a.rwz, l1, p1, a.pairs2);
    b.(rxy := AfterRelationRow(b.rxy, row.rxy, row.y, row.tt, Some(row.t), row.ry, row.rx))
  }

  /** The state after the loop has consumed `rows`, one row at a time. */
  function AggregateRows(rows: seq<Row>, tag: Option<string>, withPair: bool): (a: Aggregate)
    requires RowsFit(rows, withPair)
    ensures AggregateBuilding(a)
    decreases |rows|
  {
    if |rows| == 0 then EmptyAggregate
    else RowStep(AggregateRows(rows[..|rows| - 1], tag, withPair), rows[|rows| - 1], tag, withPair)
  }

  ghost predicate AggregateSound(a: Aggregate) {
    Sound(a.rxy) && Sound(a.rxz) && Sound(a.rwz) && LocSound(a.locations, a.pairs1)
    && Distinct(a.pairs2) && (forall i :: 0 <= i < |a.pairs2| ==> a.pairs2[i].target in LocationTargets)
  }

  lemma RowStepSound(a: Aggregate, row: Row, tag: Option<string>, withPair: bool)
    requires AggregateBuilding(a) && AggregateSound(a)
    requires withPair ==> row.pair.Some?
    ensures AggregateSound(RowStep(a, row, tag, withPair))
  {
    AfterLocationRowSound(a.locations, a.pairs1, row.y, row.rx, row.ry, row.t, row.tt);
    var (l1, p1) := AfterLocationRow(a.locations, a.pairs1, row.y, row.rx, row.ry, row.t, row.tt);
    if withPair {
      var pr := row.pair.value;
      AfterLocationRowSound(l1, a.pairs2, pr.w, pr.r2z, pr.rw, pr.s, pr.ss);
      AfterRelationRowSound(a.rxz, pr.rxz, row.x, row.tt, tag, pr.r2x, pr.rz);
      AfterRelationRowSound(a.rwz, pr.rwz, pr.w, pr.ss, Some(pr.s), pr.rw, pr.rw);
    }
    AfterRelationRowSound(a.rxy, row.rxy, row.y, row.tt, Some(row.t), row.ry, row.rx);
  }

  /**
   * Whatever the rows, the loop leaves relation dictionaries keyed only by
   * the five relation kinds, whose lists have no duplicate and no
   * placeholder role and hold tag-number entries after the first, and
   * location facts with known targets and no duplicate pair.
   */
  lemma {:induction false} AggregateRowsSound(rows: seq<Row>, tag: Option<string>, withPair: bool)
    requires RowsFit(rows, withPair)
    ensures AggregateSound(AggregateRows(rows, tag, withPair))
    decreases |rows|
  {
    if |rows| > 0 {
      var prefix := rows[..|rows| - 1];
      assert RowsFit(prefix, withPair) by {
        if withPair {
          forall i | 0 <= i < |prefix|
            ensures prefix[i].pair.Some?
          {
            assert prefix[i] == rows[i];
          }
        }
      }
      AggregateRowsSound(prefix, tag, withPair);
      RowStepSound(AggregateRows(prefix, tag, withPair), rows[|rows| - 1], tag, withPair);
    }
  }

  /** Without `pair2` the `xz` and `wz` dictionaries and the second pair list stay empty. */
  lemma {:induction false} NoPairNoSecondFacts(rows: seq<Row>, tag: Option<string>)
    ensures var a := AggregateRows(rows, tag, false);
      a.rxz == EmptyRelDict && a.rwz == EmptyRelDict && a.pairs2 == []
    decreases |rows|
  {
    if |rows| > 0 {
      NoPairNoSecondFacts(rows[..|rows| - 1], tag);
    }
  }

  /** The body of `for i in iterator_r` for one row. */
  method ConsumeRow(row: Row, tag: Option<string>, withPair: bool, rxy: RelationTable, rxz: RelationTable, rwz: RelationTable,
                    book: LocationBook, pairs1: PairList, pairs2: PairList)
    requires withPair ==> row.pair.Some?
    requires rxy != rxz && rxy != rwz && rxz != rwz && pairs1 != pairs2
    requires AggregateBuilding(Aggregate(rxy.State(), rxz.State(), rwz.State(), book.State(), pairs1.items, pairs2.items))
    modifies rxy, rxz, rwz, book, pairs1, pairs2
    ensures Aggregate(rxy.State(), rxz.State(), rwz.State(), book.State(), pairs1.items, pairs2.items)
      == RowStep(old(Aggregate(rxy.State(), rxz.State(), rwz.State(), book.State(), pairs1.items, pairs2.items)), row, tag, withPair)
  {
    RetrieveLocation(row.y, row.rx, row.ry, row.t, row.tt, book, pairs1);
    if withPair {
      var pr := row.pair.value;
      RetrieveLocation(pr.w, pr.r2z, pr.rw, pr.s, pr.ss, book, pairs2);
      rxz.RetrieveRelations(pr.rxz, row.x, row.tt, tag, pr.r2x, pr.rz);
      rwz.RetrieveRelations(pr.rwz, pr.w, pr.ss, Some(pr.s), pr.rw, pr.rw);
    }
    rxy.RetrieveRelations(row.rxy, row.y, row.tt, Some(row.t), row.ry, row.rx);
  }

  /** Consuming one more row is one more `RowStep`. */
  lemma AggregateRowsNext(rows: seq<Row>, tag: Option<string>, withPair: bool, i: nat)
    requires i < |rows| && RowsFit(rows, withPair)
    ensures RowsFit(rows[..i], withPair) && RowsFit(rows[..i + 1], withPair)
    ensures AggregateRows(rows[..i + 1], tag, withPair) == RowStep(AggregateRows(rows[..i], tag, withPair), rows[i], tag, withPair)
  {
    assert rows[..i + 1][..i] == rows[..i];
    assert rows[..i + 1][i] == rows[i];
  }

  /** The row loop of `get_relations` (auxiliary.py:506-536). */
  method ConsumeRows(rows: seq<Row>, tag: Option<string>, withPair: bool)
    returns (rxy: RelationTable, rxz: RelationTable, rwz: RelationTable, book: LocationBook, pairs1: PairList, pairs2: PairList)
    requires RowsFit(rows, withPair)
    ensures rxy != rxz && rxy != rwz && rxz != rwz
    ensures fresh(rxy) && fresh(rxz) && fresh(rwz)
    ensures Aggregate(rxy.State(), rxz.State(), rwz.State(), book.State(), pairs1.items, pairs2.items)
      == AggregateRows(rows, tag, withPair)
  {
    rxy := new RelationTable();
    rxz := new RelationTable();
    rwz := new RelationTable();
    book := new LocationBook();
    pairs1 := new PairList();
    pairs2 := new PairList();
    var i := 0;
    assert rows[..0] == [];
    while i < |rows|
      invariant 0 <= i <= |rows|
      invariant fresh(rxy) && fresh(rxz) && fresh(rwz) && fresh(book) && fresh(pairs1) && fresh(pairs2)
      invariant RowsFit(rows[..i], withPair)
      invariant Aggregate(rxy.State(), rxz.State(), rwz.State(), book.State(), pairs1.items, pairs2.items)
        == AggregateRows(rows[..i], tag, withPair)
    {
      AggregateRowsNext(rows, tag, withPair, i);
      ConsumeRow(rows[i], tag, withPair, rxy, rxz, rwz, book, pairs1, pairs2);
      i := i + 1;
    }
    assert rows[..i] == rows;
  }

  /** The row loop of `get_relations`, with the three relation dictionaries filtered at the end. */
  method CollectRelations(rows: seq<Row>, tag: Option<string>, withPair: bool)
    returns (rxy: RelationTable, rxz: RelationTable, rwz: RelationTable, book: LocationBook, pairs1: PairList, pairs2: PairList)
    requires RowsFit(rows, withPair)
    ensures var a := AggregateRows(rows, tag, withPair);
      && rxy.State() == Filtered(a.rxy) && rxz.State() == Filtered(a.rxz) && rwz.State() == Filtered(a.rwz)
      && book.State() == a.locations && pairs1.items == a.pairs1 && pairs2.items == a.pairs2
  {
    rxy, rxz, rwz, book, pairs1, pairs2 := ConsumeRows(rows, tag, withPair);
    AggregateRowsSound(rows, tag, withPair);
    rxy.FilterRelations();
    rxz.FilterRelations();
    rwz.FilterRelations();
  }

  // ---------------------------------------------------------------------------
  // get_relations as a whole

  /** One answer of the location query: `ln`, `lt`, `lg`, `wd` as text. */
  datatype LandmarkRow = LandmarkRow(name: string, latitude: string, longitude: string, depth: string)

  function CoordinateLine(m: LandmarkRow): string {
    "name: " + m.name + " | latitude: " + m.latitude + " | longitude: " + m.longitude + " | water-depth: " + m.depth
  }

  /** What `get_relations` returns: three filtered dictionaries, two pair lists, `l_dict` and the coordinates. */
  datatype Relations = Relations(rxy: RelDict, rxz: RelDict, rwz: RelDict, pairs1: seq<LocPair>, pairs2: seq<LocPair>,
                                 locations: LocDict, coordinates: seq<string>)

  /**
   * `get_relations(tx, elem, elem_type, tag, pair2, prep1)` with the store's
   * answers as inputs: `eType2` is `find_type(tx, pair2[0])`, `rows` the
   * answers of the relation query and `landmarks` those of the location
   * query. `None` when composing the query fails.
   */
  function GetRelations(elem: string, et: ElemType, tag: Option<string>, pair2: Option<(string, string)>, prep1: Option<string>,
                        eType2: Classification, rows: seq<Row>, landmarks: seq<LandmarkRow>): (r: Option<Relations>)
    requires RowsFit(rows, pair2.Some?)
    ensures r.Some? <==> RelationQuery(elem, et, tag, pair2, prep1, eType2).Some?
    ensures r.Some? && LocationQuery(elem, et, tag, pair2, prep1).None? ==> r.value.coordinates == []
  {
    if RelationQuery(elem, et, tag, pair2, prep1, eType2).None? then None
    else
      var coordinates := if LocationQuery(elem, et, tag, pair2, prep1).Some?
        then seq(|landmarks|, i requires 0 <= i < |landmarks| => CoordinateLine(landmarks[i])) else [];
      var a := AggregateRows(rows, tag, pair2.Some?);
      Some(Relations(Filtered(a.rxy), Filtered(a.rxz), Filtered(a.rwz), a.pairs1, a.pairs2, a.locations, coordinates))
  }

  /** Every key of a dictionary `get_relations` returns is one of the five relation kinds, and every line comes from a stored entry. */
  lemma GetRelationsKeys(elem: string, et: ElemType, tag: Option<string>, pair2: Option<(string, string)>, prep1: Option<string>,
                         eType2: Classification, rows: seq<Row>, landmarks: seq<LandmarkRow>)
    requires RowsFit(rows, pair2.Some?)
    requires GetRelations(elem, et, tag, pair2, prep1, eType2, rows, landmarks).Some?
    ensures var r := GetRelations(elem, et, tag, pair2, prep1, eType2, rows, landmarks).value;
      && (forall k :: k in r.rxy.val ==> k in RelationKinds && r.rxy.val[k].Lines?)
      && (forall k :: k in r.rxz.val ==> k in RelationKinds && r.rxz.val[k].Lines?)
      && (forall k :: k in r.rwz.val ==> k in RelationKinds && r.rwz.val[k].Lines?)
      && Distinct(r.pairs1) && Distinct(r.pairs2)
      && (pair2.None? ==> r.pairs2 == [] && r.rxz.val == map[] && r.rwz.val == map[])
  {
    AggregateRowsSound(rows, tag, pair2.Some?);
    if pair2.None? {
      NoPairNoSecondFacts(rows, tag);
    }
  }
}
