/**
 * Query-text composition: the match queries `get_relations` sends
 * (robot_db/python/typeDB_main/auxiliary.py:394-463) and the clause appender
 * `query_builder` (auxiliary.py:156-169).
 *
 * A query is a sequence of typed clauses; `Render` gives the exact text.
 */
module Query {
  import opened Wrappers
  import opened Text
  import opened Classifier

  /** `element_type(tx, element)`: the pair (type name, concept kind), read as `elem_type[0]`, `elem_type[1]`. */
  datatype ElemType = ElemType(name: string, kind: string)

  /** The clauses `get_relations` concatenates. */
  datatype Clause =
    | MatchEntity(elem: string, tag: Option<string>)                           // qrx_a
    | MatchAttribute(kind: string, attr: string, elem: string, tag: Option<string>) // qrx_b
    | MatchBare                                                                // 'match '
    | YTagOrType                                                               // qry
    | WTagOrType                                                               // qrw
    | ZEntity(head: string, headTag: string)                                   // qze
    | ZTyped(head: string, headTag: string)                                    // qza
    | Rel(rel: string, r1: string, v1: string, r2: string, v2: string)         // qr_xy, qr_xz, qr_wz
    | GetXY                                                                    // q_get
    | GetAll                                                                   // q_get2
    | Landmark                                                                 // ql1
    | Locating                                                                 // ql2
    | GetLandmark                                                              // qlg

  /** `not {$<r> type relation:role;}; `: the role variable may not be the root role. */
  function NotRole(r: string): string {
    "not {$" + r + " type relation:role;}; "
  }

  function TagPart(tag: Option<string>): string {
    match tag
    case None => ""
    case Some(t) => ", has tag-number \"" + t + "\""
  }

  /** The text of one clause. */
  function ClauseText(c: Clause): (t: string)
    ensures c.Rel? ==> Contains(t, NotRole(c.r1)) && Contains(t, NotRole(c.r2))
  {
    if c.Rel? then RelText(c.rel, c.r1, c.v1, c.r2, c.v2) else FixedText(c)
  }

  /** The text of a clause other than a relation clause. */
  function FixedText(c: Clause): string
    requires !c.Rel?
  {
    match c
    case MatchEntity(elem, tag) => "match $x isa " + elem + TagPart(tag) + "; "
    case MatchAttribute(kind, attr, elem, tag) =>
      "match $x isa " + kind + ", has " + attr + " \"" + elem + "\"" + TagPart(tag) + "; "
    case MatchBare => "match "
    case YTagOrType => "$y has $t; {$t isa tag-number;} or {$t isa element-type;}; "
    case WTagOrType => "$w has $s; {$s isa tag-number;} or {$s isa element-type;}; "
    case ZEntity(head, tag) => "$z isa " + head + ", has tag-number \"" + tag + "\"; "
    case ZTyped(head, tag) => "$z isa entity, has element-type \"" + head + "\", has tag-number \"" + tag + "\"; "
    case GetXY => "get $x, $rx, $y, $ry, $rxy, $t;"
    case GetAll => "get $x, $y, $z, $rx, $r2x, $r2z, $rw, $ry, $rz, $rxy, $rwz, $rxz, $t, $s;"
    case Landmark => "$lm isa landmark-point, has name $ln, has latitude $lt, has longitude $lg, has water-depth $wd; "
    case Locating => "$l(currently-located-at:$x, location:$lm) isa locating; "
    case GetLandmark => "get $lm, $ln, $lt, $lg, $wd;"
  }

  /** A relation clause: the relation pattern, then the exclusion of the root role for each role variable. */
  function RelText(rel: string, r1: string, v1: string, r2: string, v2: string): (t: string)
    ensures Contains(t, NotRole(r1)) && Contains(t, NotRole(r2))
  {
    var head := RelHead(rel, r1, v1, r2, v2);
    ContainsInfix(head, NotRole(r1), NotRole(r2));
    ContainsInfix(head + NotRole(r1), NotRole(r2), "");
    assert head + NotRole(r1) + NotRole(r2) + "" == head + NotRole(r1) + NotRole(r2);
    head + NotRole(r1) + NotRole(r2)
  }

  function RelHead(rel: string, r1: string, v1: string, r2: string, v2: string): string {
    "$" + rel + "($" + r1 + ":$" + v1 + ", $" + r2 + ":$" + v2 + ") isa relation; "
  }

  /** The query text: the clauses' texts, in order. */
  function Render(cs: seq<Clause>): string {
    Concat(seq(|cs|, i requires 0 <= i < |cs| => ClauseText(cs[i])))
  }

  const RelXY: Clause := Rel("rxy", "rx", "x", "ry", "y")
  const RelXZ: Clause := Rel("rxz", "r2x", "x", "rz", "z")
  const RelWZ: Clause := Rel("rwz", "r2z", "z", "rw", "w")

  /** Python truthiness of the optional tag: given and not empty. */
  function GivenTag(tag: Option<string>): Option<string> {
    if tag.Some? && tag.value != "" then tag else None
  }

  /**
   * `qrx_a` after the overrides of the `pair2` branch: `<surface> of ...`
   * takes the tag of `pair2`, and a tag equal to `pair2`'s leaves a bare `match `.
   */
  function EntityBase(elem: string, tag: Option<string>, pair2: Option<(string, string)>, prep1: Option<string>): (c: Clause)
    ensures c.MatchEntity? || c.MatchBare?
    ensures c == MatchBare <==> pair2.Some? && tag == Some(pair2.value.1)
    ensures pair2.None? ==> c == MatchEntity(elem, GivenTag(tag))
    ensures pair2.Some? && tag != Some(pair2.value.1) ==>
      c == MatchEntity(elem, if prep1.Some? && Lower(prep1.value) == "of" && elem == "surface" then Some(pair2.value.1) else GivenTag(tag))
  {
    var a := MatchEntity(elem, GivenTag(tag));
    match pair2
    case None => a
    case Some((_, t2)) =>
      var a1 := if prep1.Some? && prep1.value != "" && Lower(prep1.value) == "of" && elem == "surface"
        then MatchEntity(elem, Some(t2)) else a;
      if tag.Some? && tag.value == t2 then MatchBare else a1
  }

  /** `qrx_b`: the attribute-scoped base clause. */
  function AttributeBase(elem: string, et: ElemType, tag: Option<string>): Clause {
    MatchAttribute(et.kind, et.name, elem, GivenTag(tag))
  }

  /** The base clause actually used: entity-scoped when `elem_type[1] == 'entity'`. */
  function Base(elem: string, et: ElemType, tag: Option<string>, pair2: Option<(string, string)>, prep1: Option<string>): Clause {
    if et.kind == "entity" then EntityBase(elem, tag, pair2, prep1) else AttributeBase(elem, et, tag)
  }

  /**
   * The relation query of `get_relations(tx, elem, elem_type, tag, pair2, prep1)`;
   * `eType2` is `find_type(tx, pair2[0])`, and `None` stands for the error its
   * `.split(':')` raises when that classification is not a category.
   */
  function RelationQuery(elem: string, et: ElemType, tag: Option<string>, pair2: Option<(string, string)>,
                         prep1: Option<string>, eType2: Classification): (r: Option<seq<Clause>>)
    ensures r.Some? ==>
      && |r.value| == (if pair2.Some? then 8 else 4)
      && r.value[0] == Base(elem, et, tag, pair2, prep1)
      && r.value[|r.value| - 1] == (if pair2.Some? then GetAll else GetXY)
    ensures r.Some? && pair2.Some? ==>
      && eType2.Classified?
      && (ZEntity(pair2.value.0, pair2.value.1) in r.value <==> FirstField(eType2.category) == "entity")
  {
    var base := Base(elem, et, tag, pair2, prep1);
    match pair2
    case None => Some([base, YTagOrType, RelXY, GetXY])
    case Some((h, t2)) =>
      if !eType2.Classified? then None
      else
        var z := if FirstField(eType2.category) == "entity" then ZEntity(h, t2) else ZTyped(h, t2);
        Some([base, YTagOrType, WTagOrType, z, RelXY, RelXZ, RelWZ, GetAll])
  }

  /** The location query, sent only for a connector or a tool (auxiliary.py:457-462). */
  function LocationQuery(elem: string, et: ElemType, tag: Option<string>, pair2: Option<(string, string)>, prep1: Option<string>): (r: Option<seq<Clause>>)
    ensures r.Some? <==> elem == "connector" || elem == "tool"
    ensures r.Some? ==> |r.value| == 4 && r.value[0] == Base(elem, et, tag, pair2, prep1) && Locating in r.value && GetLandmark in r.value
  {
    if elem == "connector" || elem == "tool" then
      Some([Base(elem, et, tag, pair2, prep1), Landmark, Locating, GetLandmark])
    else None
  }

  // ---------------------------------------------------------------------------
  // Properties

  /** The query fails exactly when a pair is given whose head does not classify. */
  lemma RelationQueryFails(elem: string, et: ElemType, tag: Option<string>, pair2: Option<(string, string)>,
                           prep1: Option<string>, eType2: Classification)
    ensures RelationQuery(elem, et, tag, pair2, prep1, eType2).None? <==> pair2.Some? && !eType2.Classified?
  {
  }

  /**
   * The base clause is entity-scoped (`$x isa <elem>`, or the bare `match `)
   * exactly when `elem_type[1] == 'entity'`, and attribute-scoped otherwise.
   */
  lemma EntityScopeIff(elem: string, et: ElemType, tag: Option<string>, pair2: Option<(string, string)>,
                       prep1: Option<string>, eType2: Classification)
    requires RelationQuery(elem, et, tag, pair2, prep1, eType2).Some?
    ensures var cs := RelationQuery(elem, et, tag, pair2, prep1, eType2).value;
      && (cs[0].MatchEntity? || cs[0].MatchBare? <==> et.kind == "entity")
      && (cs[0].MatchAttribute? <==> et.kind != "entity")
  {
  }

  /** Without a pair, the base clause carries `has tag-number "<tag>"` exactly when a non-empty tag is given. */
  lemma TagClauseIff(elem: string, et: ElemType, tag: Option<string>, prep1: Option<string>, eType2: Classification)
    ensures var cs := RelationQuery(elem, et, tag, None, prep1, eType2).value;
      && (cs[0].MatchEntity? || cs[0].MatchAttribute?)
      && (cs[0].tag.Some? <==> tag.Some? && tag.value != "")
      && (cs[0].tag.Some? ==> cs[0].tag == tag)
  {
  }

  /** Without a pair the query relates only `x` and `y`; with one it also relates `z` to `x` and `w`. */
  lemma RelationClausesPresent(elem: string, et: ElemType, tag: Option<string>, pair2: Option<(string, string)>,
                               prep1: Option<string>, eType2: Classification)
    requires RelationQuery(elem, et, tag, pair2, prep1, eType2).Some?
    ensures var cs := RelationQuery(elem, et, tag, pair2, prep1, eType2).value;
      && RelXY in cs
      && (RelXZ in cs <==> pair2.Some?)
      && (RelWZ in cs <==> pair2.Some?)
      && (forall c :: c in cs && c.Rel? ==> c in [RelXY, RelXZ, RelWZ])
  {
  }

  /** Each clause's text occurs in the rendered query. */
  lemma RenderContains(cs: seq<Clause>, k: nat)
    requires k < |cs|
    ensures Contains(Render(cs), ClauseText(cs[k]))
  {
    ConcatContains(seq(|cs|, i requires 0 <= i < |cs| => ClauseText(cs[i])), k);
  }

  /**
   * Every relation clause of a composed query comes with the exclusion of
   * both of its role variables: the rendered text holds
   * `not {$<r> type relation:role;}` for each.
   */
  lemma RelationRolesExcluded(elem: string, et: ElemType, tag: Option<string>, pair2: Option<(string, string)>,
                              prep1: Option<string>, eType2: Classification, k: nat)
    requires RelationQuery(elem, et, tag, pair2, prep1, eType2).Some?
    requires k < |RelationQuery(elem, et, tag, pair2, prep1, eType2).value|
    requires RelationQuery(elem, et, tag, pair2, prep1, eType2).value[k].Rel?
    ensures var cs := RelationQuery(elem, et, tag, pair2, prep1, eType2).value;
      && Contains(Render(cs), NotRole(cs[k].r1))
      && Contains(Render(cs), NotRole(cs[k].r2))
  {
    var cs := RelationQuery(elem, et, tag, pair2, prep1, eType2).value;
    var c := cs[k];
    RenderContains(cs, k);
    ContainsTrans(Render(cs), ClauseText(c), NotRole(c.r1));
    ContainsTrans(Render(cs), ClauseText(c), NotRole(c.r2));
  }

  /** The location query uses the same base clause as the relation query, overrides included. */
  lemma LocationSharesBase(elem: string, et: ElemType, tag: Option<string>, pair2: Option<(string, string)>,
                           prep1: Option<string>, eType2: Classification)
    requires elem == "connector" || elem == "tool"
    requires RelationQuery(elem, et, tag, pair2, prep1, eType2).Some?
    ensures LocationQuery(elem, et, tag, pair2, prep1).Some?
    ensures LocationQuery(elem, et, tag, pair2, prep1).value[0] == RelationQuery(elem, et, tag, pair2, prep1, eType2).value[0]
  {
  }

  // ---------------------------------------------------------------------------
  // query_builder

  /** What `determine_data_type(v)` reports: the string kind, or another value shown by its text. */
  datatype DataType = StringKind | Shown(text: string)

  /** `query_builder(q, n, v, c_type, k)`, with `n` already in text form and the data type as input. */
  function QueryBuilder(q: string, n: string, v: string, cType: Option<string>, k: Option<string>, dt: DataType): (r: string)
    ensures |r| > |q| && r[..|q|] == q
    ensures var key := n + (if k.Some? then k.value else "");
      if cType == Some("entity") then StartsWith(r[|q|..], " has " + key + " ")
      else StartsWith(r[|q|..], " $v" + key + " ") && r[|r| - 1] == ';'
    ensures dt == StringKind ==> Contains(r[|q|..], "\"" + v + "\"")
    ensures var key := n + (if k.Some? then k.value else "");
      var shown := match dt
        case StringKind => "\"" + v + "\""
        case Shown(name) => name;
      r[|q|..] == if cType == Some("entity") then " has " + key + " " + shown else " $v" + key + " " + shown + ";"
  {
    var key := n + (if k.Some? then k.value else "");
    var value := if dt == StringKind then "\"" + v + "\"" else dt.text;
    var pre := if cType == Some("entity") then " has " + key + " " else " $v" + key + " ";
    var post := if cType == Some("entity") then "" else ";";
    var clause := pre + value + post;
    ContainsInfix(pre, value, post);
    assert (q + clause)[|q|..] == clause;
    assert cType == Some("entity") ==> clause == pre + value;
    q + clause
  }
}
