/**
 * The helpers of `QueryModel` in robot_db/python/typeDB_main/inquirer.py:
 * phrase validation (`valid_input_phrase`, 66-90), `return_element`
 * (136-137), and the closures of `command_line` that order relation lines
 * (`map_relations`, 272-299), pick the target location (`target_location`,
 * 301-325), read it back (`retrieve_target_information`, 339-351) and
 * intersect two aggregates (`find_common_elements`, 353-364).
 */
module Inquirer {
  import opened Wrappers
  import opened Text
  import opened Classifier
  import opened Intent
  import opened Aggregation

  // ---------------------------------------------------------------------------
  // valid_input_phrase

  /** The acceptance test: a non-empty intent with more than one key. */
  predicate Acceptable(d: IntentDict) {
    d != map[] && |d| > 1
  }

  /** How validation ends: an accepted intent, a halt of `phrase2dict`, or no more phrases offered. */
  datatype Validation = Accepted(intent: IntentDict, attempt: nat) | Halted(halt: Halt, attempt: nat) | Exhausted

  /** The phrase at `j` was parsed to an intent that the test rejected. */
  predicate Rejected(classify: TypeOracle, tagExists: TagOracle, phrases: seq<string>, j: nat)
    requires j < |phrases|
  {
    var o := Phrase2DictSpec(classify, tagExists, phrases[j]);
    o.Built? && !Acceptable(o.intent)
  }

  /**
   * `valid_input_phrase(p)`: `phrases[0]` is `p`, each later one is the
   * answer to `INPUT NEW PHRASE`; the first acceptable intent is returned.
   */
  method ValidInputPhrase(classify: TypeOracle, tagExists: TagOracle, phrases: seq<string>) returns (v: Validation)
    ensures v.Accepted? ==>
      && v.attempt < |phrases| && Acceptable(v.intent)
      && Phrase2DictSpec(classify, tagExists, phrases[v.attempt]) == Built(v.intent)
    ensures v.Halted? ==> v.attempt < |phrases| && Phrase2DictSpec(classify, tagExists, phrases[v.attempt]) == Stopped(v.halt)
    ensures !v.Exhausted? ==> forall j :: 0 <= j < v.attempt ==> Rejected(classify, tagExists, phrases, j)
    ensures v.Exhausted? ==> forall j :: 0 <= j < |phrases| ==> Rejected(classify, tagExists, phrases, j)
  {
    var i := 0;
    while i < |phrases|
      invariant 0 <= i <= |phrases|
      invariant forall j :: 0 <= j < i ==> Rejected(classify, tagExists, phrases, j)
    {
      var out := Phrase2Dict(classify, tagExists, phrases[i]);
      match out {
        case Stopped(h) =>
          return Halted(h, i);
        case Built(d) =>
          if d != map[] && |d| > 1 {
            return Accepted(d, i);
          }
          assert Rejected(classify, tagExists, phrases, i);
      }
      i := i + 1;
    }
    return Exhausted;
  }

  /** A phrase that is only `<head> <tag>` yields a single pair slot and is never accepted. */
  lemma PairOnlyPhraseRejected(classify: TypeOracle, tagExists: TagOracle, head: string, tag: string)
    requires IsWord(head) && IsWord(tag)
    requires HeadTagReady(classify, tagExists, head, tag) && InertTag(classify, tag)
    ensures Rejected(classify, tagExists, [head + " " + tag], 0)
  {
    TwoWords(head, tag);
    HeadTagPair(classify, tagExists, head, tag);
    assert |map[PairSlot(1) := Pair(head, Upper(tag))]| == 1;
  }

  /** A phrase `<command> <head> <tag>` is accepted at once. */
  lemma CommandPhraseAccepted(classify: TypeOracle, tagExists: TagOracle, cmd: string, head: string, tag: string)
    requires IsWord(cmd) && IsWord(head) && IsWord(tag)
    requires classify(cmd).Classified? && SecondField(classify(cmd).category) == "command-type" && cmd != "command-type"
    requires HeadTagReady(classify, tagExists, head, tag) && InertTag(classify, tag)
    ensures var o := Phrase2DictSpec(classify, tagExists, cmd + " " + head + " " + tag);
      o.Built? && Acceptable(o.intent)
  {
    CommandHeadTag(classify, tagExists, cmd, head, tag);
    var d := map[Command := Word(cmd), PairSlot(1) := Pair(head, Upper(tag))];
    assert d.Keys == {Command, PairSlot(1)};
    assert |d| == 2;
  }

  // ---------------------------------------------------------------------------
  // return_element

  /** A slot read from the intent: its value, or the default `0`. */
  datatype Got = Zero | Got(value: SlotValue)

  /** `return_element(name)`: `d_phrase.get(name, 0)`, and `0` for a `None` intent. */
  function ReturnElement(dPhrase: Option<IntentDict>, name: Slot): (g: Got)
    ensures g == Zero <==> dPhrase.None? || name !in dPhrase.value
    ensures g.Got? ==> dPhrase.Some? && name in dPhrase.value && g.value == dPhrase.value[name]
  {
    match dPhrase
    case None => Zero
    case Some(d) => if name in d then Got(d[name]) else Zero
  }

  /** The item `command_line` inquires about: `element-1` when present, `pair-1` otherwise. */
  function InquiryItem(dPhrase: Option<IntentDict>): Got {
    var element1 := ReturnElement(dPhrase, Element(1));
    if element1 != Zero then element1 else ReturnElement(dPhrase, PairSlot(1))
  }

  /**
   * For `<command> <head> <tag>`, `command` reads the command, `element-1`
   * and `pair-2` read `0`, and the inquiry is about the pair `[head, TAG]`.
   */
  lemma CommandPhraseSlots(classify: TypeOracle, tagExists: TagOracle, cmd: string, head: string, tag: string)
    requires IsWord(cmd) && IsWord(head) && IsWord(tag)
    requires classify(cmd).Classified? && SecondField(classify(cmd).category) == "command-type" && cmd != "command-type"
    requires HeadTagReady(classify, tagExists, head, tag) && InertTag(classify, tag)
    ensures Phrase2DictSpec(classify, tagExists, cmd + " " + head + " " + tag).Built?
    ensures var d := Some(Phrase2DictSpec(classify, tagExists, cmd + " " + head + " " + tag).intent);
      && ReturnElement(d, Command) == Got(Word(cmd))
      && ReturnElement(d, Element(1)) == Zero
      && ReturnElement(d, PairSlot(2)) == Zero
      && InquiryItem(d) == Got(Pair(head, Upper(tag)))
  {
    CommandHeadTag(classify, tagExists, cmd, head, tag);
  }

  // ---------------------------------------------------------------------------
  // Python values shown in text

  /** The Python values the location helpers pass around. */
  datatype PyVal = PNone | PZero | PStr(s: string) | PList(items: seq<string>)

  /** The escape `repr` writes for one character inside quotes `q`; other non-printable characters are not modelled. */
  function EscapeChar(c: char, q: char): string {
    if c == '\\' then "\\\\"
    else if c == q then ['\\', q]
    else if c == '\n' then "\\n"
    else if c == '\r' then "\\r"
    else if c == '\t' then "\\t"
    else [c]
  }

  function Escape(s: string, q: char): string {
    if |s| == 0 then "" else EscapeChar(s[0], q) + Escape(s[1..], q)
  }

  /** `repr(s)`: double quotes when `s` holds a single quote and no double quote, single quotes otherwise. */
  function Repr(s: string): string {
    if '\'' in s && '"' !in s then "\"" + Escape(s, '"') + "\"" else "'" + Escape(s, '\'') + "'"
  }

  function ReprItems(items: seq<string>): string {
    if |items| == 0 then ""
    else if |items| == 1 then Repr(items[0])
    else Repr(items[0]) + ", " + ReprItems(items[1..])
  }

  /** `str(v)`, as an f-string shows it. */
  function PyStr(v: PyVal): string {
    match v
    case PNone => "None"
    case PZero => "0"
    case PStr(s) => s
    case PList(items) => "[" + ReprItems(items) + "]"
  }

  /** A character `repr` writes as it is inside single quotes. */
  predicate Plain(c: char) {
    c != '\\' && c != '\'' && c != '\n' && c != '\r' && c != '\t'
  }

  /** A word without quotes, backslashes or control whitespace is shown between single quotes, unchanged. */
  lemma {:induction false} PlainRepr(s: string)
    requires forall i :: 0 <= i < |s| ==> Plain(s[i])
    ensures Repr(s) == "'" + s + "'"
  {
    PlainEscape(s);
  }

  lemma {:induction false} PlainEscape(s: string)
    requires forall i :: 0 <= i < |s| ==> Plain(s[i])
    ensures Escape(s, '\'') == s
    decreases |s|
  {
    if |s| > 0 {
      assert forall i :: 0 <= i < |s[1..]| ==> s[1..][i] == s[i + 1];
      PlainEscape(s[1..]);
      assert [s[0]] + s[1..] == s;
    }
  }

  /** A pair of plain words is shown as `['<head>', '<tag>']`. */
  lemma {:induction false} PairShown(head: string, tag: string)
    requires forall i :: 0 <= i < |head| ==> Plain(head[i])
    requires forall i :: 0 <= i < |tag| ==> Plain(tag[i])
    ensures PyStr(PList([head, tag])) == "[" + Repr(head) + ", " + Repr(tag) + "]"
    ensures Repr(head) == "'" + head + "'" && Repr(tag) == "'" + tag + "'"
  {
    PlainRepr(head);
    PlainRepr(tag);
    assert [head, tag][1..] == [tag];
    assert ReprItems([tag]) == Repr(tag);
    assert ReprItems([head, tag]) == Repr(head) + ", " + Repr(tag);
    assert "[" + (Repr(head) + ", " + Repr(tag)) + "]" == "[" + Repr(head) + ", " + Repr(tag) + "]";
  }

  // ---------------------------------------------------------------------------
  // target_location

  datatype LocationError = LocationError

  /** `find_location(tx, pair)` seen as an input: the first landmark row, or nothing. */
  type LocationOracle = LocPair -> Option<LandmarkRow>

  /** `target_location(lp1, lp2, p2)` returning `(coord, location)`, with `coord_list` as `lp2`. */
  function TargetLocation(findLocation: LocationOracle, lp1: seq<LocPair>, lp2: seq<string>, p2: PyVal): (r: Result<(PyVal, PyVal), LocationError>)
    ensures r.Failure? <==> |lp1| == 1 && findLocation(lp1[0]).None?
  {
    if |lp1| > 0 then
      if |lp1| > 1 then
        var same := "SAME AS ▶ " + PyStr(p2);
        Success((PStr(same), PStr(same)))
      else
        match findLocation(lp1[0])
        case Some(m) => Success((PStr(CoordinateLine(m)), PList([lp1[0].target, lp1[0].tag])))
        case None => Failure(LocationError)
    else if |lp2| > 0 then Success((PList(lp2), p2))
    else Success((PStr("UNDEFINED"), PStr("UNDEFINED")))
  }

  /** With several location pairs both results are `SAME AS ▶ <p2>`, whatever the store holds. */
  lemma SeveralPairsSameAs(f: LocationOracle, g: LocationOracle, lp1: seq<LocPair>, lp2: seq<string>, p2: PyVal)
    requires |lp1| > 1
    ensures TargetLocation(f, lp1, lp2, p2) == TargetLocation(g, lp1, lp2, p2)
    ensures TargetLocation(f, lp1, lp2, p2) == Success((PStr("SAME AS ▶ " + PyStr(p2)), PStr("SAME AS ▶ " + PyStr(p2))))
  {
  }

  /** With one pair found, the coordinates are the landmark line and the location is that pair. */
  lemma OnePairFound(f: LocationOracle, p: LocPair, lp2: seq<string>, p2: PyVal)
    requires f(p).Some?
    ensures TargetLocation(f, [p], lp2, p2).Success?
    ensures TargetLocation(f, [p], lp2, p2).value.0 == PStr(CoordinateLine(f(p).value))
    ensures TargetLocation(f, [p], lp2, p2).value.1 == PList([p.target, p.tag])
  {
  }

  /** With no location pair nothing is raised: the coordinate list and `p2`, or `UNDEFINED` twice. */
  lemma NoPairsNeverRaise(f: LocationOracle, lp2: seq<string>, p2: PyVal)
    ensures TargetLocation(f, [], lp2, p2).Success?
    ensures TargetLocation(f, [], lp2, p2).value == if |lp2| > 0 then (PList(lp2), p2) else (PStr("UNDEFINED"), PStr("UNDEFINED"))
  {
  }

  // ---------------------------------------------------------------------------
  // retrieve_target_information

  /** What the guard of `retrieve_target_information(tx, loc)` does with `loc`. */
  datatype TargetRead = NoTarget | Target(element: string, tag: string) | TypeError | IndexError

  /** `loc != 'UNDEFINED'`, then `loc[0]` and `loc[1]`. */
  function TargetOf(loc: PyVal): (t: TargetRead)
    ensures t == NoTarget <==> loc == PStr("UNDEFINED")
    ensures t == TypeError <==> loc.PNone? || loc.PZero?
  {
    match loc
    case PNone => TypeError
    case PZero => TypeError
    case PStr(s) =>
      if s == "UNDEFINED" then NoTarget
      else if |s| >= 2 then Target([s[0]], [s[1]])
      else IndexError
    case PList(items) => if |items| >= 2 then Target(items[0], items[1]) else IndexError
  }

  /**
   * What each outcome of `target_location` leads to: one found pair is read
   * back as that pair; `SAME AS` text is read as its first two characters;
   * the coordinate-list case reads `p2`, which fails for `None`; and
   * `UNDEFINED` stops the search.
   */
  lemma TargetOfLocation(f: LocationOracle, lp1: seq<LocPair>, lp2: seq<string>, p2: PyVal)
    requires TargetLocation(f, lp1, lp2, p2).Success?
    ensures var loc := TargetLocation(f, lp1, lp2, p2).value.1;
      && (|lp1| == 1 ==> TargetOf(loc) == Target(lp1[0].target, lp1[0].tag))
      && (|lp1| > 1 ==> TargetOf(loc) == Target("S", "A"))
      && (|lp1| == 0 && |lp2| > 0 ==> TargetOf(loc) == TargetOf(p2))
      && (|lp1| == 0 && |lp2| > 0 && p2 == PNone ==> TargetOf(loc) == TypeError)
      && (|lp1| == 0 && |lp2| == 0 ==> TargetOf(loc) == NoTarget)
  {
    if |lp1| > 1 {
      var s := "SAME AS ▶ " + PyStr(p2);
      assert s[0] == 'S' && s[1] == 'A';
    }
  }

  // ---------------------------------------------------------------------------
  // find_common_elements

  /** `{i.split('▶')[0] for sl in d.values() for i in sl}` over a filtered dictionary. */
  function Prefixes(d: RelDict): (r: set<string>)
    ensures forall x :: x in r ==> '▶' !in x
    ensures |d.val| == 0 ==> r == {}
  {
    set k, i | k in d.val && 0 <= i < |ValueLines(d.val[k])| :: Before(ValueLines(d.val[k])[i], '▶')
  }

  /** `find_common_elements(d1, d2)`: the common prefixes, computed only when `d1` is non-empty and `d2` is given. */
  function FindCommonElements(d1: Option<RelDict>, d2: Option<RelDict>): (r: Option<set<string>>)
    ensures r.Some? <==> d1.Some? && |d1.value.val| > 0 && d2.Some?
  {
    if d1.Some? && |d1.value.val| > 0 && d2.Some? then Some(Prefixes(d1.value) * Prefixes(d2.value)) else None
  }

  /** The prefix of every stored entry appears among the filtered dictionary's prefixes. */
  lemma EntryPrefixListed(d: RelDict, k: string, i: nat)
    requires Building(d) && k in d.val && d.val[k].Entries? && i < |d.val[k].list|
    requires '▶' !in d.val[k].list[i].elem && '▶' !in TagText(d.val[k].list[i].tag)
    ensures d.val[k].list[i].elem + " " + TagText(d.val[k].list[i].tag) + " " in Prefixes(Filtered(d))
  {
    var v := d.val[k].list[i];
    EntryLinePrefix(v);
    var f := Filtered(d);
    assert ValueLines(f.val[k])[i] == EntryLine(v);
  }

  /**
   * Two aggregates that each store an entry for the same element and tag
   * report `<element> <tag> ` as a common element.
   */
  lemma SharedEntryIsCommon(d1: RelDict, k1: string, i1: nat, d2: RelDict, k2: string, i2: nat)
    requires Building(d1) && k1 in d1.val && d1.val[k1].Entries? && i1 < |d1.val[k1].list|
    requires Building(d2) && k2 in d2.val && d2.val[k2].Entries? && i2 < |d2.val[k2].list|
    requires d1.val[k1].list[i1].elem == d2.val[k2].list[i2].elem
    requires d1.val[k1].list[i1].tag == d2.val[k2].list[i2].tag
    requires '▶' !in d1.val[k1].list[i1].elem && '▶' !in TagText(d1.val[k1].list[i1].tag)
    ensures var v := d1.val[k1].list[i1];
      var r := FindCommonElements(Some(Filtered(d1)), Some(Filtered(d2)));
      r.Some? && v.elem + " " + TagText(v.tag) + " " in r.value
  {
    EntryPrefixListed(d1, k1, i1);
    EntryPrefixListed(d2, k2, i2);
    assert k1 in Filtered(d1).val;
  }

  /** Every reported element is a prefix found in both aggregates. */
  lemma CommonElementsInBoth(d1: RelDict, d2: RelDict, p: string)
    requires FindCommonElements(Some(d1), Some(d2)).Some?
    ensures p in FindCommonElements(Some(d1), Some(d2)).value <==> p in Prefixes(d1) && p in Prefixes(d2)
  {
  }

  // ---------------------------------------------------------------------------
  // map_relations

  /** All keys of a filtered dictionary are listed in order and hold lines. */
  predicate IsFiltered(d: RelDict) {
    (forall k :: k in d.order ==> k in d.val) && (forall k :: k in d.val ==> d.val[k].Lines?)
  }

  /** `loc_list`: `'<key> <tag>'` for the last item of `l_dict`, or nothing when it is empty. */
  function LocationText(ld: LocDict): Option<string>
    requires forall k :: k in ld.order ==> k in ld.at
  {
    if |ld.order| == 0 then None
    else
      var key := ld.order[|ld.order| - 1];
      Some(key + " " + ld.at[key].tag)
  }

  /** `e == p_test`: `p_test` is `e` without `p2`, `p2[0]` for a list, and `None` otherwise. */
  predicate SwapAllowed(e: string, p2: PyVal)
    requires p2.PList? ==> |p2.items| > 0
  {
    match p2
    case PNone => true
    case PList(items) => items[0] == e
    case _ => false
  }

  /** The index of the first line containing `ls`. */
  function FirstMatch(lines: seq<string>, ls: string): (j: Option<nat>)
    ensures j.Some? ==>
      && j.value < |lines| && Contains(lines[j.value], ls)
      && forall i :: 0 <= i < j.value ==> !Contains(lines[i], ls)
    ensures j.None? ==> forall i :: 0 <= i < |lines| ==> !Contains(lines[i], ls)
  {
    if |lines| == 0 then None
    else if Contains(lines[0], ls) then Some(0)
    else match FirstMatch(lines[1..], ls)
      case None => None
      case Some(j) => Some(j + 1)
  }

  /** `l[0], l[j] = l[j], l[0]`. */
  function SwapFront(lines: seq<string>, j: nat): (r: seq<string>)
    requires j < |lines|
  {
    lines[0 := lines[j]][j := lines[0]]
  }

  /** The swap is a permutation that puts the line at `j` first and changes no other position. */
  lemma SwapFrontPermutes(lines: seq<string>, j: nat)
    requires j < |lines|
    ensures multiset(SwapFront(lines, j)) == multiset(lines)
    ensures |SwapFront(lines, j)| == |lines| && SwapFront(lines, j)[0] == lines[j]
    ensures forall i :: 0 < i < |lines| && i != j ==> SwapFront(lines, j)[i] == lines[i]
  {
    if j > 0 {
      var m := lines[0 := lines[j]];
      assert multiset(m) == multiset(lines) - multiset{lines[0]} + multiset{lines[j]};
      assert multiset(m[j := lines[0]]) == multiset(m) - multiset{m[j]} + multiset{lines[0]};
    }
  }

  /** The list of `rel` after its turn in the loop of `map_relations`. */
  function ReorderedLines(lines: seq<string>, loc: Option<string>, swap: bool): seq<string> {
    if loc.None? || !swap then lines
    else match FirstMatch(lines, loc.value)
      case None => lines
      case Some(j) => SwapFront(lines, j)
  }

  datatype MapOutcome = MapOutcome(d: RelDict, crashed: bool)

  /**
   * One turn of the loop over `f_dict`'s keys; `crashed` is the `IndexError`
   * of `f_dict['assembling'][0]` on an empty list. A key without lines is
   * left alone (it does not occur in a filtered dictionary).
   */
  function RelTurn(d: RelDict, rel: string, loc: Option<string>, swap: bool): MapOutcome {
    if loc.None? || rel !in d.val || !d.val[rel].Lines? then MapOutcome(d, false)
    else
      var lines := d.val[rel].lines;
      MapOutcome(d.(val := d.val[rel := Lines(ReorderedLines(lines, loc, swap))]), rel == "assembling" && |lines| == 0)
  }

  /** The dictionary after the turns of the first `n` keys of `d0.order`, stopping at a crash. */
  function MapTurns(d0: RelDict, loc: Option<string>, swap: bool, n: nat): MapOutcome
    requires n <= |d0.order|
    decreases n
  {
    if n == 0 then MapOutcome(d0, false)
    else
      var o := MapTurns(d0, loc, swap, n - 1);
      if o.crashed then o else RelTurn(o.d, d0.order[n - 1], loc, swap)
  }

  /** `map_relations(e, f_dict, ld, p2)` on a filtered dictionary. */
  function MapRelationsSpec(d: RelDict, e: string, ld: LocDict, p2: PyVal): (r: MapOutcome)
    requires IsFiltered(d)
    requires forall k :: k in ld.order ==> k in ld.at
    requires p2.PList? ==> |p2.items| > 0
    ensures r.d.order == d.order && r.d.val.Keys == d.val.Keys && IsFiltered(r.d)
    ensures r.crashed <==> LocationText(ld).Some? && "assembling" in d.order && |d.val["assembling"].lines| == 0
  {
    MapTurnsShape(d, LocationText(ld), SwapAllowed(e, p2), |d.order|);
    MapTurnsCrash(d, LocationText(ld), SwapAllowed(e, p2), |d.order|);
    assert d.order[..|d.order|] == d.order;
    MapTurns(d, LocationText(ld), SwapAllowed(e, p2), |d.order|)
  }

  /** The turns keep the key order, the keys, and lines under every key. */
  lemma {:induction false} MapTurnsShape(d0: RelDict, loc: Option<string>, swap: bool, n: nat)
    requires IsFiltered(d0) && n <= |d0.order|
    ensures var o := MapTurns(d0, loc, swap, n);
      o.d.order == d0.order && o.d.val.Keys == d0.val.Keys && IsFiltered(o.d)
    decreases n
  {
    if n > 0 {
      MapTurnsShape(d0, loc, swap, n - 1);
    }
  }

  /** Every list stays a permutation of itself, and its length is unchanged. */
  lemma {:induction false} MapTurnsPermutes(d0: RelDict, loc: Option<string>, swap: bool, n: nat, k: string)
    requires IsFiltered(d0) && n <= |d0.order| && k in d0.val
    ensures k in MapTurns(d0, loc, swap, n).d.val && MapTurns(d0, loc, swap, n).d.val[k].Lines?
    ensures multiset(MapTurns(d0, loc, swap, n).d.val[k].lines) == multiset(d0.val[k].lines)
    ensures |MapTurns(d0, loc, swap, n).d.val[k].lines| == |d0.val[k].lines|
    decreases n
  {
    MapTurnsShape(d0, loc, swap, n);
    if n > 0 {
      MapTurnsPermutes(d0, loc, swap, n - 1, k);
      var o := MapTurns(d0, loc, swap, n - 1);
      var lines := o.d.val[k].lines;
      if !o.crashed && loc.Some? && swap && d0.order[n - 1] == k && FirstMatch(lines, loc.value).Some? {
        SwapFrontPermutes(lines, FirstMatch(lines, loc.value).value);
      }
    }
  }

  /** Once crashed, later turns change nothing. */
  lemma {:induction false} MapTurnsCrashPersists(d0: RelDict, loc: Option<string>, swap: bool, n: nat, m: nat)
    requires n <= m <= |d0.order|
    requires MapTurns(d0, loc, swap, n).crashed
    ensures MapTurns(d0, loc, swap, m) == MapTurns(d0, loc, swap, n)
    decreases m - n
  {
    if n < m {
      MapTurnsCrashPersists(d0, loc, swap, n, m - 1);
    }
  }

  /** The turn of one key crashes exactly when a location exists and the key is an empty `assembling` list. */
  lemma RelTurnCrash(d: RelDict, rel: string, loc: Option<string>, swap: bool)
    requires rel in d.val && d.val[rel].Lines?
    ensures RelTurn(d, rel, loc, swap).crashed <==> loc.Some? && rel == "assembling" && |d.val[rel].lines| == 0
  {
  }

  /** The loop stops with `IndexError` exactly when a location exists and an `assembling` list among the turns taken is empty. */
  lemma {:induction false} MapTurnsCrash(d0: RelDict, loc: Option<string>, swap: bool, n: nat)
    requires IsFiltered(d0) && n <= |d0.order|
    ensures MapTurns(d0, loc, swap, n).crashed <==>
      loc.Some? && "assembling" in d0.order[..n] && |d0.val["assembling"].lines| == 0
    decreases n
  {
    if n > 0 {
      MapTurnsCrash(d0, loc, swap, n - 1);
      InPrefixStep(d0.order, n, "assembling");
      var o := MapTurns(d0, loc, swap, n - 1);
      if !o.crashed {
        var rel := d0.order[n - 1];
        MapTurnsShape(d0, loc, swap, n - 1);
        RelTurnCrash(o.d, rel, loc, swap);
        assert MapTurns(d0, loc, swap, n) == RelTurn(o.d, rel, loc, swap);
        if rel == "assembling" {
          MapTurnsPermutes(d0, loc, swap, n - 1, rel);
        }
      }
    }
  }

  /** A value is among the first `n` items when it is among the first `n - 1` or is item `n - 1`. */
  lemma InPrefixStep<T>(s: seq<T>, n: nat, x: T)
    requires 0 < n <= |s|
    ensures x in s[..n] <==> x in s[..n - 1] || x == s[n - 1]
  {
    assert s[..n] == s[..n - 1] + [s[n - 1]];
  }

  /**
   * Without a crash, and with each key listed once, every list is reordered
   * exactly once: when the swap is allowed, its first line holding the
   * location text moves to the front; otherwise nothing changes.
   */
  lemma {:induction false} MapTurnsReorder(d0: RelDict, loc: Option<string>, swap: bool, n: nat, k: string)
    requires IsFiltered(d0) && n <= |d0.order| && Distinct(d0.order) && k in d0.val
    requires !MapTurns(d0, loc, swap, n).crashed
    ensures k in MapTurns(d0, loc, swap, n).d.val
    ensures MapTurns(d0, loc, swap, n).d.val[k]
      == if k in d0.order[..n] then Lines(ReorderedLines(d0.val[k].lines, loc, swap)) else d0.val[k]
    decreases n
  {
    if n > 0 {
      var o := MapTurns(d0, loc, swap, n - 1);
      assert !o.crashed;
      MapTurnsReorder(d0, loc, swap, n - 1, k);
      MapTurnsShape(d0, loc, swap, n - 1);
      assert d0.order[..n] == d0.order[..n - 1] + [d0.order[n - 1]];
      if d0.order[n - 1] == k {
        assert k !in d0.order[..n - 1] by {
          assert forall i :: 0 <= i < n - 1 ==> d0.order[i] != d0.order[n - 1];
        }
        if loc.None? {
          assert ReorderedLines(d0.val[k].lines, loc, swap) == d0.val[k].lines;
        }
      }
    }
  }

  /** After the reorder, a list that has a line holding the location text starts with such a line. */
  lemma ReorderedFront(lines: seq<string>, ls: string, i: nat)
    requires i < |lines| && Contains(lines[i], ls)
    ensures |ReorderedLines(lines, Some(ls), true)| > 0 && Contains(ReorderedLines(lines, Some(ls), true)[0], ls)
    ensures multiset(ReorderedLines(lines, Some(ls), true)) == multiset(lines)
  {
    var j := FirstMatch(lines, ls);
    assert j.Some?;
    SwapFrontPermutes(lines, j.value);
  }

  /** At the three call sites (`p2` omitted, or `p2` the pair whose head is `e`) the swap is allowed. */
  lemma CallSitesAllowSwap(e: string, tag: string)
    ensures SwapAllowed(e, PNone)
    ensures SwapAllowed(e, PList([e, tag]))
  {
  }

  /** `for key, value in ld.items(): loc_list = f'{key} {value[1]}'`. */
  method LastLocation(ld: LocDict) returns (loc: Option<string>)
    requires forall k :: k in ld.order ==> k in ld.at
    ensures loc == LocationText(ld)
  {
    loc := None;
    var n := 0;
    while n < |ld.order|
      invariant 0 <= n <= |ld.order|
      invariant loc == if n == 0 then None else Some(ld.order[n - 1] + " " + ld.at[ld.order[n - 1]].tag)
    {
      var key := ld.order[n];
      loc := Some(key + " " + ld.at[key].tag);
      n := n + 1;
    }
  }

  /**
   * The turn of key `rel` in the loop of `map_relations`: with a location, the
   * first matching line is swapped to the front when allowed, and an empty
   * `assembling` list raises `IndexError` (`true`).
   */
  method ReorderKey(f: RelationTable, rel: string, loc: Option<string>, swap: bool) returns (crashed: bool)
    requires rel in f.val && f.val[rel].Lines?
    modifies f
    ensures MapOutcome(f.State(), crashed) == RelTurn(old(f.State()), rel, loc, swap)
  {
    crashed := false;
    if loc.Some? {
      var lines := f.val[rel].lines;
      var j := FirstMatch(lines, loc.value);
      if j.Some? && swap {
        lines := SwapFront(lines, j.value);
      }
      f.val := f.val[rel := Lines(lines)];
      crashed := rel == "assembling" && |f.val[rel].lines| == 0;
    }
  }

  /** `map_relations(e, f_dict, ld, p2)`, reordering the lists of `f` in place. */
  method MapRelations(e: string, f: RelationTable, ld: LocDict, p2: PyVal) returns (crashed: bool)
    requires IsFiltered(f.State())
    requires forall k :: k in ld.order ==> k in ld.at
    requires p2.PList? ==> |p2.items| > 0
    modifies f
    ensures MapOutcome(f.State(), crashed) == MapRelationsSpec(old(f.State()), e, ld, p2)
  {
    ghost var d0 := f.State();
    var pTest: Option<string> := None;
    if p2 != PNone {
      if p2.PList? {
        pTest := Some(p2.items[0]);
      }
    } else {
      pTest := Some(e);
    }
    var loc := LastLocation(ld);
    var swap := pTest == Some(e);
    var keys := f.order;
    assert MapRelationsSpec(d0, e, ld, p2) == MapTurns(d0, loc, swap, |keys|);
    var i := 0;
    while i < |keys|
      invariant 0 <= i <= |keys|
      invariant keys == d0.order
      invariant MapTurns(d0, loc, swap, i) == MapOutcome(f.State(), false)
    {
      MapTurnsShape(d0, loc, swap, i);
      var stop := ReorderKey(f, keys[i], loc, swap);
      assert MapTurns(d0, loc, swap, i + 1) == MapOutcome(f.State(), stop);
      if stop {
        MapTurnsCrashPersists(d0, loc, swap, i + 1, |keys|);
        return true;
      }
      i := i + 1;
    }
    return false;
  }
}
