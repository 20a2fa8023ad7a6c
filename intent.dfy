/**
 * Phrase-to-intent assembly: `phrase2dict` and its nested `check_for_tag`
 * (robot_db/python/typeDB_main/auxiliary.py:230-355), non-interactive path.
 *
 * The classifier is `FindType` over a `Store`; the tag query of
 * auxiliary.py:266-278 is the `tagExists` input. Every place where the source
 * reads the console, or calls `phrase2dict` again, ends the run with a `Halt`.
 */
module Intent {
  import opened Wrappers
  import opened Text
  import opened Classifier

  /** Keys of the intent dictionary: `command`, `prep-<n>`, `element-<n>`, `pair-<n>`. */
  datatype Slot = Command | Prep(n: nat) | Element(n: nat) | PairSlot(n: nat)

  /** A slot value: a phrase token, or the list `[head, TAG]`. */
  datatype SlotValue = Word(w: string) | Pair(head: string, tag: string)

  type IntentDict = map<Slot, SlotValue>

  /** The tag query filters by `element-type` value (attribute heads) or by class (auxiliary.py:265-276). */
  datatype TagScope = ByElementType | ByClass

  /** `find_type` seen from `phrase2dict`: `classify(tok)` is `FindType(store, tok)` for the store in use. */
  type TypeOracle = string -> Classification

  /** `tagExists(scope, head, TAG)`: the tag query of auxiliary.py:266-278 has an answer. */
  type TagOracle = (TagScope, string, string) -> bool

  /** Where a run leaves the non-interactive path. */
  datatype Halt =
    | ClassifierRaised   // find_type raised IndexError on a phrase token; it propagates (auxiliary.py:323)
    | AskForTag          // IndexError inside the try: the operator is asked for a tag (auxiliary.py:342-354)
    | AskTagCorrection   // the tag is not in the store: a numbered list is offered (auxiliary.py:279-304)
    | Reentered          // the tag classifies to None: phrase2dict is called again (auxiliary.py:309-319)

  /** `p_dict`, `i0`, `counter['element']`, `counter['pair']`. */
  datatype BuildState = BuildState(dict: IntentDict, nextPrep: nat, elements: nat, pairs: nat)

  datatype Step = Continue(st: BuildState) | Stop(halt: Halt)

  datatype Outcome = Built(intent: IntentDict) | Stopped(halt: Halt)

  const Initial: BuildState := BuildState(map[], 1, 0, 0)

  /** The lower-case list `check_for_tag` tests the upper-cased tag against. */
  const TagPrepList: seq<string> := ["to", "at", "linked-to", "of"]

  /** The tag query's filter: by `element-type` value when the head is an attribute, by class otherwise. */
  function ScopeOf(eType: Category): TagScope {
    if FirstField(eType) == "attribute" then ByElementType else ByClass
  }

  /** One call of `check_for_tag(p, tag, head, counter)`; `eType` is the head's classification. */
  function TagStep(classify: TypeOracle, tagExists: TagOracle, st: BuildState, eType: Category, head: string, tag: string): (r: Step)
    ensures r.Stop? ==> r.halt != ClassifierRaised
    ensures r.Continue? ==>
      && r.st.nextPrep == st.nextPrep
      && ((r.st.elements == st.elements + 1 && r.st.pairs == st.pairs) || (r.st.elements == st.elements && r.st.pairs == st.elements + 1))
  {
    var tn := Upper(tag);
    match classify(tn)
    case Crashed => Stop(AskForTag)
    // the test `tn in prep_list` never holds (see `TagPrepListUnreachable`); the source then recurses
    case Unclassified => Stop(Reentered)
    case Classified(t) =>
      if SecondField(t) != "tag-number" then
        Continue(st.(dict := st.dict[Element(1 + st.elements) := Word(head)], elements := st.elements + 1))
      else
        if !tagExists(ScopeOf(eType), head, tn) then Stop(AskTagCorrection)
        else
          // the pair counter becomes the element count plus one (auxiliary.py:308)
          Continue(st.(dict := st.dict[PairSlot(1 + st.elements + st.pairs) := Pair(head, tn)],
                       pairs := st.elements + 1))
  }

  /** The first two tests of the token loop: a role fills the next `prep-<i0>`, a command-type or function sets `command`. */
  function MarkToken(st: BuildState, kind: string, e: string): BuildState {
    var st1 := if kind == "role"
      then st.(dict := st.dict[Prep(st.nextPrep) := Word(e)], nextPrep := st.nextPrep + 1)
      else st;
    if kind == "command-type" || kind == "function"
    then st1.(dict := st1.dict[Command := Word(e)])
    else st1
  }

  /** One iteration of the token loop of `phrase2dict` (auxiliary.py:321-354). */
  function TokenStep(classify: TypeOracle, tagExists: TagOracle, st: BuildState, tokens: seq<string>, i: nat): (r: Step)
    requires i < |tokens|
    ensures r == Stop(ClassifierRaised) <==> classify(tokens[i]) == Crashed
  {
    var e := tokens[i];
    match classify(e)
    case Crashed => Stop(ClassifierRaised)
    case Unclassified => Continue(st.(dict := map[]))
    case Classified(c) =>
      var kind := SecondField(c);
      var st2 := MarkToken(st, kind, e);
      if kind == "element-type" || kind == e then
        if i + 1 < |tokens| then TagStep(classify, tagExists, st2, c, e, tokens[i + 1])
        else Stop(AskForTag)
      else Continue(st2)
  }

  /** The state after the first `n` tokens. */
  function Prefix(classify: TypeOracle, tagExists: TagOracle, tokens: seq<string>, n: nat): Step
    requires n <= |tokens|
    decreases n
  {
    if n == 0 then Continue(Initial)
    else match Prefix(classify, tagExists, tokens, n - 1)
      case Stop(h) => Stop(h)
      case Continue(st) => TokenStep(classify, tagExists, st, tokens, n - 1)
  }

  /** A run that continues after `n` tokens continued after `n - 1`, and its last step is `TokenStep`. */
  lemma PrefixLast(classify: TypeOracle, tagExists: TagOracle, tokens: seq<string>, n: nat)
    requires 0 < n <= |tokens|
    requires Prefix(classify, tagExists, tokens, n).Continue?
    requires NoUnknown(classify, tokens, n)
    ensures Prefix(classify, tagExists, tokens, n - 1).Continue? && NoUnknown(classify, tokens, n - 1)
    ensures classify(tokens[n - 1]) != Unclassified
    ensures TokenStep(classify, tagExists, Prefix(classify, tagExists, tokens, n - 1).st, tokens, n - 1)
      == Prefix(classify, tagExists, tokens, n)
  {
  }

  /** The last step of a run without `None`-classified tokens, seen from the keys (see `TokenStepFrame`). */
  lemma PrefixFrame(classify: TypeOracle, tagExists: TagOracle, tokens: seq<string>, n: nat)
    requires 0 < n <= |tokens|
    requires Prefix(classify, tagExists, tokens, n).Continue?
    requires NoUnknown(classify, tokens, n)
    ensures Prefix(classify, tagExists, tokens, n - 1).Continue? && NoUnknown(classify, tokens, n - 1)
    ensures var st0 := Prefix(classify, tagExists, tokens, n - 1).st;
      var st1 := Prefix(classify, tagExists, tokens, n).st;
      && PrepFrame(st0, st1, tokens[n - 1], IsRoleToken(classify, tokens[n - 1]))
      && CommandFrame(st0, st1, tokens[n - 1], IsCommandToken(classify, tokens[n - 1]))
      && ElementFrame(st0, st1, tokens[n - 1])
  {
    PrefixLast(classify, tagExists, tokens, n);
    TokenStepFrame(classify, tagExists, Prefix(classify, tagExists, tokens, n - 1).st, tokens, n - 1);
  }

  /** Once a run stops it stays stopped with the same reason. */
  lemma {:induction false} StopPersists(classify: TypeOracle, tagExists: TagOracle, tokens: seq<string>, n: nat, m: nat)
    requires n <= m <= |tokens|
    requires Prefix(classify, tagExists, tokens, n).Stop?
    ensures Prefix(classify, tagExists, tokens, m) == Prefix(classify, tagExists, tokens, n)
    decreases m - n
  {
    if n < m {
      StopPersists(classify, tagExists, tokens, n, m - 1);
    }
  }

  /** What `phrase2dict(tx, phrase)` returns on the non-interactive path. */
  function Phrase2DictSpec(classify: TypeOracle, tagExists: TagOracle, phrase: string): (r: Outcome)
    ensures IsBlank(phrase) ==> r == Built(map[])
  {
    WordsOfBlank(phrase);
    Run(classify, tagExists, Words(phrase))
  }

  /** The outcome of scanning a whole token list. */
  function Run(classify: TypeOracle, tagExists: TagOracle, tokens: seq<string>): Outcome {
    match Prefix(classify, tagExists, tokens, |tokens|)
    case Continue(st) => Built(st.dict)
    case Stop(h) => Stopped(h)
  }

  // ---------------------------------------------------------------------------
  // Properties of the specification

  /** The preposition test of `check_for_tag` compares an upper-cased tag with lower-case words: it never holds. */
  lemma TagPrepListUnreachable(tag: string)
    ensures Upper(tag) !in TagPrepList
  {
    var tn := Upper(tag);
    assert forall w :: w in TagPrepList ==> |w| > 0 && 'a' <= w[0] <= 'z';
    if |tn| > 0 {
      assert !('a' <= tn[0] <= 'z');
    }
  }

  predicate IsRoleToken(classify: TypeOracle, tok: string) {
    var r := classify(tok);
    r.Classified? && SecondField(r.category) == "role"
  }

  predicate IsCommandToken(classify: TypeOracle, tok: string) {
    var r := classify(tok);
    r.Classified? && (SecondField(r.category) == "command-type" || SecondField(r.category) == "function")
  }

  /**
   * No token among the first `n` classifies to `None` (such a token empties
   * `p_dict`, see `UnknownTokenClears`), and every category found is
   * colon-free. The second conjunct does not change what the scan does
   * (`SecondField` is `split(':')[1]` for every category, see
   * `FieldsOfEncoding`); it keeps the proofs that use this predicate off the
   * general splitting path and so within the solver's limits.
   */
  predicate NoUnknown(classify: TypeOracle, tokens: seq<string>, n: nat)
    requires n <= |tokens|
  {
    forall j :: 0 <= j < n ==>
      classify(tokens[j]) != Unclassified
      && (classify(tokens[j]).Classified? ==> ColonFree(classify(tokens[j]).category))
  }

  /** How many of the first `n` tokens classify as roles. */
  function RoleCount(classify: TypeOracle, tokens: seq<string>, n: nat): nat
    requires n <= |tokens|
  {
    if n == 0 then 0
    else RoleCount(classify, tokens, n - 1) + if IsRoleToken(classify, tokens[n - 1]) then 1 else 0
  }

  lemma {:induction false} RoleCountMonotone(classify: TypeOracle, tokens: seq<string>, j: nat, n: nat)
    requires j <= n <= |tokens|
    ensures RoleCount(classify, tokens, j) <= RoleCount(classify, tokens, n)
    decreases n - j
  {
    if j < n {
      RoleCountMonotone(classify, tokens, j, n - 1);
    }
  }

  /** The last of the first `n` tokens that classifies as a command, if any. */
  function LastCommand(classify: TypeOracle, tokens: seq<string>, n: nat): Option<string>
    requires n <= |tokens|
  {
    if n == 0 then None
    else if IsCommandToken(classify, tokens[n - 1]) then Some(tokens[n - 1])
    else LastCommand(classify, tokens, n - 1)
  }

  /** From `st` to `st2`: `prep-<i0>` = `e` is added and `i0` counted when `adds`, and no other prep slot changes. */
  ghost predicate PrepFrame(st: BuildState, st2: BuildState, e: string, adds: bool) {
    && st2.nextPrep == st.nextPrep + (if adds then 1 else 0)
    && (forall k: nat :: Prep(k) in st2.dict <==> Prep(k) in st.dict || (adds && k == st.nextPrep))
    && (forall k: nat :: Prep(k) in st2.dict ==>
          st2.dict[Prep(k)] == if adds && k == st.nextPrep then Word(e) else st.dict[Prep(k)])
  }

  /** From `st` to `st2`: `command` becomes `e` when `sets`, and is untouched otherwise. */
  ghost predicate CommandFrame(st: BuildState, st2: BuildState, e: string, sets: bool) {
    && (Command in st2.dict <==> Command in st.dict || sets)
    && (Command in st2.dict ==> st2.dict[Command] == if sets then Word(e) else st.dict[Command])
  }

  /** From `st` to `st2`: at most `element-<elements + 1>` = `e` is added and counted, and no other element slot changes. */
  ghost predicate ElementFrame(st: BuildState, st2: BuildState, e: string) {
    && (st2.elements == st.elements || st2.elements == st.elements + 1)
    && (forall k: nat :: Element(k) in st2.dict <==> Element(k) in st.dict || (st2.elements == st.elements + 1 && k == st2.elements))
    && (st2.elements == st.elements + 1 ==> st2.dict[Element(st2.elements)] == Word(e))
    && (forall k: nat :: Element(k) in st.dict && k != st.elements + 1 ==> st2.dict[Element(k)] == st.dict[Element(k)])
  }

  /** `check_for_tag` only writes element and pair slots and leaves `i0` alone. */
  lemma TagStepFrame(classify: TypeOracle, tagExists: TagOracle, st: BuildState, eType: Category, head: string, tag: string)
    requires TagStep(classify, tagExists, st, eType, head, tag).Continue?
    ensures var st2 := TagStep(classify, tagExists, st, eType, head, tag).st;
      PrepFrame(st, st2, head, false) && CommandFrame(st, st2, head, false) && ElementFrame(st, st2, head)
  {
  }

  /** A head followed by a token that classifies but is not a tag adds `element-<1 + elements>` = head and counts it. */
  lemma NonTagAddsElement(classify: TypeOracle, tagExists: TagOracle, st: BuildState, eType: Category, head: string, tag: string)
    requires classify(Upper(tag)).Classified? && SecondField(classify(Upper(tag)).category) != "tag-number"
    ensures TagStep(classify, tagExists, st, eType, head, tag)
      == Continue(st.(dict := st.dict[Element(1 + st.elements) := Word(head)], elements := st.elements + 1))
  {
  }

  /** One token step, seen from the keys: roles add the next `prep-<n>`, commands set `command`, at most one element is added. */
  lemma TokenStepFrame(classify: TypeOracle, tagExists: TagOracle, st: BuildState, tokens: seq<string>, i: nat)
    requires i < |tokens|
    requires classify(tokens[i]) != Unclassified
    requires TokenStep(classify, tagExists, st, tokens, i).Continue?
    ensures var st2 := TokenStep(classify, tagExists, st, tokens, i).st;
      && PrepFrame(st, st2, tokens[i], IsRoleToken(classify, tokens[i]))
      && CommandFrame(st, st2, tokens[i], IsCommandToken(classify, tokens[i]))
      && ElementFrame(st, st2, tokens[i])
  {
    var e := tokens[i];
    var c := classify(e).category;
    var kind := SecondField(c);
    var st2 := MarkToken(st, kind, e);
    MarkTokenFrame(st, kind, e);
    if (kind == "element-type" || kind == e) && i + 1 < |tokens| {
      TagStepFrame(classify, tagExists, st2, c, e, tokens[i + 1]);
    }
  }

  /** `MarkToken` touches only `prep-<i0>` and `command`, and leaves the element slots and count alone. */
  lemma MarkTokenFrame(st: BuildState, kind: string, e: string)
    ensures var st2 := MarkToken(st, kind, e);
      && PrepFrame(st, st2, e, kind == "role")
      && CommandFrame(st, st2, e, kind == "command-type" || kind == "function")
      && st2.elements == st.elements
      && (forall k: nat :: Element(k) in st2.dict <==> Element(k) in st.dict)
      && (forall k: nat :: Element(k) in st.dict ==> st2.dict[Element(k)] == st.dict[Element(k)])
  {
  }

  /** `i0` is one more than `count`, and the prep slots are exactly `prep-1` to `prep-(i0 - 1)`. */
  ghost predicate PrepsLaidOut(st: BuildState, count: nat) {
    && st.nextPrep == 1 + count
    && (forall k: nat :: Prep(k) in st.dict <==> 1 <= k < st.nextPrep)
  }

  /**
   * Without `None`-classified tokens, `i0` is one more than the number of role
   * tokens, and the prep slots are exactly `prep-1` to `prep-(i0 - 1)`.
   */
  lemma {:induction false} PrepSlotsCount(classify: TypeOracle, tagExists: TagOracle, tokens: seq<string>, n: nat)
    requires n <= |tokens|
    requires Prefix(classify, tagExists, tokens, n).Continue?
    requires NoUnknown(classify, tokens, n)
    ensures PrepsLaidOut(Prefix(classify, tagExists, tokens, n).st, RoleCount(classify, tokens, n))
  {
    if n > 0 {
      PrefixFrame(classify, tagExists, tokens, n);
      PrepSlotsCount(classify, tagExists, tokens, n - 1);
      var role := IsRoleToken(classify, tokens[n - 1]);
      assert RoleCount(classify, tokens, n) == RoleCount(classify, tokens, n - 1) + if role then 1 else 0;
      PrepsStep(Prefix(classify, tagExists, tokens, n - 1).st, Prefix(classify, tagExists, tokens, n).st,
                tokens[n - 1], role, RoleCount(classify, tokens, n - 1));
    }
  }

  /** The step of `PrepSlotsCount`: a step that adds at most `prep-<i0>` keeps the prep slots contiguous. */
  lemma PrepsStep(st: BuildState, st2: BuildState, e: string, role: bool, count: nat)
    requires PrepsLaidOut(st, count)
    requires PrepFrame(st, st2, e, role)
    ensures PrepsLaidOut(st2, count + if role then 1 else 0)
  {
  }

  /** The step of `PrepsInPhraseOrder`: a prep slot below `i0` keeps its value. */
  lemma PrepKept(st: BuildState, st2: BuildState, e: string, role: bool, k: nat)
    requires Prep(k) in st.dict && k < st.nextPrep
    requires PrepFrame(st, st2, e, role)
    ensures Prep(k) in st2.dict && st2.dict[Prep(k)] == st.dict[Prep(k)]
  {
  }

  /**
   * Without `None`-classified tokens, the role tokens fill `prep-1`, `prep-2`, ...
   * in phrase order: the role token at index `j` sits in `prep-(1 + roles before it)`.
   */
  lemma {:induction false} PrepsInPhraseOrder(classify: TypeOracle, tagExists: TagOracle, tokens: seq<string>, n: nat, j: nat)
    requires j < n <= |tokens|
    requires Prefix(classify, tagExists, tokens, n).Continue?
    requires NoUnknown(classify, tokens, n)
    requires IsRoleToken(classify, tokens[j])
    ensures var st := Prefix(classify, tagExists, tokens, n).st;
      && Prep(1 + RoleCount(classify, tokens, j)) in st.dict
      && st.dict[Prep(1 + RoleCount(classify, tokens, j))] == Word(tokens[j])
    decreases n
  {
    PrefixFrame(classify, tagExists, tokens, n);
    PrepSlotsCount(classify, tagExists, tokens, n - 1);
    var st0 := Prefix(classify, tagExists, tokens, n - 1).st;
    var st1 := Prefix(classify, tagExists, tokens, n).st;
    var k := 1 + RoleCount(classify, tokens, j);
    if j < n - 1 {
      PrepsInPhraseOrder(classify, tagExists, tokens, n - 1, j);
      RoleCountMonotone(classify, tokens, j + 1, n - 1);
      assert RoleCount(classify, tokens, j + 1) == RoleCount(classify, tokens, j) + 1;
      PrepKept(st0, st1, tokens[n - 1], IsRoleToken(classify, tokens[n - 1]), k);
    } else {
      assert k == st0.nextPrep;
    }
  }

  /** Without `None`-classified tokens, `command` holds the last command-type or function token, and only then exists. */
  lemma {:induction false} LastCommandWins(classify: TypeOracle, tagExists: TagOracle, tokens: seq<string>, n: nat)
    requires n <= |tokens|
    requires Prefix(classify, tagExists, tokens, n).Continue?
    requires NoUnknown(classify, tokens, n)
    ensures var st := Prefix(classify, tagExists, tokens, n).st;
      && (Command in st.dict <==> LastCommand(classify, tokens, n).Some?)
      && (Command in st.dict ==> st.dict[Command] == Word(LastCommand(classify, tokens, n).value))
  {
    if n > 0 {
      PrefixFrame(classify, tagExists, tokens, n);
      LastCommandWins(classify, tagExists, tokens, n - 1);
    }
  }

  /** The element slots are exactly `element-1` to `element-<elements>`, each holding a token of `seen`. */
  ghost predicate ElementsLaidOut(st: BuildState, seen: seq<string>) {
    && (forall k: nat :: Element(k) in st.dict <==> 1 <= k <= st.elements)
    && (forall k: nat :: Element(k) in st.dict ==> st.dict[Element(k)].Word? && st.dict[Element(k)].w in seen)
  }

  /**
   * Without `None`-classified tokens, the element slots are exactly
   * `element-1` to `element-<counter['element']>`, each holding a phrase token.
   */
  lemma {:induction false} ElementsContiguous(classify: TypeOracle, tagExists: TagOracle, tokens: seq<string>, n: nat)
    requires n <= |tokens|
    requires Prefix(classify, tagExists, tokens, n).Continue?
    requires NoUnknown(classify, tokens, n)
    ensures ElementsLaidOut(Prefix(classify, tagExists, tokens, n).st, tokens[..n])
  {
    if n > 0 {
      PrefixFrame(classify, tagExists, tokens, n);
      ElementsContiguous(classify, tagExists, tokens, n - 1);
      ElementsStep(Prefix(classify, tagExists, tokens, n - 1).st, Prefix(classify, tagExists, tokens, n).st, tokens, n);
    }
  }

  /** The step of `ElementsContiguous`: a step that adds at most `element-<elements + 1>` keeps the slots contiguous. */
  lemma ElementsStep(st: BuildState, st2: BuildState, tokens: seq<string>, n: nat)
    requires 0 < n <= |tokens|
    requires ElementsLaidOut(st, tokens[..n - 1])
    requires ElementFrame(st, st2, tokens[n - 1])
    ensures ElementsLaidOut(st2, tokens[..n])
  {
    assert tokens[..n] == tokens[..n - 1] + [tokens[n - 1]];
  }

  /** A token that classifies to `None` empties the dictionary built so far; the counters carry on. */
  lemma UnknownTokenClears(classify: TypeOracle, tagExists: TagOracle, tokens: seq<string>, j: nat)
    requires j < |tokens|
    requires classify(tokens[j]) == Unclassified
    requires Prefix(classify, tagExists, tokens, j).Continue?
    ensures Prefix(classify, tagExists, tokens, j + 1).Continue?
    ensures Prefix(classify, tagExists, tokens, j + 1).st.dict == map[]
    ensures Prefix(classify, tagExists, tokens, j + 1).st.nextPrep == Prefix(classify, tagExists, tokens, j).st.nextPrep
    ensures Prefix(classify, tagExists, tokens, j + 1).st.elements == Prefix(classify, tagExists, tokens, j).st.elements
  {
  }

  /** A phrase whose last token classifies to `None` yields the empty dictionary, if it yields one. */
  lemma TrailingUnknownEmpties(classify: TypeOracle, tagExists: TagOracle, tokens: seq<string>)
    requires |tokens| > 0 && classify(tokens[|tokens| - 1]) == Unclassified
    requires Run(classify, tagExists, tokens).Built?
    ensures Run(classify, tagExists, tokens).intent == map[]
  {
  }

  /**
   * A head token that `phrase2dict` hands to `check_for_tag` (its kind is
   * `element-type`, or the head's own name, and it is not a role or a command),
   * followed by a tag whose upper-case form is a tag-number the store holds
   * for that head, in the scope the head's category selects.
   */
  predicate HeadTagReady(classify: TypeOracle, tagExists: TagOracle, head: string, tag: string) {
    && classify(head).Classified?
    && var kind := SecondField(classify(head).category);
    && (kind == "element-type" || kind == head)
    && kind != "role" && kind != "command-type" && kind != "function"
    && classify(Upper(tag)).Classified?
    && SecondField(classify(Upper(tag)).category) == "tag-number"
    && tagExists(ScopeOf(classify(head).category), head, Upper(tag))
  }

  /** The tag token, scanned itself, classifies as a tag-number and is not the word `tag-number`. */
  predicate InertTag(classify: TypeOracle, tag: string) {
    classify(tag).Classified? && SecondField(classify(tag).category) == "tag-number" && tag != "tag-number"
  }

  /**
   * `check_for_tag` with a tag the store holds for the head: `pair-<1 + elements + pairs>`
   * becomes `[head, TAG]` with the tag upper-cased, and the pair counter becomes `elements + 1`.
   */
  lemma TagPairAdded(classify: TypeOracle, tagExists: TagOracle, st: BuildState, eType: Category, head: string, tag: string)
    requires classify(Upper(tag)).Classified? && SecondField(classify(Upper(tag)).category) == "tag-number"
    requires tagExists(ScopeOf(eType), head, Upper(tag))
    ensures TagStep(classify, tagExists, st, eType, head, tag)
      == Continue(st.(dict := st.dict[PairSlot(1 + st.elements + st.pairs) := Pair(head, Upper(tag))], pairs := st.elements + 1))
  {
  }

  /** A tag-number the store does not hold for the head leaves the non-interactive path with the correction prompt. */
  lemma UnknownTagAsksCorrection(classify: TypeOracle, tagExists: TagOracle, st: BuildState, eType: Category, head: string, tag: string)
    requires classify(Upper(tag)).Classified? && SecondField(classify(Upper(tag)).category) == "tag-number"
    requires !tagExists(ScopeOf(eType), head, Upper(tag))
    ensures TagStep(classify, tagExists, st, eType, head, tag) == Stop(AskTagCorrection)
  {
  }

  /** The head token of a ready head-tag pair adds `pair-<1 + elements + pairs>` and sets the pair counter. */
  lemma HeadStep(classify: TypeOracle, tagExists: TagOracle, st: BuildState, tokens: seq<string>, i: nat)
    requires i + 1 < |tokens|
    requires HeadTagReady(classify, tagExists, tokens[i], tokens[i + 1])
    ensures TokenStep(classify, tagExists, st, tokens, i)
      == Continue(st.(dict := st.dict[PairSlot(1 + st.elements + st.pairs) := Pair(tokens[i], Upper(tokens[i + 1]))],
                      pairs := st.elements + 1))
  {
    var c := classify(tokens[i]).category;
    assert MarkToken(st, SecondField(c), tokens[i]) == st;
    TagPairAdded(classify, tagExists, st, c, tokens[i], tokens[i + 1]);
  }

  /** A tag-number token that is not the word `tag-number` changes nothing when scanned itself. */
  lemma TagTokenStep(classify: TypeOracle, tagExists: TagOracle, st: BuildState, tokens: seq<string>, i: nat)
    requires i < |tokens|
    requires InertTag(classify, tokens[i])
    ensures TokenStep(classify, tagExists, st, tokens, i) == Continue(st)
  {
  }

  /** An upper-case tag is never the lower-case word `tag-number`. */
  lemma UpperTagIsInert(classify: TypeOracle, tag: string)
    requires Upper(tag) == tag
    requires classify(tag).Classified? && SecondField(classify(tag).category) == "tag-number"
    ensures InertTag(classify, tag)
  {
    if |tag| > 0 {
      assert Upper(tag)[0] == tag[0];
    }
  }

  /**
   * A head followed by its tag adds `pair-<1 + elements + pairs> = [head, TAG]`,
   * sets the pair counter to `elements + 1`, and the tag token itself then adds nothing.
   */
  lemma HeadThenTag(classify: TypeOracle, tagExists: TagOracle, st: BuildState, tokens: seq<string>, i: nat)
    requires i + 1 < |tokens|
    requires HeadTagReady(classify, tagExists, tokens[i], tokens[i + 1])
    requires InertTag(classify, tokens[i + 1])
    requires Prefix(classify, tagExists, tokens, i) == Continue(st)
    ensures Prefix(classify, tagExists, tokens, i + 2)
      == Continue(st.(dict := st.dict[PairSlot(1 + st.elements + st.pairs) := Pair(tokens[i], Upper(tokens[i + 1]))],
                      pairs := st.elements + 1))
  {
    var st' := st.(dict := st.dict[PairSlot(1 + st.elements + st.pairs) := Pair(tokens[i], Upper(tokens[i + 1]))], pairs := st.elements + 1);
    HeadStep(classify, tagExists, st, tokens, i);
    assert Prefix(classify, tagExists, tokens, i + 1) == Continue(st');
    TagTokenStep(classify, tagExists, st', tokens, i + 1);
  }

  /**
   * The pair counter is set to the element count plus one: with no element
   * slots, a third tagged head lands on `pair-2` again and replaces the second.
   */
  lemma ThirdPairOverwritesSecond(classify: TypeOracle, tagExists: TagOracle, eType: Category, heads: seq<string>, tags: seq<string>)
    requires |heads| == 3 && |tags| == 3
    requires forall k :: 0 <= k < 3 ==>
      classify(Upper(tags[k])).Classified? && SecondField(classify(Upper(tags[k])).category) == "tag-number"
      && tagExists(ScopeOf(eType), heads[k], Upper(tags[k]))
    ensures var s1 := TagStep(classify, tagExists, Initial, eType, heads[0], tags[0]);
      && s1.Continue?
      && var s2 := TagStep(classify, tagExists, s1.st, eType, heads[1], tags[1]);
      && s2.Continue?
      && var s3 := TagStep(classify, tagExists, s2.st, eType, heads[2], tags[2]);
      && s3.Continue?
      && s3.st.dict == map[PairSlot(1) := Pair(heads[0], Upper(tags[0])), PairSlot(2) := Pair(heads[2], Upper(tags[2]))]
  {
    var p1 := Pair(heads[0], Upper(tags[0]));
    var s1 := BuildState(map[PairSlot(1) := p1], 1, 0, 1);
    TagPairAdded(classify, tagExists, Initial, eType, heads[0], tags[0]);
    var s2 := BuildState(map[PairSlot(1) := p1, PairSlot(2) := Pair(heads[1], Upper(tags[1]))], 1, 0, 1);
    TagPairAdded(classify, tagExists, s1, eType, heads[1], tags[1]);
    TagPairAdded(classify, tagExists, s2, eType, heads[2], tags[2]);
    assert s2.dict[PairSlot(2) := Pair(heads[2], Upper(tags[2]))]
      == map[PairSlot(1) := p1, PairSlot(2) := Pair(heads[2], Upper(tags[2]))];
  }

  /** For a head ready for its tag, `<head> <tag>` yields exactly `pair-1 = [head, TAG]`. */
  lemma HeadTagPair(classify: TypeOracle, tagExists: TagOracle, head: string, tag: string)
    requires HeadTagReady(classify, tagExists, head, tag) && InertTag(classify, tag)
    ensures Run(classify, tagExists, [head, tag]) == Built(map[PairSlot(1) := Pair(head, Upper(tag))])
  {
    HeadThenTag(classify, tagExists, Initial, [head, tag], 0);
  }

  /** A non-empty token without whitespace: `split()` keeps it whole. */
  predicate IsWord(w: string) {
    |w| > 0 && forall i :: 0 <= i < |w| ==> !IsSpace(w[i])
  }

  /**
   * A phrase `<command> <head> <tag>` (as in `open valve MECH-VALVE-TURN-UN-IN-11`,
   * where `valve` is an element-type attribute value) yields
   * `{command: <command>, pair-1: [<head>, <TAG>]}`.
   */
  lemma CommandHeadTag(classify: TypeOracle, tagExists: TagOracle, cmd: string, head: string, tag: string)
    requires IsWord(cmd) && IsWord(head) && IsWord(tag)
    requires classify(cmd).Classified? && SecondField(classify(cmd).category) == "command-type" && cmd != "command-type"
    requires HeadTagReady(classify, tagExists, head, tag) && InertTag(classify, tag)
    ensures Phrase2DictSpec(classify, tagExists, cmd + " " + head + " " + tag)
      == Built(map[Command := Word(cmd), PairSlot(1) := Pair(head, Upper(tag))])
  {
    var tokens := [cmd, head, tag];
    ThreeWords(cmd, head, tag);
    var st1 := BuildState(map[Command := Word(cmd)], 1, 0, 0);
    assert Prefix(classify, tagExists, tokens, 1) == Continue(st1) by {
      assert Prefix(classify, tagExists, tokens, 0) == Continue(Initial);
    }
    HeadThenTag(classify, tagExists, st1, tokens, 1);
  }

  /** `split()` of three words joined by single spaces gives the three words back. */
  lemma ThreeWords(a: string, b: string, c: string)
    requires IsWord(a) && IsWord(b) && IsWord(c)
    ensures Words(a + " " + b + " " + c) == [a, b, c]
  {
    assert a + " " + b + " " + c == a + " " + (b + " " + c);
    TwoWords(b, c);
    WordsJoin(a, b + " " + c);
    WordsSingle(a);
    assert [a] + [b, c] == [a, b, c];
  }

  /** `split()` of two words joined by a space gives the two words back. */
  lemma TwoWords(a: string, b: string)
    requires IsWord(a) && IsWord(b)
    ensures Words(a + " " + b) == [a, b]
  {
    WordsJoin(a, b);
    WordsSingle(a);
    WordsSingle(b);
  }

  /** The state `phrase2dict` keeps while it scans: `p_dict`, `i0` and the `counter` dictionary. */
  class IntentBuilder {
    var dict: IntentDict
    var nextPrep: nat
    var elements: nat
    var pairs: nat

    function State(): BuildState
      reads this
    {
      BuildState(dict, nextPrep, elements, pairs)
    }

    constructor ()
      ensures State() == Initial
    {
      dict := map[];
      nextPrep := 1;
      elements := 0;
      pairs := 0;
    }

    /** `check_for_tag`: classify the upper-cased tag and add an element or a pair slot. */
    method CheckForTag(classify: TypeOracle, tagExists: TagOracle, eType: Category, head: string, tag: string)
      returns (halt: Option<Halt>)
      modifies this
      ensures halt == None <==> TagStep(classify, tagExists, old(State()), eType, head, tag).Continue?
      ensures halt == None ==> State() == TagStep(classify, tagExists, old(State()), eType, head, tag).st
      ensures halt.Some? ==> halt.value == TagStep(classify, tagExists, old(State()), eType, head, tag).halt
      ensures halt == None ==> nextPrep == old(nextPrep)
      ensures halt == None ==> elements + pairs > old(elements)
    {
      var tn := Upper(tag);
      var index := 1;
      var v1 := elements;
      var v2 := pairs;
      var idType := classify(tn);
      match idType {
        case Crashed =>
          return Some(AskForTag);
        case Unclassified =>
          return Some(Reentered);
        case Classified(t) =>
          if SecondField(t) != "tag-number" {
            index := index + elements;
            dict := dict[Element(index) := Word(head)];
            elements := v1 + 1;
          } else {
            var scope := if FirstField(eType) == "attribute" then ByElementType else ByClass;
            if !tagExists(scope, head, tn) {
              return Some(AskTagCorrection);
            }
            index := index + (v1 + v2);
            dict := dict[PairSlot(index) := Pair(head, tn)];
            pairs := v1 + 1;
          }
          return None;
      }
    }

    /** One iteration of the loop of `phrase2dict` over the token at index `i`. */
    method ScanToken(classify: TypeOracle, tagExists: TagOracle, tokens: seq<string>, i: nat)
      returns (halt: Option<Halt>)
      requires i < |tokens|
      modifies this
      ensures halt == None <==> TokenStep(classify, tagExists, old(State()), tokens, i).Continue?
      ensures halt == None ==> State() == TokenStep(classify, tagExists, old(State()), tokens, i).st
      ensures halt.Some? ==> halt.value == TokenStep(classify, tagExists, old(State()), tokens, i).halt
    {
      var e := tokens[i];
      var eType := classify(e);
      match eType {
        case Crashed =>
          return Some(ClassifierRaised);
        case Unclassified =>
          dict := map[];
          return None;
        case Classified(c) =>
          var kind := SecondField(c);
          if kind == "role" {
            dict := dict[Prep(nextPrep) := Word(e)];
            nextPrep := nextPrep + 1;
          }
          if kind == "command-type" || kind == "function" {
            dict := dict[Command := Word(e)];
          }
          if kind == "element-type" || kind == e {
            if i + 1 < |tokens| {
              halt := CheckForTag(classify, tagExists, c, e, tokens[i + 1]);
              return;
            }
            return Some(AskForTag);
          }
          return None;
      }
    }
  }

  /** `phrase2dict(tx, phrase)`: scan the tokens left to right with one builder. */
  method Phrase2Dict(classify: TypeOracle, tagExists: TagOracle, phrase: string) returns (out: Outcome)
    ensures out == Phrase2DictSpec(classify, tagExists, phrase)
  {
    out := Scan(classify, tagExists, Words(phrase));
  }

  /** The token loop of `phrase2dict`. */
  method Scan(classify: TypeOracle, tagExists: TagOracle, tokens: seq<string>) returns (out: Outcome)
    ensures out == Run(classify, tagExists, tokens)
  {
    var b := new IntentBuilder();
    var i := 0;
    while i < |tokens|
      invariant 0 <= i <= |tokens|
      invariant Prefix(classify, tagExists, tokens, i) == Continue(b.State())
    {
      ghost var before := b.State();
      var halt := b.ScanToken(classify, tagExists, tokens, i);
      assert Prefix(classify, tagExists, tokens, i + 1) == TokenStep(classify, tagExists, before, tokens, i);
      if halt.Some? {
        StopPersists(classify, tagExists, tokens, i + 1, |tokens|);
        return Stopped(halt.value);
      }
      i := i + 1;
    }
    return Built(b.dict);
  }
}
