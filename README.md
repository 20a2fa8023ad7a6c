# Command interpretation core of the robot TypeDB interpreter, in Dafny

This project models the deterministic layer of the underwater-robot command
interpreter in `robot_db/python/typeDB_main/auxiliary.py` and
`robot_db/python/typeDB_main/inquirer.py`. It covers these steps:

- **Token classification** (`find_type`). This is module `Classifier`. The three
  store lookups are inputs (`Store`), and the colon-encoded answer is
  `Encode` of a typed `Category`.
- **Phrase-to-intent assembly** (`phrase2dict` with its nested
  `check_for_tag`). This is module `Intent`. A specification function
  (`TokenStep`, `Prefix`, `Run`) and a class `IntentBuilder` hold `p_dict`,
  `i0` and the `counter` dictionary. The scanning methods are proved equal to
  the specification.
- **Query composition** in `get_relations` and the clause appender
  `query_builder`. This is module `Query`. Queries are sequences of typed
  clauses, and `Render` gives their exact text.
- **Relation and location aggregation** in `get_relations`: the closures
  `retrieve_relations` and `retrieve_location`, the row loop and
  `filter_relations`. This is module `Aggregation`. Each dictionary is a class
  updated in place (`RelationTable`, `LocationBook`, `PairList`). Each method
  is proved against a function on values (`AfterRelationRow`,
  `AfterLocationRow`, `RowStep`, `AggregateRows`, `Filtered`), and the
  invariants are proved about those functions.
- **The compliance gate** `check_command_compliance` and the `use_tool`
  choice of `command_line`. This is module `Compliance`.
- **`concept_dict`, `pair_element_id` and `find_paths`.** This is module
  `Schema`.
- **The helpers of `QueryModel.command_line`**: the acceptance loop of
  `valid_input_phrase`, `return_element`, `target_location`, the guard of
  `retrieve_target_information`, the reordering loop of `map_relations` and
  `find_common_elements`. This is module `Inquirer`.

Every store answer becomes an input value: an oracle function or a sequence
of query rows. Every point where the source reads the console ends a run with
an explicit outcome instead.

Where the design description of the system and the code disagree, the model
follows the code:

- **`find_type` can raise.** The design says `find_type` returns "unknown"
  when every lookup fails. In the code, the empty `StopIteration` message
  reaches `str(e).split("Read:")[1]`, which raises `IndexError`
  (`Classifier.NothingFoundRaises`). `None` comes back only for the root type,
  or for a store error whose message contains `Read:`
  (`Classifier.NoneOnlyOnReadError`).
- **`target_location` does not raise without pairs.** The design says it
  raises `LocationError` when there is no location pair and no coordinate
  information. The code returns `('UNDEFINED', 'UNDEFINED')` then
  (`Inquirer.NoPairsNeverRaise`). It raises only for a single pair with no
  landmark.
- **A tag token never becomes a preposition.** The design says a tag token
  that classifies as a preposition is recorded as a `prep-<n>` slot. The code
  compares an upper-cased token with a lower-case list, so that branch never
  runs (`Intent.TagPrepListUnreachable`). The code then calls `phrase2dict`
  again and discards the result.

## Model

| member | source | states |
|---|---|---|
| Classifier.ErrorHandler | robot_db/python/typeDB_main/auxiliary.py:389-391 | the handler indexes piece 1 of `str(e).split('Read:')`: it returns `None` exactly when the message contains `Read:`, and raises `IndexError` otherwise |
| Classifier.FindType | robot_db/python/typeDB_main/auxiliary.py:359-391 | a declared type gives a category unless it is the root type; a role category comes only from an undeclared token, written as typed or lower-cased |
| Text.SplitOnSecondPiece | robot_db/python/typeDB_main/auxiliary.py:390 | splitting at a separator string gives a piece 1 exactly when the separator occurs in the text |
| Classifier.Fields | robot_db/python/typeDB_main/auxiliary.py:370-387 | an encoded category always has at least two colon-separated fields |
| Classifier.FieldsSplit | robot_db/python/typeDB_main/auxiliary.py:370-387 | `Fields(c)` is exactly `Encode(c).split(':')` |
| Classifier.EncodeFields | robot_db/python/typeDB_main/auxiliary.py:370-387 | for colon-free labels, the fields are `[kind, label]` or `[token, 'role', relation]`, so `split(':')[0]` and `[1]` give the kind and the label |
| Classifier.FieldsOfEncoding | robot_db/python/typeDB_main/auxiliary.py:370-387 | `FirstField` and `SecondField` are `split(':')[0]` and `split(':')[1]` of the encoded string |
| Classifier.DecodeEncode | robot_db/python/typeDB_main/auxiliary.py:370-387 | decoding the category string gives the category back when no label contains a colon |
| Classifier.PrepositionColonFree | robot_db/python/typeDB_main/auxiliary.py:361-369 | a word whose upper-case form is in the preposition list contains no colon |
| Classifier.PrepositionIsRole | robot_db/python/typeDB_main/auxiliary.py:366-370 | an undeclared token whose upper-case form is TO/FROM/AT/IN/ON/OF/INTO classifies as `<token>:role:teste`; its first field is the token and its second is `role` |
| Classifier.DeclaredTypeWins | robot_db/python/typeDB_main/auxiliary.py:366-387 | a declared attribute, entity or relation type gives `attribute:`, `entity:` or `relation:` followed by its label, before any other rung |
| Classifier.NothingFoundRaises | robot_db/python/typeDB_main/auxiliary.py:372-391 | when every rung finds nothing, `find_type` raises `IndexError` instead of returning `None` |
| Classifier.NoneOnlyOnReadError | robot_db/python/typeDB_main/auxiliary.py:366-391 | `None` is returned only for the root thing type, or for a store error whose message contains `Read:` |
| Intent.StopPersists | robot_db/python/typeDB_main/auxiliary.py:321-355 | once the scan leaves the non-interactive path, it stays stopped with the same reason |
| Intent.TagPrepListUnreachable | robot_db/python/typeDB_main/auxiliary.py:248-312 | an upper-cased tag is never in the lower-case preposition list of `check_for_tag` |
| Intent.RoleCountMonotone | robot_db/python/typeDB_main/auxiliary.py:330-332 | the number of role tokens in a prefix of the phrase never decreases as the prefix grows |
| Intent.TagStep | robot_db/python/typeDB_main/auxiliary.py:248-308 | one `check_for_tag` call keeps `i0`, and either counts one more element or sets the pair counter to `elements + 1`; an `IndexError` from classifying the tag becomes the tag prompt, never the token-level error |
| Intent.TagPairAdded | robot_db/python/typeDB_main/auxiliary.py:265-308 | a tag whose upper-case form is a tag-number the store holds for the head, in the scope its category selects, adds `pair-<1 + elements + pairs>` = `[head, TAG]` and sets the pair counter to `elements + 1` |
| Intent.UnknownTagAsksCorrection | robot_db/python/typeDB_main/auxiliary.py:265-280 | a tag-number the store does not hold for the head leads to the correction prompt |
| Intent.TagStepFrame | robot_db/python/typeDB_main/auxiliary.py:248-308 | `check_for_tag` leaves `i0`, the prep slots and `command` alone, and adds at most the element slot `element-<1 + elements>` = head |
| Intent.NonTagAddsElement | robot_db/python/typeDB_main/auxiliary.py:258-263 | a head followed by a token that classifies but is not a tag-number adds `element-<1 + elements>` = head and counts one more element |
| Intent.TokenStep | robot_db/python/typeDB_main/auxiliary.py:321-354 | a token's step ends with the classifier's `IndexError` exactly when `find_type` raises on that token |
| Intent.TokenStepFrame | robot_db/python/typeDB_main/auxiliary.py:321-341 | per token: a role adds the next `prep-<i0>`, a command-type or function token sets `command`, and at most one element slot is added |
| Intent.PrepSlotsCount | robot_db/python/typeDB_main/auxiliary.py:330-332 | without `None`-classified tokens, `i0` is one more than the number of role tokens, and the prep slots are exactly `prep-1` to `prep-(i0-1)` |
| Intent.PrepsInPhraseOrder | robot_db/python/typeDB_main/auxiliary.py:330-332 | role tokens fill `prep-1`, `prep-2`, … in phrase order |
| Intent.LastCommandWins | robot_db/python/typeDB_main/auxiliary.py:334-335 | `command` exists exactly when some token is a command, and then holds the last such token |
| Intent.ElementsContiguous | robot_db/python/typeDB_main/auxiliary.py:260-263 | the element slots are exactly `element-1` to `element-<counter['element']>`, each holding a phrase token |
| Intent.UnknownTokenClears | robot_db/python/typeDB_main/auxiliary.py:325-326 | a token that classifies to `None` empties the dictionary and leaves the counters unchanged |
| Intent.TrailingUnknownEmpties | robot_db/python/typeDB_main/auxiliary.py:325-355 | a phrase whose last token classifies to `None` yields the empty dictionary |
| Intent.HeadStep | robot_db/python/typeDB_main/auxiliary.py:305-341 | a head of kind `element-type` or of its own name, attribute or not, followed by a tag the store holds in the head's scope, adds `pair-<1 + elements + pairs>` = `[head, tag.upper()]` and sets the pair counter to `elements + 1` |
| Intent.TagTokenStep | robot_db/python/typeDB_main/auxiliary.py:321-337 | a tag-number token other than the word `tag-number` adds nothing when it is scanned itself |
| Intent.UpperTagIsInert | robot_db/python/typeDB_main/auxiliary.py:321-337 | an upper-case tag-number token is never the word `tag-number`, so it adds nothing when scanned |
| Intent.HeadThenTag | robot_db/python/typeDB_main/auxiliary.py:305-341 | scanning `<head> <tag>` from any state adds exactly the pair slot `[head, tag.upper()]`, for any head kind that reaches `check_for_tag` |
| Intent.ThirdPairOverwritesSecond | robot_db/python/typeDB_main/auxiliary.py:306-308 | for any head category, because the pair counter is set to the element count plus one, a third tagged head with no element slots overwrites `pair-2` |
| Intent.HeadTagPair | robot_db/python/typeDB_main/auxiliary.py:230-355 | `<head> <tag>` yields exactly `{pair-1: [head, tag.upper()]}`, for element-type and named heads alike |
| Intent.CommandHeadTag | robot_db/python/typeDB_main/auxiliary.py:230-355 | `<command> <head> <tag>` yields exactly `{command, pair-1: [head, tag.upper()]}`, attribute heads such as `valve` included |
| Intent.IntentBuilder.CheckForTag | robot_db/python/typeDB_main/auxiliary.py:248-308 | the in-place update of `p_dict` and `counter` is the specification step, and it keeps `i0` and counts one more element or pair slot |
| Intent.IntentBuilder.ScanToken | robot_db/python/typeDB_main/auxiliary.py:321-341 | one loop iteration updates the builder exactly as `TokenStep` |
| Intent.Phrase2Dict | robot_db/python/typeDB_main/auxiliary.py:230-355 | `phrase2dict` returns the specification outcome of the whitespace-split phrase |
| Intent.Phrase2DictSpec | robot_db/python/typeDB_main/auxiliary.py:230-355 | a blank phrase yields the empty dictionary |
| Text.WordsOfBlank | robot_db/python/typeDB_main/auxiliary.py:233 | `split()` of a blank string is empty |
| Intent.Scan | robot_db/python/typeDB_main/auxiliary.py:321-355 | the token loop returns `Run` of the token list |
| Query.EntityBase | robot_db/python/typeDB_main/auxiliary.py:402-427 | the entity base clause is the bare `match ` exactly when `pair2` is given and its tag equals `tag`; otherwise it is `$x isa <elem>` with the given tag, or with `pair2`'s tag for `surface` after the preposition `of` |
| Query.ClauseText | robot_db/python/typeDB_main/auxiliary.py:413-437 | every relation clause's text holds the root-role exclusion for both of its role variables |
| Query.RelText | robot_db/python/typeDB_main/auxiliary.py:413-437 | a relation clause contains `not {$<r> type relation:role;}` for each role variable |
| Query.RelationQuery | robot_db/python/typeDB_main/auxiliary.py:419-454 | a composed query starts with the base clause and ends with the `get` clause for its variables, has 8 clauses with `pair2` and 4 without, and uses the entity form of the `z` clause exactly when `find_type(pair2[0])` starts with `entity` |
| Query.LocationQuery | robot_db/python/typeDB_main/auxiliary.py:457-462 | the location query exists exactly for a connector or a tool, and starts with the base clause |
| Query.RelationQueryFails | robot_db/python/typeDB_main/auxiliary.py:419-452 | composing the query fails exactly when `pair2` is given and its head does not classify |
| Query.EntityScopeIff | robot_db/python/typeDB_main/auxiliary.py:443-454 | the base clause is entity-scoped exactly when `elem_type[1] == 'entity'`, and attribute-scoped otherwise |
| Query.TagClauseIff | robot_db/python/typeDB_main/auxiliary.py:402-454 | without a pair, the base clause carries the tag clause exactly when a non-empty tag is given |
| Query.RelationClausesPresent | robot_db/python/typeDB_main/auxiliary.py:413-454 | the query relates `x`–`y` always, and `x`–`z` and `z`–`w` exactly when `pair2` is given |
| Query.RenderContains | robot_db/python/typeDB_main/auxiliary.py:445-454 | every clause's text occurs in the concatenated query |
| Query.RelationRolesExcluded | robot_db/python/typeDB_main/auxiliary.py:413-437 | every relation clause of the query text excludes both of its roles being `relation:role` |
| Query.LocationSharesBase | robot_db/python/typeDB_main/auxiliary.py:457-462 | for a connector or a tool, the location query starts with the same base clause as the relation query |
| Query.QueryBuilder | robot_db/python/typeDB_main/auxiliary.py:156-169 | the result extends `q` with ` has <n><k> ` for an entity, or ` $v<n><k> ` ending in `;` otherwise, followed by the quoted value for string data and by the data-type name for any other value |
| Aggregation.RemoveFirstElementType | robot_db/python/typeDB_main/auxiliary.py:489-491 | removing the first element-type entry never lengthens the list |
| Aggregation.NoElementTypeKept | robot_db/python/typeDB_main/auxiliary.py:489-491 | a list without element-type entries is kept unchanged |
| Aggregation.FirstElementTypeRemoved | robot_db/python/typeDB_main/auxiliary.py:489-491 | exactly the first entry whose attribute type contains `element-type` is removed |
| Aggregation.RemoveFirstElementTypeKeeps | robot_db/python/typeDB_main/auxiliary.py:489-491 | the removal keeps only entries of the list, keeps every non-element-type entry, and drops at most one |
| Aggregation.AfterRelationRow | robot_db/python/typeDB_main/auxiliary.py:480-496 | a dictionary that has not been filtered stays unfiltered after a row |
| Aggregation.RelationKeysWhitelisted | robot_db/python/typeDB_main/auxiliary.py:481-483 | keys are only ever added, and only for forming, assembling, composing, linking and positioning |
| Aggregation.RoleRowAddsNoEntry | robot_db/python/typeDB_main/auxiliary.py:482-484 | a row with the placeholder role on either side adds no entry, at most the `{}` placeholder |
| Aggregation.FirstRowStored | robot_db/python/typeDB_main/auxiliary.py:494-495 | the first entry for a fresh key is stored whatever its attribute type |
| Aggregation.ExistingListUpdate | robot_db/python/typeDB_main/auxiliary.py:486-493 | an existing list gains only tag-number entries and never a duplicate, and loses at most one element-type entry; a row already present changes nothing |
| Aggregation.DistinctRemoveAt | robot_db/python/typeDB_main/auxiliary.py:491 | removing one item keeps a list free of duplicates |
| Aggregation.TagNumberIsNotElementType | robot_db/python/typeDB_main/auxiliary.py:489-492 | a `tag-number` entry never matches the element-type filter |
| Aggregation.OnlyHeadElementType | robot_db/python/typeDB_main/auxiliary.py:489-495 | in a list kept by the update, only the first entry can be an element-type entry |
| Aggregation.SoundListUpdate | robot_db/python/typeDB_main/auxiliary.py:486-493 | the list update keeps lists free of duplicates and placeholder roles, with tag-number entries after the first |
| Aggregation.AfterRelationRowSound | robot_db/python/typeDB_main/auxiliary.py:480-496 | `retrieve_relations` keeps the dictionary invariant: whitelisted keys listed once, and sound lists |
| Aggregation.EntryLinePrefix | robot_db/python/typeDB_main/auxiliary.py:547 | the text before `▶` in a filtered line is `<e> <tag> ` |
| Aggregation.FilteredShape | robot_db/python/typeDB_main/auxiliary.py:545-548 | filtering keeps every key and its position, and turns each list into as many lines, in order, the placeholder becoming an empty list |
| Aggregation.Filtered | robot_db/python/typeDB_main/auxiliary.py:545-548 | filtering keeps the keys and their order, and every value becomes a list of lines |
| Aggregation.RelationTable.RetrieveRelations | robot_db/python/typeDB_main/auxiliary.py:480-496 | the in-place update is `AfterRelationRow` of the old dictionary |
| Aggregation.RelationTable.FilterRelations | robot_db/python/typeDB_main/auxiliary.py:545-548 | the in-place rewrite, key by key, gives `Filtered` of the old dictionary |
| Aggregation.LocationRowEffect | robot_db/python/typeDB_main/auxiliary.py:498-504 | only equipment, vessel or storage rows with non-placeholder roles and a tag-number are recorded; `l_d[target]` is overwritten with the latest role and tag; the pair list only grows at its end, by at most one item |
| Aggregation.AfterLocationRow | robot_db/python/typeDB_main/auxiliary.py:498-504 | a row that is not recorded changes nothing; a recorded one sets `l_d[target]` and lists its pair; the pair list only grows at its end, by at most one item |
| Aggregation.AfterLocationRowSound | robot_db/python/typeDB_main/auxiliary.py:498-504 | `retrieve_location` keeps the targets known and listed once, and the pair list free of duplicates |
| Aggregation.DistinctAppend | robot_db/python/typeDB_main/auxiliary.py:503-504 | appending an absent item keeps a list free of duplicates |
| Aggregation.RetrieveLocation | robot_db/python/typeDB_main/auxiliary.py:498-504 | the in-place update of `l_d` and `l_pair` is `AfterLocationRow` |
| Aggregation.RowStep | robot_db/python/typeDB_main/auxiliary.py:506-536 | one row keeps all three relation dictionaries unfiltered |
| Aggregation.AggregateRows | robot_db/python/typeDB_main/auxiliary.py:506-536 | the row loop keeps all three relation dictionaries unfiltered |
| Aggregation.RowStepSound | robot_db/python/typeDB_main/auxiliary.py:506-536 | one row keeps every dictionary and pair list sound |
| Aggregation.AggregateRowsSound | robot_db/python/typeDB_main/auxiliary.py:506-536 | whatever the rows, the dictionaries are keyed only by the five relation kinds, their lists are sound, and the location facts have known targets and no duplicate pair |
| Aggregation.NoPairNoSecondFacts | robot_db/python/typeDB_main/auxiliary.py:518-534 | without `pair2` the `xz` and `wz` dictionaries and the second pair list stay empty |
| Aggregation.ConsumeRow | robot_db/python/typeDB_main/auxiliary.py:506-536 | the loop body updates the six structures exactly as `RowStep` |
| Aggregation.AggregateRowsNext | robot_db/python/typeDB_main/auxiliary.py:506-536 | the state after one more row is one more `RowStep` |
| Aggregation.ConsumeRows | robot_db/python/typeDB_main/auxiliary.py:473-536 | the loop over the rows leaves exactly `AggregateRows` of the rows in fresh, distinct dictionaries |
| Aggregation.CollectRelations | robot_db/python/typeDB_main/auxiliary.py:473-540 | the loop and the three filter calls leave the filtered `AggregateRows` of the rows |
| Aggregation.GetRelations | robot_db/python/typeDB_main/auxiliary.py:394-542 | a result exists exactly when the relation query can be composed, and coordinates are empty unless the element is a connector or a tool |
| Aggregation.GetRelationsKeys | robot_db/python/typeDB_main/auxiliary.py:480-548 | every returned dictionary is keyed by the five relation kinds and holds lines; the pair lists have no duplicate; without `pair2` the second facts are empty |
| Compliance.CheckCommandCompliance | robot_db/python/typeDB_main/auxiliary.py:551-564 | with `use_tool` nothing is checked; otherwise `ComplianceError` is raised exactly when no goal-list item contains the element or its class |
| Compliance.EmptyGoalsRaise | robot_db/python/typeDB_main/auxiliary.py:555-562 | an empty goal list raises unless a tool is in use |
| Compliance.ContainingItemComplies | robot_db/python/typeDB_main/auxiliary.py:556-559 | an item that merely contains the element makes the command compliant |
| Compliance.MoreGoalsStayCompliant | robot_db/python/typeDB_main/auxiliary.py:556-559 | adding goals never turns a passing command into a raised error |
| Compliance.UseTool | robot_db/python/typeDB_main/inquirer.py:152-187 | `use_tool` is bound exactly when there is a command, and is true exactly when the command's goal list contains `'function'` |
| Compliance.AttributeGate | robot_db/python/typeDB_main/inquirer.py:224-266 | without a command the element inquiry fails on the unbound `command_type` before the gate is reached; with a command the gate gives the compliance verdict for that command's `use_tool` |
| Compliance.ToolCommandPasses | robot_db/python/typeDB_main/inquirer.py:158-266 | a tool command passes the gate whatever the goal list |
| Compliance.SubstringIsNotTool | robot_db/python/typeDB_main/inquirer.py:158 | `'function'` is a list-membership test: a goal `functional` does not make a tool command |
| Schema.FirstWord | robot_db/python/typeDB_main/auxiliary.py:70-72 | `line.split()[0]` is a non-empty word without whitespace |
| Schema.FirstWords | robot_db/python/typeDB_main/auxiliary.py:70-72 | each list has at most one name per line, each non-empty |
| Schema.FirstWordsAppend | robot_db/python/typeDB_main/auxiliary.py:70-72 | the list of two runs of lines is the two lists concatenated |
| Schema.ConceptDictConcat | robot_db/python/typeDB_main/auxiliary.py:68-73 | for schema texts joined by a newline, each list is the lists of the parts in source order |
| Schema.ConceptDictLine | robot_db/python/typeDB_main/auxiliary.py:69-72 | a single line contributes its first word to each list whose `sub <kind>` it contains, and a blank or `//` line contributes nothing |
| Schema.ConceptDict | robot_db/python/typeDB_main/auxiliary.py:68-73 | each list holds at most one name per schema line, and every name is non-empty |
| Schema.PairElementId | robot_db/python/typeDB_main/auxiliary.py:208-227 | `None` exactly when `e` is absent or falsy; `{e: element}` without a truthy id; `{'pair-<n>': [element, id]}` keyed by the suffix of `e`, or `IndexError` when `e` has no `-` |
| Text.SplitMany | robot_db/python/typeDB_main/auxiliary.py:216 | a key containing `-` splits into at least two pieces |
| Schema.ElementKeyBecomesPairKey | robot_db/python/typeDB_main/auxiliary.py:214-217 | `element-<n>` with a truthy id becomes `pair-<n>` = `[element, id]` |
| Schema.PathsSound | robot_db/python/typeDB_main/auxiliary.py:44-55 | every path found extends the current path by a key path to the leaf key |
| Schema.PathsAtSound | robot_db/python/typeDB_main/auxiliary.py:48-54 | every path one item contributes extends the current path by a key path to the leaf key |
| Schema.PathsComplete | robot_db/python/typeDB_main/auxiliary.py:44-55 | every key path to the leaf key is found |
| Schema.PathsAtInFrom | robot_db/python/typeDB_main/auxiliary.py:48-54 | the paths of each item are among the paths the loop collects |
| Schema.FindPaths | robot_db/python/typeDB_main/auxiliary.py:44-55 | the loop with recursive calls returns exactly the specified paths, in item order |
| Inquirer.ValidInputPhrase | robot_db/python/typeDB_main/inquirer.py:66-90 | the first phrase whose intent is non-empty with more than one key is returned; every earlier phrase was rejected |
| Inquirer.PairOnlyPhraseRejected | robot_db/python/typeDB_main/inquirer.py:86-89 | a phrase that is only `<head> <tag>`, for any head kind that reaches `check_for_tag`, has a single key and is rejected |
| Inquirer.CommandPhraseAccepted | robot_db/python/typeDB_main/inquirer.py:86-87 | a phrase `<command> <head> <tag>` is accepted, attribute heads included |
| Inquirer.ReturnElement | robot_db/python/typeDB_main/inquirer.py:136-137 | a missing slot or a `None` intent yields `0`; otherwise the slot's value |
| Inquirer.CommandPhraseSlots | robot_db/python/typeDB_main/inquirer.py:136-147 | for `<command> <head> <tag>`, `command` is read, `element-1` and `pair-2` are `0`, and the inquiry is about the pair `[head, tag.upper()]` |
| Inquirer.PlainRepr | robot_db/python/typeDB_main/inquirer.py:305 | a plain word is shown between single quotes unchanged |
| Inquirer.PlainEscape | robot_db/python/typeDB_main/inquirer.py:305 | a plain word needs no escape |
| Inquirer.PairShown | robot_db/python/typeDB_main/inquirer.py:305 | a pair of plain words is shown as `['<head>', '<tag>']` |
| Inquirer.TargetLocation | robot_db/python/typeDB_main/inquirer.py:301-325 | `LocationError` exactly when there is one location pair and the lookup finds nothing |
| Inquirer.SeveralPairsSameAs | robot_db/python/typeDB_main/inquirer.py:303-307 | with several pairs both results are `SAME AS ▶ <p2>`, with no lookup |
| Inquirer.OnePairFound | robot_db/python/typeDB_main/inquirer.py:308-317 | with one pair found, the result is the landmark line and that pair |
| Inquirer.NoPairsNeverRaise | robot_db/python/typeDB_main/inquirer.py:318-325 | with no pairs nothing is raised: `(lp2, p2)` or `UNDEFINED` twice |
| Inquirer.TargetOf | robot_db/python/typeDB_main/inquirer.py:338-351 | `UNDEFINED` means no target; `None` or `0` raises `TypeError` when indexed |
| Inquirer.TargetOfLocation | robot_db/python/typeDB_main/inquirer.py:301-341 | one found pair is read back as that pair; the `SAME AS` text as its characters `S` and `A`; the coordinate-list case reads `p2`; `UNDEFINED` stops |
| Inquirer.FindCommonElements | robot_db/python/typeDB_main/inquirer.py:353-360 | the intersection is computed exactly when `d1` is non-empty and `d2` is given |
| Inquirer.Prefixes | robot_db/python/typeDB_main/inquirer.py:358-359 | no prefix holds `▶`, and an empty dictionary has none |
| Inquirer.EntryPrefixListed | robot_db/python/typeDB_main/inquirer.py:358-359 | every stored entry's `<e> <tag> ` prefix appears among the prefixes of its filtered dictionary |
| Inquirer.SharedEntryIsCommon | robot_db/python/typeDB_main/inquirer.py:358-360 | an element and tag stored in both aggregates is reported as common |
| Inquirer.CommonElementsInBoth | robot_db/python/typeDB_main/inquirer.py:358-360 | a prefix is reported exactly when it occurs in both aggregates |
| Inquirer.FirstMatch | robot_db/python/typeDB_main/inquirer.py:284-287 | the index found is that of the first line containing the location text, and there is none when no line contains it |
| Inquirer.SwapFrontPermutes | robot_db/python/typeDB_main/inquirer.py:288 | the swap is a permutation that puts the matched line first and moves no other line except the old first one |
| Inquirer.MapTurnsShape | robot_db/python/typeDB_main/inquirer.py:281-288 | the loop keeps the keys, their order and the lines under every key |
| Inquirer.MapTurnsPermutes | robot_db/python/typeDB_main/inquirer.py:281-288 | every list stays a permutation of itself |
| Inquirer.MapTurnsCrashPersists | robot_db/python/typeDB_main/inquirer.py:281-293 | once `IndexError` is raised, later keys change nothing |
| Inquirer.RelTurnCrash | robot_db/python/typeDB_main/inquirer.py:283-293 | one key's turn raises exactly when a location exists and the key is an empty `assembling` list |
| Inquirer.MapTurnsCrash | robot_db/python/typeDB_main/inquirer.py:281-293 | the loop raises `IndexError` exactly when a location exists and `assembling` is an empty list among the keys visited |
| Inquirer.MapTurnsReorder | robot_db/python/typeDB_main/inquirer.py:283-288 | each visited list moves its first line holding the location text to the front only when `e == p_test`, and is otherwise unchanged |
| Inquirer.ReorderedFront | robot_db/python/typeDB_main/inquirer.py:284-288 | after the swap, a list with a matching line starts with one, and holds the same lines |
| Inquirer.CallSitesAllowSwap | robot_db/python/typeDB_main/inquirer.py:271-278 | at the call sites (`p2` omitted, or the pair headed by `e`) the swap is allowed |
| Inquirer.LastLocation | robot_db/python/typeDB_main/inquirer.py:278-280 | the loop leaves `'<key> <tag>'` of the last item of `l_dict`, or nothing when it is empty |
| Inquirer.MapRelations | robot_db/python/typeDB_main/inquirer.py:271-299 | the in-place loop over the keys leaves the dictionary and the crash flag of the specification |
| Inquirer.MapRelationsSpec | robot_db/python/typeDB_main/inquirer.py:271-299 | the loop keeps the keys and their order with lines under each, and raises `IndexError` exactly when a location exists and `assembling` is a key with an empty list |
| Inquirer.ReorderKey | robot_db/python/typeDB_main/inquirer.py:281-293 | one key's turn updates the dictionary and the crash flag exactly as `RelTurn` |
| Text.WordsJoin | robot_db/python/typeDB_main/auxiliary.py:233 | `split()` of two words joined by a space gives the two words |
| Text.SplitJoin | robot_db/python/typeDB_main/auxiliary.py:69 | splitting at a separator and joining back gives the text |

## Left out

- **Store access.** Every TypeDB query is replaced by an input: sessions, transactions, `match_query`, `goal_list`, `element_type`, `taxonomy_relation`, `link` and the query in `find_location`. The answers come in as the `Store` lookups, `TypeOracle`, `TagOracle`, the `LocationOracle`, and the `Row` and `LandmarkRow` sequences.
- **Console prompts and recursive retries.** Each one ends a run with a `Halt` or a `Validation` outcome instead: the tag correction and missing-ID prompts of `phrase2dict`, the `input()` of `valid_input_phrase`, and the error recovery of `command_line`.
- **Re-entry after an unclassified tag.** The call of `phrase2dict` at auxiliary.py:319 re-runs on the same phrase and can recurse without end. It is the `Reentered` halt.
- Intent.Phrase2Dict: only the non-interactive path is modelled. A run that would prompt stops with its `Halt`.
- Inquirer.ValidInputPhrase: the prompts are a finite list of phrases. `Exhausted` stands for running out of them, which the source cannot do.
- **`determine_data_type`.** It relies on float parsing, date parsing and time zones, so `query_builder` takes its result as an abstract `DataType`.
- **Text handling.**
  - Case conversion (`upper`, `lower`) and whitespace (`split()`) cover ASCII only.
  - `repr` is modelled for quotes, backslash, newline, carriage return and tab. Other non-printable characters are not modelled.
- Intent.PrepSlotsCount, Intent.PrepsInPhraseOrder, Intent.LastCommandWins, Intent.ElementsContiguous: these require that no token classifies to `None`. They also require that no category label contains a colon. That second restriction is there only to keep the proofs small: `SecondField` is `split(':')[1]` for every category, so a colon would not change the scan.
- Aggregation.TagText: an absent tag is written as `None`, as Python's f-string does. Other non-string attribute values are taken as their text.
- Aggregation.AggregateRows: requires every row of the paired query to bind the pair variables, which the query guarantees.
- Aggregation.RelationTable.FilterRelations: requires an unfiltered dictionary whose keys are listed once in insertion order, which `AggregateRowsSound` proves for every dictionary the row loop builds.
- Inquirer.MapRelations: requires a filtered dictionary, which is the only kind its callers pass. The box-drawing output is not modelled.
- Inquirer.FindCommonElements: the source prints the intersection and returns nothing. The model returns the set.
- **`build_question`, `retrieve_coordinates` and the question texts of `command_line`.** These are presentation, apart from the compliance call in `build_question`, which `Compliance.AttributeGate` models.
- **`find_paths`.** At auxiliary.py:53 it calls `self.find_paths` on its own first parameter. The model uses the intended direct recursion.
- **Other files.** `csv_to_dict_list` and `concept_map_func` do file I/O and handle store objects. builder.py, rules.py, color_text.py and main.py are not part of this model: they cover server start-up, schema loading, bulk inserts, console colours and process bootstrap.
