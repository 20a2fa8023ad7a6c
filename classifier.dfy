/**
 * The token classifier `find_type` (robot_db/python/typeDB_main/auxiliary.py:359-391).
 *
 * The three store lookups it performs are inputs (`Store`); its colon-encoded
 * category string is `Encode(c)` of a typed `Category`.
 */
module Classifier {
  import opened Wrappers
  import opened Text

  /** The kind of type `get_thing_type` finds; `RootThing` is the root `thing` type. */
  datatype ThingType =
    | AttributeType(name: string)
    | EntityType(name: string)
    | RelationType(name: string)
    | RootThing

  /** Answer of one store lookup: a value, no match (`None` or `StopIteration`), or a raised error. */
  datatype Lookup<T> = Found(value: T) | Missing | Raised(message: string)

  /**
   * The store as seen by `find_type`:
   *  - `declared(tok)`: `tx.concepts().get_thing_type(tok)`;
   *  - `valueOwner(tok)`: label of the attribute type of the first attribute whose value is `tok`;
   *  - `roleRelation(role)`: label of the first relation type that relates `role`.
   */
  datatype Store = Store(
    declared: string -> Lookup<ThingType>,
    valueOwner: string -> Lookup<string>,
    roleRelation: string -> Lookup<string>)

  /** A classification, written by `find_type` as a colon-separated string (see `Encode`). */
  datatype Category =
    | AttributeCat(name: string)
    | EntityCat(name: string)
    | RelationCat(name: string)
    | RoleCat(token: string, relation: string)

  /** What a call of `find_type` does: return a category, return `None`, or raise `IndexError`. */
  datatype Classification = Classified(category: Category) | Unclassified | Crashed

  const PrepPositions: seq<string> := ["TO", "FROM", "AT", "IN", "ON", "OF", "INTO"]
  const PrepParts: seq<string> := ["OF"]

  /** The string `find_type` returns for a category. */
  function Encode(c: Category): string {
    match c
    case AttributeCat(l) => "attribute:" + l
    case EntityCat(l) => "entity:" + l
    case RelationCat(l) => "relation:" + l
    case RoleCat(t, r) => t + ":role:" + r
  }

  /** Reads an encoded category back; the inverse of `Encode` on colon-free labels. */
  function Decode(s: string): Option<Category> {
    var parts := Split(s, ':');
    if |parts| == 2 && parts[0] == "attribute" then Some(AttributeCat(parts[1]))
    else if |parts| == 2 && parts[0] == "entity" then Some(EntityCat(parts[1]))
    else if |parts| == 2 && parts[0] == "relation" then Some(RelationCat(parts[1]))
    else if |parts| == 3 && parts[1] == "role" then Some(RoleCat(parts[0], parts[2]))
    else None
  }

  predicate ColonFree(c: Category) {
    match c
    case AttributeCat(l) => ':' !in l
    case EntityCat(l) => ':' !in l
    case RelationCat(l) => ':' !in l
    case RoleCat(t, r) => ':' !in t && ':' !in r
  }

  /** The pieces of `Encode(c).split(":")`, piece by piece (see `FieldsSplit`); there are always at least two. */
  function Fields(c: Category): (parts: seq<string>)
    ensures |parts| >= 2
  {
    match c
    case AttributeCat(l) => ["attribute"] + Split(l, ':')
    case EntityCat(l) => ["entity"] + Split(l, ':')
    case RelationCat(l) => ["relation"] + Split(l, ':')
    case RoleCat(t, r) => Split(t, ':') + ["role"] + Split(r, ':')
  }

  /** `Fields(c)` is exactly what splitting the encoded string at every colon gives. */
  lemma FieldsSplit(c: Category)
    ensures Fields(c) == Split(Encode(c), ':')
  {
    match c
    case AttributeCat(l) =>
      assert Encode(c) == "attribute" + [':'] + l;
      SplitAppend("attribute", ':', l);
    case EntityCat(l) =>
      assert Encode(c) == "entity" + [':'] + l;
      SplitAppend("entity", ':', l);
    case RelationCat(l) =>
      assert Encode(c) == "relation" + [':'] + l;
      SplitAppend("relation", ':', l);
    case RoleCat(t, r) =>
      RoleSplit(t, r);
  }

  /** The role case of `FieldsSplit`: the type's pieces, `role`, then the role's pieces. */
  lemma RoleSplit(t: string, r: string)
    ensures Split(t + ":role:" + r, ':') == Split(t, ':') + ["role"] + Split(r, ':')
  {
    assert t + ":role:" + r == t + [':'] + ("role" + [':'] + r) by {
      assert ":role:" == [':'] + "role" + [':'];
    }
    SplitConcat(t, ':', "role" + [':'] + r);
    SplitAppend("role", ':', r);
  }

  /** `e_type.split(":")[0]` (see `FieldsOfEncoding`). */
  function FirstField(c: Category): string {
    if ColonFree(c) then HeadWord(c) else Fields(c)[0]
  }

  /** `e_type.split(":")[1]` (see `FieldsOfEncoding`). */
  function SecondField(c: Category): string {
    if ColonFree(c) then KindWord(c) else Fields(c)[1]
  }

  /** The kind word an encoded category carries in its second field, for colon-free categories. */
  function KindWord(c: Category): string {
    match c
    case AttributeCat(l) => l
    case EntityCat(l) => l
    case RelationCat(l) => l
    case RoleCat(_, _) => "role"
  }

  /** The word an encoded category carries in its first field, for colon-free categories. */
  function HeadWord(c: Category): string {
    match c
    case AttributeCat(_) => "attribute"
    case EntityCat(_) => "entity"
    case RelationCat(_) => "relation"
    case RoleCat(t, _) => t
  }

  /** Splitting the encoding of a colon-free category gives its fields back. */
  lemma {:induction false} EncodeFields(c: Category)
    requires ColonFree(c)
    ensures Fields(c) == match c
      case RoleCat(t, r) => [t, "role", r]
      case _ => [HeadWord(c), KindWord(c)]
    ensures FirstField(c) == HeadWord(c) && SecondField(c) == KindWord(c)
  {
    match c
    case AttributeCat(l) => SplitNoSep(l, ':');
    case EntityCat(l) => SplitNoSep(l, ':');
    case RelationCat(l) => SplitNoSep(l, ':');
    case RoleCat(t, r) =>
      SplitNoSep(t, ':');
      SplitNoSep(r, ':');
  }

  /** `FirstField` and `SecondField` are the first two pieces of the encoded string split at its colons. */
  lemma FieldsOfEncoding(c: Category)
    ensures FirstField(c) == Fields(c)[0] && SecondField(c) == Fields(c)[1]
    ensures Fields(c) == Split(Encode(c), ':')
  {
    FieldsSplit(c);
    if ColonFree(c) {
      EncodeFields(c);
    }
  }

  /** Decoding undoes encoding whenever no label or token holds a colon. */
  lemma DecodeEncode(c: Category)
    requires ColonFree(c)
    ensures Decode(Encode(c)) == Some(c)
  {
    EncodeFields(c);
    FieldsSplit(c);
  }

  /**
   * The handler of `find_type`: it prints `str(e).split("Read:")[1]` and
   * returns `None`; indexing a split with a single piece raises `IndexError`.
   */
  function ErrorHandler(message: string): (r: Classification)
    ensures r == Unclassified <==> Contains(message, "Read:")
    ensures r != Unclassified ==> r == Crashed
  {
    SplitOnSecondPiece(message, "Read:");
    if |SplitOn(message, "Read:")| >= 2 then Unclassified else Crashed
  }

  /** The decision ladder of `find_type`. */
  function FindType(store: Store, element: string): (r: Classification)
    ensures store.declared(element).Found? ==> (r.Classified? <==> store.declared(element).value != RootThing)
    ensures r.Classified? && r.category.RoleCat? ==>
      store.declared(element) == Missing && (r.category.token == element || r.category.token == Lower(element))
  {
    match store.declared(element)
    case Raised(msg) => ErrorHandler(msg)
    case Found(t) => (
      match t
      case AttributeType(l) => Classified(AttributeCat(l))
      case EntityType(l) => Classified(EntityCat(l))
      case RelationType(l) => Classified(RelationCat(l))
      case RootThing => Unclassified)
    case Missing =>
      if Upper(element) in PrepPositions || element in PrepParts then
        Classified(RoleCat(element, "teste"))
      else (
        match store.valueOwner(element)
        case Found(l) => Classified(AttributeCat(l))
        case Raised(msg) => ErrorHandler(msg)
        case Missing => (
          match store.roleRelation(Lower(element))
          case Found(rel) => Classified(RoleCat(Lower(element), rel))
          // `next` on an empty iterator raises StopIteration, whose message is empty
          case Missing => ErrorHandler("")
          case Raised(msg) => ErrorHandler(msg)))
  }

  /** A word whose upper-case form is a preposition holds no colon. */
  lemma PrepositionColonFree(element: string)
    requires Upper(element) in PrepPositions
    ensures ':' !in element
  {
  }

  /**
   * An undeclared token that is a preposition in any case classifies as
   * `<token>:role:teste`, whose first field is the token and second field `role`.
   */
  lemma PrepositionIsRole(store: Store, element: string)
    requires store.declared(element) == Missing
    requires Upper(element) in PrepPositions
    ensures FindType(store, element) == Classified(RoleCat(element, "teste"))
    ensures Encode(RoleCat(element, "teste")) == element + ":role:teste"
    ensures FirstField(RoleCat(element, "teste")) == element
    ensures SecondField(RoleCat(element, "teste")) == "role"
  {
    PrepositionColonFree(element);
    assert ColonFree(RoleCat(element, "teste"));
  }

  /** A declared attribute, entity or relation type is reported by kind and label, before any other rung. */
  lemma DeclaredTypeWins(store: Store, element: string)
    requires store.declared(element).Found? && store.declared(element).value != RootThing
    ensures FindType(store, element).Classified?
    ensures Encode(FindType(store, element).category) == match store.declared(element).value
      case AttributeType(l) => "attribute:" + l
      case EntityType(l) => "entity:" + l
      case RelationType(l) => "relation:" + l
      case RootThing => ""
  {
  }

  /**
   * When every rung finds nothing the empty StopIteration message reaches the
   * handler, which raises IndexError: `find_type` does not return `None` then.
   */
  lemma NothingFoundRaises(store: Store, element: string)
    requires store.declared(element) == Missing
    requires Upper(element) !in PrepPositions
    requires store.valueOwner(element) == Missing
    requires store.roleRelation(Lower(element)) == Missing
    ensures FindType(store, element) == Crashed
  {
    assert Upper("OF") == "OF";
    EmptyContainsNothing("Read:");
  }

  /** `find_type` returns `None` only for the root type or a store error whose message holds "Read:". */
  lemma NoneOnlyOnReadError(store: Store, element: string)
    requires FindType(store, element) == Unclassified
    ensures store.declared(element) == Found(RootThing)
      || (exists m :: store.declared(element) == Raised(m) && Contains(m, "Read:"))
      || (exists m :: store.valueOwner(element) == Raised(m) && Contains(m, "Read:"))
      || (exists m :: store.roleRelation(Lower(element)) == Raised(m) && Contains(m, "Read:"))
  {
    EmptyContainsNothing("Read:");
  }
}
