/** `SRSRenderer`: the schema-less renderer of an extracted requirements
    document. It walks an arbitrary JSON value and produces a tree of display
    nodes; `level` is the nesting depth and sets the left indent. */
module SrsRenderer {
  import opened JsonValue
  import KeyLabel

  const IndentStep := 12

  /** What the renderer returns when it returns an element. */
  datatype Node =
    | Text(indent: int, text: string)             // a primitive
    | List(indent: int, items: seq<Content>)       // an array: one item per element
    | Block(indent: int, entries: seq<Entry>)      // an object: one entry per key

  /** A labelled object entry with the value rendered beneath it. */
  datatype Entry = Entry(heading: string, body: Content)

  /** What stands inside a list item or beneath a label. */
  datatype Content =
    | Empty                 // the nested renderer returned null
    | Plain(text: string)   // `String(v)` of a non-object value
    | Nested(node: Node)    // the nested renderer's element

  /** `<SRSRenderer data={data} level={level} />`; None is React's `null`. */
  function Render(data: Json, level: nat): (r: Option<Node>)
    ensures r.None? <==> data.Null?
    ensures r.Some? ==> r.value.indent == level * IndentStep
    ensures r.Some? ==> (r.value.List? <==> data.Arr?) && (r.value.Block? <==> data.Obj?)
    decreases data, 0
  {
    match data
    case Null => None
    case Bool(_) => Some(Text(level * IndentStep, Display(data)))
    case Num(_) => Some(Text(level * IndentStep, Display(data)))
    case Str(_) => Some(Text(level * IndentStep, Display(data)))
    case Arr(items) => Some(List(level * IndentStep, RenderItems(items, level + 1)))
    case Obj(fields) => Some(Block(level * IndentStep, RenderFields(fields, level + 1)))
  }

  /** A child value: object-typed values (null included) recurse one level
      deeper; the others are stringified in place. */
  function Child(v: Json, level: nat): (r: Content)
    ensures r.Empty? <==> v.Null?
    ensures r.Plain? <==> IsPrimitive(v)
    ensures r.Nested? ==> r.node.indent == level * IndentStep
    decreases v, 1
  {
    if IsObjectType(v) then
      match Render(v, level)
      case None => Empty
      case Some(n) => Nested(n)
    else Plain(Display(v))
  }

  /** The list items of an array's elements, one per element. */
  function RenderItems(items: seq<Json>, level: nat): (r: seq<Content>)
    ensures |r| == |items|
    decreases items
  {
    if items == [] then [] else [Child(items[0], level)] + RenderItems(items[1..], level)
  }

  /** The labelled entries of an object's fields, one per field. */
  function RenderFields(fields: seq<Field>, level: nat): (r: seq<Entry>)
    ensures |r| == |fields|
    decreases fields
  {
    if fields == [] then []
    else [Entry(KeyLabel.FormatKey(fields[0].key), Child(fields[0].value, level))]
         + RenderFields(fields[1..], level)
  }

  // ---- leaves -------------------------------------------------------------

  /** The texts of the leaves of a rendering, left to right. */
  function NodeTexts(n: Node): seq<string> {
    match n
    case Text(_, t) => [t]
    case List(_, items) => ContentsTexts(items)
    case Block(_, entries) => EntriesTexts(entries)
  }

  function ContentTexts(c: Content): seq<string> {
    match c
    case Empty => []
    case Plain(t) => [t]
    case Nested(n) => NodeTexts(n)
  }

  function ContentsTexts(cs: seq<Content>): seq<string> {
    if cs == [] then [] else ContentTexts(cs[0]) + ContentsTexts(cs[1..])
  }

  function EntriesTexts(es: seq<Entry>): seq<string> {
    if es == [] then [] else ContentTexts(es[0].body) + EntriesTexts(es[1..])
  }

  function RenderedTexts(r: Option<Node>): seq<string> {
    if r.None? then [] else NodeTexts(r.value)
  }

  /** The stringified primitive leaves of a value, left to right. */
  function Leaves(v: Json): seq<string>
    decreases v
  {
    match v
    case Null => []
    case Bool(_) => [Display(v)]
    case Num(_) => [Display(v)]
    case Str(_) => [Display(v)]
    case Arr(items) => ItemsLeaves(items)
    case Obj(fields) => FieldsLeaves(fields)
  }

  function ItemsLeaves(items: seq<Json>): seq<string>
    decreases items
  {
    if items == [] then [] else Leaves(items[0]) + ItemsLeaves(items[1..])
  }

  function FieldsLeaves(fields: seq<Field>): seq<string>
    decreases fields
  {
    if fields == [] then [] else Leaves(fields[0].value) + FieldsLeaves(fields[1..])
  }

  /** No leaf is dropped, none is invented, and their order is kept: the
      texts shown are exactly the primitive leaves of the value. */
  lemma {:induction false} RenderKeepsLeaves(data: Json, level: nat)
    ensures RenderedTexts(Render(data, level)) == Leaves(data)
    decreases data, 0
  {
    match data
    case Null =>
    case Bool(_) =>
    case Num(_) =>
    case Str(_) =>
    case Arr(items) => ItemsKeepLeaves(items, level + 1);
    case Obj(fields) => FieldsKeepLeaves(fields, level + 1);
  }

  lemma {:induction false} ChildKeepsLeaves(v: Json, level: nat)
    ensures ContentTexts(Child(v, level)) == Leaves(v)
    decreases v, 1
  {
    if IsObjectType(v) {
      RenderKeepsLeaves(v, level);
    }
  }

  lemma {:induction false} ItemsKeepLeaves(items: seq<Json>, level: nat)
    ensures ContentsTexts(RenderItems(items, level)) == ItemsLeaves(items)
    decreases items
  {
    if items != [] {
      ChildKeepsLeaves(items[0], level);
      ItemsKeepLeaves(items[1..], level);
      assert RenderItems(items, level)[1..] == RenderItems(items[1..], level);
    }
  }

  lemma {:induction false} FieldsKeepLeaves(fields: seq<Field>, level: nat)
    ensures EntriesTexts(RenderFields(fields, level)) == FieldsLeaves(fields)
    decreases fields
  {
    if fields != [] {
      ChildKeepsLeaves(fields[0].value, level);
      FieldsKeepLeaves(fields[1..], level);
      assert RenderFields(fields, level)[1..] == RenderFields(fields[1..], level);
    }
  }

  /** The number of primitive leaves of a value. */
  function LeafCount(v: Json): nat
    decreases v
  {
    match v
    case Null => 0
    case Bool(_) => 1
    case Num(_) => 1
    case Str(_) => 1
    case Arr(items) => ItemsCount(items)
    case Obj(fields) => FieldsCount(fields)
  }

  function ItemsCount(items: seq<Json>): nat
    decreases items
  {
    if items == [] then 0 else LeafCount(items[0]) + ItemsCount(items[1..])
  }

  function FieldsCount(fields: seq<Field>): nat
    decreases fields
  {
    if fields == [] then 0 else LeafCount(fields[0].value) + FieldsCount(fields[1..])
  }

  lemma {:induction false} LeavesCounted(v: Json)
    ensures |Leaves(v)| == LeafCount(v)
    decreases v
  {
    match v
    case Null =>
    case Bool(_) =>
    case Num(_) =>
    case Str(_) =>
    case Arr(items) => ItemsLeavesCounted(items);
    case Obj(fields) => FieldsLeavesCounted(fields);
  }

  lemma {:induction false} ItemsLeavesCounted(items: seq<Json>)
    ensures |ItemsLeaves(items)| == ItemsCount(items)
    decreases items
  {
    if items != [] {
      LeavesCounted(items[0]);
      ItemsLeavesCounted(items[1..]);
    }
  }

  lemma {:induction false} FieldsLeavesCounted(fields: seq<Field>)
    ensures |FieldsLeaves(fields)| == FieldsCount(fields)
    decreases fields
  {
    if fields != [] {
      LeavesCounted(fields[0].value);
      FieldsLeavesCounted(fields[1..]);
    }
  }

  /** One text leaf per non-null primitive leaf. */
  lemma TextLeafCount(data: Json, level: nat)
    ensures |RenderedTexts(Render(data, level))| == LeafCount(data)
  {
    RenderKeepsLeaves(data, level);
    LeavesCounted(data);
  }

  // ---- shape --------------------------------------------------------------

  /** Null renders nothing; a primitive renders one text leaf, `String(data)`. */
  lemma RenderScalar(data: Json, level: nat)
    requires !data.Arr? && !data.Obj?
    ensures data.Null? <==> Render(data, level).None?
    ensures IsPrimitive(data) ==> Render(data, level) == Some(Text(level * IndentStep, Display(data)))
  {
  }

  lemma {:induction false} RenderItemsAt(items: seq<Json>, level: nat, i: nat)
    requires i < |items|
    ensures |RenderItems(items, level)| == |items|
    ensures RenderItems(items, level)[i] == Child(items[i], level)
    decreases items
  {
    if i > 0 {
      RenderItemsAt(items[1..], level, i - 1);
    } else if |items| > 1 {
      RenderItemsAt(items[1..], level, 0);
    }
  }

  lemma {:induction false} RenderFieldsAt(fields: seq<Field>, level: nat, i: nat)
    requires i < |fields|
    ensures |RenderFields(fields, level)| == |fields|
    ensures RenderFields(fields, level)[i] == Entry(KeyLabel.FormatKey(fields[i].key), Child(fields[i].value, level))
    decreases fields
  {
    if i > 0 {
      RenderFieldsAt(fields[1..], level, i - 1);
    } else if |fields| > 1 {
      RenderFieldsAt(fields[1..], level, 0);
    }
  }

  /** An array renders a list of exactly one item per element, in order;
      object-typed elements recurse one level deeper, a null element gives an
      empty item, the others are stringified. */
  lemma RenderArray(items: seq<Json>, level: nat)
    ensures Render(Arr(items), level).Some?
    ensures Render(Arr(items), level).value.List?
    ensures Render(Arr(items), level).value.indent == level * IndentStep
    ensures |Render(Arr(items), level).value.items| == |items|
    ensures forall i :: 0 <= i < |items| ==>
      var c := Render(Arr(items), level).value.items[i];
      (items[i].Null? ==> c == Empty) &&
      (IsPrimitive(items[i]) ==> c == Plain(Display(items[i]))) &&
      (items[i].Arr? || items[i].Obj? ==> c == Nested(Render(items[i], level + 1).value))
  {
    if items == [] { return; }
    forall i | 0 <= i < |items|
      ensures |RenderItems(items, level + 1)| == |items|
      ensures RenderItems(items, level + 1)[i] == Child(items[i], level + 1)
    {
      RenderItemsAt(items, level + 1, i);
    }
  }

  /** An object renders exactly one entry per key, in entry order, labelled
      by the formatted key, with the value rendered beneath it; a null value
      leaves the label with nothing beneath. */
  lemma RenderObject(fields: seq<Field>, level: nat)
    ensures Render(Obj(fields), level).Some?
    ensures Render(Obj(fields), level).value.Block?
    ensures Render(Obj(fields), level).value.indent == level * IndentStep
    ensures |Render(Obj(fields), level).value.entries| == |fields|
    ensures forall i :: 0 <= i < |fields| ==>
      var e := Render(Obj(fields), level).value.entries[i];
      e.heading == KeyLabel.FormatKey(fields[i].key) &&
      (fields[i].value.Null? ==> e.body == Empty) &&
      (IsPrimitive(fields[i].value) ==> e.body == Plain(Display(fields[i].value))) &&
      (fields[i].value.Arr? || fields[i].value.Obj? ==> e.body == Nested(Render(fields[i].value, level + 1).value))
  {
    if fields == [] { return; }
    forall i | 0 <= i < |fields|
      ensures |RenderFields(fields, level + 1)| == |fields|
      ensures RenderFields(fields, level + 1)[i] == Entry(KeyLabel.FormatKey(fields[i].key), Child(fields[i].value, level + 1))
    {
      RenderFieldsAt(fields, level + 1, i);
    }
  }

  // ---- indentation --------------------------------------------------------

  /** Every element at depth `d` below a rendering at `level` is indented by
      `(level + d) * 12`. */
  predicate IndentedAt(n: Node, level: nat) {
    match n
    case Text(ind, _) => ind == level * IndentStep
    case List(ind, items) => ind == level * IndentStep && ContentsIndented(items, level + 1)
    case Block(ind, entries) => ind == level * IndentStep && EntriesIndented(entries, level + 1)
  }

  predicate ContentIndented(c: Content, level: nat) {
    c.Nested? ==> IndentedAt(c.node, level)
  }

  predicate ContentsIndented(cs: seq<Content>, level: nat) {
    cs == [] || (ContentIndented(cs[0], level) && ContentsIndented(cs[1..], level))
  }

  predicate EntriesIndented(es: seq<Entry>, level: nat) {
    es == [] || (ContentIndented(es[0].body, level) && EntriesIndented(es[1..], level))
  }

  lemma {:induction false} RenderIndented(data: Json, level: nat)
    ensures Render(data, level).Some? ==> IndentedAt(Render(data, level).value, level)
    decreases data, 0
  {
    match data
    case Null =>
    case Bool(_) =>
    case Num(_) =>
    case Str(_) =>
    case Arr(items) => ItemsIndented(items, level + 1);
    case Obj(fields) => FieldsIndented(fields, level + 1);
  }

  lemma {:induction false} ChildIndented(v: Json, level: nat)
    ensures ContentIndented(Child(v, level), level)
    decreases v, 1
  {
    if IsObjectType(v) {
      RenderIndented(v, level);
    }
  }

  lemma {:induction false} ItemsIndented(items: seq<Json>, level: nat)
    ensures ContentsIndented(RenderItems(items, level), level)
    decreases items
  {
    if items != [] {
      ChildIndented(items[0], level);
      ItemsIndented(items[1..], level);
      assert RenderItems(items, level)[1..] == RenderItems(items[1..], level);
    }
  }

  lemma {:induction false} FieldsIndented(fields: seq<Field>, level: nat)
    ensures EntriesIndented(RenderFields(fields, level), level)
    decreases fields
  {
    if fields != [] {
      ChildIndented(fields[0].value, level);
      FieldsIndented(fields[1..], level);
      assert RenderFields(fields, level)[1..] == RenderFields(fields[1..], level);
    }
  }
}
