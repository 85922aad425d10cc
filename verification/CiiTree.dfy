/**
 Documents as trees, and as the parser hands them over: values trimmed, single elements bare, repeated ones
 in an array, and an element with nothing in it as an empty text.
 */
module CiiTree {
  import opened Prelude
  import opened Seqs
  import opened DecimalText
  import opened XmlText

  /** Element names, without their namespace prefixes. */
  datatype Tag =
    | CrossIndustryInvoice | ExchangedDocumentContext | ExchangedDocument
    | SupplyChainTradeTransaction | IncludedSupplyChainTradeLineItem | AssociatedDocumentLineDocument | LineID
    | SpecifiedTradeProduct | Name | SpecifiedLineTradeAgreement | NetPriceProductTradePrice | ChargeAmount
    | SpecifiedLineTradeDelivery | BilledQuantity | SpecifiedLineTradeSettlement | ApplicableTradeTax | TypeCode
    | CategoryCode | RateApplicablePercent | SpecifiedTradeSettlementLineMonetarySummation | LineTotalAmount
    | CalculatedAmount | ExemptionReason | BasisAmount | ApplicableHeaderTradeAgreement | ApplicableHeaderTradeDelivery
    | ApplicableHeaderTradeSettlement | InvoiceCurrencyCode | SpecifiedTradeSettlementPaymentMeans
    | SpecifiedTradePaymentTerms | SpecifiedTradeSettlementHeaderMonetarySummation | TaxBasisTotalAmount
    | TaxTotalAmount | GrandTotalAmount | TotalPrepaidAmount | DuePayableAmount | AllowanceTotalAmount | ChargeTotalAmount

  datatype AttrName = UnitCode | CurrencyID

  datatype XmlNode =
    | Leaf(tag: Tag, text: string, attrs: map<AttrName, string>)
    | El(tag: Tag, children: seq<XmlNode>)

  // ---------------------------------------------------------------------- the parser's output

  datatype Field = ChildField(tag: Tag) | TextField | AttrField(name: AttrName)
  datatype Js = Text(text: string) | Arr(items: seq<Js>) | Obj(fields: map<Field, Js>)

  function Joined(values: seq<Js>): Js
    requires values != []
  {
    if |values| == 1 then values[0] else Arr(values)
  }

  /** The children of one name, in order. */
  function Named(children: seq<XmlNode>, tag: Tag): seq<XmlNode> {
    if children == [] then []
    else
      var front, last := Named(children[..|children| - 1], tag), children[|children| - 1];
      if last.tag == tag then front + [last] else front
  }

  function CollapseLeaf(text: string, attrs: map<AttrName, string>): Js {
    if attrs == map[] then Text(Trim(text))
    else Obj(map[TextField := Text(Trim(text))] + map name | name in attrs :: AttrField(name) := Text(Trim(attrs[name])))
  }

  function HasTag(children: seq<XmlNode>, tag: Tag): bool {
    exists child :: child in children && child.tag == tag
  }

  function Fields(children: seq<XmlNode>, values: seq<Js>): (fields: map<Field, Js>)
    requires |values| == |children|
    ensures forall tag :: ChildField(tag) in fields <==> HasTag(children, tag)
    ensures forall tag :: HasTag(children, tag) ==>
              ValuesOf(children, values, tag) != [] && fields[ChildField(tag)] == Joined(ValuesOf(children, values, tag))
  {
    var fields := map child | child in children :: ChildField(child.tag) := Joined(ValuesOf(children, values, child.tag));
    assert forall tag :: HasTag(children, tag) ==> ChildField(tag) in fields;
    fields
  }

  function Collapse(node: XmlNode): Js
    decreases node, 1
  {
    match node
    case Leaf(_, text, attrs) => CollapseLeaf(text, attrs)
    case El(_, children) => if children == [] then Text("") else Obj(Fields(children, CollapseAll(children)))
  }

  function CollapseAll(children: seq<XmlNode>): (values: seq<Js>)
    ensures |values| == |children|
    decreases children, 0
  {
    if children == [] then [] else CollapseAll(children[..|children| - 1]) + [Collapse(children[|children| - 1])]
  }

  /** The values that belong to children of one name. */
  function ValuesOf(children: seq<XmlNode>, values: seq<Js>, tag: Tag): (found: seq<Js>)
    requires |values| == |children|
    ensures HasTag(children, tag) ==> found != []
  {
    if children == [] then []
    else
      var last := |children| - 1;
      assert forall child :: child in children <==> child in children[..last] || child == children[last];
      var front := ValuesOf(children[..last], values[..last], tag);
      if children[last].tag == tag then front + [values[last]] else front
  }

  // ---------------------------------------------------------------------- what survives being written

  function CleanAttrs(attrs: map<AttrName, string>): map<AttrName, string> {
    map name | name in attrs :: Sanitise(attrs[name])
  }

  /** A tree without the characters a document cannot carry. */
  function Clean(node: XmlNode): (clean: XmlNode)
    ensures clean.tag == node.tag
    decreases node, 1
  {
    match node
    case Leaf(tag, text, attrs) => Leaf(tag, Sanitise(text), CleanAttrs(attrs))
    case El(tag, children) => El(tag, CleanAll(children))
  }

  function CleanAll(children: seq<XmlNode>): (clean: seq<XmlNode>)
    ensures |clean| == |children| && forall k :: 0 <= k < |children| ==> clean[k] == Clean(children[k])
    decreases children, 0
  {
    if children == [] then [] else CleanAll(children[..|children| - 1]) + [Clean(children[|children| - 1])]
  }

  /** A written tree as the reader gets to see it. */
  function Seen(node: XmlNode): Js {
    Collapse(Clean(node))
  }

  // ---------------------------------------------------------------------- the reader

  /** A child element; arrays and texts have none. */
  function Child(node: Option<Js>, tag: Tag): Option<Js> {
    match node
    case Some(Obj(fields)) => if ChildField(tag) in fields then Some(fields[ChildField(tag)]) else None
    case _ => None
  }

  function Path(node: Option<Js>, tags: seq<Tag>): Option<Js> {
    if tags == [] then node else Child(Path(node, tags[..|tags| - 1]), tags[|tags| - 1])
  }

  /** The loop that walks a path, leaving early once an element is missing. */
  method WalkPath(node: Option<Js>, tags: seq<Tag>) returns (found: Option<Js>)
    ensures found == Path(node, tags)
  {
    var current, k := node, 0;
    assert tags[..0] == [];
    while k < |tags|
      invariant 0 <= k <= |tags| && current == Path(node, tags[..k])
    {
      assert tags[..k + 1][..k] == tags[..k];
      current := Child(current, tags[k]);
      if current.None? {
        NothingBelow(node, tags, k + 1);
        return None;
      }
      k := k + 1;
    }
    assert tags[..k] == tags;
    found := current;
  }

  lemma {:induction false} NothingBelow(node: Option<Js>, tags: seq<Tag>, k: nat)
    requires k <= |tags| && Path(node, tags[..k]) == None
    ensures Path(node, tags) == None
  {
    if k < |tags| {
      var front := tags[..|tags| - 1];
      assert front[..k] == tags[..k];
      NothingBelow(node, front, k);
    } else {
      assert tags[..k] == tags;
    }
  }

  function AsArray(value: Option<Js>): seq<Js> {
    match value
    case None => []
    case Some(Arr(items)) => items
    case Some(single) => [single]
  }

  function NonBlank(text: string): Option<string> {
    if Trim(text) == "" then None else Some(Trim(text))
  }

  function TextIn(node: Js): Option<string> {
    match node
    case Text(text) => NonBlank(text)
    case Arr(items) => if items != [] then TextIn(items[0]) else None
    case Obj(fields) => if TextField in fields && fields[TextField].Text? then NonBlank(fields[TextField].text) else None
  }

  function TextOf(node: Option<Js>): Option<string> {
    if node.None? then None else TextIn(node.value)
  }

  function AttrIn(node: Js, name: AttrName): Option<string> {
    match node
    case Text(_) => None
    case Arr(items) => if items != [] then AttrIn(items[0], name) else None
    case Obj(fields) =>
      if AttrField(name) in fields && fields[AttrField(name)].Text? then NonBlank(fields[AttrField(name)].text) else None
  }

  function AttrOf(node: Option<Js>, name: AttrName): Option<string> {
    if node.None? then None else AttrIn(node.value, name)
  }

  // ---------------------------------------------------------------------- reading what was written

  lemma SeenIsNoArray(node: XmlNode)
    ensures !Seen(node).Arr?
  {}

  lemma {:induction false} ValuesAreNamed(children: seq<XmlNode>, tag: Tag)
    ensures ValuesOf(children, CollapseAll(children), tag) == Map(Collapse, Named(children, tag))
  {
    if children != [] {
      var last := |children| - 1;
      ValuesAreNamed(children[..last], tag);
      assert CollapseAll(children)[..last] == CollapseAll(children[..last]);
    }
  }

  lemma {:induction false} NamedHasTag(children: seq<XmlNode>, tag: Tag)
    ensures Named(children, tag) != [] <==> HasTag(children, tag)
    ensures forall k :: 0 <= k < |Named(children, tag)| ==> Named(children, tag)[k].tag == tag
  {
    if children != [] {
      var front, last := children[..|children| - 1], children[|children| - 1];
      NamedHasTag(front, tag);
      assert forall child :: child in children <==> child in front || child == last;
    }
  }

  /** A child element as the reader finds it: the collapsed elements of that name, joined. */
  lemma ChildOfElement(tag: Tag, children: seq<XmlNode>, name: Tag)
    ensures Child(Some(Collapse(El(tag, children))), name) ==
              if Named(children, name) == [] then None else Some(Joined(Map(Collapse, Named(children, name))))
  {
    NamedHasTag(children, name);
    ValuesAreNamed(children, name);
    assert children != [] ==> Collapse(El(tag, children)) == Obj(Fields(children, CollapseAll(children)));
    assert children == [] ==> Collapse(El(tag, children)) == Text("");
    hide Collapse, CollapseAll, Fields, ValuesOf, Named, Joined;
  }

  lemma {:induction false} CleanNamed(children: seq<XmlNode>, tag: Tag)
    ensures Named(CleanAll(children), tag) == CleanAll(Named(children, tag))
  {
    if children != [] {
      var front, last := children[..|children| - 1], children[|children| - 1];
      CleanNamed(front, tag);
      assert front + [last] == children;
      CleanAppends(front, last);
      CleanAppends(Named(front, tag), last);
      assert CleanAll(children)[..|children| - 1] == CleanAll(front);
      hide CleanAll, Clean;
    }
  }

  lemma CleanAppends(front: seq<XmlNode>, last: XmlNode)
    ensures CleanAll(front + [last]) == CleanAll(front) + [Clean(last)]
  {
    hide Clean;
    assert (front + [last])[..|front + [last]| - 1] == front;
  }

  /** A child element as the reader finds it in a written container. */
  lemma SeenChild(tag: Tag, children: seq<XmlNode>, name: Tag)
    ensures Child(Some(Seen(El(tag, children))), name) ==
              if Named(children, name) == [] then None else Some(Joined(Map(Seen, Named(children, name))))
  {
    hide Collapse, Named, Joined;
    ChildOfElement(tag, CleanAll(children), name);
    CleanNamed(children, name);
    assert Map(Collapse, CleanAll(Named(children, name))) == Map(Seen, Named(children, name));
  }

  /** The collapse is undone for a repeatable element, however many there are. */
  lemma ArrayOfElement(tag: Tag, children: seq<XmlNode>, name: Tag)
    ensures AsArray(Child(Some(Seen(El(tag, children))), name)) == Map(Seen, Named(children, name))
  {
    hide Seen, Child, Named;
    SeenChild(tag, children, name);
    var named := Named(children, name);
    if |named| == 1 {
      SeenIsNoArray(named[0]);
      assert Map(Seen, named) == [Seen(named[0])];
    }
  }

  lemma {:induction false} NamedSplits(a: seq<XmlNode>, b: seq<XmlNode>, tag: Tag)
    ensures Named(a + b, tag) == Named(a, tag) + Named(b, tag)
  {
    if b == [] {
      assert a + b == a;
    } else {
      NamedSplits(a, b[..|b| - 1], tag);
      assert (a + b)[..|a + b| - 1] == a + b[..|b| - 1];
    }
  }

  lemma {:induction false} NamedAll(children: seq<XmlNode>, tag: Tag)
    requires forall k :: 0 <= k < |children| ==> children[k].tag == tag
    ensures Named(children, tag) == children
  {
    if children != [] {
      NamedAll(children[..|children| - 1], tag);
    }
  }

  lemma {:induction false} NamedNone(children: seq<XmlNode>, tag: Tag)
    requires forall k :: 0 <= k < |children| ==> children[k].tag != tag
    ensures Named(children, tag) == []
  {
    if children != [] {
      NamedNone(children[..|children| - 1], tag);
    }
  }

  /** An element that stands alone under its name is read back as itself. */
  lemma OnlyChild(tag: Tag, children: seq<XmlNode>, k: nat)
    requires k < |children| && forall j :: 0 <= j < |children| && j != k ==> children[j].tag != children[k].tag
    ensures Child(Some(Seen(El(tag, children))), children[k].tag) == Some(Seen(children[k]))
  {
    var name := children[k].tag;
    assert children == children[..k] + [children[k]] + children[k + 1..];
    NamedSplits(children[..k] + [children[k]], children[k + 1..], name);
    NamedSplits(children[..k], [children[k]], name);
    NamedNone(children[..k], name);
    NamedNone(children[k + 1..], name);
    NamedAll([children[k]], name);
    SeenChild(tag, children, name);
    assert Named(children, name) == [children[k]];
  }

  lemma NoChild(tag: Tag, children: seq<XmlNode>, name: Tag)
    requires forall j :: 0 <= j < |children| ==> children[j].tag != name
    ensures Child(Some(Seen(El(tag, children))), name) == None
  {
    NamedNone(children, name);
    SeenChild(tag, children, name);
  }

  // ---------------------------------------------------------------------- text that comes through unchanged

  predicate IsTrimmed(s: string) {
    s != "" && !IsSpace(s[0]) && !IsSpace(s[|s| - 1])
  }

  lemma TrimmedStays(s: string)
    requires IsTrimmed(s) && forall k :: 0 <= k < |s| ==> !IsControl(s[k])
    ensures Sanitise(s) == s && Trim(s) == s && NonBlank(s) == Some(s)
  {
    SanitiseKeeps(s);
    TrimKeeps(s);
  }

  lemma TrimKeeps(s: string)
    requires IsTrimmed(s)
    ensures Trim(s) == s
  {}
}
