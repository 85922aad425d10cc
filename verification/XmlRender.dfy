/** Trees as text: the writer line by line, and a reader of that text by which writing is undone. */
module XmlRender {
  import opened Prelude
  import opened DecimalText
  import opened XmlText
  import opened CiiTree

  // ---------------------------------------------------------------------- names

  predicate IsNameChar(c: char) {
    'a' <= c <= 'z' || 'A' <= c <= 'Z' || '0' <= c <= '9' || c == ':' || c == '_' || c == '-' || c == '.'
  }

  predicate IsName(s: string) {
    s != "" && forall k :: 0 <= k < |s| ==> IsNameChar(s[k])
  }

  /** How elements and attributes are spelled, prefixes included: legally, and no two alike. */
  datatype Naming = Naming(tags: Tag -> string, attrs: AttrName -> string)

  ghost predicate IsNaming(n: Naming) {
    && (forall t :: IsName(n.tags(t)))
    && (forall a :: IsName(n.attrs(a)))
    && (forall t, u :: n.tags(t) == n.tags(u) ==> t == u)
    && (forall a, b :: n.attrs(a) == n.attrs(b) ==> a == b)
  }

  // ---------------------------------------------------------------------- the writer

  /** Two spaces a level. */
  function Indent(depth: nat): (indent: string)
    ensures |indent| == depth + depth && forall k :: 0 <= k < |indent| ==> indent[k] == ' '
  {
    seq(2 * depth, _ => ' ')
  }

  function RenderAttr(n: Naming, attrs: map<AttrName, string>, a: AttrName): string {
    if a in attrs then " " + n.attrs(a) + "=\"" + EscapeAttr(Sanitise(attrs[a])) + "\"" else ""
  }

  function RenderAttrs(n: Naming, attrs: map<AttrName, string>): string {
    RenderAttr(n, attrs, UnitCode) + RenderAttr(n, attrs, CurrencyID)
  }

  function Opening(n: Naming, tag: Tag, attrs: map<AttrName, string>): string {
    "<" + n.tags(tag) + RenderAttrs(n, attrs)
  }

  function Closing(n: Naming, tag: Tag): (text: string)
    ensures text == EndTag(n.tags(tag))
  {
    "</" + n.tags(tag) + ">"
  }

  /** The lines of an element: a leaf on one line, an empty container too, any other between its tags. */
  function Lines(n: Naming, node: XmlNode, depth: nat): seq<string>
    decreases node, 1
  {
    match node
    case Leaf(tag, text, attrs) =>
      [Indent(depth) + Opening(n, tag, attrs) + ">" + EscapeText(Sanitise(text)) + Closing(n, tag)]
    case El(tag, children) =>
      if children == [] then [Indent(depth) + Opening(n, tag, map[]) + "/>"]
      else [Indent(depth) + Opening(n, tag, map[]) + ">"] + AllLines(n, children, depth + 1) + [Indent(depth) + Closing(n, tag)]
  }

  function AllLines(n: Naming, children: seq<XmlNode>, depth: nat): seq<string>
    decreases children, 0
  {
    if children == [] then [] else Lines(n, children[0], depth) + AllLines(n, children[1..], depth)
  }

  /** The recursive writer, pushing onto the lines it is handed. */
  method RenderNode(n: Naming, node: XmlNode, depth: nat, out: seq<string>) returns (after: seq<string>)
    ensures after == out + Lines(n, node, depth)
    decreases node
  {
    if node.Leaf? {
      return out + [Indent(depth) + Opening(n, node.tag, node.attrs) + ">" + EscapeText(Sanitise(node.text)) + Closing(n, node.tag)];
    }
    if node.children == [] {
      return out + [Indent(depth) + Opening(n, node.tag, map[]) + "/>"];
    }
    var opening, closing := Indent(depth) + Opening(n, node.tag, map[]) + ">", Indent(depth) + Closing(n, node.tag);
    ghost var all := AllLines(n, node.children, depth + 1);
    assert Lines(n, node, depth) == [opening] + all + [closing];
    hide Lines, AllLines, Opening, Closing, Indent;
    after := out + [opening];
    assert node.children[0..] == node.children;
    for k := 0 to |node.children|
      invariant after + AllLines(n, node.children[k..], depth + 1) == out + [opening] + all
    {
      ghost var before := after;
      LinesOfFirst(n, node.children, k, depth + 1);
      after := RenderNode(n, node.children[k], depth + 1, after);
      LinesJoin(before, Lines(n, node.children[k], depth + 1), AllLines(n, node.children[k + 1..], depth + 1));
    }
    NoLines(n, node.children, depth + 1);
    after := after + [closing];
    LinesJoin(out, [opening] + all, [closing]);
    LinesJoin(out, [opening], all);
  }

  lemma LinesJoin(a: seq<string>, b: seq<string>, c: seq<string>)
    ensures a + b + c == a + (b + c)
  {}

  lemma LinesOfFirst(n: Naming, children: seq<XmlNode>, k: nat, depth: nat)
    requires k < |children|
    ensures AllLines(n, children[k..], depth) == Lines(n, children[k], depth) + AllLines(n, children[k + 1..], depth)
  {
    assert children[k..][0] == children[k] && children[k..][1..] == children[k + 1..];
    hide Lines;
  }

  lemma NoLines(n: Naming, children: seq<XmlNode>, depth: nat)
    ensures AllLines(n, children[|children|..], depth) == []
  {}

  /** Every line ended by a line feed. */
  function JoinLines(lines: seq<string>): string {
    if lines == [] then "" else lines[0] + "\n" + JoinLines(lines[1..])
  }

  function Render(n: Naming, root: XmlNode): string {
    JoinLines(Lines(n, root, 0))
  }

  const DECLARATION := "<?xml version=\"1.0\" encoding=\"UTF-8\"?>"

  method RenderXml(n: Naming, root: XmlNode) returns (text: string)
    ensures text == DECLARATION + "\n" + Render(n, root)
  {
    var out := RenderNode(n, root, 0, [DECLARATION]);
    assert out[0] == DECLARATION && out[1..] == Lines(n, root, 0);
    text := JoinLines(out);
  }

  // ---------------------------------------------------------------------- a reader

  /** The end tag of an element of this name (section 3.1 of XML 1.0). */
  ghost function EndTag(name: string): string {
    ['<', '/'] + name + ['>']
  }

  predicate IsXmlSpace(c: char) {
    c == ' ' || c == '\n' || c == '\t' || c == '\r'
  }

  predicate AllSpace(s: string) {
    forall k :: 0 <= k < |s| ==> IsXmlSpace(s[k])
  }

  function SkipSpace(s: string): (rest: string)
    ensures |rest| <= |s|
  {
    if s != "" && IsXmlSpace(s[0]) then SkipSpace(s[1..]) else s
  }

  /** How many name characters `s` starts with. */
  function NameEnd(s: string): (end: nat)
    ensures end <= |s|
  {
    if s != "" && IsNameChar(s[0]) then 1 + NameEnd(s[1..]) else 0
  }

  ghost function TagNamed(n: Naming, s: string): Option<Tag> {
    if t :| n.tags(t) == s then Some(t) else None
  }

  ghost function AttrNamed(n: Naming, s: string): Option<AttrName> {
    if a :| n.attrs(a) == s then Some(a) else None
  }

  /** Attributes, each after a space; the rest starts where none follows. */
  ghost function ReadAttrs(n: Naming, s: string, read: map<AttrName, string>): Option<(map<AttrName, string>, string)>
    decreases |s|
  {
    if !(" " <= s) then Some((read, s))
    else
      var end := 1 + NameEnd(s[1..]);
      var attr, value := AttrNamed(n, s[1..end]), s[end..];
      if attr.None? || !("=\"" <= value) then None
      else
        var quote := IndexOf(value[2..], '"');
        if quote.None? then None
        else ReadAttrs(n, value[2..][quote.value + 1..], read[attr.value := Decode(value[2..][..quote.value])])
  }

  /** One element, after any white space. Text between tags is a leaf's; between children it is layout. */
  ghost function ReadNode(n: Naming, s: string): Option<(XmlNode, string)>
    decreases |s|, 1
  {
    var s1 := SkipSpace(s);
    if !("<" <= s1) then None
    else
      var end := 1 + NameEnd(s1[1..]);
      var tag, attrs := TagNamed(n, s1[1..end]), ReadAttrs(n, s1[end..], map[]);
      if tag.None? || attrs.None? then None
      else ReadBody(n, s, tag.value, attrs.value.0, attrs.value.1)
  }

  ghost function ReadBody(n: Naming, s: string, tag: Tag, attrs: map<AttrName, string>, r: string): Option<(XmlNode, string)>
    decreases |s|, 0
  {
    if "/>" <= r then (if attrs == map[] then Some((El(tag, []), r[2..])) else None)
    else if !(">" <= r) || |r| > |s| then None
    else
      var content := r[1..];
      var open := IndexOf(content, '<');
      if open.None? then None
      else if EndTag(n.tags(tag)) <= content[open.value..] then
        Some((Leaf(tag, Decode(content[..open.value]), attrs), content[open.value..][|EndTag(n.tags(tag))|..]))
      else
        var children := ReadAll(n, content);
        if children.None? || attrs != map[] || !(EndTag(n.tags(tag)) <= children.value.1) then None
        else Some((El(tag, children.value.0), children.value.1[|EndTag(n.tags(tag))|..]))
  }

  /** Elements up to the next closing tag. */
  ghost function ReadAll(n: Naming, s: string): Option<(seq<XmlNode>, string)>
    decreases |s|, 2
  {
    var s1 := SkipSpace(s);
    if "</" <= s1 then Some(([], s1))
    else
      var first := ReadNode(n, s);
      if first.None? || |first.value.1| >= |s| then None
      else
        var others := ReadAll(n, first.value.1);
        if others.None? then None else Some(([first.value.0] + others.value.0, others.value.1))
  }

  // ---------------------------------------------------------------------- reading undoes writing

  lemma {:induction false} JoinSplits(a: seq<string>, b: seq<string>)
    ensures JoinLines(a + b) == JoinLines(a) + JoinLines(b)
  {
    if a == [] {
      assert a + b == b;
    } else {
      JoinSplits(a[1..], b);
      assert (a + b)[1..] == a[1..] + b;
    }
  }

  lemma JoinOne(line: string)
    ensures JoinLines([line]) == line + "\n"
  {
    assert [line][1..] == [];
  }

  lemma {:induction false} SkipsSpace(w: string, s: string)
    requires AllSpace(w) && (s == "" || !IsXmlSpace(s[0]))
    ensures SkipSpace(w + s) == s
  {
    if w == "" {
      assert w + s == s;
    } else {
      SkipsSpace(w[1..], s);
      assert (w + s)[1..] == w[1..] + s;
    }
  }

  lemma {:induction false} SkipsMoreSpace(w: string, s: string)
    requires AllSpace(w)
    ensures SkipSpace(w + s) == SkipSpace(s)
  {
    if w == "" {
      assert w + s == s;
    } else {
      SkipsMoreSpace(w[1..], s);
      assert (w + s)[1..] == w[1..] + s;
    }
  }

  lemma {:induction false} NameEnds(name: string, s: string)
    requires (forall k :: 0 <= k < |name| ==> IsNameChar(name[k])) && (s == "" || !IsNameChar(s[0]))
    ensures NameEnd(name + s) == |name|
  {
    if name == "" {
      assert name + s == s;
    } else {
      NameEnds(name[1..], s);
      assert (name + s)[1..] == name[1..] + s;
    }
  }

  lemma FindsFirst(before: string, c: char, after: string)
    requires c !in before
    ensures IndexOf(before + [c] + after, c) == Some(|before|)
  {
    var s := before + [c] + after;
    assert s[|before|] == c;
    assert forall k :: 0 <= k < |before| ==> s[k] == before[k];
  }

  /** What a tag looks like once its name has been read off. */
  lemma NameIsRead(name: string, s: string)
    requires IsName(name) && (s == "" || !IsNameChar(s[0]))
    ensures var text := name + s; NameEnd(text) == |name| && text[..|name|] == name && text[|name|..] == s
  {
    NameEnds(name, s);
  }

  lemma TagIsFound(n: Naming, t: Tag)
    requires IsNaming(n)
    ensures TagNamed(n, n.tags(t)) == Some(t)
  {}

  lemma AttrIsFound(n: Naming, a: AttrName)
    requires IsNaming(n)
    ensures AttrNamed(n, n.attrs(a)) == Some(a)
  {}

  lemma AttrUnfolds(n: Naming, s: string, a: AttrName, value: string, quote: nat, read: map<AttrName, string>)
    requires " " <= s && AttrNamed(n, s[1..1 + NameEnd(s[1..])]) == Some(a) && s[1 + NameEnd(s[1..])..] == value
    requires "=\"" <= value && IndexOf(value[2..], '"') == Some(quote)
    ensures ReadAttrs(n, s, read) == ReadAttrs(n, value[2..][quote + 1..], read[a := Decode(value[2..][..quote])])
  {
    hide Decode, IndexOf, NameEnd, AttrNamed;
  }

  lemma AttrPieces(name: string, escaped: string, r: string)
    ensures var tail := "=\"" + escaped + "\"" + r;
            var s := " " + name + "=\"" + escaped + "\"" + r;
            && s == " " + (name + tail) && s[1..] == name + tail && " " <= s
            && s[1..1 + |name|] == name && s[1 + |name|..] == tail
            && "=\"" <= tail && tail[2..] == escaped + ['"'] + r
            && tail[2..][..|escaped|] == escaped && tail[2..][|escaped| + 1..] == r
  {}

  /** One attribute is read off the front. */
  lemma AttrReads(n: Naming, a: AttrName, value: string, r: string, read: map<AttrName, string>)
    requires IsNaming(n)
    ensures ReadAttrs(n, " " + n.attrs(a) + "=\"" + EscapeAttr(Sanitise(value)) + "\"" + r, read)
            == ReadAttrs(n, r, read[a := Sanitise(value)])
  {
    var escaped := EscapeAttr(Sanitise(value));
    EscapedIsInert(Sanitise(value));
    DecodeUndoesEscape(Sanitise(value));
    AttrIsFound(n, a);
    assert '"' !in escaped;
    hide EscapeAttr, Decode, Sanitise, Inert, AttrNamed, IndexOf, NameEnd, ReadAttrs;
    var tail := "=\"" + escaped + "\"" + r;
    AttrPieces(n.attrs(a), escaped, r);
    NameIsRead(n.attrs(a), tail);
    FindsFirst(escaped, '"', r);
    AttrUnfolds(n, " " + n.attrs(a) + "=\"" + escaped + "\"" + r, a, tail, |escaped|, read);
  }

  lemma NoMoreAttrs(n: Naming, r: string, read: map<AttrName, string>)
    requires r != "" && r[0] != ' '
    ensures ReadAttrs(n, r, read) == Some((read, r))
  {}

  lemma AttrsRead(n: Naming, attrs: map<AttrName, string>, r: string)
    requires IsNaming(n) && r != "" && r[0] != ' '
    ensures ReadAttrs(n, RenderAttrs(n, attrs) + r, map[]) == Some((CleanAttrs(attrs), r))
  {
    hide ReadAttrs, EscapeAttr, Sanitise;
    var one := RenderAttr(n, attrs, UnitCode);
    var two := RenderAttr(n, attrs, CurrencyID);
    assert RenderAttrs(n, attrs) + r == one + (two + r);
    var first: map<AttrName, string> := if UnitCode in attrs then map[UnitCode := Sanitise(attrs[UnitCode])] else map[];
    var both := if CurrencyID in attrs then first[CurrencyID := Sanitise(attrs[CurrencyID])] else first;
    AttrStep(n, attrs, UnitCode, two + r, map[]);
    AttrStep(n, attrs, CurrencyID, r, first);
    NoMoreAttrs(n, r, both);
    forall a | a in attrs ensures a in both && both[a] == Sanitise(attrs[a]) {
      match a
      case UnitCode =>
      case CurrencyID =>
    }
    assert both == CleanAttrs(attrs);
  }

  lemma AttrStep(n: Naming, attrs: map<AttrName, string>, a: AttrName, r: string, read: map<AttrName, string>)
    requires IsNaming(n)
    ensures ReadAttrs(n, RenderAttr(n, attrs, a) + r, read)
            == ReadAttrs(n, r, if a in attrs then read[a := Sanitise(attrs[a])] else read)
  {
    hide ReadAttrs, EscapeAttr, Sanitise;
    if a in attrs {
      var escaped := EscapeAttr(Sanitise(attrs[a]));
      assert RenderAttr(n, attrs, a) + r == " " + n.attrs(a) + "=\"" + escaped + "\"" + r;
      AttrReads(n, a, attrs[a], r, read);
    } else {
      assert RenderAttr(n, attrs, a) + r == r;
    }
  }

  /** An opening tag is read off the front, down to how it ends. */
  lemma OpeningReads(n: Naming, w: string, tag: Tag, attrs: map<AttrName, string>, r: string)
    requires IsNaming(n) && AllSpace(w) && r != "" && r[0] != ' ' && !IsNameChar(r[0])
    ensures var s := w + Opening(n, tag, attrs) + r;
            ReadNode(n, s) == ReadBody(n, s, tag, CleanAttrs(attrs), r)
  {
    hide ReadAttrs, RenderAttrs, Sanitise, ReadBody, TagNamed, NameEnd, SkipSpace;
    hide Opening, IsName;
    var s := w + Opening(n, tag, attrs) + r;
    var name, shown := n.tags(tag), RenderAttrs(n, attrs);
    OpeningIs(n, tag, attrs);
    OpeningPieces(w, name, shown, r);
    SkipsTo(w, name + (shown + r));
    TailStartsClean(n, attrs, r);
    NameIsRead(name, shown + r);
    TagIsFound(n, tag);
    AttrsRead(n, attrs, r);
  }

  lemma OpeningIs(n: Naming, tag: Tag, attrs: map<AttrName, string>)
    ensures Opening(n, tag, attrs) == "<" + n.tags(tag) + RenderAttrs(n, attrs)
  {}

  lemma OpeningPieces(w: string, name: string, attrs: string, r: string)
    ensures w + ("<" + name + attrs) + r == w + ("<" + (name + (attrs + r)))
    ensures var s1 := "<" + (name + (attrs + r));
            "<" <= s1 && s1[1..] == name + (attrs + r) && s1[1..1 + |name|] == name && s1[1 + |name|..] == attrs + r
  {}

  lemma TailStartsClean(n: Naming, attrs: map<AttrName, string>, r: string)
    requires r != "" && !IsNameChar(r[0])
    ensures var tail := RenderAttrs(n, attrs) + r; tail != "" && !IsNameChar(tail[0])
  {
    hide EscapeAttr, Sanitise;
    if UnitCode !in attrs && CurrencyID !in attrs {
      assert RenderAttrs(n, attrs) + r == r;
    } else if UnitCode in attrs {
      assert RenderAttr(n, attrs, UnitCode)[0] == ' ';
    } else {
      assert RenderAttr(n, attrs, CurrencyID)[0] == ' ' && RenderAttr(n, attrs, UnitCode) == "";
    }
  }

  // ---------------------------------------------------------------------- whole elements

  function Rendered(n: Naming, node: XmlNode, depth: nat): string {
    JoinLines(Lines(n, node, depth))
  }

  function RenderedAll(n: Naming, children: seq<XmlNode>, depth: nat): string {
    JoinLines(AllLines(n, children, depth))
  }

  lemma IndentIsSpace(depth: nat)
    ensures AllSpace(Indent(depth))
  {}

  lemma LeafText(n: Naming, tag: Tag, text: string, attrs: map<AttrName, string>, depth: nat)
    ensures Rendered(n, Leaf(tag, text, attrs), depth)
            == Indent(depth) + Opening(n, tag, attrs) + (">" + EscapeText(Sanitise(text)) + Closing(n, tag) + "\n")
  {
    var line := Indent(depth) + Opening(n, tag, attrs) + ">" + EscapeText(Sanitise(text)) + Closing(n, tag);
    JoinOne(line);
    hide Opening, Closing, EscapeText, Sanitise, JoinLines, Indent;
    assert line + "\n" == Indent(depth) + Opening(n, tag, attrs) + (">" + EscapeText(Sanitise(text)) + Closing(n, tag) + "\n");
  }

  lemma EmptyText(n: Naming, tag: Tag, depth: nat)
    ensures Rendered(n, El(tag, []), depth) == Indent(depth) + Opening(n, tag, map[]) + ("/>" + "\n")
  {
    var line := Indent(depth) + Opening(n, tag, map[]) + "/>";
    JoinOne(line);
    hide Opening, JoinLines, Indent;
    assert line + "\n" == Indent(depth) + Opening(n, tag, map[]) + ("/>" + "\n");
  }

  lemma ContainerText(n: Naming, tag: Tag, children: seq<XmlNode>, depth: nat)
    requires children != []
    ensures Rendered(n, El(tag, children), depth)
            == Indent(depth) + Opening(n, tag, map[]) + (">" + "\n" + RenderedAll(n, children, depth + 1) + Indent(depth) + Closing(n, tag) + "\n")
  {
    var open, close := Indent(depth) + Opening(n, tag, map[]) + ">", Indent(depth) + Closing(n, tag);
    var inner := AllLines(n, children, depth + 1);
    assert Lines(n, El(tag, children), depth) == [open] + inner + [close];
    hide *;
    JoinSplits([open] + inner, [close]);
    JoinSplits([open], inner);
    JoinOne(open);
    JoinOne(close);
    RenderedAllIs(n, children, depth + 1);
    RenderedIs(n, El(tag, children), depth);
    ContainerPieces(Indent(depth), Opening(n, tag, map[]), JoinLines(inner), Closing(n, tag));
  }

  lemma RenderedIs(n: Naming, node: XmlNode, depth: nat)
    ensures Rendered(n, node, depth) == JoinLines(Lines(n, node, depth))
  {}

  lemma RenderedAllIs(n: Naming, children: seq<XmlNode>, depth: nat)
    ensures RenderedAll(n, children, depth) == JoinLines(AllLines(n, children, depth))
  {}

  lemma ContainerPieces(indent: string, open: string, inner: string, close: string)
    ensures (indent + open + ">") + "\n" + inner + (indent + close + "\n") == indent + open + (">" + "\n" + inner + indent + close + "\n")
  {}

  lemma AllText(n: Naming, children: seq<XmlNode>, depth: nat)
    requires children != []
    ensures RenderedAll(n, children, depth) == Rendered(n, children[0], depth) + RenderedAll(n, children[1..], depth)
  {
    JoinSplits(Lines(n, children[0], depth), AllLines(n, children[1..], depth));
  }

  /** The text of a leaf ends at the next tag, which is its own closing tag. */
  lemma LeafBodyReads(n: Naming, s: string, tag: Tag, text: string, attrs: map<AttrName, string>, rest: string)
    requires |">" + EscapeText(Sanitise(text)) + Closing(n, tag) + rest| <= |s|
    ensures ReadBody(n, s, tag, attrs, ">" + EscapeText(Sanitise(text)) + Closing(n, tag) + rest)
            == Some((Leaf(tag, Sanitise(text), attrs), rest))
  {
    var escaped := EscapeText(Sanitise(text));
    EscapedIsInert(Sanitise(text));
    DecodeUndoesEscape(Sanitise(text));
    assert '<' !in escaped;
    assert "<" <= Closing(n, tag) && |Closing(n, tag)| > 1;
    hide EscapeText, Sanitise, Decode, Inert, IndexOf, ReadBody, Closing;
    LeafPieces(escaped, Closing(n, tag), rest);
    FindsFirst(escaped, '<', (Closing(n, tag) + rest)[1..]);
    LeafUnfolds(n, s, tag, attrs, ">" + escaped + Closing(n, tag) + rest, |escaped|);
  }

  lemma LeafUnfolds(n: Naming, s: string, tag: Tag, attrs: map<AttrName, string>, r: string, open: nat)
    requires ">" <= r && !("/>" <= r) && |r| <= |s| && IndexOf(r[1..], '<') == Some(open) && EndTag(n.tags(tag)) <= r[1..][open..]
    ensures ReadBody(n, s, tag, attrs, r) ==
              Some((Leaf(tag, Decode(r[1..][..open]), attrs), r[1..][open..][|EndTag(n.tags(tag))|..]))
  {
    hide ReadAll, IndexOf, Decode, EndTag;
  }

  lemma LeafPieces(escaped: string, close: string, rest: string)
    requires "<" <= close
    ensures var r, after := ">" + escaped + close + rest, close + rest;
            && ">" <= r && !("/>" <= r) && r[1..] == escaped + ['<'] + after[1..]
            && r[1..][|escaped|..] == after && r[1..][..|escaped|] == escaped && close <= after && after[|close|..] == rest
  {
    var r := ">" + escaped + close + rest;
    assert r[0] == '>' && "/>"[0] == '/';
  }

  lemma LeafReads(n: Naming, w: string, tag: Tag, text: string, attrs: map<AttrName, string>, depth: nat, rest: string)
    requires IsNaming(n) && AllSpace(w)
    ensures ReadNode(n, w + Rendered(n, Leaf(tag, text, attrs), depth) + rest) == Some((Clean(Leaf(tag, text, attrs)), "\n" + rest))
  {
    LeafText(n, tag, text, attrs, depth);
    IndentIsSpace(depth);
    hide Opening, Closing, EscapeText, Sanitise, Rendered, Indent, ReadNode, ReadBody;
    var body := ">" + EscapeText(Sanitise(text)) + Closing(n, tag) + ("\n" + rest);
    var s := (w + Indent(depth)) + Opening(n, tag, attrs) + body;
    assert w + Rendered(n, Leaf(tag, text, attrs), depth) + rest == s;
    OpeningReads(n, w + Indent(depth), tag, attrs, body);
    LeafBodyReads(n, s, tag, text, CleanAttrs(attrs), "\n" + rest);
  }

  lemma EmptyReads(n: Naming, w: string, tag: Tag, depth: nat, rest: string)
    requires IsNaming(n) && AllSpace(w)
    ensures ReadNode(n, w + Rendered(n, El(tag, []), depth) + rest) == Some((El(tag, []), "\n" + rest))
  {
    EmptyText(n, tag, depth);
    IndentIsSpace(depth);
    hide Opening, Rendered, Indent, ReadNode;
    var body := "/>" + ("\n" + rest);
    var s := (w + Indent(depth)) + Opening(n, tag, map[]) + body;
    assert w + Rendered(n, El(tag, []), depth) + rest == s;
    OpeningReads(n, w + Indent(depth), tag, map[], body);
    NoAttrs();
    assert body[2..] == "\n" + rest;
  }

  lemma NoAttrs()
    ensures CleanAttrs(map[]) == map[]
  {}

  /** After its indentation, an element's text opens a tag that is not a closing one. */
  lemma TextStarts(n: Naming, node: XmlNode, depth: nat) returns (x: string)
    requires IsNaming(n)
    ensures Rendered(n, node, depth) == Indent(depth) + ("<" + x) && |x| > 1 && IsNameChar(x[0])
  {
    var name := n.tags(node.tag);
    var tail: string;
    var attrs := if node.Leaf? then RenderAttrs(n, node.attrs) else RenderAttrs(n, map[]);
    if node.Leaf? {
      LeafText(n, node.tag, node.text, node.attrs, depth);
      tail := ">" + EscapeText(Sanitise(node.text)) + Closing(n, node.tag) + "\n";
    } else if node.children == [] {
      EmptyText(n, node.tag, depth);
      tail := "/>" + "\n";
    } else {
      ContainerText(n, node.tag, node.children, depth);
      tail := ">" + "\n" + RenderedAll(n, node.children, depth + 1) + Indent(depth) + Closing(n, node.tag) + "\n";
    }
    assert |tail| > 1;
    hide Rendered, RenderedAll, Indent, RenderAttrs, EscapeText, Sanitise, Closing;
    x := name + attrs + tail;
    StartPieces(Indent(depth), name, attrs, tail);
  }

  lemma StartPieces(indent: string, name: string, attrs: string, tail: string)
    requires name != ""
    ensures indent + ("<" + name + attrs) + tail == indent + ("<" + (name + attrs + tail))
    ensures (name + attrs + tail)[0] == name[0] && |name + attrs + tail| >= |name| + |tail|
  {}

  lemma ReadsNothing(n: Naming, w: string, close: string)
    requires AllSpace(w) && "</" <= close
    ensures ReadAll(n, w + close) == Some(([], close))
  {
    assert close[0] == '<';
    SkipsSpace(w, close);
    hide SkipSpace;
  }

  /** The reader takes one element and goes on with what follows it. */
  lemma ReadsOneMore(n: Naming, s: string, x: string, node: XmlNode, rest: string)
    requires SkipSpace(s) == "<" + x && x != "" && x[0] != '/'
    requires ReadNode(n, s) == Some((node, rest)) && |rest| < |s| && ReadAll(n, rest).Some?
    ensures ReadAll(n, s) == Some(([node] + ReadAll(n, rest).value.0, ReadAll(n, rest).value.1))
  {
    assert SkipSpace(s)[1] == x[0] && "</"[1] == '/';
    hide ReadNode, SkipSpace;
  }

  /** A container reads whole once its children do. */
  lemma ContainerReads(n: Naming, w: string, tag: Tag, children: seq<XmlNode>, depth: nat, rest: string)
    requires IsNaming(n) && AllSpace(w) && children != []
    requires ReadAll(n, "\n" + RenderedAll(n, children, depth + 1) + Indent(depth) + (Closing(n, tag) + "\n" + rest))
             == Some((CleanAll(children), Closing(n, tag) + "\n" + rest))
    ensures ReadNode(n, w + Rendered(n, El(tag, children), depth) + rest) == Some((El(tag, CleanAll(children)), "\n" + rest))
  {
    hide *;
    var inner, others := RenderedAll(n, children, depth + 1), RenderedAll(n, children[1..], depth + 1);
    var indent, open, close := Indent(depth), Opening(n, tag, map[]), Closing(n, tag);
    ContainerText(n, tag, children, depth);
    var x := TextStarts(n, children[0], depth + 1);
    AllText(n, children, depth + 1);
    var content := "\n" + inner + indent + (close + "\n" + rest);
    ContainerParts(w, indent, open, inner, close, rest);
    InnerStarts(Indent(depth + 1), x, others, indent + (close + "\n" + rest));
    ContentPieces(inner, indent, close + "\n" + rest);
    BodyStarts(content);
    SpaceBefore(w, depth);
    OpeningReads(n, w + indent, tag, map[], ">" + content);
    NoAttrs();
    NewLineBefore(depth + 1);
    SamePieces(close, rest);
    FirstOf(x, others + (indent + (close + "\n" + rest)));
    ContainerBodyReads(n, w + indent + open + (">" + content), tag, "\n" + Indent(depth + 1), x + others + (indent + (close + "\n" + rest)),
                       CleanAll(children), "\n" + rest);
  }

  lemma ContentPieces(inner: string, indent: string, tail: string)
    ensures "\n" + inner + (indent + tail) == "\n" + inner + indent + tail
  {}

  lemma SamePieces(close: string, rest: string)
    ensures close + "\n" + rest == close + ("\n" + rest)
  {}

  lemma FirstOf(x: string, y: string)
    requires x != ""
    ensures (x + y)[0] == x[0] && forall a, b :: y == a + b ==> x + a + b == x + y
  {}

  lemma BodyStarts(content: string)
    ensures var r := ">" + content; r != "" && r[0] != ' ' && !IsNameChar(r[0])
  {}

  lemma SpaceBefore(w: string, depth: nat)
    requires AllSpace(w)
    ensures AllSpace(w + Indent(depth))
  {}

  lemma NewLineBefore(depth: nat)
    ensures AllSpace("\n" + Indent(depth))
  {}

  lemma {:induction false} NodeReads(n: Naming, w: string, node: XmlNode, depth: nat, rest: string)
    requires IsNaming(n) && AllSpace(w)
    ensures ReadNode(n, w + Rendered(n, node, depth) + rest) == Some((Clean(node), "\n" + rest))
    decreases node, 1
  {
    match node
    case Leaf(tag, text, attrs) => LeafReads(n, w, tag, text, attrs, depth, rest);
    case El(tag, children) =>
      CleanOfElement(tag, children);
      if children == [] {
        EmptyReads(n, w, tag, depth, rest);
      } else {
        IndentIsSpace(depth);
        ClosingStarts(n, tag);
        AllRead(n, "\n", children, depth + 1, Indent(depth), Closing(n, tag) + "\n" + rest);
        hide *;
        ContainerReads(n, w, tag, children, depth, rest);
      }
  }

  lemma CleanOfElement(tag: Tag, children: seq<XmlNode>)
    ensures Clean(El(tag, children)) == El(tag, CleanAll(children))
  {}

  lemma {:induction false} AllRead(n: Naming, w: string, children: seq<XmlNode>, depth: nat, indent: string, close: string)
    requires IsNaming(n) && AllSpace(w) && AllSpace(indent) && "</" <= close
    ensures ReadAll(n, w + RenderedAll(n, children, depth) + indent + close) == Some((CleanAll(children), close))
    decreases children, 0
  {
    if children == [] {
      assert w + RenderedAll(n, children, depth) + indent + close == (w + indent) + close;
      ReadsNothing(n, w + indent, close);
    } else {
      assert AllSpace("\n");
      hide *;
      var first, others := Rendered(n, children[0], depth), RenderedAll(n, children[1..], depth);
      var rest := others + indent + close;
      NodeReads(n, w, children[0], depth, rest);
      AllRead(n, "\n", children[1..], depth, indent, close);
      AllText(n, children, depth);
      var x := TextStarts(n, children[0], depth);
      CleanFirst(children);
      SpaceBefore(w, depth);
      AllPieces(w, first, others, indent, close, Indent(depth), x);
      SkipsTo(w + Indent(depth), x + rest);
      NotClosing(x, rest);
      ReadsOneMore(n, w + first + rest, x + rest, Clean(children[0]), "\n" + rest);
    }
  }

  lemma AllPieces(w: string, first: string, others: string, indent: string, close: string, margin: string, x: string)
    requires first == margin + ("<" + x) && |x| > 1
    ensures var rest := others + indent + close;
            && "\n" + others + indent + close == "\n" + rest
            && w + (first + others) + indent + close == w + first + rest
            && w + first + rest == (w + margin) + ("<" + (x + rest))
            && |"\n" + rest| < |w + first + rest|
  {}

  lemma SkipsTo(w: string, x: string)
    requires AllSpace(w)
    ensures SkipSpace(w + ("<" + x)) == "<" + x
  {
    SkipsSpace(w, "<" + x);
  }

  lemma NotClosing(x: string, rest: string)
    requires x != "" && IsNameChar(x[0])
    ensures x + rest != "" && (x + rest)[0] != '/'
  {}

  lemma CleanFirst(children: seq<XmlNode>)
    requires children != []
    ensures CleanAll(children) == [Clean(children[0])] + CleanAll(children[1..])
  {
    hide Clean;
  }

  lemma ClosingStarts(n: Naming, tag: Tag)
    ensures "</" <= Closing(n, tag)
  {}

  lemma ContainerParts(w: string, indent: string, open: string, inner: string, close: string, rest: string)
    ensures w + (indent + open + (">" + "\n" + inner + indent + close + "\n")) + rest
            == w + indent + open + (">" + ("\n" + inner + indent + (close + "\n" + rest)))
  {}

  lemma InnerStarts(indent: string, x: string, others: string, rest: string)
    ensures "\n" + ((indent + ("<" + x)) + others) + rest == ("\n" + indent) + ("<" + (x + others + rest))
  {}

  /** Between the tags of a container stand elements, not text. */
  lemma ContainerBodyReads(n: Naming, s: string, tag: Tag, w: string, x: string, children: seq<XmlNode>, rest: string)
    requires |">" + (w + ("<" + x))| <= |s| && AllSpace(w) && x != "" && IsNameChar(x[0])
    requires ReadAll(n, w + ("<" + x)) == Some((children, Closing(n, tag) + rest))
    ensures ReadBody(n, s, tag, map[], ">" + (w + ("<" + x))) == Some((El(tag, children), rest))
  {
    BodyPieces(w, x);
    assert '<' !in w;
    ClosingStarts(n, tag);
    ClosingDiffers(Closing(n, tag), "<" + x);
    AfterClosing(Closing(n, tag), rest);
    hide ReadAll, IndexOf, Closing, AllSpace;
    FindsFirst(w, '<', x);
    BodyUnfolds(n, s, tag, w + ("<" + x), |w|, children, rest);
  }

  lemma BodyPieces(w: string, x: string)
    ensures w + ("<" + x) == w + ['<'] + x && (w + ("<" + x))[|w|..] == "<" + x
  {}

  lemma ClosingDiffers(close: string, s: string)
    requires "</" <= close && |s| > 1 && s[1] != '/'
    ensures !(close <= s)
  {
    assert close[1] == "</"[1] == '/';
  }

  lemma AfterClosing(close: string, rest: string)
    ensures close <= close + rest && (close + rest)[|close|..] == rest
  {}

  lemma BodyUnfolds(n: Naming, s: string, tag: Tag, content: string, open: nat, children: seq<XmlNode>, rest: string)
    requires |">" + content| <= |s| && IndexOf(content, '<') == Some(open) && !(Closing(n, tag) <= content[open..])
    requires ReadAll(n, content) == Some((children, Closing(n, tag) + rest))
    ensures ReadBody(n, s, tag, map[], ">" + content) == Some((El(tag, children), rest))
  {
    var r := ">" + content;
    assert r[0] == '>' && "/>"[0] == '/' && r[1..] == content;
    AfterClosing(Closing(n, tag), rest);
    hide ReadAll, IndexOf, Closing;
  }

  lemma RootIsRendered(n: Naming, root: XmlNode)
    ensures AllSpace("") && Render(n, root) == Rendered(n, root, 0)
  {
    hide Lines, JoinLines;
  }

  /** Reading back what was written gives the same tree, cleaned of what a document cannot carry. */
  lemma RenderReads(n: Naming, root: XmlNode)
    requires IsNaming(n)
    ensures ReadNode(n, Render(n, root)) == Some((Clean(root), "\n"))
  {
    hide *;
    RootIsRendered(n, root);
    NodeReads(n, "", root, 0, "");
    assert "" + Rendered(n, root, 0) + "" == Rendered(n, root, 0) && "\n" + "" == "\n";
  }

  /** Two trees with the same text differ at most in what a document cannot carry. */
  lemma RenderTellsApart(n: Naming, a: XmlNode, b: XmlNode)
    requires IsNaming(n) && Render(n, a) == Render(n, b)
    ensures Clean(a) == Clean(b)
  {
    RenderReads(n, a);
    RenderReads(n, b);
  }

  // ---------------------------------------------------------------------- namings exist

  function Ordinal(tag: Tag): nat {
    match tag
    case SupplyChainTradeTransaction => 0
    case IncludedSupplyChainTradeLineItem => 1
    case AssociatedDocumentLineDocument => 2
    case LineID => 3
    case SpecifiedTradeProduct => 4
    case Name => 5
    case SpecifiedLineTradeAgreement => 6
    case NetPriceProductTradePrice => 7
    case ChargeAmount => 8
    case SpecifiedLineTradeDelivery => 9
    case BilledQuantity => 10
    case SpecifiedLineTradeSettlement => 11
    case ApplicableTradeTax => 12
    case TypeCode => 13
    case CategoryCode => 14
    case RateApplicablePercent => 15
    case SpecifiedTradeSettlementLineMonetarySummation => 16
    case LineTotalAmount => 17
    case CalculatedAmount => 18
    case ExemptionReason => 19
    case BasisAmount => 20
    case ApplicableHeaderTradeAgreement => 21
    case ApplicableHeaderTradeDelivery => 22
    case ApplicableHeaderTradeSettlement => 23
    case InvoiceCurrencyCode => 24
    case SpecifiedTradeSettlementPaymentMeans => 25
    case SpecifiedTradePaymentTerms => 26
    case SpecifiedTradeSettlementHeaderMonetarySummation => 27
    case TaxBasisTotalAmount => 28
    case TaxTotalAmount => 29
    case GrandTotalAmount => 30
    case TotalPrepaidAmount => 31
    case DuePayableAmount => 32
    case AllowanceTotalAmount => 33
    case ChargeTotalAmount => 34
    case CrossIndustryInvoice => 35
    case ExchangedDocumentContext => 36
    case ExchangedDocument => 37
  }

  function Plainly(count: nat): string {
    seq(count, _ => 'x')
  }

  lemma OrdinalTells(t: Tag, u: Tag)
    requires Ordinal(t) == Ordinal(u)
    ensures t == u
  {}

  lemma PlainlyNames(count: nat)
    requires count > 0
    ensures IsName(Plainly(count)) && |Plainly(count)| == count
  {}

  /** Spelling by number is a legal naming. */
  lemma NumbersAreNames(n: Naming)
    requires forall t: Tag :: n.tags(t) == Plainly(Ordinal(t) + 1)
    requires forall a: AttrName :: n.attrs(a) == Plainly(if a == UnitCode then 1 else 2)
    ensures IsNaming(n)
  {
    hide Ordinal, IsName, Plainly;
    forall t: Tag ensures IsName(n.tags(t)) && |n.tags(t)| == Ordinal(t) + 1 {
      PlainlyNames(Ordinal(t) + 1);
    }
    forall a: AttrName ensures IsName(n.attrs(a)) && |n.attrs(a)| == if a == UnitCode then 1 else 2 {
      PlainlyNames(if a == UnitCode then 1 else 2);
    }
    forall t: Tag, u: Tag | n.tags(t) == n.tags(u) ensures t == u {
      OrdinalTells(t, u);
    }
  }

  /** The requirement on namings can be met: any legal and distinct names will do, the product's own included. */
  lemma NamingsExist() returns (n: Naming)
    ensures IsNaming(n)
  {
    hide Ordinal, IsNaming, Plainly;
    n := Naming((t: Tag) => Plainly(Ordinal(t) + 1), (a: AttrName) => Plainly(if a == UnitCode then 1 else 2));
    NumbersAreNames(n);
  }
}
