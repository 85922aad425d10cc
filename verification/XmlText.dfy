/** Text inside a document: how it is escaped on the way out and decoded on the way in. */
module XmlText {

  /** Every `c` replaced, as a global replacement of one character does. */
  function ReplaceAll(s: string, c: char, replacement: string): string {
    if s == "" then ""
    else (if s[0] == c then replacement else [s[0]]) + ReplaceAll(s[1..], c, replacement)
  }

  function EscapeText(s: string): string {
    ReplaceAll(ReplaceAll(ReplaceAll(s, '&', "&amp;"), '<', "&lt;"), '>', "&gt;")
  }

  function EscapeAttr(s: string): string {
    ReplaceAll(ReplaceAll(EscapeText(s), '"', "&quot;"), '\n', "&#10;")
  }

  /** Characters XML 1.0 cannot carry. */
  predicate IsControl(c: char) {
    c <= '\U{08}' || c == '\U{0B}' || c == '\U{0C}' || '\U{0E}' <= c <= '\U{1F}' || c == '\U{7F}'
  }

  function Sanitise(s: string): string {
    if s == "" then ""
    else (if IsControl(s[0]) then "" else [s[0]]) + Sanitise(s[1..])
  }

  // ---------------------------------------------------------------------- one pass

  function EscapedChar(c: char, inAttr: bool): string {
    if c == '&' then "&amp;"
    else if c == '<' then "&lt;"
    else if c == '>' then "&gt;"
    else if inAttr && c == '"' then "&quot;"
    else if inAttr && c == '\n' then "&#10;"
    else [c]
  }

  function OnePass(s: string, inAttr: bool): string {
    if s == "" then "" else EscapedChar(s[0], inAttr) + OnePass(s[1..], inAttr)
  }

  lemma {:induction false} ReplaceAllSplits(a: string, b: string, c: char, replacement: string)
    ensures ReplaceAll(a + b, c, replacement) == ReplaceAll(a, c, replacement) + ReplaceAll(b, c, replacement)
  {
    if a == "" {
      assert a + b == b;
    } else {
      ReplaceAllSplits(a[1..], b, c, replacement);
      assert (a + b)[1..] == a[1..] + b;
    }
  }

  lemma {:induction false} ReplaceAllMisses(s: string, c: char, replacement: string)
    requires c !in s
    ensures ReplaceAll(s, c, replacement) == s
  {
    if s != "" {
      ReplaceAllMisses(s[1..], c, replacement);
    }
  }

  lemma ReplaceAllOne(c: char, d: char, replacement: string)
    ensures ReplaceAll([c], d, replacement) == if c == d then replacement else [c]
  {
    assert [c][1..] == "";
  }

  /** Replacing one character after another comes to the same as looking at each character once. */
  lemma {:induction false} EscapeIsOnePass(s: string)
    ensures EscapeText(s) == OnePass(s, false)
    ensures EscapeAttr(s) == OnePass(s, true)
  {
    if s != "" {
      EscapeSplits([s[0]], s[1..]);
      assert [s[0]] + s[1..] == s;
      EscapeIsOnePass(s[1..]);
      EscapeOne(s[0]);
    }
  }

  lemma EscapeSplits(a: string, b: string)
    ensures EscapeText(a + b) == EscapeText(a) + EscapeText(b)
    ensures EscapeAttr(a + b) == EscapeAttr(a) + EscapeAttr(b)
  {
    ReplaceAllSplits(a, b, '&', "&amp;");
    var a1, b1 := ReplaceAll(a, '&', "&amp;"), ReplaceAll(b, '&', "&amp;");
    ReplaceAllSplits(a1, b1, '<', "&lt;");
    var a2, b2 := ReplaceAll(a1, '<', "&lt;"), ReplaceAll(b1, '<', "&lt;");
    ReplaceAllSplits(a2, b2, '>', "&gt;");
    ReplaceAllSplits(EscapeText(a), EscapeText(b), '"', "&quot;");
    ReplaceAllSplits(ReplaceAll(EscapeText(a), '"', "&quot;"), ReplaceAll(EscapeText(b), '"', "&quot;"), '\n', "&#10;");
  }

  /** Later replacements leave an entity alone. */
  lemma EntityStays(entity: string)
    requires entity == "&amp;" || entity == "&lt;" || entity == "&gt;" || entity == "&quot;"
    ensures ReplaceAll(entity, '<', "&lt;") == ReplaceAll(entity, '>', "&gt;") == entity
    ensures ReplaceAll(entity, '"', "&quot;") == ReplaceAll(entity, '\n', "&#10;") == entity
  {
    hide ReplaceAll;
    assert '<' !in entity && '>' !in entity && '"' !in entity && '\n' !in entity;
    ReplaceAllMisses(entity, '<', "&lt;");
    ReplaceAllMisses(entity, '>', "&gt;");
    ReplaceAllMisses(entity, '"', "&quot;");
    ReplaceAllMisses(entity, '\n', "&#10;");
  }

  lemma EscapeOne(c: char)
    ensures EscapeText([c]) == EscapedChar(c, false) && EscapeAttr([c]) == EscapedChar(c, true)
  {
    ReplaceAllOne(c, '&', "&amp;");
    ReplaceAllOne(c, '<', "&lt;");
    ReplaceAllOne(c, '>', "&gt;");
    ReplaceAllOne(c, '"', "&quot;");
    ReplaceAllOne(c, '\n', "&#10;");
    EntityStays("&amp;");
    EntityStays("&lt;");
    EntityStays("&gt;");
    EntityStays("&quot;");
    hide ReplaceAll;
    if c == '&' {
    } else if c == '<' {
    } else if c == '>' {
    } else if c == '"' {
    }
  }

  // ---------------------------------------------------------------------- decoding

  /** The character an entity stands for and its length, when `s` starts with one (section 4.6 of XML 1.0, and `&#10;`). */
  function Entity(s: string): (char, nat) {
    if "&amp;" <= s then ('&', 5)
    else if "&lt;" <= s then ('<', 4)
    else if "&gt;" <= s then ('>', 4)
    else if "&quot;" <= s then ('"', 6)
    else if "&apos;" <= s then ('\'', 6)
    else if "&#10;" <= s then ('\n', 5)
    else if s == "" then (' ', 0)
    else (s[0], 1)
  }

  function Decode(s: string): string
    decreases |s|
  {
    if s == "" then ""
    else
      var (c, length) := Entity(s);
      [c] + Decode(s[length..])
  }

  lemma DecodeOne(c: char, inAttr: bool, rest: string)
    ensures Decode(EscapedChar(c, inAttr) + rest) == [c] + Decode(rest)
  {
    var escaped := EscapedChar(c, inAttr);
    var s := escaped + rest;
    assert s[..|escaped|] == escaped && s[|escaped|..] == rest;
    assert Entity(s) == (c, |escaped|) by {
      if |escaped| == 1 {
        assert s[0] == c && c != '&';
      } else {
        assert s[0] == '&' && s[1] == escaped[1] && s[2] == escaped[2];
      }
    }
  }

  /** Decoding undoes escaping, of text and of attribute values. */
  lemma {:induction false} DecodeUndoesEscape(s: string)
    ensures Decode(EscapeText(s)) == s
    ensures Decode(EscapeAttr(s)) == s
  {
    EscapeIsOnePass(s);
    if s != "" {
      DecodeUndoesEscape(s[1..]);
      EscapeIsOnePass(s[1..]);
      DecodeOne(s[0], false, OnePass(s[1..], false));
      DecodeOne(s[0], true, OnePass(s[1..], true));
    }
  }

  predicate Inert(s: string, inAttr: bool) {
    '<' !in s && '>' !in s && (inAttr ==> '"' !in s && '\n' !in s)
  }

  lemma {:induction false} OnePassIsInert(s: string, inAttr: bool)
    ensures Inert(OnePass(s, inAttr), inAttr)
  {
    if s != "" {
      OnePassIsInert(s[1..], inAttr);
      assert Inert(EscapedChar(s[0], inAttr), inAttr);
    }
  }

  /** No text can open a tag, and no attribute value can close its quotes. */
  lemma EscapedIsInert(s: string)
    ensures Inert(EscapeText(s), false) && Inert(EscapeAttr(s), true)
  {
    EscapeIsOnePass(s);
    OnePassIsInert(s, false);
    OnePassIsInert(s, true);
    hide Inert;
  }

  lemma {:induction false} SanitiseKeeps(s: string)
    requires forall k :: 0 <= k < |s| ==> !IsControl(s[k])
    ensures Sanitise(s) == s
  {
    if s != "" {
      SanitiseKeeps(s[1..]);
    }
  }

  /** What is left has no control character, and cleaning it again changes nothing. */
  lemma {:induction false} SanitiseIsClean(s: string)
    ensures forall k :: 0 <= k < |Sanitise(s)| ==> !IsControl(Sanitise(s)[k])
    ensures Sanitise(Sanitise(s)) == Sanitise(s)
  {
    if s != "" {
      SanitiseIsClean(s[1..]);
    }
    SanitiseKeeps(Sanitise(s));
  }
}
