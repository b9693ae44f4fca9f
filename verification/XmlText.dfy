// Escaping, and a character-level reader of start tags, attributes and end tags as
// sections 2.4, 3.1 and 4.6 of XML 1.0 define them.
module XmlText {
  import opened Errors

  // ---- escaping -------------------------------------------------------------------------------

  function EscapeChar(c: char): string {
    match c
    case '&' => "&amp;"
    case '<' => "&lt;"
    case '>' => "&gt;"
    case '"' => "&quot;"
    case '\'' => "&apos;"
    case _ => [c]
  }

  function Escape(s: string): string {
    if s == "" then "" else Escape(s[..|s| - 1]) + EscapeChar(s[|s| - 1])
  }

  method XmlEscape(s: string) returns (out: string)
    ensures out == Escape(s)
  {
    out := "";
    for i := 0 to |s|
      invariant out == Escape(s[..i])
    {
      assert s[..i + 1][..i] == s[..i];
      match s[i] {
        case '&' => out := out + "&amp;";
        case '<' => out := out + "&lt;";
        case '>' => out := out + "&gt;";
        case '"' => out := out + "&quot;";
        case '\'' => out := out + "&apos;";
        case c => out := out + [c];
      }
    }
    assert s[..|s|] == s;
  }

  // The predefined entity at the start of s, with its length.
  function Entity(s: string): Option<(char, nat)> {
    if "&amp;" <= s then Some(('&', 5))
    else if "&lt;" <= s then Some(('<', 4))
    else if "&gt;" <= s then Some(('>', 4))
    else if "&quot;" <= s then Some(('"', 6))
    else if "&apos;" <= s then Some(('\'', 6))
    else None
  }

  function Unescape(s: string): string
    decreases |s|
  {
    if s == "" then ""
    else
      var e := Entity(s);
      if e.Some? && e.value.1 <= |s| then [e.value.0] + Unescape(s[e.value.1..]) else [s[0]] + Unescape(s[1..])
  }

  lemma UnescapeOfEscapedChar(c: char, rest: string)
    ensures Unescape(EscapeChar(c) + rest) == [c] + Unescape(rest)
  {
    var e := EscapeChar(c);
    var s := e + rest;
    assert s[..|e|] == e && s[|e|..] == rest && s[0] == e[0];
    if c == '&' || c == '<' || c == '>' || c == '"' || c == '\'' {
      assert e <= s && s[1] == e[1] && s[2] == e[2];
      assert Entity(s) == Some((c, |e|));
    } else {
      assert s[0] != '&' && Entity(s) == None;
    }
  }

  lemma {:induction false} EscapePrepend(c: char, s: string)
    ensures Escape([c] + s) == EscapeChar(c) + Escape(s)
    decreases |s|
  {
    hide EscapeChar;
    var t := [c] + s;
    if s == "" {
      assert t[..0] == "";
    } else {
      assert t[..|t| - 1] == [c] + s[..|s| - 1];
      EscapePrepend(c, s[..|s| - 1]);
    }
  }

  // Escaping loses nothing.
  lemma {:induction false} EscapeRoundTrip(s: string)
    ensures Unescape(Escape(s)) == s
    decreases |s|
  {
    if s != "" {
      assert s == [s[0]] + s[1..];
      EscapePrepend(s[0], s[1..]);
      UnescapeOfEscapedChar(s[0], Escape(s[1..]));
      EscapeRoundTrip(s[1..]);
    }
  }

  // Text that can neither open markup nor end an attribute value.
  predicate Inert(s: string) {
    forall i :: 0 <= i < |s| ==> s[i] != '<' && s[i] != '\''
  }

  lemma EscapedCharIsInert(c: char)
    ensures Inert(EscapeChar(c)) && '>' !in EscapeChar(c) && '"' !in EscapeChar(c)
  {}

  lemma {:induction false} EscapedIsInert(s: string)
    ensures Inert(Escape(s)) && '>' !in Escape(s) && '"' !in Escape(s)
    decreases |s|
  {
    if s != "" {
      EscapedIsInert(s[..|s| - 1]);
      EscapedCharIsInert(s[|s| - 1]);
    }
  }

  // ---- reading markup -------------------------------------------------------------------------

  datatype Token = Open(name: string) | Attribute(name: string, value: string) | Close(name: string) | Char(c: char)

  datatype Mode =
    | Content
    | Opened
    | Naming(name: string)
    | InTag(name: string)
    | AttrNaming(name: string, attr: string)
    | Equals(name: string, attr: string)
    | Value(name: string, attr: string, value: string, quote: char)
    | Slash(name: string)
    | Closing(name: string)
    | Broken

  datatype Reader = Reader(mode: Mode, out: seq<Token>)

  const START := Reader(Content, [])

  predicate IsNameChar(c: char) {
    'a' <= c <= 'z' || 'A' <= c <= 'Z' || '0' <= c <= '9' || c == '_' || c == '-' || c == '.' || c == ':'
  }

  function Feed(r: Reader, c: char): Reader {
    match r.mode
    case Content => if c == '<' then r.(mode := Opened) else r.(out := r.out + [Char(c)])
    case Opened =>
      r.(mode := if c == '/' then Closing("") else if IsNameChar(c) then Naming([c]) else Broken)
    case Naming(n) =>
      if IsNameChar(c) then r.(mode := Naming(n + [c]))
      else Reader(if c == ' ' || c == '\n' then InTag(n)
                  else if c == '>' then Content else if c == '/' then Slash(n) else Broken,
                  r.out + [Open(n)])
    case InTag(n) =>
      r.(mode := if c == ' ' || c == '\n' then InTag(n)
                 else if IsNameChar(c) then AttrNaming(n, [c])
                 else if c == '/' then Slash(n)
                 else if c == '>' then Content
                 else Broken)
    case AttrNaming(n, a) =>
      r.(mode := if IsNameChar(c) then AttrNaming(n, a + [c]) else if c == '=' then Equals(n, a) else Broken)
    case Equals(n, a) => r.(mode := if c == '\'' || c == '"' then Value(n, a, "", c) else Broken)
    case Value(n, a, v, q) =>
      if c == q then Reader(InTag(n), r.out + [Attribute(a, v)])
      else r.(mode := if c == '<' then Broken else Value(n, a, v + [c], q))
    case Slash(n) => if c == '>' then Reader(Content, r.out + [Close(n)]) else r.(mode := Broken)
    case Closing(n) =>
      if IsNameChar(c) then r.(mode := Closing(n + [c]))
      else if c == '>' then Reader(Content, r.out + [Close(n)])
      else r.(mode := Broken)
    case Broken => r
  }

  function Read(r: Reader, s: string): Reader {
    if s == "" then r else Feed(Read(r, s[..|s| - 1]), s[|s| - 1])
  }

  lemma {:induction false} ReadConcat(r: Reader, a: string, b: string)
    ensures Read(r, a + b) == Read(Read(r, a), b)
    decreases |b|
  {
    if b == "" {
      assert a + b == a;
    } else {
      assert (a + b)[..|a + b| - 1] == a + b[..|b| - 1];
      ReadConcat(r, a, b[..|b| - 1]);
    }
  }

  predicate NameOk(s: string) {
    s != "" && forall i :: 0 <= i < |s| ==> IsNameChar(s[i])
  }

  type TagName = s: string | NameOk(s) witness "a"

  type InertText = s: string | Inert(s)

  function CharTokens(s: string): seq<Token> {
    seq(|s|, i requires 0 <= i < |s| => Char(s[i]))
  }

  lemma {:induction false} ReadContent(out: seq<Token>, s: string)
    requires '<' !in s
    ensures Read(Reader(Content, out), s) == Reader(Content, out + CharTokens(s))
    decreases |s|
  {
    if s == "" {
      assert out + [] == out;
    } else {
      ReadContent(out, s[..|s| - 1]);
      assert CharTokens(s) == CharTokens(s[..|s| - 1]) + [Char(s[|s| - 1])];
      assert out + CharTokens(s[..|s| - 1]) + [Char(s[|s| - 1])] == out + CharTokens(s);
    }
  }

  lemma {:induction false} ReadValue(out: seq<Token>, n: string, a: string, v: string, s: string)
    requires Inert(s)
    ensures Read(Reader(Value(n, a, v, '\''), out), s) == Reader(Value(n, a, v + s, '\''), out)
    decreases |s|
  {
    if s == "" {
      assert v + s == v;
    } else {
      var front := s[..|s| - 1];
      assert s == front + [s[|s| - 1]];
      ReadValue(out, n, a, v, front);
      assert v + s == v + s[..|s| - 1] + [s[|s| - 1]];
    }
  }

  lemma {:induction false} ReadName(out: seq<Token>, s: string)
    requires NameOk(s)
    ensures Read(Reader(Opened, out), s) == Reader(Naming(s), out)
    ensures Read(Reader(Closing(""), out), s) == Reader(Closing(s), out)
    decreases |s|
  {
    hide Read;
    var front, last := s[..|s| - 1], s[|s| - 1];
    assert s == front + [last];
    if front == "" {
      assert s == [last] && "" + [last] == s;
      ReadOne(Reader(Opened, out), last);
      ReadOne(Reader(Closing(""), out), last);
    } else {
      ReadName(out, front);
      ReadConcat(Reader(Opened, out), front, [last]);
      ReadOne(Reader(Naming(front), out), last);
      ReadConcat(Reader(Closing(""), out), front, [last]);
      ReadOne(Reader(Closing(front), out), last);
    }
  }

  lemma {:induction false} ReadAttrName(out: seq<Token>, n: string, s: string)
    requires NameOk(s)
    ensures Read(Reader(InTag(n), out), s) == Reader(AttrNaming(n, s), out)
    decreases |s|
  {
    var front := s[..|s| - 1];
    assert s == front + [s[|s| - 1]] && s[|s| - 1] in s;
    if front == "" {
      assert Read(Reader(InTag(n), out), front) == Reader(InTag(n), out);
      assert s == [s[0]];
    } else {
      assert NameOk(front);
      ReadAttrName(out, n, front);
    }
  }

  lemma ReadOne(r: Reader, c: char)
    ensures Read(r, [c]) == Feed(r, c)
  {
    assert [c][..0] == "";
    assert Read(r, [c][..0]) == r;
  }

  // ---- pieces of a document --------------------------------------------------------------------

  // A tag with its attributes, or the text between tags.
  datatype Piece =
    | Text(text: string)
    | StartTag(name: string, attrs: seq<(string, string)>)
    | EmptyTag(name: string, attrs: seq<(string, string)>)
    | EndTag(name: string)

  function SpellAttrs(attrs: seq<(string, string)>): string {
    if attrs == [] then ""
    else SpellAttrs(attrs[..|attrs| - 1]) + (" " + attrs[|attrs| - 1].0 + "='" + attrs[|attrs| - 1].1 + "'")
  }

  function Spell(p: Piece): string {
    match p
    case Text(s) => s
    case StartTag(n, attrs) => "<" + n + SpellAttrs(attrs) + ">"
    case EmptyTag(n, attrs) => "<" + n + SpellAttrs(attrs) + "/>"
    case EndTag(n) => "</" + n + ">"
  }

  function SpellAll(ps: seq<Piece>): string {
    if ps == [] then "" else SpellAll(ps[..|ps| - 1]) + Spell(ps[|ps| - 1])
  }

  function AttrTokens(attrs: seq<(string, string)>): seq<Token> {
    seq(|attrs|, i requires 0 <= i < |attrs| => Attribute(attrs[i].0, attrs[i].1))
  }

  function Tokens(p: Piece): seq<Token> {
    match p
    case Text(s) => CharTokens(s)
    case StartTag(n, attrs) => [Open(n)] + AttrTokens(attrs)
    case EmptyTag(n, attrs) => [Open(n)] + AttrTokens(attrs) + [Close(n)]
    case EndTag(n) => [Close(n)]
  }

  function AllTokens(ps: seq<Piece>): seq<Token> {
    if ps == [] then [] else AllTokens(ps[..|ps| - 1]) + Tokens(ps[|ps| - 1])
  }

  predicate AttrsOk(attrs: seq<(string, string)>) {
    forall i :: 0 <= i < |attrs| ==> NameOk(attrs[i].0) && Inert(attrs[i].1)
  }

  predicate PieceOk(p: Piece) {
    match p
    case Text(s) => '<' !in s
    case StartTag(n, attrs) => NameOk(n) && AttrsOk(attrs)
    case EmptyTag(n, attrs) => NameOk(n) && AttrsOk(attrs)
    case EndTag(n) => NameOk(n)
  }

  // One attribute read inside a tag, or right after its name.
  lemma ReadAttr(r: Reader, n: string, a: string, v: string)
    requires r.mode == InTag(n) || r.mode == Naming(n)
    requires NameOk(a) && Inert(v)
    ensures Read(r, " " + a + "='" + v + "'")
         == Reader(InTag(n), r.out + (if r.mode.Naming? then [Open(n)] else []) + [Attribute(a, v)])
  {
    var out := r.out + (if r.mode.Naming? then [Open(n)] else []);
    var r1 := Reader(InTag(n), out);
    ReadOne(r, ' ');
    assert Read(r, " ") == r1 by { assert " " == [' ']; }
    ReadConcat(r, " ", a);
    ReadAttrName(out, n, a);
    var r2 := Reader(AttrNaming(n, a), out);
    var r3 := Reader(Value(n, a, "", '\''), out);
    EqualsQuote(r2, n, a);
    ReadConcat(r, " " + a, "='");
    ReadConcat(r, " " + a + "='", v);
    ReadValue(out, n, a, "", v);
    assert "" + v == v;
    ReadConcat(r, " " + a + "='" + v, "'");
    ReadOne(Reader(Value(n, a, v, '\''), out), '\'');
    assert "'" == ['\''];
  }

  lemma EqualsQuote(r: Reader, n: string, a: string)
    requires r.mode == AttrNaming(n, a)
    ensures Read(r, "='") == Reader(Value(n, a, "", '\''), r.out)
  {
    assert "='" == ['='] + ['\''];
    ReadConcat(r, ['='], ['\'']);
    ReadOne(r, '=');
    ReadOne(Reader(Equals(n, a), r.out), '\'');
  }

  lemma NothingRead(r: Reader)
    ensures Read(r, "") == r
  {}

  lemma {:induction false} ReadAttrs(out: seq<Token>, n: string, attrs: seq<(string, string)>)
    requires AttrsOk(attrs)
    ensures Read(Reader(Naming(n), out), SpellAttrs(attrs))
         == if attrs == [] then Reader(Naming(n), out) else Reader(InTag(n), out + [Open(n)] + AttrTokens(attrs))
    decreases |attrs|
  {
    hide Read, Feed;
    if attrs == [] {
      NothingRead(Reader(Naming(n), out));
    } else {
      var front, last := attrs[..|attrs| - 1], attrs[|attrs| - 1];
      ReadAttrs(out, n, front);
      var r := Read(Reader(Naming(n), out), SpellAttrs(front));
      ReadConcat(Reader(Naming(n), out), SpellAttrs(front), " " + last.0 + "='" + last.1 + "'");
      ReadAttr(r, n, last.0, last.1);
      assert AttrTokens(attrs) == AttrTokens(front) + [Attribute(last.0, last.1)];
      assert out + [Open(n)] + AttrTokens(front) + [Attribute(last.0, last.1)] == out + [Open(n)] + AttrTokens(attrs);
      if front == [] {
        assert AttrTokens(front) == [] && out + [Open(n)] + [] == out + [Open(n)];
      }
    }
  }

  // The reader after "<name attr='..' ..", about to see the end of the tag.
  lemma ReadTagStart(out: seq<Token>, n: string, attrs: seq<(string, string)>)
    requires NameOk(n) && AttrsOk(attrs)
    ensures var r := Read(Reader(Content, out), "<" + n + SpellAttrs(attrs));
            || (attrs == [] && r == Reader(Naming(n), out))
            || r == Reader(InTag(n), out + [Open(n)] + AttrTokens(attrs))
  {
    var r0 := Reader(Content, out);
    assert "<" == ['<'];
    ReadOne(r0, '<');
    ReadConcat(r0, "<", n);
    ReadName(out, n);
    ReadConcat(r0, "<" + n, SpellAttrs(attrs));
    ReadAttrs(out, n, attrs);
  }

  lemma ReadPiece(out: seq<Token>, p: Piece)
    requires PieceOk(p)
    ensures Read(Reader(Content, out), Spell(p)) == Reader(Content, out + Tokens(p))
  {
    var r0 := Reader(Content, out);
    match p
    case Text(s) => ReadContent(out, s);
    case StartTag(n, attrs) => ReadStartTag(out, n, attrs);
    case EmptyTag(n, attrs) => ReadEmptyTag(out, n, attrs);
    case EndTag(n) => ReadEndTag(out, n);
  }

  lemma ReadStartTag(out: seq<Token>, n: string, attrs: seq<(string, string)>)
    requires NameOk(n) && AttrsOk(attrs)
    ensures Read(Reader(Content, out), "<" + n + SpellAttrs(attrs) + ">")
         == Reader(Content, out + ([Open(n)] + AttrTokens(attrs)))
  {
    var r0, body := Reader(Content, out), "<" + n + SpellAttrs(attrs);
    ReadTagStart(out, n, attrs);
    ReadConcat(r0, body, ">");
    assert ">" == ['>'];
    ReadOne(Read(r0, body), '>');
    assert out + [Open(n)] + AttrTokens(attrs) == out + ([Open(n)] + AttrTokens(attrs));
    if attrs == [] {
      assert AttrTokens(attrs) == [] && [Open(n)] + [] == [Open(n)];
    }
  }

  lemma ReadEmptyTag(out: seq<Token>, n: string, attrs: seq<(string, string)>)
    requires NameOk(n) && AttrsOk(attrs)
    ensures Read(Reader(Content, out), "<" + n + SpellAttrs(attrs) + "/>")
         == Reader(Content, out + ([Open(n)] + AttrTokens(attrs) + [Close(n)]))
  {
    var r0, body := Reader(Content, out), "<" + n + SpellAttrs(attrs);
    ReadTagStart(out, n, attrs);
    ReadConcat(r0, body, "/>");
    assert "/>" == ['/'] + ['>'];
    var r1 := Read(r0, body);
    ReadConcat(r1, ['/'], ['>']);
    ReadOne(r1, '/');
    ReadOne(Feed(r1, '/'), '>');
    assert out + [Open(n)] + AttrTokens(attrs) + [Close(n)] == out + ([Open(n)] + AttrTokens(attrs) + [Close(n)]);
    if attrs == [] {
      assert AttrTokens(attrs) == [] && out + [Open(n)] + [] == out + [Open(n)];
    }
  }

  lemma ReadEndTag(out: seq<Token>, n: string)
    requires NameOk(n)
    ensures Read(Reader(Content, out), "</" + n + ">") == Reader(Content, out + [Close(n)])
  {
    var r0 := Reader(Content, out);
    assert "</" == ['<'] + ['/'];
    ReadConcat(r0, ['<'], ['/']);
    ReadOne(r0, '<');
    ReadOne(Reader(Opened, out), '/');
    ReadConcat(r0, "</", n);
    ReadName(out, n);
    ReadConcat(r0, "</" + n, ">");
    assert ">" == ['>'];
    ReadOne(Reader(Closing(n), out), '>');
  }

  predicate AllOk(ps: seq<Piece>) {
    forall i :: 0 <= i < |ps| ==> PieceOk(ps[i])
  }

  // Reading a document back gives exactly the tags, attribute values and text it was put
  // together from.
  lemma {:induction false} ReadAll(ps: seq<Piece>)
    requires AllOk(ps)
    ensures Read(START, SpellAll(ps)) == Reader(Content, AllTokens(ps))
    decreases |ps|
  {
    if ps != [] {
      var front, last := ps[..|ps| - 1], ps[|ps| - 1];
      ReadAll(front);
      ReadConcat(START, SpellAll(front), Spell(last));
      ReadPiece(AllTokens(front), last);
    }
  }
}
