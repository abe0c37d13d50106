/** The strict TOML reader's strings: where a quoted body ends, where a comment starts, and what
    the body says. Text is bytes, none of them NUL. */
module Toml {
  import opened Sequences
  import opened LittleEndian

  const QUOTE: Byte := 0x22
  const HASH: Byte := 0x23
  const BACKSLASH: Byte := 0x5C

  // ---- the three scanners ----

  /** close_quote: how far the closing quote is, or the length if there is none. */
  function CloseQuote(s: seq<Byte>): (n: nat)
    ensures n <= |s|
  {
    if |s| == 0 || s[0] == QUOTE then 0
    else if s[0] == BACKSLASH && |s| > 1 then 2 + CloseQuote(s[2..])
    else 1 + CloseQuote(s[1..])
  }

  /** strip_comment: how far the comment is, or the length if there is none. */
  function CommentAt(s: seq<Byte>, inStr: bool): (n: nat)
    ensures n <= |s|
  {
    if |s| == 0 then 0
    else if inStr && s[0] == BACKSLASH && |s| > 1 then 2 + CommentAt(s[2..], true)
    else if s[0] == QUOTE then 1 + CommentAt(s[1..], !inStr)
    else if s[0] == HASH && !inStr then 0
    else 1 + CommentAt(s[1..], inStr)
  }

  function HexVal(c: Byte): Option<nat> {
    if 0x30 <= c <= 0x39 then Some(c - 0x30)
    else if 0x61 <= c <= 0x66 then Some(c - 0x61 + 10)
    else if 0x41 <= c <= 0x46 then Some(c - 0x41 + 10)
    else None
  }

  /** The number the hex digits spell, if they all are. */
  function Hex(s: seq<Byte>): Option<nat> {
    if |s| == 0 then Some(0)
    else
      var high, low := Hex(s[..|s| - 1]), HexVal(s[|s| - 1]);
      if high.None? || low.None? then None else Some(high.value * 16 + low.value)
  }

  predicate Character(cp: nat) {
    0 < cp <= 0x10FFFF && !(0xD800 <= cp <= 0xDFFF)
  }

  /** The UTF-8 form of a character (section 3 of RFC 3629). */
  function Utf8(cp: nat): (s: seq<Byte>)
    requires Character(cp)
    ensures 1 <= |s| <= 4
  {
    if cp < 0x80 then [cp]
    else if cp < 0x800 then [0xC0 + cp / 0x40, 0x80 + cp % 0x40]
    else if cp < 0x10000 then [0xE0 + cp / 0x1000, 0x80 + cp / 0x40 % 0x40, 0x80 + cp % 0x40]
    else [0xF0 + cp / 0x40000, 0x80 + cp / 0x1000 % 0x40, 0x80 + cp / 0x40 % 0x40, 0x80 + cp % 0x40]
  }

  /** What one escape after a backslash stands for, other than \u and \U. */
  function Simple(c: Byte): Option<Byte> {
    if c == 0x6E then Some(0x0A)
    else if c == 0x74 then Some(0x09)
    else if c == 0x72 then Some(0x0D)
    else if c == 0x62 then Some(0x08)
    else if c == 0x66 then Some(0x0C)
    else if c == QUOTE || c == BACKSLASH then Some(c)
    else None
  }

  predicate Control(c: Byte) {
    (c < 0x20 && c != 0x09) || c == 0x7F
  }

  /** What the body starts with: the bytes it stands for, and how much of the body that took. */
  function Unit(b: seq<Byte>): (u: Option<(seq<Byte>, nat)>)
    requires |b| > 0
    ensures u.Some? ==> 1 <= |u.value.0| <= u.value.1 <= |b|
  {
    if b[0] == BACKSLASH && |b| > 1 then
      if Simple(b[1]).Some? then Some(([Simple(b[1]).value], 2))
      else if b[1] == 0x75 || b[1] == 0x55 then
        var digits := if b[1] == 0x75 then 4 else 8;
        if |b| < 2 + digits then None
        else
          var cp := Hex(b[2..2 + digits]);
          if cp.None? || !Character(cp.value) then None else Some((Utf8(cp.value), 2 + digits))
      else None
    else if Control(b[0]) then None
    else Some(([b[0]], 1))
  }

  /** unescape. */
  function Unescape(b: seq<Byte>): Option<seq<Byte>>
    decreases |b|
  {
    if |b| == 0 then Some([])
    else
      var u := Unit(b);
      if u.None? then None
      else
        var rest := Unescape(b[u.value.1..]);
        if rest.None? then None else Some(u.value.0 + rest.value)
  }

  // ---- they agree on where a string ends ----

  /** A body as a writer makes it: no bare quote, no backslash alone at the end. */
  predicate Body(b: seq<Byte>)
    decreases |b|
  {
    |b| == 0 || if b[0] == BACKSLASH then |b| > 1 && Body(b[2..]) else b[0] != QUOTE && Body(b[1..])
  }

  lemma {:induction false} QuoteCloses(b: seq<Byte>, tail: seq<Byte>)
    requires Body(b)
    ensures CloseQuote(b + [QUOTE] + tail) == |b|
    decreases |b|
  {
    var s := b + [QUOTE] + tail;
    if |b| > 0 {
      var n := if b[0] == BACKSLASH then 2 else 1;
      assert s[n..] == b[n..] + [QUOTE] + tail;
      QuoteCloses(b[n..], tail);
    }
  }

  lemma {:induction false} StringPasses(b: seq<Byte>, tail: seq<Byte>)
    requires Body(b)
    ensures CommentAt(b + [QUOTE] + tail, true) == |b| + 1 + CommentAt(tail, false)
    decreases |b|
  {
    var s := b + [QUOTE] + tail;
    if |b| > 0 {
      var n := if b[0] == BACKSLASH then 2 else 1;
      assert s[n..] == b[n..] + [QUOTE] + tail;
      StringPasses(b[n..], tail);
    } else {
      assert s[1..] == tail;
    }
  }

  /** Text with neither a quote nor a comment sign in it. */
  predicate Plain(s: seq<Byte>) {
    QUOTE !in s && HASH !in s
  }

  lemma {:induction false} PlainPasses(s: seq<Byte>, tail: seq<Byte>)
    requires Plain(s)
    ensures CommentAt(s + tail, false) == |s| + CommentAt(tail, false)
    decreases |s|
  {
    if |s| > 0 {
      assert (s + tail)[1..] == s[1..] + tail;
      PlainPasses(s[1..], tail);
    } else {
      assert s + tail == tail;
    }
  }

  /** A piece of a line: plain text, or a quoted string with its body. */
  datatype Piece = Text(s: seq<Byte>) | Quoted(body: seq<Byte>)

  predicate Fine(p: Piece) {
    match p
    case Text(s) => Plain(s)
    case Quoted(body) => Body(body)
  }

  function Spell(p: Piece): seq<Byte> {
    match p
    case Text(s) => s
    case Quoted(body) => [QUOTE] + (body + [QUOTE])
  }

  function Line(ps: seq<Piece>): seq<Byte> {
    if |ps| == 0 then [] else Spell(ps[0]) + Line(ps[1..])
  }

  lemma PiecePasses(p: Piece, tail: seq<Byte>)
    requires Fine(p)
    ensures CommentAt(Spell(p) + tail, false) == |Spell(p)| + CommentAt(tail, false)
  {
    hide CommentAt, Body, Plain;
    match p
    case Text(s) => PlainPasses(s, tail);
    case Quoted(body) =>
      StringPasses(body, tail);
      OpenQuote(body + [QUOTE] + tail);
      assert Spell(p) + tail == [QUOTE] + (body + [QUOTE] + tail);
  }

  lemma {:induction false} PiecesPass(ps: seq<Piece>, tail: seq<Byte>)
    requires forall k :: 0 <= k < |ps| ==> Fine(ps[k])
    ensures CommentAt(Line(ps) + tail, false) == |Line(ps)| + CommentAt(tail, false)
    decreases |ps|
  {
    hide CommentAt, Fine, Spell;
    if |ps| == 0 {
      assert Line(ps) + tail == tail;
    } else {
      assert Line(ps) + tail == Spell(ps[0]) + (Line(ps[1..]) + tail);
      PiecePasses(ps[0], Line(ps[1..]) + tail);
      PiecesPass(ps[1..], tail);
    }
  }

  /** Nothing, or a comment. */
  predicate Comment(s: seq<Byte>) {
    |s| == 0 || s[0] == HASH
  }

  /** After any plain text and quoted strings, as a key may have, a quoted body, blank text and perhaps
      a comment: the comment is cut exactly where it starts whatever the strings hold, and the closing
      quote is the one after the body. */
  lemma ScannersAgree(ps: seq<Piece>, b: seq<Byte>, blank: seq<Byte>, comment: seq<Byte>)
    requires (forall k :: 0 <= k < |ps| ==> Fine(ps[k])) && Body(b) && Plain(blank) && Comment(comment)
    ensures var pre := Line(ps); var line := pre + ([QUOTE] + (b + [QUOTE] + (blank + comment)));
            var kept := line[..CommentAt(line, false)];
            && kept == pre + ([QUOTE] + (b + [QUOTE] + blank))
            && CloseQuote(kept[|pre| + 1..]) == |b|
            && kept[|pre| + 1..][..|b|] == b && kept[|pre| + 1 + |b| + 1..] == blank
  {
    hide CommentAt, CloseQuote, Body, Plain, Fine, Line;
    var pre, tail := Line(ps), blank + comment;
    var line := pre + ([QUOTE] + (b + [QUOTE] + tail));
    PlainPasses(blank, comment);
    StringPasses(b, tail);
    OpenQuote(b + [QUOTE] + tail);
    PiecesPass(ps, [QUOTE] + (b + [QUOTE] + tail));
    CommentEnds(comment);
    Cut(pre, b, blank, comment);
    QuoteCloses(b, blank);
  }

  lemma OpenQuote(s: seq<Byte>)
    ensures CommentAt([QUOTE] + s, false) == 1 + CommentAt(s, true)
  {
    assert ([QUOTE] + s)[1..] == s;
  }

  lemma CommentEnds(s: seq<Byte>)
    requires Comment(s)
    ensures CommentAt(s, false) == 0
  {
  }

  lemma Cut(pre: seq<Byte>, b: seq<Byte>, blank: seq<Byte>, comment: seq<Byte>)
    ensures var line := pre + ([QUOTE] + (b + [QUOTE] + (blank + comment)));
            var kept := pre + ([QUOTE] + (b + [QUOTE] + blank));
            && line[..|pre| + (1 + (|b| + 1 + |blank|))] == kept
            && kept[|pre| + 1..] == b + [QUOTE] + blank
            && kept[|pre| + 1..][..|b|] == b && kept[|pre| + 1 + |b| + 1..] == blank
  {
  }

  // ---- a string written is read back ----

  function HexDigit(n: nat): Byte
    requires n < 16
  {
    if n < 10 then 0x30 + n else 0x41 + n - 10
  }

  /** A byte as a writer escapes it (section "String" of TOML v1.0.0). */
  function EscapeOne(c: Byte): seq<Byte> {
    if c == QUOTE || c == BACKSLASH then [BACKSLASH, c]
    else if c == 0x08 then [BACKSLASH, 0x62]
    else if c == 0x09 then [BACKSLASH, 0x74]
    else if c == 0x0A then [BACKSLASH, 0x6E]
    else if c == 0x0C then [BACKSLASH, 0x66]
    else if c == 0x0D then [BACKSLASH, 0x72]
    else if Control(c) then [BACKSLASH, 0x75, 0x30, 0x30, HexDigit(c / 16), HexDigit(c % 16)]
    else [c]
  }

  function Escape(s: seq<Byte>): seq<Byte> {
    if |s| == 0 then [] else EscapeOne(s[0]) + Escape(s[1..])
  }

  lemma HexOfDigit(n: nat)
    requires n < 16
    ensures HexVal(HexDigit(n)) == Some(n)
  {
  }

  lemma HexOfByte(c: Byte)
    ensures Hex([0x30, 0x30, HexDigit(c / 16), HexDigit(c % 16)]) == Some(c)
  {
    var a: seq<Byte>, b: seq<Byte>, d: seq<Byte> := [0x30], [0x30, 0x30], [0x30, 0x30, HexDigit(c / 16)];
    var s: seq<Byte> := [0x30, 0x30, HexDigit(c / 16), HexDigit(c % 16)];
    HexOfDigit(c / 16);
    HexOfDigit(c % 16);
    assert a[..0] == [] && b[..1] == a && d[..2] == b && s[..3] == d;
    assert Hex(a) == Some(0) && Hex(b) == Some(0) && Hex(d) == Some(c / 16);
  }

  lemma UnitOfEscaped(c: Byte, rest: seq<Byte>)
    requires c != 0
    ensures Unit(EscapeOne(c) + rest) == Some(([c], |EscapeOne(c)|))
  {
    var e := EscapeOne(c);
    if Control(c) && |e| == 6 {
      assert (e + rest)[2..6] == [0x30, 0x30, HexDigit(c / 16), HexDigit(c % 16)];
      HexOfByte(c);
    }
  }

  /** Any text without NUL, escaped and read back, is unchanged. */
  lemma {:induction false} UnescapeEscape(s: seq<Byte>)
    requires 0 !in s
    ensures Unescape(Escape(s)) == Some(s)
    decreases |s|
  {
    if |s| > 0 {
      var e, rest := EscapeOne(s[0]), Escape(s[1..]);
      UnitOfEscaped(s[0], rest);
      assert (e + rest)[|e|..] == rest;
      UnescapeEscape(s[1..]);
      assert [s[0]] + s[1..] == s;
    }
  }

  lemma {:induction false} EscapeIsBody(s: seq<Byte>)
    ensures Body(Escape(s))
    decreases |s|
  {
    if |s| > 0 {
      EscapeIsBody(s[1..]);
      BodyAfter(s[0], Escape(s[1..]));
    }
  }

  lemma BodyAfter(c: Byte, rest: seq<Byte>)
    requires Body(rest)
    ensures Body(EscapeOne(c) + rest)
  {
    var e := EscapeOne(c);
    var b := e + rest;
    if |e| == 6 {
      var h := b[2..];
      assert h[1..][1..][1..][1..] == rest;
      assert Body(h[1..][1..][1..]) && Body(h[1..][1..]) && Body(h[1..]);
    } else if |e| == 2 {
      assert b[2..] == rest;
    } else {
      assert b[1..] == rest;
    }
  }

  /** A basic string written with its escapes, whatever it holds, reads back unchanged from a line
      with any strings before it and any comment after it. */
  lemma StringReadsBack(ps: seq<Piece>, text: seq<Byte>, blank: seq<Byte>, comment: seq<Byte>)
    requires (forall k :: 0 <= k < |ps| ==> Fine(ps[k])) && 0 !in text && Plain(blank) && Comment(comment)
    ensures var pre := Line(ps); var line := pre + ([QUOTE] + (Escape(text) + [QUOTE] + (blank + comment)));
            var kept := line[..CommentAt(line, false)];
            && |kept| > |pre| && kept[|pre|] == QUOTE
            && var body := kept[|pre| + 1..]; var n := CloseQuote(body);
               n < |body| && Unescape(body[..n]) == Some(text) && body[n + 1..] == blank
  {
    hide CommentAt, CloseQuote, Body, Plain, Fine, Line, Escape, Unescape;
    var pre := Line(ps);
    EscapeIsBody(text);
    UnescapeEscape(text);
    ScannersAgree(ps, Escape(text), blank, comment);
    var line := pre + ([QUOTE] + (Escape(text) + [QUOTE] + (blank + comment)));
    var kept := line[..CommentAt(line, false)];
    var body := kept[|pre| + 1..];
    assert body == Escape(text) + [QUOTE] + blank;
  }

  // ---- what comes out ----

  /** The text read is free of NULs and never longer than the body. */
  lemma {:induction false} OutputBounded(b: seq<Byte>)
    requires 0 !in b
    ensures Unescape(b).Some? ==> 0 !in Unescape(b).value && |Unescape(b).value| <= |b|
    decreases |b|
  {
    if |b| > 0 && Unit(b).Some? {
      UnitClean(b);
      OutputBounded(b[Unit(b).value.1..]);
    }
  }

  lemma UnitClean(b: seq<Byte>)
    requires |b| > 0 && 0 !in b && Unit(b).Some?
    ensures 0 !in Unit(b).value.0
  {
  }

  /** Reading UTF-8: the character a sequence stands for. */
  function Decode8(s: seq<Byte>): Option<nat> {
    if |s| == 1 && s[0] < 0x80 then Some(s[0])
    else if |s| == 2 && 0xC0 <= s[0] < 0xE0 && Tail(s[1]) then Some(Over(s[0], 0xC0) * 0x40 + Over(s[1], 0x80))
    else if |s| == 3 && 0xE0 <= s[0] < 0xF0 && Tail(s[1]) && Tail(s[2]) then
      Some((Over(s[0], 0xE0) * 0x40 + Over(s[1], 0x80)) * 0x40 + Over(s[2], 0x80))
    else if |s| == 4 && 0xF0 <= s[0] < 0xF8 && Tail(s[1]) && Tail(s[2]) && Tail(s[3]) then
      Some(((Over(s[0], 0xF0) * 0x40 + Over(s[1], 0x80)) * 0x40 + Over(s[2], 0x80)) * 0x40 + Over(s[3], 0x80))
    else None
  }

  function Over(c: Byte, base: nat): nat
    requires base <= c
  {
    c - base
  }

  predicate Tail(c: Byte) {
    0x80 <= c < 0xC0
  }

  /** The least character that takes so many bytes. */
  function Least(n: nat): nat {
    if n == 1 then 0 else if n == 2 then 0x80 else if n == 3 then 0x800 else 0x10000
  }

  lemma Nested(cp: nat)
    ensures cp == cp / 0x40 * 0x40 + cp % 0x40
    ensures cp / 0x40 == cp / 0x1000 * 0x40 + cp / 0x40 % 0x40
    ensures cp / 0x1000 == cp / 0x40000 * 0x40 + cp / 0x1000 % 0x40
  {
    var q := cp / 0x40;
    assert q / 0x40 == cp / 0x1000;
    var r := cp / 0x1000;
    assert r / 0x40 == cp / 0x40000;
  }

  /** An escape's bytes are the character's UTF-8 form: they decode to it, in the fewest bytes. */
  lemma Utf8Decodes(cp: nat)
    requires Character(cp)
    ensures Decode8(Utf8(cp)) == Some(cp) && cp >= Least(|Utf8(cp)|)
  {
    Nested(cp);
  }
}
