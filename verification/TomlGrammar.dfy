/** The strict TOML reader against a grammar of its own: which bodies are strings and what they say,
    which quote closes a body, and which sign starts a comment. */
module TomlGrammar {
  import opened Sequences
  import opened LittleEndian
  import opened Toml
  import opened TomlReader

  // ---- what a body says ----

  /** A piece of a body: a byte that stands for itself, a backslash and a letter, or a backslash, a u
      and hex digits that spell a character. */
  datatype Token = Itself(c: Byte) | Letter(c: Byte) | Coded(digits: seq<Byte>, cp: nat)

  const UPPER: string := "0123456789ABCDEF"
  const LOWER: string := "0123456789abcdef"

  predicate Digit(c: Byte, v: nat) {
    v < 16 && (c == UPPER[v] as int || c == LOWER[v] as int)
  }

  /** The hex digits, in either case, are those of `n`. */
  predicate Spells(digits: seq<Byte>, n: nat)
    decreases |digits|
  {
    if |digits| == 0 then n == 0 else Digit(digits[|digits| - 1], n % 16) && Spells(digits[..|digits| - 1], n / 16)
  }

  predicate WellFormed(t: Token) {
    match t
    case Itself(c) => c == '\t' as int || (0x20 <= c && c != 0x7F)
    case Letter(c) => c in {'n' as int, 't' as int, 'r' as int, 'b' as int, 'f' as int, '\"' as int, '\\' as int}
    case Coded(digits, cp) => (|digits| == 4 || |digits| == 8) && Spells(digits, cp) && (1 <= cp < 0xD800 || 0xE000 <= cp < 0x110000)
  }

  function Written(t: Token): seq<Byte> {
    match t
    case Itself(c) => [c]
    case Letter(c) => ['\\' as int, c]
    case Coded(digits, cp) => ['\\' as int, if |digits| == 4 then 'u' as int else 'U' as int] + digits
  }

  function Says(t: Token): seq<Byte>
    requires WellFormed(t)
  {
    match t
    case Itself(c) => [c]
    case Letter(c) =>
      if c == 'n' as int then [10] else if c == 't' as int then [9] else if c == 'r' as int then [13]
      else if c == 'b' as int then [8] else if c == 'f' as int then [12] else [c]
    case Coded(digits, cp) => Utf8(cp)
  }

  function AllWritten(ts: seq<Token>): seq<Byte> {
    if |ts| == 0 then [] else Written(ts[0]) + AllWritten(ts[1..])
  }

  function AllSay(ts: seq<Token>): seq<Byte>
    requires forall i :: 0 <= i < |ts| ==> WellFormed(ts[i])
  {
    if |ts| == 0 then [] else Says(ts[0]) + AllSay(ts[1..])
  }

  /** The body is these pieces one after another; a backslash stands for itself only at the end. */
  ghost predicate Parsed(b: seq<Byte>, ts: seq<Token>) {
    && AllWritten(ts) == b
    && forall i :: 0 <= i < |ts| ==> WellFormed(ts[i]) && (ts[i] == Itself('\\' as int) ==> i == |ts| - 1)
  }

  /** A body is read exactly if it is made of such pieces, and it says what they say. */
  lemma UnescapeExact(b: seq<Byte>)
    ensures Unescape(b).Some? <==> exists ts :: Parsed(b, ts)
    ensures forall ts :: Parsed(b, ts) ==> Unescape(b) == Some(AllSay(ts))
  {
    hide Unescape, AllSay, AllWritten, WellFormed;
    forall ts | Parsed(b, ts) ensures Unescape(b) == Some(AllSay(ts)) { ParsedReads(b, ts); }
    if Unescape(b).Some? { var ts := ReadParses(b); }
  }

  lemma {:induction false} ParsedReads(b: seq<Byte>, ts: seq<Token>)
    requires Parsed(b, ts)
    ensures Unescape(b) == Some(AllSay(ts))
    decreases |ts|
  {
    hide WellFormed, Written, Says, Unit;
    if |ts| > 0 {
      var rest := AllWritten(ts[1..]);
      UnitOfToken(ts[0], rest);
      ParsedReads(rest, ts[1..]);
      assert b[|Written(ts[0])|..] == rest;
    }
  }

  lemma UnitOfToken(t: Token, rest: seq<Byte>)
    requires WellFormed(t) && (t == Itself('\\' as int) ==> rest == [])
    ensures |Written(t)| > 0 && Unit(Written(t) + rest) == Some((Says(t), |Written(t)|))
  {
    match t
    case Itself(c) =>
    case Letter(c) =>
    case Coded(digits, cp) =>
      HexOfSpelled(digits, cp);
      CodedUnit(digits, cp, rest);
  }

  lemma CodedUnit(digits: seq<Byte>, cp: nat, rest: seq<Byte>)
    requires (|digits| == 4 || |digits| == 8) && Hex(digits) == Some(cp) && Character(cp)
    ensures Unit(Written(Coded(digits, cp)) + rest) == Some((Utf8(cp), |digits| + 2))
  {
    hide Hex, Utf8;
    var b := Written(Coded(digits, cp)) + rest;
    assert b[2..2 + |digits|] == digits;
  }

  lemma HexOfDigits(c: Byte, v: nat)
    requires v < 16
    ensures Digit(c, v) <==> HexVal(c) == Some(v)
  {
    if v < 8 {
      if v < 4 { assert v == 0 || v == 1 || v == 2 || v == 3; } else { assert v == 4 || v == 5 || v == 6 || v == 7; }
    } else {
      if v < 12 { assert v == 8 || v == 9 || v == 10 || v == 11; } else { assert v == 12 || v == 13 || v == 14 || v == 15; }
    }
  }

  lemma {:induction false} HexOfSpelled(digits: seq<Byte>, n: nat)
    ensures Spells(digits, n) <==> Hex(digits) == Some(n)
    decreases |digits|
  {
    hide HexVal, Digit;
    if |digits| > 0 {
      var k := |digits| - 1;
      HexOfDigits(digits[k], n % 16);
      HexOfSpelled(digits[..k], n / 16);
      if Hex(digits) == Some(n) {
        HexValSmall(digits[k]);
        Halves(Hex(digits[..k]).value, HexVal(digits[k]).value);
      }
    }
  }

  lemma HexValSmall(c: Byte)
    ensures HexVal(c).Some? ==> HexVal(c).value < 16
  {
  }

  lemma Halves(high: nat, low: nat)
    requires low < 16
    ensures (high * 16 + low) / 16 == high && (high * 16 + low) % 16 == low
  {
  }

  /** The piece a readable body starts with. */
  function First(b: seq<Byte>): Token
    requires |b| > 0
  {
    if b[0] == BACKSLASH && |b| > 1 then
      var digits := if b[1] == 'u' as int then 4 else 8;
      if (b[1] == 'u' as int || b[1] == 'U' as int) && |b| >= 2 + digits && Hex(b[2..2 + digits]).Some? then
        Coded(b[2..2 + digits], Hex(b[2..2 + digits]).value)
      else Letter(b[1])
    else Itself(b[0])
  }

  lemma UnitParses(b: seq<Byte>)
    requires |b| > 0 && Unit(b).Some?
    ensures var t := First(b); var n := Unit(b).value.1;
            WellFormed(t) && b == Written(t) + b[n..] && n == |Written(t)| && (t == Itself('\\' as int) ==> b[n..] == [])
  {
    hide Hex, Utf8;
    var t := First(b);
    if t.Coded? { HexOfSpelled(t.digits, t.cp); }
  }

  lemma {:induction false} ReadParses(b: seq<Byte>) returns (ts: seq<Token>)
    requires Unescape(b).Some?
    ensures Parsed(b, ts)
    decreases |b|
  {
    hide Unit, First, WellFormed, Written;
    if |b| == 0 {
      ts := [];
    } else {
      UnitParses(b);
      var n := Unit(b).value.1;
      var rest := ReadParses(b[n..]);
      ts := [First(b)] + rest;
      assert ts[1..] == rest;
      LastOnly(First(b), rest, b[n..]);
    }
  }

  lemma LastOnly(t: Token, rest: seq<Token>, b: seq<Byte>)
    requires Parsed(b, rest) && WellFormed(t) && (t == Itself('\\' as int) ==> b == [])
    ensures forall i :: 0 <= i < |[t] + rest| ==>
              WellFormed(([t] + rest)[i]) && (([t] + rest)[i] == Itself('\\' as int) ==> i == |[t] + rest| - 1)
  {
    hide WellFormed;
    var ts := [t] + rest;
    forall i | 0 <= i < |ts| ensures WellFormed(ts[i]) && (ts[i] == Itself('\\' as int) ==> i == |ts| - 1) {
      if i > 0 { assert ts[i] == rest[i - 1]; }
    }
  }

  // ---- dotted keys ----

  /** However its dots are split between table and key, a dotted key is one key. */
  lemma SameDottedKey(table: seq<Byte>, middle: seq<Byte>, key: seq<Byte>)
    requires |table| > 0
    ensures Dotted(table, middle + ['.' as int] + key) == Dotted(table + ['.' as int] + middle, key) == table + ['.' as int] + middle + ['.' as int] + key
    ensures Dotted([], table + ['.' as int] + key) == Dotted(table, key)
  {
  }

  // ---- the quote that closes a body, and the sign that starts a comment ----

  /** A quote closes a body exactly if no quote before it does: if what stands before it is a body. */
  lemma {:induction false} CloseQuoteExact(s: seq<Byte>, n: nat)
    ensures CloseQuote(s) == n < |s| <==> n < |s| && s[n] == '\"' as int && Body(s[..n])
    decreases |s|
  {
    if n < |s| && s[n] == QUOTE && Body(s[..n]) {
      assert s == s[..n] + [QUOTE] + s[n + 1..];
      QuoteCloses(s[..n], s[n + 1..]);
    }
    if CloseQuote(s) == n < |s| { ClosedBody(s); }
  }

  lemma {:induction false} ClosedBody(s: seq<Byte>)
    requires CloseQuote(s) < |s|
    ensures s[CloseQuote(s)] == QUOTE && Body(s[..CloseQuote(s)])
    decreases |s|
  {
    var n := CloseQuote(s);
    if s[0] != QUOTE {
      var k := if s[0] == BACKSLASH then 2 else 1;
      ClosedBody(s[k..]);
      assert s[..n][k..] == s[k..][..n - k];
    }
  }

  lemma {:induction false} InString(s: seq<Byte>)
    ensures var n := CloseQuote(s);
            CommentAt(s, true) == if n < |s| then n + 1 + CommentAt(s[n + 1..], false) else |s|
    decreases |s|
  {
    var n := CloseQuote(s);
    if |s| > 0 && s[0] != QUOTE {
      var k := if s[0] == BACKSLASH && |s| > 1 then 2 else 1;
      InString(s[k..]);
      if n < |s| { assert s[n + 1..] == s[k..][n - k + 1..]; }
    }
  }

  /** The line up to `n` is plain text and whole quoted strings. */
  ghost predicate Settled(s: seq<Byte>, n: nat) {
    n <= |s| && exists ps: seq<Piece> :: (forall k :: 0 <= k < |ps| ==> Fine(ps[k])) && Line(ps) == s[..n]
  }

  /** A line is cut exactly at the first comment sign that stands outside its strings: where what
      stands before is plain text and whole strings. */
  lemma CommentExact(s: seq<Byte>, n: nat)
    ensures CommentAt(s, false) == n < |s| <==> n < |s| && s[n] == '#' as int && Settled(s, n)
  {
    hide CommentAt, Fine, Line;
    if n < |s| && s[n] == HASH && Settled(s, n) {
      var ps: seq<Piece> :| (forall k :: 0 <= k < |ps| ==> Fine(ps[k])) && Line(ps) == s[..n];
      assert s == Line(ps) + s[n..];
      PiecesPass(ps, s[n..]);
      CommentEnds(s[n..]);
    }
    if CommentAt(s, false) == n < |s| { var ps := CommentPieces(s); }
  }

  lemma {:induction false} CommentPieces(s: seq<Byte>) returns (ps: seq<Piece>)
    requires CommentAt(s, false) < |s|
    ensures s[CommentAt(s, false)] == HASH
    ensures (forall k :: 0 <= k < |ps| ==> Fine(ps[k])) && Line(ps) == s[..CommentAt(s, false)]
    decreases |s|
  {
    hide Fine, Spell, CommentAt;
    var n := CommentAt(s, false);
    if s[0] == HASH {
      CommentEnds(s);
      ps := [];
    } else {
      var p := FirstPiece(s);
      var k := |Spell(p)|;
      var rest := CommentPieces(s[k..]);
      ps := [p] + rest;
      assert ps[1..] == rest;
      assert s[..n] == s[..k] + s[k..][..n - k];
    }
  }

  lemma FirstPiece(s: seq<Byte>) returns (p: Piece)
    requires CommentAt(s, false) < |s| && s[0] != HASH
    ensures Fine(p) && 0 < |Spell(p)| <= |s| && s[..|Spell(p)|] == Spell(p)
    ensures CommentAt(s, false) == |Spell(p)| + CommentAt(s[|Spell(p)|..], false)
  {
    hide Body, CloseQuote;
    if s[0] == QUOTE {
      var body := s[1..];
      InString(body);
      ClosedBody(body);
      p := Quoted(body[..CloseQuote(body)]);
      Spelt(s, CloseQuote(body));
    } else {
      p := Text([s[0]]);
    }
  }

  lemma Spelt(s: seq<Byte>, n: nat)
    requires n + 1 < |s| && s[0] == QUOTE && s[n + 1] == QUOTE
    ensures s[..n + 2] == Spell(Quoted(s[1..][..n])) && s[1..][n + 1..] == s[n + 2..]
  {
  }
}
