/** The reader's loops over a line, and the table of entries they fill. */
module TomlReader {
  import opened Sequences
  import opened LittleEndian
  import opened Toml

  /** strip_comment's walk: the length of the line without its comment. */
  method StripComment(s: seq<Byte>) returns (n: nat)
    ensures n == CommentAt(s, false)
  {
    var inStr := false;
    n := 0;
    while n < |s|
      invariant n <= |s| && CommentAt(s, false) == n + CommentAt(s[n..], inStr)
    {
      assert s[n..][1..] == s[n + 1..];
      if inStr && s[n] == BACKSLASH && n + 1 < |s| {
        assert s[n..][2..] == s[n + 2..];
        n := n + 2;
      } else {
        if s[n] == QUOTE {
          inStr := !inStr;
        } else if s[n] == HASH && !inStr {
          return;
        }
        n := n + 1;
      }
    }
  }

  /** close_quote's walk. */
  method FindClose(s: seq<Byte>) returns (n: nat)
    ensures n == CloseQuote(s)
  {
    n := 0;
    while n < |s| && s[n] != QUOTE
      invariant n <= |s| && CloseQuote(s) == n + CloseQuote(s[n..])
    {
      assert s[n..][1..] == s[n + 1..];
      if s[n] == BACKSLASH && n + 1 < |s| {
        assert s[n..][2..] == s[n + 2..];
        n := n + 1;
      }
      n := n + 1;
    }
  }

  /** What is written so far, before the rest. */
  function Onto(out: seq<Byte>, rest: Option<seq<Byte>>): Option<seq<Byte>> {
    if rest.None? then None else Some(out + rest.value)
  }

  lemma OntoUnit(b: seq<Byte>, out: seq<Byte>)
    requires |b| > 0
    ensures var u := Unit(b);
            Onto(out, Unescape(b)) == if u.None? then None else Onto(out + u.value.0, Unescape(b[u.value.1..]))
  {
    hide Unit;
    var u := Unit(b);
    if u.Some? {
      var rest := Unescape(b[u.value.1..]);
      if rest.Some? { Assoc(out, u.value.0, rest.value); }
    }
  }

  method CopyAt(o: array<Byte>, at: nat, s: seq<Byte>)
    requires at + |s| <= o.Length
    modifies o
    ensures o[..at + |s|] == old(o[..at]) + s
  {
    for i := 0 to |s|
      invariant o[..at + i] == old(o[..at]) + s[..i]
    {
      o[at + i] := s[i];
      assert s[..i + 1] == s[..i] + [s[i]];
    }
    assert s[..|s|] == s;
  }

  /** unescape's walk: a read cursor over the body and a write cursor into a buffer no larger than
      the body, which the write cursor never outruns. */
  method UnescapeInto(b: seq<Byte>) returns (r: Option<seq<Byte>>)
    ensures r == Unescape(b)
  {
    hide Unit, Unescape, Onto;
    var o := new Byte[|b|](_ => 0);
    var p: nat, w: nat := 0, 0;
    assert b[0..] == b;
    OntoNothing(Unescape(b));
    while p < |b|
      invariant w <= p <= |b| == o.Length && Unescape(b) == Onto(o[..w], Unescape(b[p..]))
    {
      OntoUnit(b[p..], o[..w]);
      var u := Unit(b[p..]);
      if u.None? { return None; }
      assert b[p..][u.value.1..] == b[p + u.value.1..];
      CopyAt(o, w, u.value.0);
      w := w + |u.value.0|;
      p := p + u.value.1;
    }
    assert b[p..] == [];
    NothingLeft(o[..w]);
    return Some(o[..w]);
  }

  lemma OntoNothing(rest: Option<seq<Byte>>)
    ensures forall out :: |out| == 0 ==> Onto(out, rest) == rest
  {
    forall out: seq<Byte> | |out| == 0 ensures Onto(out, rest) == rest {
      if rest.Some? { assert out + rest.value == rest.value; }
    }
  }

  lemma NothingLeft(out: seq<Byte>)
    ensures Onto(out, Unescape([])) == Some(out)
  {
    assert out + [] == out;
  }

  // ---- the entries ----

  datatype Entry = Entry(section: seq<Byte>, key: seq<Byte>, line: nat)

  const DOT: Byte := 0x2E

  /** The key as the loader looks it up. */
  function Dotted(section: seq<Byte>, key: seq<Byte>): seq<Byte> {
    if |section| == 0 then key else section + [DOT] + key
  }

  /** Every accepted file: its entries. */
  class File {
    var entries: seq<Entry>

    /** No two entries have the same dotted key, however its dots are split between table and key. */
    ghost predicate Valid()
      reads this
    {
      forall i, j :: 0 <= i < j < |entries| ==>
        Dotted(entries[i].section, entries[i].key) != Dotted(entries[j].section, entries[j].key)
    }

    constructor ()
      ensures Valid() && entries == []
    {
      entries := [];
    }

    /** find_dotted: compares the pieces in place, without joining them. */
    method FindDotted(dotted: seq<Byte>) returns (k: nat)
      ensures k <= |entries| && (k < |entries| ==> Dotted(entries[k].section, entries[k].key) == dotted)
      ensures forall i :: 0 <= i < k ==> Dotted(entries[i].section, entries[i].key) != dotted
    {
      k := 0;
      while k < |entries|
        invariant k <= |entries|
        invariant forall i :: 0 <= i < k ==> Dotted(entries[i].section, entries[i].key) != dotted
      {
        var e := entries[k];
        var sl, kl := |e.section|, |e.key|;
        Joined(e.section, e.key, dotted);
        if sl == 0 {
          if e.key == dotted { return; }
        } else if sl + 1 + kl == |dotted| && dotted[..sl] == e.section && dotted[sl] == DOT && dotted[sl + 1..] == e.key {
          return;
        }
        k := k + 1;
      }
    }

    /** An entry is taken exactly if its dotted key is new. */
    method Add(section: seq<Byte>, key: seq<Byte>, line: nat) returns (taken: bool, first: nat)
      requires Valid()
      modifies this
      ensures Valid() && (taken <==> forall i :: 0 <= i < |old(entries)| ==> Dotted(old(entries)[i].section, old(entries)[i].key) != Dotted(section, key))
      ensures entries == if taken then old(entries) + [Entry(section, key, line)] else old(entries)
      ensures !taken ==> exists i :: 0 <= i < |entries| && entries[i].line == first && Dotted(entries[i].section, entries[i].key) == Dotted(section, key)
    {
      var k := FindDotted(Dotted(section, key));
      taken, first := k == |entries|, 0;
      if taken { entries := entries + [Entry(section, key, line)]; } else { first := entries[k].line; }
    }
  }

  lemma Joined(section: seq<Byte>, key: seq<Byte>, dotted: seq<Byte>)
    ensures section + [DOT] + key == dotted <==>
              |section| + 1 + |key| == |dotted| && dotted[..|section|] == section && dotted[|section|] == DOT && dotted[|section| + 1..] == key
  {
    var n := |section|;
    if n + 1 + |key| == |dotted| && dotted[..n] == section && dotted[n] == DOT && dotted[n + 1..] == key {
      assert dotted == dotted[..n] + [dotted[n]] + dotted[n + 1..];
    }
  }
}
