/** The rewriting of \u2028 and \u2029 escapes to literal UTF-8 keeps the text. */
module SealRewriter {
  import opened JsonEscapes

  // ---------- what a byte sequence says ----------

  /** A byte of the text as it stands, or an ASCII character that was written as an escape. */
  datatype Sym = Raw(b: byte) | Quoted(b: byte)

  function Utf8(c: nat): seq<byte>
    requires c <= 0x10FFFF
  {
    if c < 0x80 then [c]
    else if c < 0x800 then [0xC0 + c / 64, 0x80 + c % 64]
    else if c < 0x10000 then [0xE0 + c / 4096, 0x80 + c / 64 % 64, 0x80 + c % 64]
    else [0xF0 + c / 262144, 0x80 + c / 4096 % 64, 0x80 + c / 64 % 64, 0x80 + c % 64]
  }

  function Raws(bs: seq<byte>): seq<Sym> {
    seq(|bs|, i requires 0 <= i < |bs| => Raw(bs[i]))
  }

  /** The character a two-byte escape stands for. */
  function Short(c: byte): byte {
    if c == 0x62 then 0x08 else if c == 0x66 then 0x0C else if c == 0x6E then 0x0A
    else if c == 0x72 then 0x0D else if c == 0x74 then 0x09 else c
  }

  /** The text of a token sequence; a surrogate without its other half reads as U+FFFD. */
  function TextOf(ts: seq<Token>): seq<Sym> {
    if ts == [] then []
    else match ts[0]
      case Plain(b) => [Raw(b)] + TextOf(ts[1..])
      case Pair(c) => [Quoted(Short(c))] + TextOf(ts[1..])
      case Lone => [Raw(BACKSLASH)] + TextOf(ts[1..])
      case Broken => [Raw(BACKSLASH), Raw(LETTER_U)] + TextOf(ts[1..])
      case Unicode(code) =>
        if IsHigh(ts[0]) && |ts| > 1 && IsLow(ts[1])
        then Raws(Utf8(0x10000 + (code - 0xD800) * 1024 + (ts[1].code - 0xDC00))) + TextOf(ts[2..])
        else UnitText(code) + TextOf(ts[1..])
  }

  /** A code unit that stands alone: escaped ASCII stays marked, anything else is its UTF-8. */
  function UnitText(code: nat): seq<Sym> {
    if code < 0x80 then [Quoted(code)]
    else if 0xD800 <= code <= 0xDFFF || code > 0xFFFF then Raws(Utf8(0xFFFD))
    else Raws(Utf8(code))
  }

  // ---------- the rewriting ----------

  /** s begins with the six bytes of a \u2028 or \u2029 escape. */
  predicate StartsSeparator(s: seq<byte>) {
    |s| >= 6 && s[0] == BACKSLASH && s[1] == LETTER_U && s[2] == 0x32 && s[3] == 0x30 && s[4] == 0x32
    && (s[5] == 0x38 || s[5] == 0x39)
  }

  function SeparatorCode(last: byte): nat {
    if last == 0x38 then 0x2028 else 0x2029
  }

  /** The separator as the three bytes of its UTF-8 form. */
  function SeparatorBytes(last: byte): (bs: seq<byte>)
    ensures bs == Utf8(SeparatorCode(last))
  {
    [0xE2, 0x80, if last == 0x38 then 0xA8 else 0xA9]
  }

  function Rewrite(s: seq<byte>): seq<byte> {
    if s == [] then []
    else if StartsSeparator(s) then SeparatorBytes(s[5]) + Rewrite(s[6..])
    else if s[0] == BACKSLASH && |s| > 1 then [s[0], s[1]] + Rewrite(s[2..])
    else [s[0]] + Rewrite(s[1..])
  }

  /** The loop of computedDigest, which moves its index by hand and appends to a buffer. */
  method WriteSeparators(raw: seq<byte>) returns (written: seq<byte>)
    ensures written == Rewrite(raw)
  {
    written := [];
    var i := 0;
    while i < |raw|
      invariant 0 <= i <= |raw|
      invariant written + Rewrite(raw[i..]) == Rewrite(raw)
    {
      ghost var before, start := written, i;
      ghost var pair := raw[i] == BACKSLASH && i + 1 < |raw|;
      OnePiece(raw, before, start);
      if raw[i] == BACKSLASH && i + 1 < |raw| {
        if StartsSeparator(raw[i..]) {
          written := written + SeparatorBytes(raw[i + 5]);
          i := i + 6;
          continue;
        }
        written := written + [raw[i]];
        i := i + 1;
      }
      written := written + [raw[i]];
      i := i + 1;
      if pair { assert written == before + [raw[start], raw[start + 1]]; }
    }
    assert raw[i..] == [] && written + [] == written;
  }

  /** What one round of the loop appends, and where it moves the index. */
  lemma OnePiece(raw: seq<byte>, before: seq<byte>, i: nat)
    requires i < |raw|
    ensures var rest := raw[i..];
            var all := before + Rewrite(rest);
            if StartsSeparator(rest) then all == before + SeparatorBytes(raw[i + 5]) + Rewrite(raw[i + 6..])
            else if raw[i] == BACKSLASH && i + 1 < |raw| then all == before + [raw[i], raw[i + 1]] + Rewrite(raw[i + 2..])
            else all == before + [raw[i]] + Rewrite(raw[i + 1..])
  {
    var rest := raw[i..];
    if StartsSeparator(rest) { Consume(raw, before, i, SeparatorBytes(rest[5]), 6); }
    else if raw[i] == BACKSLASH && i + 1 < |raw| { Consume(raw, before, i, [rest[0], rest[1]], 2); }
    else { Consume(raw, before, i, [rest[0]], 1); }
  }

  /** Appending one piece and moving past what it came from keeps the loop's invariant. */
  lemma Consume(raw: seq<byte>, before: seq<byte>, i: nat, piece: seq<byte>, n: nat)
    requires i + n <= |raw| && Rewrite(raw[i..]) == piece + Rewrite(raw[i..][n..])
    ensures before + Rewrite(raw[i..]) == (before + piece) + Rewrite(raw[i + n..])
  {
    assert raw[i..][n..] == raw[i + n..];
  }

  // ---------- what the rewriting does to the tokens ----------

  predicate IsSeparator(t: Token) {
    t == Unicode(0x2028) || t == Unicode(0x2029)
  }

  function Plains(bs: seq<byte>): seq<Token> {
    seq(|bs|, i requires 0 <= i < |bs| => Plain(bs[i]))
  }

  /** Separator escapes become the plain bytes of the character, everything else stays. */
  function Literal(ts: seq<Token>): seq<Token> {
    if ts == [] then []
    else if IsSeparator(ts[0]) then Plains(Utf8(ts[0].code)) + Literal(ts[1..])
    else [ts[0]] + Literal(ts[1..])
  }

  predicate HexRun(s: seq<byte>, n: nat) {
    n <= |s| && forall i :: 0 <= i < n ==> IsHex(s[i])
  }

  /** Leading hex digits are copied, and none appear that were not there. */
  lemma {:induction false} HexKept(s: seq<byte>, n: nat)
    ensures HexRun(s, n) <==> HexRun(Rewrite(s), n)
    ensures HexRun(s, n) ==> Rewrite(s) == s[..n] + Rewrite(s[n..])
    decreases n
  {
    if n == 0 {
      assert s[0..] == s;
    } else if s != [] && s[0] != BACKSLASH {
      var r, w := s[1..], Rewrite(s[1..]);
      HexKept(r, n - 1);
      HexCons(s[0], r, n);
      HexCons(s[0], w, n);
      assert s == [s[0]] + r && Rewrite(s) == [s[0]] + w;
      if HexRun(s, n) {
        assert r[..n - 1] == s[1..n] && r[n - 1..] == s[n..];
        assert [s[0]] + s[1..n] == s[..n];
      }
    } else if s != [] {
      assert !IsHex(Rewrite(s)[0]);
    }
  }

  lemma HexCons(b: byte, s: seq<byte>, n: nat)
    requires n > 0
    ensures HexRun([b] + s, n) <==> IsHex(b) && HexRun(s, n - 1)
  {
    var all := [b] + s;
    if HexRun(all, n) {
      assert all[0] == b;
      forall i | 0 <= i < n - 1 ensures IsHex(s[i]) { assert all[i + 1] == s[i]; }
    }
  }

  /** Four hex digits are the run of length four. */
  lemma HexFour(s: seq<byte>)
    requires |s| >= 4
    ensures ParseHex(s[..4]).Some? <==> HexRun(s, 4)
  {
    forall b | b in s[..4] && HexRun(s, 4) ensures IsHex(b) {}
    if ParseHex(s[..4]).Some? {
      forall i | 0 <= i < 4 ensures IsHex(s[i]) { assert s[i] == s[..4][i]; }
    }
  }

  /** The only spelling of a separator escape is the one the rewriting looks for. */
  lemma SpelledOnce(s: seq<byte>)
    requires |s| >= 6 && s[0] == BACKSLASH && s[1] == LETTER_U && ParseHex(s[2..6]).Some?
    ensures StartsSeparator(s) <==> IsSeparator(Unicode(ParseHex(s[2..6]).value))
    ensures StartsSeparator(s) ==> ParseHex(s[2..6]).value == SeparatorCode(s[5])
  {
    var d := s[2..6];
    assert d[0] == s[2] && d[1] == s[3] && d[2] == s[4] && d[3] == s[5];
    assert IsHex(d[0]) && IsHex(d[1]) && IsHex(d[2]) && IsHex(d[3]);
  }

  /** A separator escape has four hex digits. */
  lemma SeparatorIsHex(s: seq<byte>)
    requires StartsSeparator(s)
    ensures ParseHex(s[2..6]).Some?
  {
    forall b | b in s[2..6] ensures IsHex(b) {
      assert b in [s[2], s[3], s[4], s[5]];
    }
  }

  lemma {:induction false} RewriteTokens(s: seq<byte>)
    ensures Tokens(Rewrite(s)) == Literal(Tokens(s))
    decreases |s|, 1
  {
    if s == [] {
    } else if s[0] != BACKSLASH || |s| == 1 {
      RewriteTokens(s[1..]);
      var rest := Rewrite(s[1..]);
      assert ([s[0]] + rest)[1..] == rest;
    } else if s[1] != LETTER_U {
      RewriteTokens(s[2..]);
      var rest := Rewrite(s[2..]);
      assert ([s[0], s[1]] + rest)[2..] == rest;
    } else if StartsSeparator(s) {
      RewriteSeparator(s);
    } else if |s| >= 6 && ParseHex(s[2..6]).Some? {
      RewriteUnicode(s);
    } else {
      RewriteBroken(s);
    }
  }

  lemma RewriteSeparator(s: seq<byte>)
    requires StartsSeparator(s)
    ensures Tokens(Rewrite(s)) == Literal(Tokens(s))
    decreases |s|, 0
  {
    SeparatorIsHex(s);
    SpelledOnce(s);
    RewriteTokens(s[6..]);
    var bs, rest := SeparatorBytes(s[5]), Rewrite(s[6..]);
    PlainBytes(bs, rest);
  }

  /** Bytes that are no backslash read as themselves. */
  lemma PlainBytes(bs: seq<byte>, rest: seq<byte>)
    requires BACKSLASH !in bs
    ensures Tokens(bs + rest) == Plains(bs) + Tokens(rest)
    decreases |bs|
  {
    if bs == [] {
      assert bs + rest == rest;
    } else {
      PlainBytes(bs[1..], rest);
      assert (bs + rest)[1..] == bs[1..] + rest;
      assert Plains(bs) == [Plain(bs[0])] + Plains(bs[1..]);
    }
  }

  lemma RewriteUnicode(s: seq<byte>)
    requires |s| >= 6 && s[0] == BACKSLASH && s[1] == LETTER_U && ParseHex(s[2..6]).Some? && !StartsSeparator(s)
    ensures Tokens(Rewrite(s)) == Literal(Tokens(s))
    decreases |s|, 0
  {
    SpelledOnce(s);
    RewriteTokens(s[6..]);
    CopiedUnicode(s);
    var w := Rewrite(s);
    assert w[..6] == s[..6] && w[2..6] == s[2..6] && w[6..] == Rewrite(s[6..]);
    assert w[0] == s[0] && w[1] == s[1];
  }

  lemma CopiedUnicode(s: seq<byte>)
    requires |s| >= 6 && s[0] == BACKSLASH && s[1] == LETTER_U && ParseHex(s[2..6]).Some? && !StartsSeparator(s)
    ensures Rewrite(s) == s[..6] + Rewrite(s[6..])
  {
    var r := s[2..];
    assert r[..4] == s[2..6] && r[4..] == s[6..];
    HexFour(r);
    HexKept(r, 4);
    var tail := Rewrite(s[6..]);
    assert Rewrite(s) == [s[0], s[1]] + Rewrite(r) && Rewrite(r) == r[..4] + tail;
    assert [s[0], s[1]] + (r[..4] + tail) == ([s[0], s[1]] + r[..4]) + tail;
    assert s[..6] == [s[0], s[1]] + r[..4];
  }

  lemma RewriteBroken(s: seq<byte>)
    requires |s| >= 2 && s[0] == BACKSLASH && s[1] == LETTER_U && (|s| < 6 || ParseHex(s[2..6]).None?)
    ensures Tokens(Rewrite(s)) == Literal(Tokens(s))
    decreases |s|, 0
  {
    var r := s[2..];
    RewriteTokens(r);
    StaysBroken(s);
    var w := Rewrite(s);
    assert w[2..] == Rewrite(r);
  }

  lemma StaysBroken(s: seq<byte>)
    requires |s| >= 2 && s[0] == BACKSLASH && s[1] == LETTER_U && (|s| < 6 || ParseHex(s[2..6]).None?)
    ensures Rewrite(s) == [s[0], s[1]] + Rewrite(s[2..])
    ensures |Rewrite(s)| < 6 || ParseHex(Rewrite(s)[2..6]).None?
  {
    if StartsSeparator(s) { SeparatorIsHex(s); }
    var r := s[2..];
    HexKept(r, 4);
    if |s| >= 6 { assert r[..4] == s[2..6]; HexFour(r); }
    var w := Rewrite(s);
    if |w| >= 6 { assert w[2..6] == Rewrite(r)[..4]; HexFour(Rewrite(r)); }
  }

  // ---------- the properties of the seal's bytes ----------

  lemma PlainText(bs: seq<byte>, rest: seq<Token>)
    ensures TextOf(Plains(bs) + rest) == Raws(bs) + TextOf(rest)
    decreases |bs|
  {
    if bs == [] {
      assert Plains(bs) + rest == rest;
    } else {
      PlainText(bs[1..], rest);
      assert Plains(bs) + rest == [Plain(bs[0])] + (Plains(bs[1..]) + rest);
      assert Raws(bs) == [Raw(bs[0])] + Raws(bs[1..]);
    }
  }

  lemma {:induction false} LiteralText(ts: seq<Token>)
    ensures TextOf(Literal(ts)) == TextOf(ts)
    decreases |ts|
  {
    if ts != [] {
      LiteralText(ts[1..]);
      var rest := Literal(ts[1..]);
      if IsSeparator(ts[0]) {
        PlainText(Utf8(ts[0].code), rest);
      } else {
        assert ([ts[0]] + rest)[1..] == rest;
        if |ts| > 1 && IsHigh(ts[0]) && IsLow(ts[1]) {
          LiteralText(ts[2..]);
          assert ts[1..][1..] == ts[2..];
          assert rest == [ts[1]] + Literal(ts[2..]);
          assert ([ts[0]] + rest)[2..] == Literal(ts[2..]);
        } else if |ts| > 1 {
          assert ts[1..][0] == ts[1];
          assert IsLow(rest[0]) ==> rest[0] == ts[1];
        }
      }
    }
  }

  lemma {:induction false} LiteralFree(ts: seq<Token>)
    ensures forall t :: t in Literal(ts) ==> !IsSeparator(t)
    decreases |ts|
  {
    if ts != [] { LiteralFree(ts[1..]); }
  }

  /** Whatever the input, the rewritten bytes decode to the same text and hold no separator escape. */
  lemma RewriteKeepsText(s: seq<byte>)
    ensures TextOf(Tokens(Rewrite(s))) == TextOf(Tokens(s))
    ensures forall t :: t in Tokens(Rewrite(s)) ==> !IsSeparator(t)
  {
    RewriteTokens(s);
    LiteralText(Tokens(s));
    LiteralFree(Tokens(s));
  }

  /** A sequence without separator escapes is left as it is, escaped backslashes before u2028 included. */
  lemma {:induction false} RewriteUntouched(s: seq<byte>)
    requires forall t :: t in Tokens(s) ==> !IsSeparator(t)
    ensures Rewrite(s) == s
    decreases |s|
  {
    if s == [] {
    } else if s[0] != BACKSLASH || |s| == 1 {
      assert s == [s[0]] + s[1..];
      if |s| > 1 {
        assert forall t :: t in Tokens(s[1..]) ==> t in Tokens(s);
        RewriteUntouched(s[1..]);
      }
    } else if s[1] == LETTER_U && |s| >= 6 && ParseHex(s[2..6]).Some? {
      SpelledOnce(s);
      assert Tokens(s)[0] in Tokens(s);
      assert forall t :: t in Tokens(s[6..]) ==> t in Tokens(s);
      RewriteUntouched(s[6..]);
      CopiedUnicode(s);
    } else {
      assert forall t :: t in Tokens(s[2..]) ==> t in Tokens(s);
      RewriteUntouched(s[2..]);
      if s[1] == LETTER_U { StaysBroken(s); }
      assert s == [s[0], s[1]] + s[2..];
    }
  }

  /** A second pass changes nothing. */
  lemma RewriteTwice(s: seq<byte>)
    ensures Rewrite(Rewrite(s)) == Rewrite(s)
  {
    RewriteKeepsText(s);
    RewriteUntouched(Rewrite(s));
  }
}
