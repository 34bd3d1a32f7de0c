/**
 The two byte scanners of the workload attachment: the check that every \u escape is
 whole and every surrogate paired, and the rewriting of the line-separator escapes to
 literal UTF-8 before the seal is computed. Escapes follow section 7 of RFC 8259.
 */
module JsonEscapes {
  import opened Options

  type byte = b: int | 0 <= b < 256

  const BACKSLASH: byte := 0x5C
  const LETTER_U: byte := 0x75

  predicate IsHex(b: byte) {
    0x30 <= b <= 0x39 || 0x41 <= b <= 0x46 || 0x61 <= b <= 0x66
  }

  function HexValue(b: byte): (v: int)
    requires IsHex(b)
    ensures 0 <= v < 16
  {
    if b <= 0x39 then b - 0x30 else if b <= 0x46 then b - 0x37 else b - 0x57
  }

  /** Parsing as an unsigned 16-bit hexadecimal number: exactly hex digits, or an error. */
  function ParseHex(digits: seq<byte>): Option<nat>
    requires |digits| == 4
  {
    if forall b :: b in digits ==> IsHex(b)
    then Some(((HexValue(digits[0]) * 16 + HexValue(digits[1])) * 16 + HexValue(digits[2])) * 16 + HexValue(digits[3]))
    else None
  }

  // ---------- the reference reading of a byte sequence ----------

  /** Broken is a backslash-u not followed by four hex digits, Lone a backslash that ends the input. */
  datatype Token = Plain(b: byte) | Pair(c: byte) | Unicode(code: nat) | Broken | Lone

  function Tokens(s: seq<byte>): seq<Token> {
    if s == [] then []
    else if s[0] != BACKSLASH then [Plain(s[0])] + Tokens(s[1..])
    else if |s| == 1 then [Lone]
    else if s[1] != LETTER_U then [Pair(s[1])] + Tokens(s[2..])
    else if |s| < 6 || ParseHex(s[2..6]).None? then [Broken] + Tokens(s[2..])
    else [Unicode(ParseHex(s[2..6]).value)] + Tokens(s[6..])
  }

  predicate IsHigh(t: Token) {
    t.Unicode? && 0xD800 <= t.code <= 0xDBFF
  }

  predicate IsLow(t: Token) {
    t.Unicode? && 0xDC00 <= t.code <= 0xDFFF
  }

  /** The surrogates are the units from D800 to DFFF, each of one kind. */
  lemma SurrogatesAre(code: nat)
    ensures IsHigh(Unicode(code)) || IsLow(Unicode(code)) <==> 0xD800 <= code < 0xE000
    ensures !(IsHigh(Unicode(code)) && IsLow(Unicode(code)))
  {
  }

  /** Pairs of them spell exactly the characters beyond 16 bits, each once. */
  lemma SurrogatesCover(c: nat) returns (high: nat, low: nat)
    requires 0x10000 <= c < 0x110000
    ensures IsHigh(Unicode(high)) && IsLow(Unicode(low)) && c == 0x10000 + (high - 0xD800) * 0x400 + (low - 0xDC00)
    ensures forall h: nat, l: nat :: IsHigh(Unicode(h)) && IsLow(Unicode(l)) && c == 0x10000 + (h - 0xD800) * 0x400 + (l - 0xDC00) ==>
              h == high && l == low
  {
    var d := c - 0x10000;
    high, low := 0xD800 + d / 0x400, 0xDC00 + d % 0x400;
  }

  /** Every \u escape is whole, every high surrogate is followed by a low one, every low one follows a high one. */
  ghost predicate WellPaired(ts: seq<Token>) {
    forall i :: 0 <= i < |ts| ==> PairedAt(ts, i)
  }

  predicate PairedAt(ts: seq<Token>, i: nat)
    requires i < |ts|
  {
    && !ts[i].Broken?
    && (IsHigh(ts[i]) ==> i + 1 < |ts| && IsLow(ts[i + 1]))
    && (IsLow(ts[i]) ==> 0 < i && IsHigh(ts[i - 1]))
  }

  // ---------- the escape check ----------

  /** What the scanner accepts, one escape at a time. */
  predicate Scans(s: seq<byte>) {
    if s == [] then true
    else if s[0] != BACKSLASH then Scans(s[1..])
    else if |s| == 1 then true
    else if s[1] != LETTER_U then Scans(s[2..])
    else if |s| < 6 || ParseHex(s[2..6]).None? then false
    else
      var code := ParseHex(s[2..6]).value;
      if 0xDC00 <= code <= 0xDFFF then false
      else if code < 0xD800 || code > 0xDBFF then Scans(s[6..])
      else if |s| < 12 || s[6] != BACKSLASH || s[7] != LETTER_U || ParseHex(s[8..12]).None? then false
      else
        var low := ParseHex(s[8..12]).value;
        0xDC00 <= low <= 0xDFFF && Scans(s[12..])
  }

  lemma WellPairedCons(t: Token, ts: seq<Token>)
    requires !IsHigh(t)
    ensures WellPaired([t] + ts) <==> !t.Broken? && !IsLow(t) && WellPaired(ts)
  {
    var all := [t] + ts;
    if WellPaired(all) {
      assert PairedAt(all, 0);
      forall i | 0 <= i < |ts| ensures PairedAt(ts, i) {
        assert PairedAt(all, i + 1);
      }
    }
    if !t.Broken? && !IsLow(t) && WellPaired(ts) {
      forall i | 0 <= i < |all| ensures PairedAt(all, i) {
        if i > 0 { assert PairedAt(ts, i - 1); }
      }
    }
  }

  lemma WellPairedPair(h: Token, ts: seq<Token>)
    requires IsHigh(h)
    ensures WellPaired([h] + ts) <==> |ts| > 0 && IsLow(ts[0]) && WellPaired(ts[1..])
  {
    var all := [h] + ts;
    if WellPaired(all) {
      assert PairedAt(all, 0);
      var rest := ts[1..];
      forall i | 0 <= i < |rest| ensures PairedAt(rest, i) {
        assert PairedAt(all, i + 2);
        assert all[i + 2] == rest[i];
      }
    }
    if |ts| > 0 && IsLow(ts[0]) && WellPaired(ts[1..]) {
      forall i | 0 <= i < |all| ensures PairedAt(all, i) {
        if i > 1 { assert PairedAt(ts[1..], i - 2); }
      }
    }
  }

  /** The scanner accepts exactly the sequences whose escapes are whole and whose surrogates are paired. */
  lemma {:induction false} ScansWellPaired(s: seq<byte>)
    ensures Scans(s) <==> WellPaired(Tokens(s))
    decreases |s|
  {
    if s != [] {
      if s[0] != BACKSLASH {
        ScansWellPaired(s[1..]);
        WellPairedCons(Plain(s[0]), Tokens(s[1..]));
      } else if |s| == 1 {
        WellPairedCons(Lone, []);
        assert [Lone] + [] == [Lone];
      } else if s[1] != LETTER_U {
        ScansWellPaired(s[2..]);
        WellPairedCons(Pair(s[1]), Tokens(s[2..]));
      } else if |s| < 6 || ParseHex(s[2..6]).None? {
        WellPairedCons(Broken, Tokens(s[2..]));
      } else {
        var u := Unicode(ParseHex(s[2..6]).value);
        if IsHigh(u) {
          WellPairedPair(u, Tokens(s[6..]));
          SecondHalf(s[6..]);
          if |s| >= 12 {
            assert s[6..][2..6] == s[8..12] && s[6..][6..] == s[12..];
            ScansWellPaired(s[12..]);
          }
        } else {
          ScansWellPaired(s[6..]);
          WellPairedCons(u, Tokens(s[6..]));
        }
      }
    }
  }

  /** The next token is a low surrogate exactly when the next six bytes spell one. */
  lemma SecondHalf(s: seq<byte>)
    ensures (|Tokens(s)| > 0 && IsLow(Tokens(s)[0]))
       <==> (|s| >= 6 && s[0] == BACKSLASH && s[1] == LETTER_U && ParseHex(s[2..6]).Some?
             && 0xDC00 <= ParseHex(s[2..6]).value <= 0xDFFF)
    ensures |Tokens(s)| > 0 && IsLow(Tokens(s)[0]) ==> Tokens(s)[1..] == Tokens(s[6..])
  {
  }

  /** validUnicodeEscapes: the index is moved by hand, and never leaves the input. */
  method ValidUnicodeEscapes(data: seq<byte>) returns (ok: bool)
    ensures ok <==> WellPaired(Tokens(data))
  {
    ScansWellPaired(data);
    var i := 0;
    while i < |data|
      invariant 0 <= i <= |data| + 1
      invariant i <= |data| ==> (Scans(data) <==> Scans(data[i..]))
      invariant i > |data| ==> Scans(data)
      decreases |data| + 1 - i
    {
      ghost var rest := data[i..];
      if data[i] != BACKSLASH {
        assert rest[1..] == data[i + 1..];
        i := i + 1;
        continue;
      }
      i := i + 1;
      if i >= |data| || data[i] != LETTER_U {
        if i < |data| { assert rest[2..] == data[i + 1..]; }
        i := i + 1;
        continue;
      }
      if i + 4 >= |data| {
        return false;
      }
      assert rest[2..6] == data[i + 1..i + 5];
      var code := ParseHex(data[i + 1..i + 5]);
      if code.None? || 0xDC00 <= code.value <= 0xDFFF {
        return false;
      }
      i := i + 4;
      if code.value < 0xD800 || code.value > 0xDBFF {
        assert rest[6..] == data[i + 1..];
        i := i + 1;
        continue;
      }
      if i + 6 >= |data| || data[i + 1] != BACKSLASH || data[i + 2] != LETTER_U {
        return false;
      }
      assert rest[8..12] == data[i + 3..i + 7] && rest[12..] == data[i + 7..];
      var low := ParseHex(data[i + 3..i + 7]);
      if low.None? || low.value < 0xDC00 || low.value > 0xDFFF {
        return false;
      }
      i := i + 7;
    }
    if i == |data| { assert data[i..] == []; }
    return true;
  }
}
