/** Python's `str.splitlines`, and base64 as RFC 4648 section 4 defines it. */
module TextLines {
  import opened Common

  // ---------- lines ----------

  predicate IsBreak(c: char) {
    c in {'\n', '\r', '\U{0B}', '\U{0C}', '\U{1C}', '\U{1D}', '\U{1E}', '\U{85}', '\U{2028}', '\U{2029}'}
  }

  predicate OneLine(s: string) {
    forall c :: c in s ==> !IsBreak(c)
  }

  /** Where the first line ends. */
  function LineEnd(s: string): (n: nat)
    ensures n <= |s| && OneLine(s[..n]) && (n < |s| ==> IsBreak(s[n]))
  {
    if s == "" || IsBreak(s[0]) then 0 else
      var n := LineEnd(s[1..]);
      assert s[..n + 1] == [s[0]] + s[1..][..n];
      n + 1
  }

  /** Lines without their ends; a final line end opens no further line, and "\r\n" is one end. */
  function SplitLines(s: string): seq<string>
    decreases |s|
  {
    if s == "" then []
    else
      var n := LineEnd(s);
      if n == |s| then [s]
      else
        var skip := if s[n] == '\r' && n + 1 < |s| && s[n + 1] == '\n' then 2 else 1;
        [s[..n]] + SplitLines(s[n + skip..])
  }

  /** Every line ended, as `echo` prints them. */
  function Unlines(lines: seq<string>): string {
    if lines == [] then "" else lines[0] + "\n" + Unlines(lines[1..])
  }

  /** Lines separated, as `"\n".join` does. */
  function JoinLines(lines: seq<string>): string {
    if lines == [] then "" else if |lines| == 1 then lines[0] else lines[0] + "\n" + JoinLines(lines[1..])
  }

  lemma {:induction false} LineEndAt(line: string, rest: string)
    requires OneLine(line) && (rest == "" || IsBreak(rest[0]))
    ensures LineEnd(line + rest) == |line|
  {
    if line == "" {
      assert line + rest == rest;
    } else {
      assert (line + rest)[1..] == line[1..] + rest;
      assert line[0] in line && OneLine(line[1..]);
      LineEndAt(line[1..], rest);
    }
  }

  /** One line and its end come off the front. */
  lemma FirstLineOff(line: string, rest: string)
    requires OneLine(line)
    ensures SplitLines(line + "\n" + rest) == [line] + SplitLines(rest)
  {
    var s := line + "\n" + rest;
    assert s == line + ("\n" + rest);
    LineEndAt(line, "\n" + rest);
    assert s[|line|] == '\n' && s[..|line|] == line && s[|line| + 1..] == rest;
  }

  lemma {:induction false} UnlinesSplit(lines: seq<string>)
    requires forall l :: l in lines ==> OneLine(l)
    ensures SplitLines(Unlines(lines)) == lines
  {
    if lines != [] {
      UnlinesSplit(lines[1..]);
      FirstLineOff(lines[0], Unlines(lines[1..]));
    }
  }

  lemma {:induction false} JoinSplit(lines: seq<string>)
    requires forall l :: l in lines ==> OneLine(l) && l != ""
    ensures SplitLines(JoinLines(lines)) == lines
  {
    if |lines| == 1 {
      LineEndAt(lines[0], "");
      assert lines[0] + "" == lines[0];
    } else if |lines| > 1 {
      JoinSplit(lines[1..]);
      FirstLineOff(lines[0], JoinLines(lines[1..]));
    }
  }

  function Concat(parts: seq<string>): string {
    if parts == [] then "" else parts[0] + Concat(parts[1..])
  }

  // ---------- universal newlines ----------

  const CR := '\r'

  /** What reading in text mode makes of line ends: "\r\n" and a lone "\r" both become "\n". */
  function FoldNewlines(s: string): string
    decreases |s|
  {
    if s == "" then ""
    else if s[0] == CR then "\n" + FoldNewlines(if |s| > 1 && s[1] == '\n' then s[2..] else s[1..])
    else [s[0]] + FoldNewlines(s[1..])
  }

  lemma {:induction false} FoldBehind(front: string, back: string)
    requires CR !in front
    ensures FoldNewlines(front + back) == front + FoldNewlines(back)
  {
    if front == "" {
      assert front + back == back;
    } else {
      assert (front + back)[1..] == front[1..] + back;
      FoldBehind(front[1..], back);
    }
  }

  lemma {:induction false} FoldLeavesNoReturn(s: string)
    ensures CR !in FoldNewlines(s)
    decreases |s|
  {
    if s != "" {
      FoldLeavesNoReturn(if s[0] == CR && |s| > 1 && s[1] == '\n' then s[2..] else s[1..]);
    }
  }

  /** Folding changes a text exactly when it holds a carriage return. */
  lemma FoldKeepsExactly(s: string)
    ensures FoldNewlines(s) == s <==> CR !in s
  {
    FoldLeavesNoReturn(s);
    if CR !in s {
      FoldBehind(s, "");
      assert s + "" == s;
    }
  }

  lemma {:induction false} UnlinesHoldNoReturn(lines: seq<string>)
    requires forall l :: l in lines ==> OneLine(l)
    ensures CR !in Unlines(lines)
  {
    if lines != [] {
      assert lines[0] in lines;
      UnlinesHoldNoReturn(lines[1..]);
    }
  }

  // ---------- base64 ----------

  type Byte = n: int | 0 <= n < 256

  type Sextet = n: int | 0 <= n < 64

  function Symbol(n: Sextet): char {
    if n < 26 then (65 + n) as char
    else if n < 52 then (97 + n - 26) as char
    else if n < 62 then (48 + n - 52) as char
    else if n == 62 then '+' else '/'
  }

  function Value(c: char): Option<Sextet> {
    if 'A' <= c <= 'Z' then Some(c as int - 65)
    else if 'a' <= c <= 'z' then Some(c as int - 97 + 26)
    else if '0' <= c <= '9' then Some(c as int - 48 + 52)
    else if c == '+' then Some(62) else if c == '/' then Some(63) else None
  }

  // The four sextets of three bytes, and the three bytes of four sextets.
  function S0(x: Byte): Sextet { x / 4 }
  function S1(x: Byte, y: Byte): Sextet { x % 4 * 16 + y / 16 }
  function S2(y: Byte, z: Byte): Sextet { y % 16 * 4 + z / 64 }
  function S3(z: Byte): Sextet { z % 64 }
  function B0(a: Sextet, b: Sextet): Byte { a * 4 + b / 16 }
  function B1(b: Sextet, c: Sextet): Byte { b % 16 * 16 + c / 4 }
  function B2(c: Sextet, d: Sextet): Byte { c % 4 * 64 + d }

  lemma BytesBack(x: Byte, y: Byte, z: Byte)
    ensures B0(S0(x), S1(x, y)) == x && B1(S1(x, y), S2(y, z)) == y && B2(S2(y, z), S3(z)) == z
  {
  }

  function Encode(bs: seq<Byte>): string {
    if bs == [] then ""
    else if |bs| == 1 then [Symbol(S0(bs[0])), Symbol(S1(bs[0], 0)), '=', '=']
    else if |bs| == 2 then [Symbol(S0(bs[0])), Symbol(S1(bs[0], bs[1])), Symbol(S2(bs[1], 0)), '=']
    else Quad(bs[0], bs[1], bs[2]) + Encode(bs[3..])
  }

  function Quad(x: Byte, y: Byte, z: Byte): string {
    [Symbol(S0(x)), Symbol(S1(x, y)), Symbol(S2(y, z)), Symbol(S3(z))]
  }

  /** Strict decoding: whole quads, padding only at the end, no other characters. */
  function Decode(s: string): Result<seq<Byte>> {
    if s == "" then Ok([])
    else if |s| < 4 || Value(s[0]).None? || Value(s[1]).None? then Err("incorrect padding or character")
    else
      var a, b := Value(s[0]).value, Value(s[1]).value;
      if s[2] == '=' then
        if |s| == 4 && s[3] == '=' then Ok([B0(a, b)]) else Err("incorrect padding")
      else if Value(s[2]).None? then Err("character outside the alphabet")
      else
        var c := Value(s[2]).value;
        if s[3] == '=' then
          if |s| == 4 then Ok([B0(a, b), B1(b, c)]) else Err("data after padding")
        else if Value(s[3]).None? then Err("character outside the alphabet")
        else
          var rest := Decode(s[4..]);
          if rest.Ok? then Ok([B0(a, b), B1(b, c), B2(c, Value(s[3]).value)] + rest.value) else rest
  }

  lemma SymbolValue(n: Sextet)
    ensures Value(Symbol(n)) == Some(n) && Symbol(n) != '='
  {
  }

  lemma DecodeQuad(x: Byte, y: Byte, z: Byte, rest: string)
    ensures Decode(Quad(x, y, z) + rest) == if Decode(rest).Ok? then Ok([x, y, z] + Decode(rest).value) else Decode(rest)
  {
    hide Symbol, Value, S0, S1, S2, S3, B0, B1, B2;
    SymbolValue(S0(x));
    SymbolValue(S1(x, y));
    SymbolValue(S2(y, z));
    SymbolValue(S3(z));
    BytesBack(x, y, z);
    assert (Quad(x, y, z) + rest)[4..] == rest;
  }

  lemma DecodeShort(bs: seq<Byte>)
    requires |bs| <= 2
    ensures Decode(Encode(bs)) == Ok(bs)
  {
    hide Symbol, Value, S0, S1, S2, S3, B0, B1, B2;
    if bs != [] {
      var x, y := bs[0], if |bs| == 2 then bs[1] else 0;
      SymbolValue(S0(x));
      SymbolValue(S1(x, y));
      SymbolValue(S2(y, 0));
      BytesBack(x, y, 0);
      assert bs == if |bs| == 1 then [x] else [x, y];
    }
  }

  /** RFC 4648 section 4: decoding an encoding gives the bytes back. */
  lemma {:induction false} DecodeEncode(bs: seq<Byte>)
    ensures Decode(Encode(bs)) == Ok(bs)
  {
    if |bs| <= 2 {
      DecodeShort(bs);
    } else {
      DecodeEncode(bs[3..]);
      DecodeQuad(bs[0], bs[1], bs[2], Encode(bs[3..]));
      hide Decode;
      assert bs == [bs[0], bs[1], bs[2]] + bs[3..];
    }
  }

  predicate InAlphabet(c: char) {
    Value(c).Some? || c == '='
  }

  lemma {:induction false} EncodedAlphabet(bs: seq<Byte>)
    ensures forall c :: c in Encode(bs) ==> InAlphabet(c)
  {
    if |bs| > 2 { EncodedAlphabet(bs[3..]); }
  }

  lemma AlphabetIsPlain(c: char)
    requires InAlphabet(c)
    ensures !IsBreak(c) && c != '_' && ' ' < c < '\U{7F}'
  {
  }
}
