/**
 The signed cursor of backend/app/orch/store_shadow.py. The JSON text of a payload and the HMAC are
 parameters; base64url is RFC 4648, section 5, with the padding stripped as that section allows.
 */
module Cursor {
  import opened Wrappers

  type Byte = x: int | 0 <= x < 256

  // ------------------------------------------------------------ base64url

  type Sextet = x: int | 0 <= x < 64

  function Symbol(x: Sextet): char {
    if x < 26 then ('A' as int + x) as char
    else if x < 52 then ('a' as int + (x - 26)) as char
    else if x < 62 then ('0' as int + (x - 52)) as char
    else if x == 62 then '-' else '_'
  }

  function IndexOf(c: char): Option<Sextet> {
    if 'A' <= c <= 'Z' then Some(c as int - 'A' as int)
    else if 'a' <= c <= 'z' then Some(c as int - 'a' as int + 26)
    else if '0' <= c <= '9' then Some(c as int - '0' as int + 52)
    else if c == '-' then Some(62) else if c == '_' then Some(63)
    else None
  }

  /** `urlsafe_b64encode`: four symbols for three bytes, the last group padded. */
  function Padded(b: seq<Byte>): string {
    if b == [] then ""
    else if |b| == 1 then [Symbol(b[0] / 4), Symbol(b[0] % 4 * 16), '=', '=']
    else if |b| == 2 then
      [Symbol(b[0] / 4), Symbol(b[0] % 4 * 16 + b[1] / 16), Symbol(b[1] % 16 * 4), '=']
    else
      [Symbol(b[0] / 4), Symbol(b[0] % 4 * 16 + b[1] / 16), Symbol(b[1] % 16 * 4 + b[2] / 64), Symbol(b[2] % 64)]
      + Padded(b[3..])
  }

  /** `urlsafe_b64decode` of padded text over the alphabet. */
  function Unpadded(s: string): Option<seq<Byte>> {
    if s == "" then Some([])
    else if |s| < 4 then None
    else
      var w, x, y, z := IndexOf(s[0]), IndexOf(s[1]), IndexOf(s[2]), IndexOf(s[3]);
      if w.None? || x.None? then None
      else if |s| == 4 && s[2] == '=' && s[3] == '=' then Some([w.value * 4 + x.value / 16])
      else if y.None? then None
      else if |s| == 4 && s[3] == '=' then
        Some([w.value * 4 + x.value / 16, x.value % 16 * 16 + y.value / 4])
      else if z.None? then None
      else
        var rest := Unpadded(s[4..]);
        if rest.None? then None
        else
          Some([w.value * 4 + x.value / 16, x.value % 16 * 16 + y.value / 4, y.value % 4 * 64 + z.value] + rest.value)
  }

  /** `rstrip(b"=")`. */
  function Stripped(s: string): string {
    if s != "" && s[|s| - 1] == '=' then Stripped(s[..|s| - 1]) else s
  }

  function Pads(n: nat): string {
    if n == 0 then "" else "=" + Pads(n - 1)
  }

  function Encode(b: seq<Byte>): string {
    Stripped(Padded(b))
  }

  /** Puts back the padding that the length calls for. */
  function Decode(s: string): Option<seq<Byte>> {
    Unpadded(s + Pads((-|s|) % 4))
  }

  lemma SextetOfSymbol(x: Sextet)
    ensures IndexOf(Symbol(x)) == Some(x) && Symbol(x) != '=' && Symbol(x) != '.'
  {
  }

  lemma SextetsDecode(p: Sextet, q: Sextet, r: Sextet, t: Sextet, rest: string, bytes: seq<Byte>)
    requires Unpadded(rest) == Some(bytes)
    ensures Unpadded([Symbol(p), Symbol(q), Symbol(r), Symbol(t)] + rest)
         == Some([p * 4 + q / 16, q % 16 * 16 + r / 4, r % 4 * 64 + t] + bytes)
  {
    var s := [Symbol(p), Symbol(q), Symbol(r), Symbol(t)] + rest;
    SextetOfSymbol(p);
    SextetOfSymbol(q);
    SextetOfSymbol(r);
    SextetOfSymbol(t);
    hide Symbol, IndexOf;
    assert s[4..] == rest;
  }

  lemma GroupDecodes(x: Byte, y: Byte, z: Byte, rest: string, bytes: seq<Byte>)
    requires Unpadded(rest) == Some(bytes)
    ensures Unpadded([Symbol(x / 4), Symbol(x % 4 * 16 + y / 16), Symbol(y % 16 * 4 + z / 64), Symbol(z % 64)] + rest)
         == Some([x, y, z] + bytes)
  {
    hide *;
    SextetsDecode(x / 4, x % 4 * 16 + y / 16, y % 16 * 4 + z / 64, z % 64, rest, bytes);
  }

  lemma OneByte(x: Byte)
    ensures Unpadded([Symbol(x / 4), Symbol(x % 4 * 16), '=', '=']) == Some([x])
  {
    SextetOfSymbol(x / 4);
    SextetOfSymbol(x % 4 * 16);
    hide Symbol, IndexOf;
  }

  lemma TwoBytes(x: Byte, y: Byte)
    ensures Unpadded([Symbol(x / 4), Symbol(x % 4 * 16 + y / 16), Symbol(y % 16 * 4), '=']) == Some([x, y])
  {
    SextetOfSymbol(x / 4);
    SextetOfSymbol(x % 4 * 16 + y / 16);
    SextetOfSymbol(y % 16 * 4);
    hide Symbol, IndexOf;
  }

  lemma {:induction false} UnpaddedUndoesPadded(b: seq<Byte>)
    ensures Unpadded(Padded(b)) == Some(b)
  {
    hide Symbol, IndexOf;
    if |b| == 0 {
    } else if |b| == 1 {
      OneByte(b[0]);
      assert b == [b[0]];
    } else if |b| == 2 {
      TwoBytes(b[0], b[1]);
      assert b == [b[0], b[1]];
    } else {
      UnpaddedUndoesPadded(b[3..]);
      GroupDecodes(b[0], b[1], b[2], Padded(b[3..]), b[3..]);
      hide Unpadded;
      assert b == [b[0], b[1], b[2]] + b[3..];
    }
  }

  /** Text over the alphabet, with no padding and no dot. */
  predicate Clean(s: string) {
    forall i :: 0 <= i < |s| ==> s[i] != '=' && s[i] != '.'
  }

  /** Padded text is clean text and the padding its length calls for. */
  predicate Shaped(all: string) {
    Clean(Stripped(all)) && all == Stripped(all) + Pads((-|Stripped(all)|) % 4)
  }

  lemma {:induction false} PaddedShape(b: seq<Byte>)
    ensures Shaped(Padded(b))
  {
    if |b| == 0 {
      assert Padded(b) == "" && Stripped("") == "" && Pads(0) == "";
    } else if |b| == 1 {
      SextetOfSymbol(b[0] / 4);
      SextetOfSymbol(b[0] % 4 * 16);
      TailShape([Symbol(b[0] / 4), Symbol(b[0] % 4 * 16)], Padded(b));
    } else if |b| == 2 {
      SextetOfSymbol(b[0] / 4);
      SextetOfSymbol(b[0] % 4 * 16 + b[1] / 16);
      SextetOfSymbol(b[1] % 16 * 4);
      TailShape([Symbol(b[0] / 4), Symbol(b[0] % 4 * 16 + b[1] / 16), Symbol(b[1] % 16 * 4)], Padded(b));
    } else {
      PaddedShape(b[3..]);
      SextetOfSymbol(b[0] / 4);
      SextetOfSymbol(b[0] % 4 * 16 + b[1] / 16);
      SextetOfSymbol(b[1] % 16 * 4 + b[2] / 64);
      SextetOfSymbol(b[2] % 64);
      hide Shaped;
      GroupShape([Symbol(b[0] / 4), Symbol(b[0] % 4 * 16 + b[1] / 16), Symbol(b[1] % 16 * 4 + b[2] / 64),
                  Symbol(b[2] % 64)], Padded(b[3..]));
    }
  }

  lemma TailShape(s: string, all: string)
    requires Clean(s) && ((|s| == 2 && all == s + "==") || (|s| == 3 && all == s + "="))
    ensures Shaped(all)
  {
    StripPads(s, 4 - |s|);
    hide Stripped;
  }

  lemma GroupShape(group: string, rest: string)
    requires |group| == 4 && Clean(group) && Shaped(rest)
    ensures Shaped(group + rest)
  {
    var s := Stripped(rest);
    var n := (-|s|) % 4;
    assert (-|group + s|) % 4 == n;
    assert Clean(group + s);
    hide Stripped;
    StripPads(group + s, n);
    hide Pads, Clean;
    assert group + rest == (group + s) + Pads(n);
  }

  lemma {:induction false} StripPads(s: string, n: nat)
    requires s != "" && Clean(s)
    ensures Stripped(s + Pads(n)) == s
    ensures Pads(1) == "=" && Pads(2) == "=="
  {
    if n == 0 {
      assert s + Pads(0) == s;
    } else {
      PadsBack(n);
      assert (s + Pads(n))[..|s + Pads(n)| - 1] == s + Pads(n - 1);
      StripPads(s, n - 1);
    }
  }

  lemma {:induction false} PadsBack(n: nat)
    requires n > 0
    ensures Pads(n) == Pads(n - 1) + "="
  {
    if n > 1 {
      PadsBack(n - 1);
    }
  }

  /** Decoding undoes encoding although the padding is gone. */
  lemma DecodeUndoesEncode(b: seq<Byte>)
    ensures Decode(Encode(b)) == Some(b) && Clean(Encode(b))
  {
    PaddedShape(b);
    UnpaddedUndoesPadded(b);
    hide Padded, Unpadded, Stripped, Pads, Clean;
  }

  lemma {:induction false} PaddedLength(b: seq<Byte>)
    ensures |Padded(b)| <= (|b| + 2) / 3 * 4
  {
    hide Symbol;
    if |b| >= 3 {
      PaddedLength(b[3..]);
      assert (|b[3..]| + 2) / 3 + 1 == (|b| + 2) / 3;
    }
  }

  lemma {:induction false} StrippedLength(s: string)
    ensures |Stripped(s)| <= |s|
  {
    if s != "" && s[|s| - 1] == '=' {
      StrippedLength(s[..|s| - 1]);
    }
  }

  lemma EncodedLength(b: seq<Byte>)
    ensures |Encode(b)| <= (|b| + 2) / 3 * 4
  {
    hide Padded, Stripped;
    PaddedLength(b);
    StrippedLength(Padded(b));
  }

  // ------------------------------------------------------------ cursors

  const MAX_CURSOR: nat := 4096

  datatype Filters = Filters(tenant: string, fromAt: Option<int>, toAt: Option<int>, lane: Option<string>)

  /** The last row of a page. */
  datatype Anchor = Anchor(at: int, id: nat)

  datatype Payload = Payload(filters: Filters, after: Anchor)

  /** The JSON text of payloads and the signature of a body. */
  datatype Codec = Codec(dump: Payload -> seq<Byte>, load: seq<Byte> -> Option<Payload>, sign: string -> seq<Byte>)

  function EncodeCursor(c: Codec, filters: Filters, after: Anchor): string {
    var body := Encode(c.dump(Payload(filters, after)));
    body + ("." + Encode(c.sign(body)))
  }

  function FirstDot(s: string): (i: nat)
    ensures i <= |s|
  {
    if s == "" || s[0] == '.' then 0 else 1 + FirstDot(s[1..])
  }

  /** None stands for the cursor error. */
  function DecodeCursor(c: Codec, cursor: string, filters: Filters): Option<Anchor> {
    var dot := FirstDot(cursor);
    if cursor == "" || |cursor| > MAX_CURSOR || dot == |cursor| then None
    else
      var body, signature := cursor[..dot], cursor[dot + 1..];
      if signature != Encode(c.sign(body)) then None
      else
        var raw := Decode(body);
        if raw.None? then None
        else
          var payload := c.load(raw.value);
          if payload.None? || payload.value.filters != filters then None else Some(payload.value.after)
  }

  lemma {:induction false} DotAfterClean(s: string, rest: string)
    requires Clean(s)
    ensures FirstDot(s + ("." + rest)) == |s|
  {
    if s == "" {
      assert s + ("." + rest) == "." + rest;
    } else {
      assert (s + ("." + rest))[1..] == s[1..] + ("." + rest);
      DotAfterClean(s[1..], rest);
    }
  }

  /** A cursor decodes to the anchor it was made for exactly when it is not too long and the filters are
      the ones it was made with; in every other case it is refused. */
  lemma CursorRoundTrip(c: Codec, filters: Filters, after: Anchor, others: Filters)
    requires c.load(c.dump(Payload(filters, after))) == Some(Payload(filters, after))
    ensures var cursor := EncodeCursor(c, filters, after);
      DecodeCursor(c, cursor, others)
      == if |cursor| <= 4096 && others == filters then Some(after) else None
  {
    var raw := c.dump(Payload(filters, after));
    var body := Encode(raw);
    DecodeUndoesEncode(raw);
    hide Encode, Decode, Clean;
    DotAfterClean(body, Encode(c.sign(body)));
    var cursor := EncodeCursor(c, filters, after);
    assert cursor[..|body|] == body && cursor[|body| + 1..] == Encode(c.sign(body));
    assert c.load(raw) == Some(Payload(filters, after));
  }

  /** An accepted cursor is signed: its second part is the signature of its first. */
  lemma AcceptedIsSigned(c: Codec, cursor: string, filters: Filters)
    requires DecodeCursor(c, cursor, filters).Some?
    ensures exists body :: cursor == body + ("." + Encode(c.sign(body))) && Decode(body).Some?
              && c.load(Decode(body).value) == Some(Payload(filters, DecodeCursor(c, cursor, filters).value))
  {
    var dot := FirstDot(cursor);
    DotIsThere(cursor);
    hide Encode, Decode;
    assert cursor == cursor[..dot] + ("." + cursor[dot + 1..]);
  }

  lemma {:induction false} DotIsThere(s: string)
    ensures FirstDot(s) < |s| ==> s[FirstDot(s)] == '.'
  {
    if s != "" && s[0] != '.' {
      DotIsThere(s[1..]);
    }
  }
}
