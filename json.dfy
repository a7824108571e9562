/**
 * The JSON text that the store keeps under `app_favorites`: `JSON.stringify`
 * of an array of strings (AppContext.tsx line 62) and `JSON.parse` of the
 * stored text (line 42), restricted to arrays of strings. The decoder inverts
 * the encoder: `DecodeEncode` proves that every list survives the trip
 * through storage unchanged.
 */
module Json {
  import opened Wrappers

  /** Why a stored text was not read back as an array of strings. */
  datatype ParseError =
    | UnexpectedEnd              // the text stops inside a value
    | UnexpectedChar(c: char)    // a character that JSON does not allow here
    | Unsupported                // a value other than a string where one is read, or a `\u` surrogate (see `Decode`)

  // ---------------------------------------------------------------- encoding

  /** The lower-case hexadecimal digit for `d`. */
  function HexDigit(d: nat): (c: char)
    requires d < 16
  {
    if d < 10 then ('0' as int + d) as char else ('a' as int + (d - 10)) as char
  }

  /** How one character of a string is written between the quotes. */
  function EscapeChar(c: char): string
  {
    if c == '"' then ['\\', '"']
    else if c == '\\' then ['\\', '\\']
    else if c as int == 0x08 then ['\\', 'b']
    else if c as int == 0x09 then ['\\', 't']
    else if c as int == 0x0A then ['\\', 'n']
    else if c as int == 0x0C then ['\\', 'f']
    else if c as int == 0x0D then ['\\', 'r']
    else if c as int < 0x20 then ['\\', 'u', '0', '0', HexDigit(c as int / 16), HexDigit(c as int % 16)]
    else [c]
  }

  function EscapeString(s: string): string
  {
    if s == [] then [] else EscapeChar(s[0]) + EscapeString(s[1..])
  }

  /** A string with no quote, backslash or control character is written as it is. */
  lemma {:induction false} EscapePlain(s: string)
    requires forall i :: 0 <= i < |s| ==> s[i] != '"' && s[i] != '\\' && s[i] as int >= 0x20
    ensures EscapeString(s) == s
  {
    if s != [] {
      EscapePlain(s[1..]);
      assert [s[0]] + s[1..] == s;
    }
  }

  /** A JSON string literal. */
  function Quote(s: string): string
  {
    ['"'] + EscapeString(s) + ['"']
  }

  /** A string with no quote, backslash or control character is quoted as it is. */
  lemma QuotePlain(s: string)
    requires forall i :: 0 <= i < |s| ==> s[i] != '"' && s[i] != '\\' && s[i] as int >= 0x20
    ensures Quote(s) == ['"'] + s + ['"']
  {
    EscapePlain(s);
  }

  /** The array's elements, separated by commas and without blanks. */
  function EncodeItems(xs: seq<string>): string
  {
    if xs == [] then []
    else if |xs| == 1 then Quote(xs[0])
    else Quote(xs[0]) + [','] + EncodeItems(xs[1..])
  }

  /** `JSON.stringify(xs)` for an array of strings. */
  function Encode(xs: seq<string>): string
  {
    ['['] + EncodeItems(xs) + [']']
  }

  // ---------------------------------------------------------------- decoding

  /** A character that can begin a JSON value. */
  predicate StartsValue(c: char)
  {
    c == '{' || c == '[' || c == '"' || c == '-' || '0' <= c <= '9' || c == 't' || c == 'f' || c == 'n'
  }

  predicate IsBlank(c: char)
  {
    c == ' ' || c == '\t' || c == '\n' || c == '\r'
  }

  /** Drops the JSON whitespace at the front of `s`. */
  function SkipBlanks(s: string): (r: string)
    ensures |r| <= |s|
    ensures r == [] || !IsBlank(r[0])
  {
    if s != [] && IsBlank(s[0]) then SkipBlanks(s[1..]) else s
  }

  /** The value of a hexadecimal digit of either case. */
  function HexValue(c: char): Option<nat>
  {
    if '0' <= c <= '9' then Some(c as int - '0' as int)
    else if 'a' <= c <= 'f' then Some(c as int - 'a' as int + 10)
    else if 'A' <= c <= 'F' then Some(c as int - 'A' as int + 10)
    else None
  }

  /** The character named by the four hex digits of a `\uXXXX` escape. */
  function UnicodeEscape(h: string): Result<char, ParseError>
    requires |h| == 4
  {
    match (HexValue(h[0]), HexValue(h[1]), HexValue(h[2]), HexValue(h[3]))
    case (Some(a), Some(b), Some(c), Some(d)) =>
      var n := ((a * 16 + b) * 16 + c) * 16 + d;
      if 0xD800 <= n < 0xE000 then Failure(Unsupported) else Success(n as char)
    case _ => Failure(UnexpectedChar(h[0]))
  }

  /** The character a two-character escape `\e` stands for. */
  function ShortEscape(e: char): Option<char>
  {
    if e == '"' then Some('"')
    else if e == '\\' then Some('\\')
    else if e == '/' then Some('/')
    else if e == 'b' then Some(0x08 as char)
    else if e == 't' then Some(0x09 as char)
    else if e == 'n' then Some(0x0A as char)
    else if e == 'f' then Some(0x0C as char)
    else if e == 'r' then Some(0x0D as char)
    else None
  }

  /**
   * Reads the body of a string literal up to its closing quote; `s` starts
   * just after the opening quote. Returns the string and what follows the
   * closing quote.
   */
  function ParseChars(s: string): (r: Result<(string, string), ParseError>)
    ensures r.Success? ==> |r.value.1| < |s|
    decreases |s|
  {
    if s == [] then Failure(UnexpectedEnd)
    else if s[0] == '"' then Success(([], s[1..]))
    else if s[0] == '\\' then
      if |s| < 2 then Failure(UnexpectedEnd)
      else if s[1] == 'u' then
        if |s| < 6 then Failure(UnexpectedEnd)
        else
          var c :- UnicodeEscape(s[2..6]);
          var more :- ParseChars(s[6..]);
          Success(([c] + more.0, more.1))
      else
        match ShortEscape(s[1])
        case None => Failure(UnexpectedChar(s[1]))
        case Some(c) =>
          var more :- ParseChars(s[2..]);
          Success(([c] + more.0, more.1))
    else if (s[0] as int) < 0x20 then Failure(UnexpectedChar(s[0]))
    else
      var more :- ParseChars(s[1..]);
      Success(([s[0]] + more.0, more.1))
  }

  /**
   * Reads one or more comma-separated string literals and the `]` that
   * closes the array; returns them and what follows the `]`.
   */
  function ParseItems(s: string): Result<(seq<string>, string), ParseError>
    decreases |s|
  {
    var t := SkipBlanks(s);
    if t == [] then Failure(UnexpectedEnd)
    else if t[0] != '"' then Failure(if StartsValue(t[0]) then Unsupported else UnexpectedChar(t[0]))
    else
      var item :- ParseChars(t[1..]);
      var u := SkipBlanks(item.1);
      if u == [] then Failure(UnexpectedEnd)
      else if u[0] == ']' then Success(([item.0], u[1..]))
      else if u[0] == ',' then
        var more :- ParseItems(u[1..]);
        Success(([item.0] + more.0, more.1))
      else Failure(UnexpectedChar(u[0]))
  }

  /**
   * `JSON.parse(s)` where the result is an array of strings. Any other text
   * fails. A character that no JSON value may hold where it stands gives
   * `UnexpectedChar` or `UnexpectedEnd`, where `JSON.parse` throws. A value
   * other than an array at the top, or other than a string inside the array,
   * gives `Unsupported` as soon as its first character is seen, without
   * reading further: such text may be well-formed JSON, which `JSON.parse`
   * returns, or malformed later on. A `\u` escape naming a UTF-16 surrogate
   * also gives `Unsupported`: `JSON.parse` accepts it, but it has no
   * counterpart among Dafny's characters.
   */
  function Decode(s: string): Result<seq<string>, ParseError>
  {
    var t := SkipBlanks(s);
    if t == [] then Failure(UnexpectedEnd)
    else if t[0] != '[' then Failure(if StartsValue(t[0]) then Unsupported else UnexpectedChar(t[0]))
    else
      var u := SkipBlanks(t[1..]);
      var items :-
        if u != [] && u[0] == ']' then Success(([], u[1..])) else ParseItems(u);
      var trailing := SkipBlanks(items.1);
      if trailing == [] then Success(items.0) else Failure(UnexpectedChar(trailing[0]))
  }

  // ---------------------------------------------------------------- round trip

  lemma HexRoundTrip(d: nat)
    requires d < 16
    ensures HexValue(HexDigit(d)) == Some(d)
  {
  }

  /** Reading back the escape of one character yields that character. */
  lemma ParseEscapedChar(c: char, tail: string)
    requires ParseChars(tail).Success?
    ensures ParseChars(EscapeChar(c) + tail)
         == Success(([c] + ParseChars(tail).value.0, ParseChars(tail).value.1))
  {
    var s := EscapeChar(c) + tail;
    var n := c as int;
    if c == '"' || c == '\\' || n == 0x08 || n == 0x09 || n == 0x0A || n == 0x0C || n == 0x0D {
      assert s[2..] == tail;
    } else if n < 0x20 {
      HexRoundTrip(n / 16);
      HexRoundTrip(n % 16);
      assert s[2..6] == ['0', '0', HexDigit(n / 16), HexDigit(n % 16)];
      assert UnicodeEscape(s[2..6]) == Success(c);
      assert s[6..] == tail;
    } else {
      assert s[1..] == tail;
    }
  }

  lemma {:induction false} ParseEscapedString(x: string, rest: string)
    ensures ParseChars(EscapeString(x) + ['"'] + rest) == Success((x, rest))
  {
    if x == [] {
      assert EscapeString(x) + ['"'] + rest == ['"'] + rest;
    } else {
      var tail := EscapeString(x[1..]) + ['"'] + rest;
      ParseEscapedString(x[1..], rest);
      ParseEscapedChar(x[0], tail);
      assert EscapeString(x) + ['"'] + rest == EscapeChar(x[0]) + tail;
      assert [x[0]] + x[1..] == x;
    }
  }

  /** One quoted item, followed by `]` or by `,` and the other items. */
  lemma ParseQuotedItem(x: string, tail: string)
    requires tail != [] && (tail[0] == ']' || tail[0] == ',')
    ensures tail[0] == ']' ==> ParseItems(Quote(x) + tail) == Success(([x], tail[1..]))
    ensures tail[0] == ',' && ParseItems(tail[1..]).Success? ==>
      ParseItems(Quote(x) + tail)
        == Success(([x] + ParseItems(tail[1..]).value.0, ParseItems(tail[1..]).value.1))
  {
    var s := Quote(x) + tail;
    assert s == ['"'] + (EscapeString(x) + ['"'] + tail);
    assert SkipBlanks(s) == s;
    ParseEscapedString(x, tail);
    assert s[1..] == EscapeString(x) + ['"'] + tail;
    assert SkipBlanks(tail) == tail;
  }

  lemma ParseEncodedLast(x: string, rest: string)
    ensures ParseItems(EncodeItems([x]) + [']'] + rest) == Success(([x], rest))
  {
    ParseQuotedItem(x, [']'] + rest);
    assert EncodeItems([x]) + [']'] + rest == Quote(x) + ([']'] + rest);
    assert ([']'] + rest)[1..] == rest;
  }

  /** Regrouping the text of an item, a comma, the other items and the `]`. */
  lemma Regroup(item: string, items: string, rest: string)
    ensures item + [','] + items + [']'] + rest == item + ([','] + (items + [']'] + rest))
  {
  }

  lemma {:induction false} ParseEncodedItems(xs: seq<string>, rest: string)
    requires xs != []
    ensures ParseItems(EncodeItems(xs) + [']'] + rest) == Success((xs, rest))
  {
    if |xs| == 1 {
      ParseEncodedLast(xs[0], rest);
      assert xs == [xs[0]];
    } else {
      var more := EncodeItems(xs[1..]) + [']'] + rest;
      ParseEncodedItems(xs[1..], rest);
      ParseQuotedItem(xs[0], [','] + more);
      assert ([','] + more)[1..] == more;
      assert EncodeItems(xs) == Quote(xs[0]) + [','] + EncodeItems(xs[1..]);
      Regroup(Quote(xs[0]), EncodeItems(xs[1..]), rest);
      assert [xs[0]] + xs[1..] == xs;
    }
  }

  /** What `JSON.stringify` writes, `JSON.parse` reads back unchanged. */
  lemma DecodeEncode(xs: seq<string>)
    ensures Decode(Encode(xs)) == Success(xs)
  {
    var s := Encode(xs);
    assert SkipBlanks(s) == s;
    if xs == [] {
      assert s == ['[', ']'];
    } else {
      assert s[1..] == EncodeItems(xs) + [']'] + [];
      assert EncodeItems(xs)[0] == '"';
      assert SkipBlanks(s[1..]) == s[1..];
      ParseEncodedItems(xs, []);
    }
  }
}
