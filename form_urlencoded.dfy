/** Query strings as the application/x-www-form-urlencoded format of the WHATWG
    URL Standard defines them: the parser that a web service applies to the
    query of a GET request, the escaping of `encodeURIComponent`, and the
    serializer that joins escaped name/value pairs with `&`. */
module FormUrlEncoded {
  import opened Js

  /** The characters `encodeURIComponent` leaves alone. */
  predicate Unreserved(c: char) {
    'A' <= c <= 'Z' || 'a' <= c <= 'z' || '0' <= c <= '9' ||
    c == '-' || c == '_' || c == '.' || c == '!' || c == '~' || c == '*' || c == '\'' || c == '(' || c == ')'
  }

  predicate IsHex(c: char) {
    '0' <= c <= '9' || 'A' <= c <= 'F' || 'a' <= c <= 'f'
  }

  function HexValue(c: char): (d: nat)
    requires IsHex(c)
    ensures d < 16
  {
    if c <= '9' then c as int - '0' as int
    else if c <= 'F' then c as int - 'A' as int + 10
    else c as int - 'a' as int + 10
  }

  /** The upper-case hex digit `encodeURIComponent` writes. */
  function HexDigit(d: nat): (c: char)
    requires d < 16
    ensures IsHex(c) && HexValue(c) == d
    ensures Unreserved(c)
  {
    if d < 10 then ('0' as int + d) as char else ('A' as int + d - 10) as char
  }

  /** A character is escaped when it is ASCII and not unreserved. */
  predicate Escaped(c: char) {
    c as int < 128 && !Unreserved(c)
  }

  /** `encodeURIComponent` on one character; characters beyond ASCII are kept as they are. */
  function EncodeChar(c: char): (e: string)
    ensures !Escaped(c) ==> e == [c]
    ensures Escaped(c) ==> |e| == 3 && e[0] == '%' && IsHex(e[1]) && IsHex(e[2])
    ensures Escaped(c) ==> HexValue(e[1]) < 8 && HexValue(e[1]) * 16 + HexValue(e[2]) == c as int
    ensures forall i :: 0 <= i < |e| ==> e[i] == '%' || e[i] == c || Unreserved(e[i])
  {
    if Escaped(c) then ['%', HexDigit(c as int / 16), HexDigit(c as int % 16)] else [c]
  }

  /** `encodeURIComponent(s)` */
  function Encode(s: string): (e: string)
    ensures forall i :: 0 <= i < |e| ==> e[i] != '&' && e[i] != '=' && e[i] != '+'
  {
    if s == [] then []
    else
      var head := EncodeChar(s[0]);
      assert forall i :: 0 <= i < |head| ==> head[i] != '&' && head[i] != '=' && head[i] != '+';
      head + Encode(s[1..])
  }

  /** Percent-decoding with `+` read as a space. A `%XX` whose value is below
      0x80 is one ASCII character; any other `%` stands for itself. */
  function Decode(s: string): (d: string)
    decreases |s|
  {
    if s == [] then []
    else if s[0] == '+' then [' '] + Decode(s[1..])
    else if s[0] == '%' && |s| >= 3 && IsHex(s[1]) && IsHex(s[2]) && HexValue(s[1]) < 8 then
      [(HexValue(s[1]) * 16 + HexValue(s[2])) as char] + Decode(s[3..])
    else [s[0]] + Decode(s[1..])
  }

  lemma DecodeEncodeChar(c: char, rest: string)
    ensures Decode(EncodeChar(c) + rest) == [c] + Decode(rest)
  {
    var e := EncodeChar(c) + rest;
    if Escaped(c) {
      assert e[3..] == rest;
    } else {
      assert e[1..] == rest;
    }
  }

  /** Decoding undoes the escaping, for every string. */
  lemma {:induction false} DecodeEncode(s: string)
    ensures Decode(Encode(s)) == s
    decreases |s|
  {
    if s != [] {
      DecodeEncodeChar(s[0], Encode(s[1..]));
      DecodeEncode(s[1..]);
      assert [s[0]] + s[1..] == s;
    }
  }

  /** No character that the parser or the decoder treats specially. */
  predicate Plain(s: string) {
    forall i :: 0 <= i < |s| ==> s[i] != '+' && s[i] != '%' && s[i] != '&' && s[i] != '='
  }

  /** A plain string decodes to itself. */
  lemma {:induction false} DecodePlain(s: string)
    requires Plain(s)
    ensures Decode(s) == s
    decreases |s|
  {
    if s != [] {
      DecodePlain(s[1..]);
      assert [s[0]] + s[1..] == s;
    }
  }

  /** A letter followed by `+`, as in the names of four blood groups, decodes
      to the letter and a space. */
  lemma PlusBecomesSpace(c: char)
    requires c != '+' && c != '%'
    ensures Decode([c, '+']) == [c, ' ']
  {
    assert [c, '+'][1..] == ['+'];
    assert ['+'][1..] == [];
  }

  /** `s.split(sep)`: the pieces between separators, always at least one. */
  function SplitOn(s: string, sep: char): (r: seq<string>)
    ensures |r| >= 1
    decreases |s|
  {
    if s == [] then [""]
    else
      var rest := SplitOn(s[1..], sep);
      if s[0] == sep then [""] + rest else [[s[0]] + rest[0]] + rest[1..]
  }

  lemma {:induction false} SplitOnPiece(a: string, sep: char, b: string)
    requires forall i :: 0 <= i < |a| ==> a[i] != sep
    ensures SplitOn(a + [sep] + b, sep) == [a] + SplitOn(b, sep)
    decreases |a|
  {
    if a == [] {
      assert a + [sep] + b == [sep] + b;
      assert ([sep] + b)[1..] == b;
    } else {
      assert (a + [sep] + b)[1..] == a[1..] + [sep] + b;
      SplitOnPiece(a[1..], sep, b);
      assert [a[0]] + a[1..] == a;
    }
  }

  lemma {:induction false} SplitOnWhole(a: string, sep: char)
    requires forall i :: 0 <= i < |a| ==> a[i] != sep
    ensures SplitOn(a, sep) == [a]
    decreases |a|
  {
    if a != [] {
      SplitOnWhole(a[1..], sep);
      assert [a[0]] + a[1..] == a;
    }
  }

  /** `segments.join("&")` */
  function Join(segments: seq<string>): string {
    if segments == [] then ""
    else if |segments| == 1 then segments[0]
    else segments[0] + "&" + Join(segments[1..])
  }

  /** A segment's name and value: the text before the first `=` and the text
      after it, or the whole segment and the empty value when it has no `=`. */
  function NameValue(segment: string): (string, string) {
    if segment == [] then ("", "")
    else if segment[0] == '=' then ("", segment[1..])
    else
      var nv := NameValue(segment[1..]);
      ([segment[0]] + nv.0, nv.1)
  }

  lemma {:induction false} NameValueOf(name: string, value: string)
    requires forall i :: 0 <= i < |name| ==> name[i] != '='
    ensures NameValue(name + "=" + value) == (name, value)
    decreases |name|
  {
    if name == [] {
      assert name + "=" + value == "=" + value;
      assert ("=" + value)[1..] == value;
    } else {
      assert (name + "=" + value)[1..] == name[1..] + "=" + value;
      NameValueOf(name[1..], value);
      assert [name[0]] + name[1..] == name;
    }
  }

  function ParsePair(segment: string): (string, string) {
    var nv := NameValue(segment);
    (Decode(nv.0), Decode(nv.1))
  }

  /** The pairs of the non-empty segments, in order. */
  function ParseSegments(segments: seq<string>): (r: seq<(string, string)>)
    ensures |r| <= |segments|
  {
    if segments == [] then []
    else if segments[0] == [] then ParseSegments(segments[1..])
    else [ParsePair(segments[0])] + ParseSegments(segments[1..])
  }

  /** The application/x-www-form-urlencoded parser: split on `&`, skip empty
      segments, split each at its first `=`, decode both halves. */
  function Parse(query: string): seq<(string, string)> {
    ParseSegments(SplitOn(query, '&'))
  }

  /** Joined segments without `&` split back into the same segments, and the
      parser reads each non-empty one as a pair. */
  lemma {:induction false} ParseJoin(segments: seq<string>)
    requires forall k :: 0 <= k < |segments| ==> segments[k] != []
    requires forall k, i :: 0 <= k < |segments| && 0 <= i < |segments[k]| ==> segments[k][i] != '&'
    ensures Parse(Join(segments)) == seq(|segments|, k requires 0 <= k < |segments| => ParsePair(segments[k]))
    decreases |segments|
  {
    if segments == [] {
      assert SplitOn("", '&') == [""];
    } else if |segments| == 1 {
      SplitOnWhole(segments[0], '&');
      assert ParseSegments([segments[0]]) == [ParsePair(segments[0])] + ParseSegments([]);
    } else {
      var rest := segments[1..];
      ParseJoin(rest);
      assert segments[0] + "&" + Join(rest) == segments[0] + ['&'] + Join(rest);
      SplitOnPiece(segments[0], '&', Join(rest));
      assert SplitOn(Join(segments), '&') == [segments[0]] + SplitOn(Join(rest), '&');
      assert ([segments[0]] + SplitOn(Join(rest), '&'))[1..] == SplitOn(Join(rest), '&');
    }
  }

  /** One `name=value` segment as a template literal writes it: nothing escaped. */
  function RawSegment(p: (string, string)): string {
    p.0 + "=" + p.1
  }

  /** One segment with name and value escaped. */
  function Segment(p: (string, string)): (s: string)
    ensures s != []
    ensures forall i :: 0 <= i < |s| ==> s[i] != '&'
    ensures ParsePair(s) == p
  {
    var n, v := Encode(p.0), Encode(p.1);
    NameValueOf(n, v);
    DecodeEncode(p.0);
    DecodeEncode(p.1);
    n + "=" + v
  }

  /** A query string built from pairs with both halves escaped. */
  function Serialize(pairs: seq<(string, string)>): string {
    Join(seq(|pairs|, k requires 0 <= k < |pairs| => Segment(pairs[k])))
  }

  /** A query string built from pairs with nothing escaped. */
  function SerializeRaw(pairs: seq<(string, string)>): string {
    Join(seq(|pairs|, k requires 0 <= k < |pairs| => RawSegment(pairs[k])))
  }

  /** Escaped serialization round-trips: the parser reads back every pair, in order. */
  lemma ParseSerialize(pairs: seq<(string, string)>)
    ensures Parse(Serialize(pairs)) == pairs
  {
    var segments := seq(|pairs|, k requires 0 <= k < |pairs| => Segment(pairs[k]));
    ParseJoin(segments);
  }

  /** Without escaping, the parser reads back the names and the decoded values,
      so a `+` in a value arrives as a space. */
  lemma ParseSerializeRaw(pairs: seq<(string, string)>)
    requires forall k :: 0 <= k < |pairs| ==> Plain(pairs[k].0)
    requires forall k, i :: 0 <= k < |pairs| && 0 <= i < |pairs[k].1| ==> pairs[k].1[i] != '&'
    ensures Parse(SerializeRaw(pairs)) == seq(|pairs|, k requires 0 <= k < |pairs| => (pairs[k].0, Decode(pairs[k].1)))
  {
    var segments := seq(|pairs|, k requires 0 <= k < |pairs| => RawSegment(pairs[k]));
    forall k | 0 <= k < |segments|
      ensures segments[k] != [] && ParsePair(segments[k]) == (pairs[k].0, Decode(pairs[k].1))
      ensures forall i :: 0 <= i < |segments[k]| ==> segments[k][i] != '&'
    {
      NameValueOf(pairs[k].0, pairs[k].1);
      DecodePlain(pairs[k].0);
      assert segments[k][|pairs[k].0|] == '=';
    }
    ParseJoin(segments);
  }

  /** Plain names and values pass unescaped without harm. */
  lemma ParseSerializeRawPlain(pairs: seq<(string, string)>)
    requires forall k :: 0 <= k < |pairs| ==> Plain(pairs[k].0) && Plain(pairs[k].1)
    ensures Parse(SerializeRaw(pairs)) == pairs
  {
    ParseSerializeRaw(pairs);
    forall k | 0 <= k < |pairs|
      ensures Decode(pairs[k].1) == pairs[k].1
    {
      DecodePlain(pairs[k].1);
    }
  }
}
