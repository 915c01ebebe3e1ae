/**
 * The builder's URL-query and form encoder: `query(_:)` visits the top-level keys in
 * ascending order and flattens each value with `queryComponents(_:value:)` (a nested
 * dictionary `d` under key `k` gives keys `k[d-key]`, an array gives `k[]` for each
 * element); every key and value is percent-escaped by `escape(_:)`, then the pairs are
 * written `key=value` and joined with `&`.
 */
module Query {
  import opened Wrappers
  import opened Text
  import opened LeafTypes
  import opened KeyOrder

  /**
   * A parameter value of type `Any`, as `queryComponents` distinguishes them. A nested
   * dictionary lists its entries in the dictionary's own iteration order.
   */
  datatype Param =
    | PString(text: string)                   // any other value, by its description `"\(value)"`
    | PNumber(number: int)                    // a non-Boolean `NSNumber` holding an integer
    | PBool(flag: bool)                       // a `Bool`, or an `NSNumber` whose type is `CFBoolean`
    | PList(items: seq<Param>)                // an `[Any]`
    | PDict(entries: seq<(string, Param)>)    // a `[String: Any]`
  {
    predicate IsScalar() { PString? || PNumber? || PBool? }
  }

  /** The text a scalar value is escaped from: Booleans become `1` / `0`. */
  function ScalarText(v: Param): string
    requires v.IsScalar()
  {
    match v
    case PBool(b) => if b then "1" else "0"
    case PNumber(n) => IntToString(n)
    case PString(t) => t
  }

  /** The general delimiters of section 2.2 of RFC 3986 that `escape` encodes. */
  const GeneralDelimiters: set<char> := {':', '#', '[', ']', '@'}

  /** The sub-delimiters of section 2.2 of RFC 3986, all of which `escape` encodes. */
  const SubDelimiters: set<char> := {'!', '$', '&', '\'', '(', ')', '*', '+', ',', ';', '='}

  /**
   * The characters `CharacterSet.urlQueryAllowed` contains: those section 3.4 of
   * RFC 3986 lets a query hold unencoded. The encoder takes the set as a parameter
   * (`queryAllowed` below); this constant is the platform's value of it.
   */
  const UrlQueryAllowed: set<char> :=
    (set c: char | 'a' <= c <= 'z') + (set c: char | 'A' <= c <= 'Z') + (set c: char | '0' <= c <= '9')
    + {'-', '.', '_', '~', '!', '$', '&', '\'', '(', ')', '*', '+', ',', ';', '=', ':', '@', '/', '?'}

  /** The allowed set `escape` uses: the query characters less both delimiter sets. */
  function EscapeAllowed(queryAllowed: set<char>): (r: set<char>)
    ensures r <= queryAllowed
    ensures r !! GeneralDelimiters && r !! SubDelimiters
  {
    queryAllowed - GeneralDelimiters - SubDelimiters
  }

  /** The UTF-8 encoding of one Unicode scalar value. */
  function Utf8(c: char): (r: seq<Byte>)
    ensures 1 <= |r| <= 4
    ensures |r| == 1 <==> c as int < 0x80
    ensures |r| == 1 ==> r[0] == c as int
  {
    var cp := c as int;
    if cp < 0x80 then [cp]
    else if cp < 0x800 then [0xC0 + cp / 0x40, 0x80 + cp % 0x40]
    else if cp < 0x1_0000 then [0xE0 + cp / 0x1000, 0x80 + (cp / 0x40) % 0x40, 0x80 + cp % 0x40]
    else [0xF0 + cp / 0x4_0000, 0x80 + (cp / 0x1000) % 0x40, 0x80 + (cp / 0x40) % 0x40, 0x80 + cp % 0x40]
  }

  /** The UTF-8 encoding of a string. */
  function Utf8String(s: string): seq<Byte>
  {
    if |s| == 0 then [] else Utf8(s[0]) + Utf8String(s[1..])
  }

  /** The length of a UTF-8 sequence, read from its lead byte. */
  function LeadLength(b: Byte): nat
  {
    if b < 0x80 then 1 else if b < 0xE0 then 2 else if b < 0xF0 then 3 else 4
  }

  /** The scalar value a UTF-8 sequence of one to four bytes encodes. */
  function Utf8Decode(u: seq<Byte>): int
    requires 1 <= |u| <= 4
  {
    var b: seq<int> := u;
    if |b| == 1 then b[0]
    else if |b| == 2 then (b[0] - 0xC0) * 0x40 + (b[1] - 0x80)
    else if |b| == 3 then (b[0] - 0xE0) * 0x1000 + (b[1] - 0x80) * 0x40 + (b[2] - 0x80)
    else (b[0] - 0xF0) * 0x4_0000 + (b[1] - 0x80) * 0x1000 + (b[2] - 0x80) * 0x40 + (b[3] - 0x80)
  }

  /** The lead byte tells the length, and decoding gives the scalar back. */
  lemma Utf8Decodes(c: char)
    ensures |Utf8(c)| == LeadLength(Utf8(c)[0])
    ensures Utf8Decode(Utf8(c)) == c as int
  {
    var cp := c as int;
    if cp < 0x80 {
    } else if cp < 0x800 {
      Utf8DecodesTwo(c);
    } else if cp < 0x1_0000 {
      Utf8DecodesThree(c);
    } else {
      Utf8DecodesFour(c);
    }
  }

  lemma Utf8DecodesTwo(c: char)
    requires 0x80 <= c as int < 0x800
    ensures |Utf8(c)| == 2 == LeadLength(Utf8(c)[0])
    ensures Utf8Decode(Utf8(c)) == c as int
  {
    var cp := c as int;
    assert Utf8(c) == [0xC0 + cp / 0x40, 0x80 + cp % 0x40];
    assert cp == (cp / 0x40) * 0x40 + cp % 0x40;
  }

  lemma Utf8DecodesThree(c: char)
    requires 0x800 <= c as int < 0x1_0000
    ensures |Utf8(c)| == 3 == LeadLength(Utf8(c)[0])
    ensures Utf8Decode(Utf8(c)) == c as int
  {
    var cp := c as int;
    assert Utf8(c) == [0xE0 + cp / 0x1000, 0x80 + (cp / 0x40) % 0x40, 0x80 + cp % 0x40];
    assert cp / 0x40 == (cp / 0x1000) * 0x40 + (cp / 0x40) % 0x40;
    assert cp == (cp / 0x40) * 0x40 + cp % 0x40;
  }

  lemma Utf8DecodesFour(c: char)
    requires 0x1_0000 <= c as int
    ensures |Utf8(c)| == 4 == LeadLength(Utf8(c)[0])
    ensures Utf8Decode(Utf8(c)) == c as int
  {
    var cp := c as int;
    assert Utf8(c) == [0xF0 + cp / 0x4_0000, 0x80 + (cp / 0x1000) % 0x40, 0x80 + (cp / 0x40) % 0x40, 0x80 + cp % 0x40];
    assert cp / 0x1000 == (cp / 0x4_0000) * 0x40 + (cp / 0x1000) % 0x40;
    assert cp / 0x40 == (cp / 0x1000) * 0x40 + (cp / 0x40) % 0x40;
    assert cp == (cp / 0x40) * 0x40 + cp % 0x40;
  }

  /** The upper-case hexadecimal digit for `d`. */
  function HexDigit(d: nat): (c: char)
    requires d < 16
    ensures IsUpperHex(c)
  {
    if d < 10 then ('0' as int + d) as char else ('A' as int + d - 10) as char
  }

  predicate IsUpperHex(c: char)
  {
    '0' <= c <= '9' || 'A' <= c <= 'F'
  }

  /** `%XY` for each byte, upper-case hexadecimal, as section 2.1 of RFC 3986 recommends. */
  function PercentEncoded(bytes: seq<Byte>): (r: string)
    ensures |r| == 3 * |bytes|
  {
    if |bytes| == 0 then []
    else ['%', HexDigit(bytes[0] / 16), HexDigit(bytes[0] % 16)] + PercentEncoded(bytes[1..])
  }

  /** One character of `addingPercentEncoding(withAllowedCharacters:)`. */
  function EscapeChar(allowed: set<char>, c: char): (r: string)
    ensures c in allowed ==> r == [c]
    ensures c !in allowed ==> r == PercentEncoded(Utf8(c))
  {
    if c in allowed then [c] else PercentEncoded(Utf8(c))
  }

  /**
   * `escape(_:)`: every character outside the allowed set is replaced by the
   * percent-encoding of its UTF-8 bytes. The `?? string` fallback of the source is
   * never taken, because a `string` here holds Unicode scalar values only.
   */
  function Escape(queryAllowed: set<char>, s: string): (r: string)
    ensures |s| <= |r|
  {
    if |s| == 0 then ""
    else EscapeChar(EscapeAllowed(queryAllowed), s[0]) + Escape(queryAllowed, s[1..])
  }

  /** A character `escape` may write: an allowed one, `%`, or an upper-case hexadecimal digit. */
  predicate EscapedChar(allowed: set<char>, c: char)
  {
    c in allowed || c == '%' || IsUpperHex(c)
  }

  lemma {:induction false} PercentEncodedChars(allowed: set<char>, bytes: seq<Byte>)
    ensures forall i :: 0 <= i < |PercentEncoded(bytes)| ==> EscapedChar(allowed, PercentEncoded(bytes)[i])
  {
    if |bytes| > 0 {
      PercentEncodedChars(allowed, bytes[1..]);
      var head := ['%', HexDigit(bytes[0] / 16), HexDigit(bytes[0] % 16)];
      var tail := PercentEncoded(bytes[1..]);
      forall i | 0 <= i < |head + tail| ensures EscapedChar(allowed, (head + tail)[i]) {
        if i >= 3 {
          assert (head + tail)[i] == tail[i - 3];
        }
      }
    }
  }

  lemma {:induction false} EscapeChars(queryAllowed: set<char>, s: string)
    ensures forall i :: 0 <= i < |Escape(queryAllowed, s)| ==>
      EscapedChar(EscapeAllowed(queryAllowed), Escape(queryAllowed, s)[i])
  {
    if |s| > 0 {
      var allowed := EscapeAllowed(queryAllowed);
      var head := EscapeChar(allowed, s[0]);
      var tail := Escape(queryAllowed, s[1..]);
      EscapeChars(queryAllowed, s[1..]);
      if s[0] !in allowed {
        PercentEncodedChars(allowed, Utf8(s[0]));
      }
      forall i | 0 <= i < |head + tail| ensures EscapedChar(allowed, (head + tail)[i]) {
        if i >= |head| {
          assert (head + tail)[i] == tail[i - |head|];
        } else {
          assert (head + tail)[i] == head[i];
        }
      }
    }
  }

  /**
   * No character `escape` writes is a delimiter of section 2.2 of RFC 3986: in
   * particular no `&` and no `=`, so the rendered pairs can be split apart again.
   */
  lemma EscapeHasNoDelimiters(queryAllowed: set<char>, s: string)
    ensures forall i :: 0 <= i < |Escape(queryAllowed, s)| ==>
      Escape(queryAllowed, s)[i] !in GeneralDelimiters && Escape(queryAllowed, s)[i] !in SubDelimiters
  {
    EscapeChars(queryAllowed, s);
  }

  /** Text made only of allowed characters other than the delimiters is left as it is. */
  lemma {:induction false} EscapeKeepsAllowed(queryAllowed: set<char>, s: string)
    requires forall i :: 0 <= i < |s| ==> s[i] in EscapeAllowed(queryAllowed)
    ensures Escape(queryAllowed, s) == s
  {
    if |s| > 0 {
      EscapeKeepsAllowed(queryAllowed, s[1..]);
      assert s == [s[0]] + s[1..];
    }
  }

  // ---------------------------------------------------------------------------
  // Percent-decoding, the reference the escaping is checked against

  predicate IsHex(c: char)
  {
    '0' <= c <= '9' || 'A' <= c <= 'F' || 'a' <= c <= 'f'
  }

  function HexValue(c: char): (r: nat)
    requires IsHex(c)
    ensures r < 16
  {
    if '0' <= c <= '9' then c as int - '0' as int
    else if 'A' <= c <= 'F' then c as int - 'A' as int + 10
    else c as int - 'a' as int + 10
  }

  /**
   * Percent-decoding as section 2.1 of RFC 3986 describes it: `%XY` is the byte with
   * hexadecimal value `XY`, an ASCII character is its own byte; anything else (a
   * truncated escape, a raw non-ASCII character) does not decode.
   */
  function PercentDecode(t: string): Option<seq<Byte>>
  {
    if |t| == 0 then Some([])
    else if t[0] == '%' then
      if |t| >= 3 && IsHex(t[1]) && IsHex(t[2]) then
        match PercentDecode(t[3..])
        case Some(rest) => Some([HexValue(t[1]) * 16 + HexValue(t[2])] + rest)
        case None => None
      else None
    else if t[0] as int < 0x80 then
      match PercentDecode(t[1..])
      case Some(rest) => Some([t[0] as int] + rest)
      case None => None
    else None
  }

  // ---------------------------------------------------------------------------
  // The components of one parameter, and the whole query

  /** `queryComponents(key, value: v)` */
  function Components(queryAllowed: set<char>, key: string, v: Param): seq<(string, string)>
    decreases v, 1, 0
  {
    match v
    case PDict(_) => EntryComponents(queryAllowed, key, v, 0)
    case PList(_) => ItemComponents(queryAllowed, key, v, 0)
    case _ => [(Escape(queryAllowed, key), Escape(queryAllowed, ScalarText(v)))]
  }

  /** The components of the entries of dictionary `v` from the `i`-th on, under `key[entry-key]`. */
  function EntryComponents(queryAllowed: set<char>, key: string, v: Param, i: nat): seq<(string, string)>
    requires v.PDict? && i <= |v.entries|
    decreases v, 0, |v.entries| - i
  {
    if i == |v.entries| then []
    else
      assert v.entries[i] in v.entries;
      Components(queryAllowed, key + "[" + v.entries[i].0 + "]", v.entries[i].1)
      + EntryComponents(queryAllowed, key, v, i + 1)
  }

  /** The components of the items of array `v` from the `i`-th on, each under `key[]`. */
  function ItemComponents(queryAllowed: set<char>, key: string, v: Param, i: nat): seq<(string, string)>
    requires v.PList? && i <= |v.items|
    decreases v, 0, |v.items| - i
  {
    if i == |v.items| then []
    else
      assert v.items[i] in v.items;
      Components(queryAllowed, key + "[]", v.items[i]) + ItemComponents(queryAllowed, key, v, i + 1)
  }

  /** The components of the given keys of `parameters`, in that order. */
  function KeysComponents(queryAllowed: set<char>, parameters: map<string, Param>, ks: seq<string>): seq<(string, string)>
    requires forall i :: 0 <= i < |ks| ==> ks[i] in parameters
  {
    if |ks| == 0 then []
    else KeysComponents(queryAllowed, parameters, ks[..|ks| - 1])
         + Components(queryAllowed, ks[|ks| - 1], parameters[ks[|ks| - 1]])
  }

  /** `"\($0)=\($1)"` */
  function RenderPair(p: (string, string)): string
  {
    p.0 + "=" + p.1
  }

  /** `components.map { "\($0)=\($1)" }.joined(separator: "&")` */
  function Render(components: seq<(string, string)>): string
  {
    Join(Map(components, RenderPair), "&")
  }

  /** What `query(parameters)` returns: the components of every key, keys in ascending order. */
  ghost function QueryString(queryAllowed: set<char>, parameters: map<string, Param>): string
  {
    var ks := Sorted(parameters.Keys);
    Render(KeysComponents(queryAllowed, parameters, ks))
  }

  /** `queryComponents(_:value:)` */
  method QueryComponents(queryAllowed: set<char>, key: string, value: Param) returns (components: seq<(string, string)>)
    ensures components == Components(queryAllowed, key, value)
    decreases value, 1
  {
    match value
    case PDict(_) =>
      components := DictionaryComponents(queryAllowed, key, value);
    case PList(_) =>
      components := ArrayComponents(queryAllowed, key, value);
    case _ =>
      components := [(Escape(queryAllowed, key), Escape(queryAllowed, ScalarText(value)))];
  }

  /** The source's `for (nestedKey, value) in dictionary` loop of `queryComponents`. */
  method DictionaryComponents(queryAllowed: set<char>, key: string, value: Param) returns (components: seq<(string, string)>)
    requires value.PDict?
    ensures components == EntryComponents(queryAllowed, key, value, 0)
    decreases value, 0
  {
    components := [];
    for i := 0 to |value.entries|
      invariant components + EntryComponents(queryAllowed, key, value, i) == EntryComponents(queryAllowed, key, value, 0)
    {
      var entry := value.entries[i];
      assert entry in value.entries;
      var sub := QueryComponents(queryAllowed, key + "[" + entry.0 + "]", entry.1);
      ghost var later := EntryComponents(queryAllowed, key, value, i + 1);
      assert EntryComponents(queryAllowed, key, value, i) == sub + later;
      assert components + (sub + later) == (components + sub) + later;
      components := components + sub;
    }
  }

  /** The source's `for value in array` loop of `queryComponents`. */
  method ArrayComponents(queryAllowed: set<char>, key: string, value: Param) returns (components: seq<(string, string)>)
    requires value.PList?
    ensures components == ItemComponents(queryAllowed, key, value, 0)
    decreases value, 0
  {
    components := [];
    for i := 0 to |value.items|
      invariant components + ItemComponents(queryAllowed, key, value, i) == ItemComponents(queryAllowed, key, value, 0)
    {
      var item := value.items[i];
      assert item in value.items;
      var sub := QueryComponents(queryAllowed, key + "[]", item);
      ghost var later := ItemComponents(queryAllowed, key, value, i + 1);
      assert ItemComponents(queryAllowed, key, value, i) == sub + later;
      assert components + (sub + later) == (components + sub) + later;
      components := components + sub;
    }
  }

  /** `query(_:)` */
  method Query(queryAllowed: set<char>, parameters: map<string, Param>) returns (r: string)
    ensures r == QueryString(queryAllowed, parameters)
  {
    var keys := SortKeys(parameters.Keys);
    assert forall j :: 0 <= j < |keys| ==> keys[j] in parameters by {
      forall j | 0 <= j < |keys| ensures keys[j] in parameters {
        assert keys[j] in keys;
      }
    }
    var components := ComponentsOfKeys(queryAllowed, parameters, keys);
    r := Render(components);
  }

  /** The `for key in parameters.keys.sorted(by: <)` loop of `query(_:)`. */
  method ComponentsOfKeys(queryAllowed: set<char>, parameters: map<string, Param>, keys: seq<string>)
    returns (components: seq<(string, string)>)
    requires forall j :: 0 <= j < |keys| ==> keys[j] in parameters
    ensures components == KeysComponents(queryAllowed, parameters, keys)
  {
    components := [];
    for i := 0 to |keys|
      invariant components == KeysComponents(queryAllowed, parameters, keys[..i])
    {
      var key := keys[i];
      var sub := QueryComponents(queryAllowed, key, parameters[key]);
      ghost var done := keys[..i + 1];
      assert done[..i] == keys[..i] && done[i] == key;
      components := components + sub;
    }
    assert keys[..|keys|] == keys;
  }

  // ---------------------------------------------------------------------------
  // Lemmas

  lemma {:induction false} PercentEncodedDecodes(bytes: seq<Byte>, rest: string)
    requires PercentDecode(rest).Some?
    ensures PercentDecode(PercentEncoded(bytes) + rest) == Some(bytes + PercentDecode(rest).value)
  {
    var decoded := PercentDecode(rest).value;
    if |bytes| == 0 {
      assert PercentEncoded(bytes) + rest == rest;
      assert bytes + decoded == decoded;
    } else {
      var b := bytes[0];
      var h, l := HexDigit(b / 16), HexDigit(b % 16);
      var tail := PercentEncoded(bytes[1..]) + rest;
      PercentEncodedDecodes(bytes[1..], rest);
      HexDigitValue(b / 16);
      HexDigitValue(b % 16);
      PercentDecodeEscape(h, l, tail);
      calc {
        PercentDecode(PercentEncoded(bytes) + rest);
        { assert PercentEncoded(bytes) + rest == ['%', h, l] + tail; }
        PercentDecode(['%', h, l] + tail);
        Some([HexValue(h) * 16 + HexValue(l)] + (bytes[1..] + decoded));
        { assert HexValue(h) * 16 + HexValue(l) == b; }
        Some([b] + (bytes[1..] + decoded));
        { assert [b] + (bytes[1..] + decoded) == bytes + decoded; }
        Some(bytes + decoded);
      }
    }
  }

  /** One `%XY` step of the decoder. */
  lemma PercentDecodeEscape(h: char, l: char, tail: string)
    requires IsHex(h) && IsHex(l) && PercentDecode(tail).Some?
    ensures PercentDecode(['%', h, l] + tail) == Some([HexValue(h) * 16 + HexValue(l)] + PercentDecode(tail).value)
  {
    var t := ['%', h, l] + tail;
    assert t[0] == '%' && t[1] == h && t[2] == l && t[3..] == tail;
  }

  /** A hexadecimal digit reads back as its value. */
  lemma HexDigitValue(d: nat)
    requires d < 16
    ensures IsHex(HexDigit(d)) && HexValue(HexDigit(d)) == d
  {
  }

  /**
   * Escaping is undone by percent-decoding: the decoded bytes are the UTF-8 encoding
   * of the original text. This holds whenever the allowed set is ASCII and does not
   * contain `%`, as `urlQueryAllowed` is and does not.
   */
  lemma {:induction false} EscapeDecodes(queryAllowed: set<char>, s: string)
    requires '%' !in queryAllowed
    requires forall c :: c in queryAllowed ==> c as int < 0x80
    ensures PercentDecode(Escape(queryAllowed, s)) == Some(Utf8String(s))
  {
    if |s| > 0 {
      var allowed := EscapeAllowed(queryAllowed);
      var rest := Escape(queryAllowed, s[1..]);
      EscapeDecodes(queryAllowed, s[1..]);
      if s[0] in allowed {
        var t := [s[0]] + rest;
        assert t[1..] == rest;
      } else {
        PercentEncodedDecodes(Utf8(s[0]), rest);
      }
    }
  }

  /** Equal UTF-8 encodings of a character followed by anything are of equal characters. */
  lemma Utf8Prefix(c: char, d: char, x: seq<Byte>, y: seq<Byte>)
    requires Utf8(c) + x == Utf8(d) + y
    ensures c == d && x == y
  {
    var u, v := Utf8(c), Utf8(d);
    Utf8Decodes(c);
    Utf8Decodes(d);
    assert u[0] == (u + x)[0] == (v + y)[0] == v[0];
    assert u == (u + x)[..|u|] && v == (v + y)[..|v|];
    assert x == (u + x)[|u|..] && y == (v + y)[|v|..];
  }

  lemma {:induction false} Utf8StringInjective(a: string, b: string)
    requires Utf8String(a) == Utf8String(b)
    ensures a == b
    decreases |a|
  {
    if |a| > 0 && |b| > 0 {
      Utf8Prefix(a[0], b[0], Utf8String(a[1..]), Utf8String(b[1..]));
      Utf8StringInjective(a[1..], b[1..]);
      assert a == [a[0]] + a[1..] && b == [b[0]] + b[1..];
    }
  }

  /** Distinct keys stay distinct once escaped, so the keys of a query can be told apart. */
  lemma EscapedKeysDistinct(queryAllowed: set<char>, a: string, b: string)
    requires '%' !in queryAllowed
    requires forall c :: c in queryAllowed ==> c as int < 0x80
    requires a != b
    ensures Escape(queryAllowed, a) != Escape(queryAllowed, b)
  {
    EscapeDecodes(queryAllowed, a);
    EscapeDecodes(queryAllowed, b);
    if Utf8String(a) == Utf8String(b) {
      Utf8StringInjective(a, b);
    }
  }

  /** Booleans are written `1` and `0`. */
  lemma BooleansAsDigits(queryAllowed: set<char>, key: string, b: bool)
    requires '0' in queryAllowed && '1' in queryAllowed
    ensures Components(queryAllowed, key, PBool(b)) == [(Escape(queryAllowed, key), if b then "1" else "0")]
  {
    EscapeKeepsAllowed(queryAllowed, if b then "1" else "0");
  }

  /** A flat parameter map: every value is a scalar. */
  ghost predicate Flat(parameters: map<string, Param>)
  {
    forall k :: k in parameters ==> parameters[k].IsScalar()
  }

  /** The `key=value` text of one top-level scalar parameter. */
  function FlatPair(queryAllowed: set<char>, parameters: map<string, Param>, k: string): string
    requires k in parameters && parameters[k].IsScalar()
  {
    Escape(queryAllowed, k) + "=" + Escape(queryAllowed, ScalarText(parameters[k]))
  }

  lemma {:induction false} FlatKeysComponents(queryAllowed: set<char>, parameters: map<string, Param>, ks: seq<string>)
    requires Flat(parameters)
    requires forall i :: 0 <= i < |ks| ==> ks[i] in parameters
    ensures |KeysComponents(queryAllowed, parameters, ks)| == |ks|
    ensures forall i :: 0 <= i < |ks| ==>
      KeysComponents(queryAllowed, parameters, ks)[i]
        == (Escape(queryAllowed, ks[i]), Escape(queryAllowed, ScalarText(parameters[ks[i]])))
  {
    if |ks| > 0 {
      var init := ks[..|ks| - 1];
      FlatKeysComponents(queryAllowed, parameters, init);
      forall i | 0 <= i < |ks| - 1 ensures init[i] == ks[i] { }
    }
  }

  /** No `&` inside a rendered pair of escaped texts, and its only `=` is the joint. */
  lemma RenderedPairSplits(queryAllowed: set<char>, a: string, b: string)
    ensures forall k :: 0 <= k < |RenderPair((Escape(queryAllowed, a), Escape(queryAllowed, b)))| ==>
      RenderPair((Escape(queryAllowed, a), Escape(queryAllowed, b)))[k] != '&'
    ensures Split(RenderPair((Escape(queryAllowed, a), Escape(queryAllowed, b))), "=")
         == [Escape(queryAllowed, a), Escape(queryAllowed, b)]
  {
    var x, y := Escape(queryAllowed, a), Escape(queryAllowed, b);
    EscapeHasNoDelimiters(queryAllowed, a);
    EscapeHasNoDelimiters(queryAllowed, b);
    forall k | 0 <= k < |x + "=" + y| ensures (x + "=" + y)[k] != '&' {
      if k < |x| {
        assert (x + "=" + y)[k] == x[k];
      } else if k > |x| {
        assert (x + "=" + y)[k] == y[k - |x| - 1];
      }
    }
    assert Join([x, y], "=") == x + "=" + y;
    SplitJoin([x, y], "=");
  }

  /**
   * A query of scalar parameters splits at `&` into exactly one `key=value` piece per
   * key, in ascending key order; each piece splits at `=` into the escaped key and the
   * escaped value.
   */
  lemma FlatQuerySplits(queryAllowed: set<char>, parameters: map<string, Param>)
    requires Flat(parameters) && |parameters| > 0
    ensures var ks := Sorted(parameters.Keys);
      var pieces := Split(QueryString(queryAllowed, parameters), "&");
      && |pieces| == |ks| == |parameters|
      && forall i :: 0 <= i < |ks| ==>
           && pieces[i] == FlatPair(queryAllowed, parameters, ks[i])
           && Split(pieces[i], "=") == [Escape(queryAllowed, ks[i]), Escape(queryAllowed, ScalarText(parameters[ks[i]]))]
  {
    var ks := Sorted(parameters.Keys);
    var cs := KeysComponents(queryAllowed, parameters, ks);
    FlatKeysComponents(queryAllowed, parameters, ks);
    var pieces := Map(cs, RenderPair);
    forall i | 0 <= i < |pieces|
      ensures pieces[i] == FlatPair(queryAllowed, parameters, ks[i])
      ensures forall k :: 0 <= k < |pieces[i]| ==> pieces[i][k] != '&'
      ensures Split(pieces[i], "=") == [Escape(queryAllowed, ks[i]), Escape(queryAllowed, ScalarText(parameters[ks[i]]))]
    {
      RenderedPairSplits(queryAllowed, ks[i], ScalarText(parameters[ks[i]]));
    }
    SplitJoin(pieces, "&");
  }

  /** Escaping distributes over a leading character. */
  lemma EscapeCons(queryAllowed: set<char>, c: char, rest: string)
    ensures Escape(queryAllowed, [c] + rest) == EscapeChar(EscapeAllowed(queryAllowed), c) + Escape(queryAllowed, rest)
  {
    assert ([c] + rest)[1..] == rest;
  }
}
