/**
 * The part of JSON the enforcer's provenance tag needs: an object whose
 * members hold a string or an array of strings.  `Serialise` prints an object
 * the way `JSON.stringify(value, null, 2)` does (two-space indentation, one
 * member or element per line, the same character escapes); `Parse` reads the
 * same subset back the way `JSON.parse` does (any JSON whitespace between
 * tokens, every JSON string escape), and rejects everything else.
 */
module Json {
  import opened Wrappers

  datatype Value = JString(str: string) | JArray(items: seq<string>)
  datatype Member = Member(key: string, value: Value)
  datatype Object = Object(members: seq<Member>)

  /** Member `i` is the last one with key `key`. */
  predicate LastKey(members: seq<Member>, i: int, key: string) {
    0 <= i < |members| && members[i].key == key
    && forall j :: i < j < |members| ==> members[j].key != key
  }

  /** `obj[key]`: with a repeated key the last occurrence wins, as in `JSON.parse`. */
  function Lookup(members: seq<Member>, key: string): (v: Option<Value>)
    ensures v.None? <==> forall i :: 0 <= i < |members| ==> members[i].key != key
    ensures v.Some? ==> exists i :: 0 <= i < |members| && members[i] == Member(key, v.value)
    ensures v.Some? ==> exists i :: LastKey(members, i, key) && members[i].value == v.value
  {
    if |members| == 0 then None
    else
      var n := |members| - 1;
      if members[n].key == key then
        assert LastKey(members, n, key);
        Some(members[n].value)
      else
        var v := Lookup(members[..n], key);
        LookupBefore(members, key, v);
        v
  }

  /** What a lookup in all but the final member tells, when the final member has another key. */
  lemma LookupBefore(members: seq<Member>, key: string, v: Option<Value>)
    requires |members| > 0 && members[|members| - 1].key != key
    requires var init := members[..|members| - 1];
      && (v.None? <==> forall i :: 0 <= i < |init| ==> init[i].key != key)
      && (v.Some? ==> exists i :: LastKey(init, i, key) && init[i].value == v.value)
    ensures v.None? <==> forall i :: 0 <= i < |members| ==> members[i].key != key
    ensures v.Some? ==> exists i :: 0 <= i < |members| && members[i] == Member(key, v.value)
    ensures v.Some? ==> exists i :: LastKey(members, i, key) && members[i].value == v.value
  {
    var n := |members| - 1;
    assert forall i :: 0 <= i < n ==> members[..n][i] == members[i];
    if v.Some? {
      var i :| LastKey(members[..n], i, key) && members[..n][i].value == v.value;
      forall j | i < j < |members| ensures members[j].key != key {
        if j < n { assert members[j] == members[..n][j]; }
      }
      assert LastKey(members, i, key);
    }
  }

  // ----- printing -----

  function HexDigit(n: nat): (c: char)
    requires n < 16
  {
    if n < 10 then ('0' as int + n) as char else ('a' as int + n - 10) as char
  }

  /** One character inside a JSON string literal, escaped as `JSON.stringify` escapes it. */
  function EscapeChar(c: char): string
  {
    if c == '"' then ['\\', '"']
    else if c == '\\' then ['\\', '\\']
    else if c as int == 8 then ['\\', 'b']
    else if c as int == 9 then ['\\', 't']
    else if c as int == 10 then ['\\', 'n']
    else if c as int == 12 then ['\\', 'f']
    else if c as int == 13 then ['\\', 'r']
    else if c as int < 0x20 then ['\\', 'u', '0', '0', HexDigit(c as int / 16), HexDigit(c as int % 16)]
    else [c]
  }

  function Escape(s: string): string
  {
    if |s| == 0 then [] else EscapeChar(s[0]) + Escape(s[1..])
  }

  function Quote(s: string): string
  {
    "\"" + Escape(s) + "\""
  }

  function SerialiseItems(xs: seq<string>): string
    requires |xs| > 0
  {
    "    " + Quote(xs[0]) + if |xs| == 1 then "" else ",\n" + SerialiseItems(xs[1..])
  }

  function SerialiseValue(v: Value): string
  {
    match v
    case JString(s) => Quote(s)
    case JArray(xs) => if |xs| == 0 then "[]" else "[\n" + SerialiseItems(xs) + "\n  ]"
  }

  function SerialiseMembers(ms: seq<Member>): string
    requires |ms| > 0
  {
    "  " + Quote(ms[0].key) + ": " + SerialiseValue(ms[0].value)
      + if |ms| == 1 then "" else ",\n" + SerialiseMembers(ms[1..])
  }

  /** `JSON.stringify(o, null, 2)`. */
  function Serialise(o: Object): string
  {
    if |o.members| == 0 then "{}" else "{\n" + SerialiseMembers(o.members) + "\n}"
  }

  // ----- parsing -----

  predicate IsWhitespace(c: char) {
    c == ' ' || c == '\t' || c == '\n' || c == '\r'
  }

  predicate AllWhitespace(s: string) {
    forall i :: 0 <= i < |s| ==> IsWhitespace(s[i])
  }

  function SkipWhitespace(s: string): (t: string)
    ensures |t| <= |s|
    ensures |t| > 0 ==> !IsWhitespace(t[0])
  {
    if |s| > 0 && IsWhitespace(s[0]) then SkipWhitespace(s[1..]) else s
  }

  function HexValue(c: char): Option<nat>
  {
    if '0' <= c <= '9' then Some(c as int - '0' as int)
    else if 'a' <= c <= 'f' then Some(c as int - 'a' as int + 10)
    else if 'A' <= c <= 'F' then Some(c as int - 'A' as int + 10)
    else None
  }

  /** The character a backslash escape stands for; `s` starts just after the backslash. */
  function ParseEscape(s: string): (r: Option<(char, string)>)
    ensures r.Some? ==> |r.value.1| < |s|
  {
    if |s| == 0 then None
    else if s[0] == '"' || s[0] == '\\' || s[0] == '/' then Some((s[0], s[1..]))
    else if s[0] == 'b' then Some((8 as char, s[1..]))
    else if s[0] == 't' then Some((9 as char, s[1..]))
    else if s[0] == 'n' then Some((10 as char, s[1..]))
    else if s[0] == 'f' then Some((12 as char, s[1..]))
    else if s[0] == 'r' then Some((13 as char, s[1..]))
    else if s[0] == 'u' && |s| >= 5 then
      match (HexValue(s[1]), HexValue(s[2]), HexValue(s[3]), HexValue(s[4]))
      case (Some(a), Some(b), Some(c), Some(d)) =>
        if a >= 16 || b >= 16 || c >= 16 || d >= 16 then None
        else
          var code := a * 4096 + b * 256 + c * 16 + d;
          if 0xD800 <= code < 0xE000 then None else Some((code as char, s[5..]))
      case _ => None
    else None
  }

  /** The body of a string literal up to and including its closing quote. */
  function ParseChars(s: string): (r: Option<(string, string)>)
    ensures r.Some? ==> |r.value.1| < |s|
  {
    if |s| == 0 then None
    else if s[0] == '"' then Some(([], s[1..]))
    else if s[0] == '\\' then
      match ParseEscape(s[1..])
      case None => None
      case Some((c, rest)) =>
        match ParseChars(rest)
        case None => None
        case Some((t, rest')) => Some(([c] + t, rest'))
    else if (s[0] as int) < 0x20 then None
    else
      match ParseChars(s[1..])
      case None => None
      case Some((t, rest')) => Some(([s[0]] + t, rest'))
  }

  function ParseString(s: string): (r: Option<(string, string)>)
    ensures r.Some? ==> |r.value.1| < |s|
  {
    if |s| > 0 && s[0] == '"' then ParseChars(s[1..]) else None
  }

  /** A non-empty list of strings and the closing bracket; `s` starts at the first string. */
  function ParseItems(s: string): (r: Option<(seq<string>, string)>)
    ensures r.Some? ==> |r.value.1| < |s|
    decreases |s|
  {
    match ParseString(s)
    case None => None
    case Some((x, rest)) =>
      var t := SkipWhitespace(rest);
      if |t| > 0 && t[0] == ']' then Some(([x], t[1..]))
      else if |t| > 0 && t[0] == ',' then
        match ParseItems(SkipWhitespace(t[1..]))
        case None => None
        case Some((xs, rest')) => Some(([x] + xs, rest'))
      else None
  }

  function ParseValue(s: string): (r: Option<(Value, string)>)
    ensures r.Some? ==> |r.value.1| < |s|
  {
    if |s| > 0 && s[0] == '"' then
      match ParseString(s)
      case None => None
      case Some((x, rest)) => Some((JString(x), rest))
    else if |s| > 0 && s[0] == '[' then
      var t := SkipWhitespace(s[1..]);
      if |t| > 0 && t[0] == ']' then Some((JArray([]), t[1..]))
      else
        match ParseItems(t)
        case None => None
        case Some((xs, rest)) => Some((JArray(xs), rest))
    else None
  }

  /** A non-empty list of members and the closing brace; `s` starts at the first key. */
  function ParseMembers(s: string): (r: Option<(seq<Member>, string)>)
    ensures r.Some? ==> |r.value.1| < |s|
    decreases |s|
  {
    match ParseString(s)
    case None => None
    case Some((key, rest)) =>
      var t := SkipWhitespace(rest);
      if |t| == 0 || t[0] != ':' then None
      else
        match ParseValue(SkipWhitespace(t[1..]))
        case None => None
        case Some((v, rest')) =>
          var u := SkipWhitespace(rest');
          if |u| > 0 && u[0] == '}' then Some(([Member(key, v)], u[1..]))
          else if |u| > 0 && u[0] == ',' then
            match ParseMembers(SkipWhitespace(u[1..]))
            case None => None
            case Some((ms, rest'')) => Some(([Member(key, v)] + ms, rest''))
          else None
  }

  /** `JSON.parse` on the subset: None stands for the `SyntaxError` it throws. */
  function Parse(text: string): Option<Object>
  {
    var t := SkipWhitespace(text);
    if |t| == 0 || t[0] != '{' then None
    else
      var u := SkipWhitespace(t[1..]);
      if |u| > 0 && u[0] == '}' then
        if SkipWhitespace(u[1..]) == [] then Some(Object([])) else None
      else
        match ParseMembers(u)
        case None => None
        case Some((ms, rest)) => if SkipWhitespace(rest) == [] then Some(Object(ms)) else None
  }

  // ----- the round trip -----

  lemma SkipAfterWhitespace(w: string, t: string)
    requires AllWhitespace(w)
    requires |t| > 0 ==> !IsWhitespace(t[0])
    ensures SkipWhitespace(w + t) == t
  {
    if |w| > 0 {
      assert (w + t)[1..] == w[1..] + t;
      SkipAfterWhitespace(w[1..], t);
    }
  }

  lemma HexRoundTrip(n: nat)
    requires n < 16
    ensures HexValue(HexDigit(n)) == Some(n)
  {
  }

  lemma {:induction false} CharsRoundTrip(s: string, rest: string)
    ensures ParseChars(Escape(s) + "\"" + rest) == Some((s, rest))
  {
    var text := Escape(s) + "\"" + rest;
    if |s| == 0 {
      assert text == ['"'] + rest;
    } else {
      var e, more := EscapeChar(s[0]), Escape(s[1..]);
      var tail := more + "\"" + rest;
      assert Escape(s) == e + more;
      assert text == e + tail;
      CharsRoundTrip(s[1..], rest);
      EscapeCharParses(s[0], tail, s[1..], rest);
      assert [s[0]] + s[1..] == s;
    }
  }

  /** One escaped character, then the rest of a literal, reads back as that character, then the rest. */
  lemma EscapeCharParses(c: char, tail: string, t: string, rest: string)
    requires ParseChars(tail) == Some((t, rest))
    ensures ParseChars(EscapeChar(c) + tail) == Some(([c] + t, rest))
  {
    var e := EscapeChar(c);
    if |e| == 1 {
      assert e == [c] && c != '"' && c != '\\' && c as int >= 0x20;
      PlainParses(c, tail, t, rest);
    } else {
      if |e| == 2 {
        ShortEscapeParses(c, tail);
      } else {
        UnicodeEscapeParses(c, tail);
      }
      EscapeThenChars(e + tail, c, tail, t, rest);
    }
  }

  lemma PlainParses(c: char, tail: string, t: string, rest: string)
    requires c != '"' && c != '\\' && c as int >= 0x20
    requires ParseChars(tail) == Some((t, rest))
    ensures ParseChars([c] + tail) == Some(([c] + t, rest))
  {
    assert ([c] + tail)[1..] == tail;
  }

  /** A backslash escape followed by the rest of a literal. */
  lemma EscapeThenChars(s: string, c: char, tail: string, t: string, rest: string)
    requires |s| > 0 && s[0] == '\\'
    requires ParseEscape(s[1..]) == Some((c, tail))
    requires ParseChars(tail) == Some((t, rest))
    ensures ParseChars(s) == Some(([c] + t, rest))
  {
  }

  lemma ShortEscapeParses(c: char, tail: string)
    requires |EscapeChar(c)| == 2
    ensures (EscapeChar(c) + tail)[0] == '\\'
    ensures ParseEscape((EscapeChar(c) + tail)[1..]) == Some((c, tail))
  {
    var e := EscapeChar(c);
    var x := e[1];
    assert (e + tail)[1..] == [x] + tail;
    assert ([x] + tail)[1..] == tail;
  }

  lemma UnicodeEscapeParses(c: char, tail: string)
    requires |EscapeChar(c)| == 6
    ensures (EscapeChar(c) + tail)[0] == '\\'
    ensures ParseEscape((EscapeChar(c) + tail)[1..]) == Some((c, tail))
  {
    var e := EscapeChar(c);
    var hi, lo := c as int / 16, c as int % 16;
    HexRoundTrip(hi);
    HexRoundTrip(lo);
    var u := ['u', '0', '0', HexDigit(hi), HexDigit(lo)] + tail;
    assert (e + tail)[1..] == u;
    assert u[5..] == tail;
  }

  lemma StringRoundTrip(s: string, rest: string)
    ensures ParseString(Quote(s) + rest) == Some((s, rest))
  {
    assert (Quote(s) + rest)[1..] == Escape(s) + "\"" + rest;
    CharsRoundTrip(s, rest);
  }

  lemma ItemsLast(s: string, x: string, after: string, rest: string)
    requires ParseString(s) == Some((x, after))
    requires SkipWhitespace(after) == "]" + rest
    ensures ParseItems(s) == Some(([x], rest))
  {
    assert ("]" + rest)[1..] == rest;
  }

  lemma ItemsMore(s: string, x: string, after: string, next: string, xs: seq<string>, rest: string)
    requires ParseString(s) == Some((x, after))
    requires SkipWhitespace(after) == "," + next
    requires ParseItems(SkipWhitespace(next)) == Some((xs, rest))
    ensures ParseItems(s) == Some(([x] + xs, rest))
  {
    assert ("," + next)[1..] == next;
  }

  /** What follows the first string of a printed non-empty array. */
  function ItemsAfter(xs: seq<string>, rest: string): string
    requires |xs| > 0
  {
    (if |xs| == 1 then "" else ",\n" + SerialiseItems(xs[1..])) + "\n  ]" + rest
  }

  lemma ItemsLayout(xs: seq<string>, rest: string)
    requires |xs| > 0
    ensures SkipWhitespace(SerialiseItems(xs) + "\n  ]" + rest) == Quote(xs[0]) + ItemsAfter(xs, rest)
  {
    var q := Quote(xs[0]);
    var tail := if |xs| == 1 then "" else ",\n" + SerialiseItems(xs[1..]);
    assert SerialiseItems(xs) == "    " + q + tail;
    Regroup("    ", q, tail, "\n  ]", rest);
    QuoteStart(xs[0]);
    SkipAfterWhitespace("    ", q + ItemsAfter(xs, rest));
  }

  lemma Regroup(a: string, b: string, c: string, d: string, e: string)
    ensures a + b + c + d + e == a + (b + (c + d + e))
  {
  }

  lemma QuoteStart(s: string)
    ensures |Quote(s)| > 0 && Quote(s)[0] == '"'
  {
  }

  lemma {:induction false} ItemsRoundTrip(xs: seq<string>, rest: string)
    requires |xs| > 0
    ensures ParseItems(SkipWhitespace(SerialiseItems(xs) + "\n  ]" + rest)) == Some((xs, rest))
  {
    ItemsLayout(xs, rest);
    var after := ItemsAfter(xs, rest);
    StringRoundTrip(xs[0], after);
    if |xs| == 1 {
      ItemsRoundTripLast(xs, rest);
    } else {
      var next := SerialiseItems(xs[1..]) + "\n  ]" + rest;
      ItemsRoundTrip(xs[1..], rest);
      ItemsRoundTripStep(xs, rest, next);
    }
  }

  lemma ItemsRoundTripLast(xs: seq<string>, rest: string)
    requires |xs| == 1
    requires ParseString(Quote(xs[0]) + ItemsAfter(xs, rest)) == Some((xs[0], ItemsAfter(xs, rest)))
    ensures ParseItems(Quote(xs[0]) + ItemsAfter(xs, rest)) == Some((xs, rest))
  {
    var after := ItemsAfter(xs, rest);
    assert after == "\n  " + ("]" + rest);
    SkipAfterWhitespace("\n  ", "]" + rest);
    ItemsLast(Quote(xs[0]) + after, xs[0], after, rest);
    assert [xs[0]] == xs;
  }

  lemma ItemsRoundTripStep(xs: seq<string>, rest: string, next: string)
    requires |xs| > 1
    requires next == SerialiseItems(xs[1..]) + "\n  ]" + rest
    requires ParseString(Quote(xs[0]) + ItemsAfter(xs, rest)) == Some((xs[0], ItemsAfter(xs, rest)))
    requires ParseItems(SkipWhitespace(next)) == Some((xs[1..], rest))
    ensures ParseItems(Quote(xs[0]) + ItemsAfter(xs, rest)) == Some((xs, rest))
  {
    var after := ItemsAfter(xs, rest);
    ItemsAfterMore(xs, rest, next);
    SkipConsWhitespace('\n', next);
    ItemsMore(Quote(xs[0]) + after, xs[0], after, ['\n'] + next, xs[1..], rest);
    assert [xs[0]] + xs[1..] == xs;
  }

  /** After the first string of a longer array comes a comma, the line break and the rest of the array. */
  lemma ItemsAfterMore(xs: seq<string>, rest: string, next: string)
    requires |xs| > 1
    requires next == SerialiseItems(xs[1..]) + "\n  ]" + rest
    ensures SkipWhitespace(ItemsAfter(xs, rest)) == "," + (['\n'] + next)
  {
    var after := ItemsAfter(xs, rest);
    assert after == "," + (['\n'] + next);
  }

  lemma SkipConsWhitespace(c: char, s: string)
    requires IsWhitespace(c)
    ensures SkipWhitespace([c] + s) == SkipWhitespace(s)
  {
    assert ([c] + s)[1..] == s;
  }

  lemma ValueRoundTrip(v: Value, rest: string)
    ensures ParseValue(SerialiseValue(v) + rest) == Some((v, rest))
  {
    match v
    case JString(s) =>
      StringRoundTrip(s, rest);
      assert (SerialiseValue(v) + rest)[0] == '"';
    case JArray(xs) =>
      if |xs| == 0 {
        assert ("[]" + rest)[1..] == "]" + rest;
        assert ("]" + rest)[1..] == rest;
      } else {
        ArrayRoundTrip(xs, rest);
      }
  }

  lemma ArrayRoundTrip(xs: seq<string>, rest: string)
    requires |xs| > 0
    ensures ParseValue(SerialiseValue(JArray(xs)) + rest) == Some((JArray(xs), rest))
  {
    var body := SerialiseItems(xs) + "\n  ]" + rest;
    ArrayLayout(xs, rest, body);
    SkipConsWhitespace('\n', body);
    ItemsRoundTrip(xs, rest);
    SkipIntoItems(xs, rest);
    ParseArrayAt(SerialiseValue(JArray(xs)) + rest, ['\n'] + body, xs, rest);
  }

  lemma ArrayLayout(xs: seq<string>, rest: string, body: string)
    requires |xs| > 0 && body == SerialiseItems(xs) + "\n  ]" + rest
    ensures SerialiseValue(JArray(xs)) + rest == "[" + (['\n'] + body)
  {
    var items := SerialiseItems(xs);
    assert SerialiseValue(JArray(xs)) == "[\n" + items + "\n  ]";
    assert "[\n" == "[" + ['\n'];
    Regroup("[", ['\n'], items, "\n  ]", rest);
  }

  /** An opening bracket, then items that parse, is an array. */
  lemma ParseArrayAt(s: string, inner: string, xs: seq<string>, rest: string)
    requires s == "[" + inner
    requires var t := SkipWhitespace(inner); |t| > 0 && t[0] == '"' && ParseItems(t) == Some((xs, rest))
    ensures ParseValue(s) == Some((JArray(xs), rest))
  {
    assert s[1..] == inner;
  }

  /** The first thing after the opening bracket of a non-empty array is a string, not `]`. */
  lemma SkipIntoItems(xs: seq<string>, rest: string)
    requires |xs| > 0
    ensures var t := SkipWhitespace(SerialiseItems(xs) + "\n  ]" + rest); |t| > 0 && t[0] == '"'
  {
    var q := Quote(xs[0]);
    var tail := if |xs| == 1 then "" else ",\n" + SerialiseItems(xs[1..]);
    assert SerialiseItems(xs) + "\n  ]" + rest == "    " + (q + (tail + "\n  ]" + rest));
    SkipAfterWhitespace("    ", q + (tail + "\n  ]" + rest));
  }

  lemma ValueStart(v: Value)
    ensures var t := SerialiseValue(v); |t| > 0 && (t[0] == '"' || t[0] == '[')
  {
    if v.JString? {
      QuoteStart(v.str);
    }
  }

  /** What follows the first key of a printed non-empty object. */
  function MembersAfterKey(ms: seq<Member>, rest: string): string
    requires |ms| > 0
  {
    ": " + SerialiseValue(ms[0].value) + MembersAfter(ms, rest)
  }

  /** What follows the first value of a printed non-empty object. */
  function MembersAfter(ms: seq<Member>, rest: string): string
    requires |ms| > 0
  {
    (if |ms| == 1 then "" else ",\n" + SerialiseMembers(ms[1..])) + "\n}" + rest
  }

  lemma MembersLayout(ms: seq<Member>, rest: string)
    requires |ms| > 0
    ensures SkipWhitespace(SerialiseMembers(ms) + "\n}" + rest) == Quote(ms[0].key) + MembersAfterKey(ms, rest)
  {
    var q := Quote(ms[0].key);
    var mid := ": " + SerialiseValue(ms[0].value);
    var tail := if |ms| == 1 then "" else ",\n" + SerialiseMembers(ms[1..]);
    assert SerialiseMembers(ms) == "  " + q + mid + tail;
    Regroup6("  ", q, mid, tail, "\n}", rest);
    assert MembersAfterKey(ms, rest) == mid + (tail + "\n}" + rest);
    QuoteStart(ms[0].key);
    SkipAfterWhitespace("  ", q + MembersAfterKey(ms, rest));
  }

  lemma CommaNewline(a: string, b: string, c: string)
    ensures ",\n" + a + b + c == "," + (['\n'] + (a + b + c))
  {
  }

  lemma BraceNewline(a: string, b: string, c: string)
    ensures "{\n" + a + b + c == "{" + (['\n'] + (a + b + c))
  {
  }

  lemma Regroup6(a: string, b: string, c: string, d: string, e: string, f: string)
    ensures a + b + c + d + e + f == a + (b + (c + (d + e + f)))
  {
  }

  /** From the colon after a key to the value and what follows it. */
  lemma MemberValue(ms: seq<Member>, rest: string)
    requires |ms| > 0
    ensures var t := SkipWhitespace(MembersAfterKey(ms, rest));
      |t| > 0 && t[0] == ':' &&
      ParseValue(SkipWhitespace(t[1..])) == Some((ms[0].value, MembersAfter(ms, rest)))
  {
    var v := SerialiseValue(ms[0].value);
    var after := MembersAfter(ms, rest);
    assert MembersAfterKey(ms, rest) == ":" + (" " + (v + after));
    SkipAfterWhitespace("", MembersAfterKey(ms, rest));
    assert "" + MembersAfterKey(ms, rest) == MembersAfterKey(ms, rest);
    ValueStart(ms[0].value);
    SkipAfterWhitespace(" ", v + after);
    ValueRoundTrip(ms[0].value, after);
  }

  lemma MembersLast(s: string, key: string, afterKey: string, v: Value, afterValue: string, rest: string)
    requires ParseString(s) == Some((key, afterKey))
    requires var t := SkipWhitespace(afterKey);
      |t| > 0 && t[0] == ':' && ParseValue(SkipWhitespace(t[1..])) == Some((v, afterValue))
    requires SkipWhitespace(afterValue) == "}" + rest
    ensures ParseMembers(s) == Some(([Member(key, v)], rest))
  {
    assert ("}" + rest)[1..] == rest;
  }

  lemma MembersMore(s: string, key: string, afterKey: string, v: Value, afterValue: string,
                    next: string, ms: seq<Member>, rest: string)
    requires ParseString(s) == Some((key, afterKey))
    requires var t := SkipWhitespace(afterKey);
      |t| > 0 && t[0] == ':' && ParseValue(SkipWhitespace(t[1..])) == Some((v, afterValue))
    requires SkipWhitespace(afterValue) == "," + next
    requires ParseMembers(SkipWhitespace(next)) == Some((ms, rest))
    ensures ParseMembers(s) == Some(([Member(key, v)] + ms, rest))
  {
    assert ("," + next)[1..] == next;
  }

  lemma {:induction false} MembersRoundTrip(ms: seq<Member>, rest: string)
    requires |ms| > 0
    ensures ParseMembers(SkipWhitespace(SerialiseMembers(ms) + "\n}" + rest)) == Some((ms, rest))
  {
    MembersLayout(ms, rest);
    StringRoundTrip(ms[0].key, MembersAfterKey(ms, rest));
    MemberValue(ms, rest);
    if |ms| == 1 {
      MembersRoundTripLast(ms, rest);
    } else {
      MembersRoundTrip(ms[1..], rest);
      MembersRoundTripStep(ms, rest);
    }
  }

  lemma MembersRoundTripLast(ms: seq<Member>, rest: string)
    requires |ms| == 1
    requires ParseString(Quote(ms[0].key) + MembersAfterKey(ms, rest)) == Some((ms[0].key, MembersAfterKey(ms, rest)))
    requires var t := SkipWhitespace(MembersAfterKey(ms, rest));
      |t| > 0 && t[0] == ':' && ParseValue(SkipWhitespace(t[1..])) == Some((ms[0].value, MembersAfter(ms, rest)))
    ensures ParseMembers(Quote(ms[0].key) + MembersAfterKey(ms, rest)) == Some((ms, rest))
  {
    var after := MembersAfter(ms, rest);
    MembersAfterLast(ms, rest);
    MembersLast(Quote(ms[0].key) + MembersAfterKey(ms, rest), ms[0].key, MembersAfterKey(ms, rest), ms[0].value, after, rest);
    assert [Member(ms[0].key, ms[0].value)] == ms;
  }

  /** After the only value of an object come the line break and the closing brace. */
  lemma MembersAfterLast(ms: seq<Member>, rest: string)
    requires |ms| == 1
    ensures SkipWhitespace(MembersAfter(ms, rest)) == "}" + rest
  {
    assert MembersAfter(ms, rest) == "\n" + ("}" + rest);
    SkipAfterWhitespace("\n", "}" + rest);
  }

  /** After a value that is not the last come a comma, the line break and the remaining members. */
  lemma MembersAfterMore(ms: seq<Member>, rest: string, next: string)
    requires |ms| > 1
    requires next == SerialiseMembers(ms[1..]) + "\n}" + rest
    ensures SkipWhitespace(MembersAfter(ms, rest)) == "," + (['\n'] + next)
  {
    var after := MembersAfter(ms, rest);
    assert after == ",\n" + SerialiseMembers(ms[1..]) + "\n}" + rest;
    CommaNewline(SerialiseMembers(ms[1..]), "\n}", rest);
  }

  lemma MembersRoundTripStep(ms: seq<Member>, rest: string)
    requires |ms| > 1
    requires ParseString(Quote(ms[0].key) + MembersAfterKey(ms, rest)) == Some((ms[0].key, MembersAfterKey(ms, rest)))
    requires var t := SkipWhitespace(MembersAfterKey(ms, rest));
      |t| > 0 && t[0] == ':' && ParseValue(SkipWhitespace(t[1..])) == Some((ms[0].value, MembersAfter(ms, rest)))
    requires ParseMembers(SkipWhitespace(SerialiseMembers(ms[1..]) + "\n}" + rest)) == Some((ms[1..], rest))
    ensures ParseMembers(Quote(ms[0].key) + MembersAfterKey(ms, rest)) == Some((ms, rest))
  {
    var after := MembersAfter(ms, rest);
    var next := SerialiseMembers(ms[1..]) + "\n}" + rest;
    MembersAfterMore(ms, rest, next);
    MembersStep(Quote(ms[0].key) + MembersAfterKey(ms, rest), ms[0].key, MembersAfterKey(ms, rest), ms[0].value, after,
                next, ms[1..], rest);
    assert Member(ms[0].key, ms[0].value) == ms[0];
    assert [ms[0]] + ms[1..] == ms;
  }

  lemma MembersStep(s: string, key: string, afterKey: string, v: Value, afterValue: string,
                    next: string, ms: seq<Member>, rest: string)
    requires ParseString(s) == Some((key, afterKey))
    requires var t := SkipWhitespace(afterKey);
      |t| > 0 && t[0] == ':' && ParseValue(SkipWhitespace(t[1..])) == Some((v, afterValue))
    requires SkipWhitespace(afterValue) == "," + (['\n'] + next)
    requires ParseMembers(SkipWhitespace(next)) == Some((ms, rest))
    ensures ParseMembers(s) == Some(([Member(key, v)] + ms, rest))
  {
    SkipConsWhitespace('\n', next);
    MembersMore(s, key, afterKey, v, afterValue, ['\n'] + next, ms, rest);
  }

  /**
   * `JSON.parse` undoes `JSON.stringify`: a printed object, with any
   * whitespace around it, parses back to the same object.
   */
  lemma ParseSerialise(o: Object, before: string, after: string)
    requires AllWhitespace(before) && AllWhitespace(after)
    ensures Parse(before + Serialise(o) + after) == Some(o)
  {
    var t := Serialise(o) + after;
    assert before + Serialise(o) + after == before + t;
    SkipAfterWhitespace(before, t);
    SkipAfterWhitespace(after, []);
    assert after + [] == after;
    if |o.members| == 0 {
      ParseEmptyObject(after);
    } else {
      ParseNonEmptyObject(o, after);
    }
  }

  lemma ParseEmptyObject(after: string)
    requires SkipWhitespace(after) == []
    ensures var t := "{}" + after;
      |t| > 0 && t[0] == '{' && var u := SkipWhitespace(t[1..]);
      |u| > 0 && u[0] == '}' && SkipWhitespace(u[1..]) == []
  {
    assert ("{}" + after)[1..] == "}" + after;
    assert ("}" + after)[1..] == after;
  }

  lemma ParseNonEmptyObject(o: Object, after: string)
    requires |o.members| > 0
    requires SkipWhitespace(after) == []
    ensures var t := Serialise(o) + after;
      |t| > 0 && t[0] == '{' && var u := SkipWhitespace(t[1..]);
      (|u| == 0 || u[0] != '}') && ParseMembers(u) == Some((o.members, after))
  {
    var t := Serialise(o) + after;
    var body := SerialiseMembers(o.members) + "\n}" + after;
    assert Serialise(o) == "{\n" + SerialiseMembers(o.members) + "\n}";
    BraceNewline(SerialiseMembers(o.members), "\n}", after);
    assert t[1..] == ['\n'] + body;
    SkipConsWhitespace('\n', body);
    MembersLayout(o.members, after);
    QuoteStart(o.members[0].key);
    MembersRoundTrip(o.members, after);
  }

  /** The unindented one-member object `{"key":"value"}` parses too. */
  lemma ParseCompactMember(key: string, value: string)
    ensures Parse("{" + Quote(key) + ":" + Quote(value) + "}") == Some(Object([Member(key, JString(value))]))
  {
    var q1 := Quote(key);
    var afterKey := ":" + (Quote(value) + "}");
    var text := "{" + Quote(key) + ":" + Quote(value) + "}";
    assert text == "{" + (q1 + afterKey);
    QuoteStart(key);
    CompactMembers(key, value, afterKey);
    SkipAfterWhitespace("", "");
    ParseObjectAt(text, q1 + afterKey, [Member(key, JString(value))], "");
  }

  /** The members part of `{"key":"value"}`, from the key to the closing brace. */
  lemma CompactMembers(key: string, value: string, afterKey: string)
    requires afterKey == ":" + (Quote(value) + "}")
    ensures ParseMembers(Quote(key) + afterKey) == Some(([Member(key, JString(value))], ""))
  {
    var q2 := Quote(value);
    QuoteStart(value);
    StringRoundTrip(key, afterKey);
    SkipAfterWhitespace("", afterKey);
    assert "" + afterKey == afterKey;
    assert afterKey[1..] == q2 + "}";
    SkipAfterWhitespace("", q2 + "}");
    assert "" + (q2 + "}") == q2 + "}";
    ValueRoundTrip(JString(value), "}");
    SkipAfterWhitespace("", "}");
    assert "" + "}" == "}";
    MembersLast(Quote(key) + afterKey, key, afterKey, JString(value), "}", "");
  }

  /** An opening brace, then members that parse and only whitespace after them, is an object. */
  lemma ParseObjectAt(text: string, inner: string, ms: seq<Member>, rest: string)
    requires text == "{" + inner && |inner| > 0 && inner[0] == '"'
    requires ParseMembers(inner) == Some((ms, rest)) && SkipWhitespace(rest) == []
    ensures Parse(text) == Some(Object(ms))
  {
    assert text[0] == '{' && !IsWhitespace('{');
    assert SkipWhitespace(text) == text;
    assert text[1..] == inner;
    assert !IsWhitespace(inner[0]);
    assert SkipWhitespace(inner) == inner;
  }
}
