/**
 * `JSON.stringify` applied to the array of `{path, content}` records that
 * `readFiles` builds, and a reader that takes that text apart again.
 * String escaping follows QuoteJSONString of ECMAScript (section 25.5.2.3 of
 * ECMA-262): `"` and `\` and the short forms `\b \t \n \f \r` are escaped
 * with a backslash, every other control character below U+0020 becomes
 * `\u00hh` in lower-case hexadecimal, and all other characters are copied.
 */
module JsonEntries {

  import opened Wrappers
  import opened FileMerge

  /** The lower-case hexadecimal digit for a value below 16. */
  function HexDigit(d: int): char
    requires 0 <= d < 16
  {
    if d < 10 then ('0' as int + d) as char else ('a' as int + d - 10) as char
  }

  /** The value of a hexadecimal digit of either case. */
  function HexValue(c: char): (r: Option<int>)
    ensures r.Some? ==> 0 <= r.value < 16
  {
    if '0' <= c <= '9' then Some(c as int - '0' as int)
    else if 'a' <= c <= 'f' then Some(c as int - 'a' as int + 10)
    else if 'A' <= c <= 'F' then Some(c as int - 'A' as int + 10)
    else None
  }

  lemma HexRoundTrip(d: int)
    requires 0 <= d < 16
    ensures HexValue(HexDigit(d)) == Some(d)
  {
  }

  /** Characters that JSON.stringify copies unchanged. */
  predicate Plain(c: char) {
    c != '"' && c != '\\' && c as int >= 0x20
  }

  /** The JSON text for one character inside a string literal. */
  function EscapeChar(c: char): string {
    if c == '"' then "\\\""
    else if c == '\\' then "\\\\"
    else if c as int == 8 then "\\b"
    else if c as int == 9 then "\\t"
    else if c as int == 10 then "\\n"
    else if c as int == 12 then "\\f"
    else if c as int == 13 then "\\r"
    else if c as int < 0x20 then "\\u00" + [HexDigit(c as int / 16), HexDigit(c as int % 16)]
    else [c]
  }

  /** The body of the JSON string literal for `s`. */
  function Escape(s: string): string {
    if s == [] then "" else EscapeChar(s[0]) + Escape(s[1..])
  }

  function Quote(s: string): string {
    "\"" + Escape(s) + "\""
  }

  /** `{"path":…,"content":…}`, keys in the order the record literal creates them. */
  function EntryJson(e: FileEntry): string {
    PathKey + Quote(e.path) + ContentKey + Quote(e.content) + "}"
  }

  /** The array elements, separated by commas, with no white space. */
  function ItemsJson(es: seq<FileEntry>): string {
    if es == [] then ""
    else if |es| == 1 then EntryJson(es[0])
    else EntryJson(es[0]) + "," + ItemsJson(es[1..])
  }

  /** A non-empty list of records opens with its first object. */
  lemma ItemsJsonOpens(es: seq<FileEntry>)
    requires es != []
    ensures ItemsJson(es)[0] == '{'
  {
    if |es| == 1 {
      assert ItemsJson(es) == EntryJson(es[0]);
    } else {
      assert ItemsJson(es) == EntryJson(es[0]) + "," + ItemsJson(es[1..]);
    }
  }

  /**
   * `JSON.stringify(contents)`: an array text that reads back as exactly
   * the same records, in order.
   */
  function Serialize(es: seq<FileEntry>): (r: string)
    ensures ParseEntries(r) == Some(es)
  {
    var items := ItemsJson(es) + "]";
    assert ParseEntries("[" + items) == Some(es) by {
      ExpectPrefix("[", items);
      if es != [] {
        ItemsJsonOpens(es);
        ItemsRoundTrip(es, "");
        assert ItemsJson(es) + "]" + "" == items;
      }
    }
    assert "[" + ItemsJson(es) + "]" == "[" + items;
    "[" + items
  }

  // ---------------------------------------------------------------------
  // Reading the text back

  /** `s` starts with `lit`; the text after it. */
  function Expect(lit: string, s: string): (r: Option<string>)
    ensures r.Some? ==> |r.value| == |s| - |lit|
  {
    if |lit| <= |s| && s[..|lit|] == lit then Some(s[|lit|..]) else None
  }

  /** The character an escape sequence stands for (`s` follows the backslash), and what follows it. */
  function Unescape(s: string): (r: Option<(char, string)>)
    ensures r.Some? ==> |r.value.1| < |s|
  {
    if s == [] then None
    else if s[0] == '"' then Some(('"', s[1..]))
    else if s[0] == '\\' then Some(('\\', s[1..]))
    else if s[0] == '/' then Some(('/', s[1..]))
    else if s[0] == 'b' then Some((8 as char, s[1..]))
    else if s[0] == 't' then Some((9 as char, s[1..]))
    else if s[0] == 'n' then Some((10 as char, s[1..]))
    else if s[0] == 'f' then Some((12 as char, s[1..]))
    else if s[0] == 'r' then Some((13 as char, s[1..]))
    else if s[0] == 'u' && |s| >= 5 then UnescapeHex(s[1..5], s[5..])
    else None
  }

  /** The character written as `\u` followed by the four hexadecimal digits `h`. */
  function UnescapeHex(h: string, rest: string): Option<(char, string)>
    requires |h| == 4
  {
    match (HexValue(h[0]), HexValue(h[1]), HexValue(h[2]), HexValue(h[3]))
    case (Some(a), Some(b), Some(c), Some(d)) =>
      var v := 4096 * a + 256 * b + 16 * c + d;
      // a lone surrogate is not a character of the model's strings
      if 0xD800 <= v < 0xE000 then None else Some((v as char, rest))
    case _ => None
  }

  /** The decoded body of a string literal whose opening quote precedes `s`, and the text after its closing quote. */
  function ScanBody(s: string): (r: Option<(string, string)>)
    ensures r.Some? ==> |r.value.1| < |s|
    decreases |s|
  {
    if s == [] then None
    else if s[0] == '"' then Some(("", s[1..]))
    else if s[0] == '\\' then
      match Unescape(s[1..])
      case None => None
      case Some((c, rest)) =>
        match ScanBody(rest)
        case None => None
        case Some((t, after)) => Some(([c] + t, after))
    else if s[0] as int < 0x20 then None
    else
      match ScanBody(s[1..])
      case None => None
      case Some((t, after)) => Some(([s[0]] + t, after))
  }

  function ParseString(s: string): (r: Option<(string, string)>)
    ensures r.Some? ==> |r.value.1| < |s|
  {
    if s != [] && s[0] == '"' then ScanBody(s[1..]) else None
  }

  const PathKey: string := "{\"path\":"
  const ContentKey: string := ",\"content\":"

  /** One `{path, content}` record, and the text after it. */
  function ParseEntry(s: string): (r: Option<(FileEntry, string)>)
    ensures r.Some? ==> |r.value.1| < |s|
  {
    match Expect(PathKey, s)
    case None => None
    case Some(s1) => ParsePathValue(s1)
  }

  function ParsePathValue(s1: string): (r: Option<(FileEntry, string)>)
    ensures r.Some? ==> |r.value.1| < |s1|
  {
    match ParseString(s1)
    case None => None
    case Some((p, s2)) => ParseContentKey(p, s2)
  }

  function ParseContentKey(p: string, s2: string): (r: Option<(FileEntry, string)>)
    ensures r.Some? ==> |r.value.1| < |s2|
  {
    match Expect(ContentKey, s2)
    case None => None
    case Some(s3) => ParseContentValue(p, s3)
  }

  function ParseContentValue(p: string, s3: string): (r: Option<(FileEntry, string)>)
    ensures r.Some? ==> |r.value.1| < |s3|
  {
    match ParseString(s3)
    case None => None
    case Some((c, s4)) =>
      match Expect("}", s4)
      case None => None
      case Some(s5) => Some((FileEntry(p, c), s5))
  }

  /** One or more entries separated by commas and closed by `]`. */
  function ParseItems(s: string): (r: Option<(seq<FileEntry>, string)>)
    ensures r.Some? ==> |r.value.1| < |s|
    decreases |s|, 1
  {
    match ParseEntry(s)
    case None => None
    case Some((e, s1)) => ParseMoreItems(e, s1)
  }

  /** After the entry `e`: either a comma and further entries, or the closing `]`. */
  function ParseMoreItems(e: FileEntry, s1: string): (r: Option<(seq<FileEntry>, string)>)
    ensures r.Some? ==> |r.value.1| < |s1|
    decreases |s1|, 0
  {
    if s1 != [] && s1[0] == ',' then
      match ParseItems(s1[1..])
      case None => None
      case Some((es, s2)) => Some(([e] + es, s2))
    else if s1 != [] && s1[0] == ']' then Some(([e], s1[1..]))
    else None
  }

  /** Reads back an array of `{path, content}` records written without white space. */
  function ParseEntries(s: string): Option<seq<FileEntry>> {
    match Expect("[", s)
    case None => None
    case Some(s1) =>
      if s1 != [] && s1[0] == ']' then (if |s1| == 1 then Some([]) else None)
      else
        match ParseItems(s1)
        case Some((es, rest)) => if rest == [] then Some(es) else None
        case None => None
  }

  // ---------------------------------------------------------------------
  // Round trip

  lemma ExpectPrefix(lit: string, x: string)
    ensures Expect(lit, lit + x) == Some(x)
  {
    assert (lit + x)[..|lit|] == lit;
    assert (lit + x)[|lit|..] == x;
  }

  /** An escape sequence written for `c` reads back as `c`. */
  lemma UnescapeEscaped(c: char, x: string)
    requires !Plain(c)
    ensures EscapeChar(c) != [] && EscapeChar(c)[0] == '\\'
    ensures Unescape(EscapeChar(c)[1..] + x) == Some((c, x))
  {
    var s := EscapeChar(c)[1..] + x;
    if c != '"' && c != '\\' && c as int !in {8, 9, 10, 12, 13} {
      var n := c as int;
      HexRoundTrip(n / 16);
      HexRoundTrip(n % 16);
      var h := s[1..5];
      assert s[0] == 'u' && h[0] == '0' && h[1] == '0';
      assert h[2] == HexDigit(n / 16) && h[3] == HexDigit(n % 16);
      assert s[5..] == x;
      assert UnescapeHex(h, x) == Some((c, x));
    } else {
      assert s[1..] == x;
    }
  }

  lemma Regroup(a: string, b: string, c: string, d: string)
    ensures a + b + c + d == a + (b + (c + d))
  {
  }

  lemma Regroup6(a: string, b: string, c: string, d: string, e: string, f: string)
    ensures a + b + c + d + e + f == a + (b + (c + (d + (e + f))))
  {
  }

  /** A plain character is copied into the decoded body. */
  lemma ScanPlainStep(c: char, x: string, t: string, r: string)
    requires Plain(c) && ScanBody(x) == Some((t, r))
    ensures ScanBody([c] + x) == Some(([c] + t, r))
  {
    assert ([c] + x)[1..] == x;
  }

  /** An escape sequence is decoded into the character it was written for. */
  lemma ScanEscapeStep(c: char, x: string, t: string, r: string)
    requires !Plain(c) && ScanBody(x) == Some((t, r))
    ensures ScanBody(EscapeChar(c) + x) == Some(([c] + t, r))
  {
    UnescapeEscaped(c, x);
    var s := EscapeChar(c) + x;
    assert s[0] == '\\' && s[1..] == EscapeChar(c)[1..] + x;
  }

  /** The body written for `t`, followed by the closing quote, reads back as `t`. */
  lemma {:induction false} ScanEscaped(t: string, rest: string)
    ensures ScanBody(Escape(t) + "\"" + rest) == Some((t, rest))
    decreases |t|
  {
    if t == [] {
      assert Escape(t) + "\"" + rest == "\"" + rest;
    } else {
      var c := t[0];
      var x := Escape(t[1..]) + "\"" + rest;
      ScanEscaped(t[1..], rest);
      assert Escape(t) + "\"" + rest == EscapeChar(c) + x by {
        Regroup(EscapeChar(c), Escape(t[1..]), "\"", rest);
      }
      if Plain(c) {
        ScanPlainStep(c, x, t[1..], rest);
      } else {
        ScanEscapeStep(c, x, t[1..], rest);
      }
      assert [c] + t[1..] == t;
    }
  }

  lemma QuoteRoundTrip(t: string, rest: string)
    ensures ParseString(Quote(t) + rest) == Some((t, rest))
  {
    var s := Quote(t) + rest;
    assert s[1..] == Escape(t) + "\"" + rest;
    ScanEscaped(t, rest);
  }

  lemma ContentValueRoundTrip(p: string, c: string, rest: string)
    ensures ParseContentValue(p, Quote(c) + ("}" + rest)) == Some((FileEntry(p, c), rest))
  {
    QuoteRoundTrip(c, "}" + rest);
    ExpectPrefix("}", rest);
  }

  lemma ContentKeyRoundTrip(p: string, c: string, rest: string)
    ensures ParseContentKey(p, ContentKey + (Quote(c) + ("}" + rest))) == Some((FileEntry(p, c), rest))
  {
    ExpectPrefix(ContentKey, Quote(c) + ("}" + rest));
    ContentValueRoundTrip(p, c, rest);
  }

  lemma PathValueRoundTrip(p: string, c: string, rest: string)
    ensures ParsePathValue(Quote(p) + (ContentKey + (Quote(c) + ("}" + rest)))) == Some((FileEntry(p, c), rest))
  {
    QuoteRoundTrip(p, ContentKey + (Quote(c) + ("}" + rest)));
    ContentKeyRoundTrip(p, c, rest);
  }

  lemma EntryRoundTrip(e: FileEntry, rest: string)
    ensures ParseEntry(EntryJson(e) + rest) == Some((e, rest))
  {
    var s1 := Quote(e.path) + (ContentKey + (Quote(e.content) + ("}" + rest)));
    assert EntryJson(e) + rest == PathKey + s1 by {
      Regroup6(PathKey, Quote(e.path), ContentKey, Quote(e.content), "}", rest);
    }
    ExpectPrefix(PathKey, s1);
    PathValueRoundTrip(e.path, e.content, rest);
  }

  /** Parsing the items of a list reads its first entry and continues after it. */
  lemma ItemsAfterEntry(e: FileEntry, s1: string)
    ensures ParseItems(EntryJson(e) + s1) == ParseMoreItems(e, s1)
  {
    EntryRoundTrip(e, s1);
  }

  /** The text of a one-entry list is that entry. */
  lemma ItemsJsonSingle(es: seq<FileEntry>, rest: string)
    requires |es| == 1
    ensures ItemsJson(es) + "]" + rest == EntryJson(es[0]) + ("]" + rest)
  {
    assert ItemsJson(es) == EntryJson(es[0]);
  }

  /** The text of a longer list is its first entry, a comma and the rest. */
  lemma ItemsJsonSplit(es: seq<FileEntry>, rest: string)
    requires |es| > 1
    ensures ItemsJson(es) + "]" + rest == EntryJson(es[0]) + ("," + (ItemsJson(es[1..]) + "]" + rest))
  {
    var e := EntryJson(es[0]);
    var t := ItemsJson(es[1..]);
    assert ItemsJson(es) == e + "," + t;
    Regroup(e + ",", t, "]", rest);
    Regroup(e, ",", t + "]", rest);
  }

  lemma ItemsRoundTripSingle(es: seq<FileEntry>, rest: string)
    requires |es| == 1
    ensures ParseItems(ItemsJson(es) + "]" + rest) == Some((es, rest))
  {
    var s1 := "]" + rest;
    ItemsJsonSingle(es, rest);
    ItemsAfterEntry(es[0], s1);
    assert s1[1..] == rest;
    assert [es[0]] == es;
  }

  lemma {:induction false} ItemsRoundTrip(es: seq<FileEntry>, rest: string)
    requires es != []
    ensures ParseItems(ItemsJson(es) + "]" + rest) == Some((es, rest))
    decreases |es|
  {
    if |es| == 1 {
      ItemsRoundTripSingle(es, rest);
    } else {
      var tail := ItemsJson(es[1..]) + "]" + rest;
      var s1 := "," + tail;
      assert ParseItems(ItemsJson(es) + "]" + rest) == ParseMoreItems(es[0], s1) by {
        ItemsJsonSplit(es, rest);
        ItemsAfterEntry(es[0], s1);
      }
      assert ParseItems(s1[1..]) == Some((es[1..], rest)) by {
        assert s1[1..] == tail;
        ItemsRoundTrip(es[1..], rest);
      }
      assert [es[0]] + es[1..] == es;
    }
  }
}
