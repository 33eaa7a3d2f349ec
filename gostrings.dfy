/** The few functions of Go's `strings` and `fmt` packages that the
    validator's logic depends on, for one-character separators. */
module GoStrings {
  import opened Wrappers

  /** Number of occurrences of `c` in `s` (strings.Count). */
  function Count(s: string, c: char): (n: nat)
    ensures n == 0 <==> c !in s
    ensures n <= |s|
  {
    if s == [] then 0 else (if s[0] == c then 1 else 0) + Count(s[1..], c)
  }

  /** strings.Split(s, sep) for a one-character separator: the pieces of `s`
      between occurrences of `sep`, in order; the empty string gives one
      empty piece. */
  function Split(s: string, sep: char): (parts: seq<string>)
    ensures |parts| == Count(s, sep) + 1
    ensures forall i | 0 <= i < |parts| :: sep !in parts[i]
    decreases |s|
  {
    if s == [] then [""]
    else
      var rest := Split(s[1..], sep);
      if s[0] == sep then [""] + rest
      else [[s[0]] + rest[0]] + rest[1..]
  }

  /** strings.Join: the parts with `sep` between each neighbouring pair. */
  function Join(parts: seq<string>, sep: string): (r: string)
    ensures |parts| == 0 ==> r == ""
    ensures |parts| == 1 ==> r == parts[0]
    ensures |parts| > 0 ==> parts[0] <= r
  {
    if |parts| == 0 then ""
    else if |parts| == 1 then parts[0]
    else parts[0] + sep + Join(parts[1..], sep)
  }

  /** Joining one more part adds the separator and that part at the end. */
  lemma {:induction false} JoinSnoc(parts: seq<string>, p: string, sep: string)
    requires parts != []
    ensures Join(parts + [p], sep) == Join(parts, sep) + sep + p
    decreases |parts|
  {
    var q := parts + [p];
    assert q[1..] == parts[1..] + [p];
    if |parts| == 1 {
      assert Join(q, sep) == parts[0] + sep + Join([p], sep);
    } else {
      JoinSnoc(parts[1..], p, sep);
      var tail := Join(parts[1..], sep);
      assert Join(q, sep) == parts[0] + sep + (tail + sep + p);
      assert Join(parts, sep) == parts[0] + sep + tail;
    }
  }

  /** Joining the pieces of a split with the separator gives back the input. */
  lemma {:induction false} JoinSplit(s: string, sep: char)
    ensures Join(Split(s, sep), [sep]) == s
    decreases |s|
  {
    if s != [] {
      var rest := Split(s[1..], sep);
      JoinSplit(s[1..], sep);
      if s[0] == sep {
        assert ([""] + rest)[1..] == rest;
      } else if |rest| > 1 {
        var parts := [[s[0]] + rest[0]] + rest[1..];
        assert parts[1..] == rest[1..];
        assert s == [s[0]] + s[1..];
      } else {
        assert s == [s[0]] + s[1..];
      }
    }
  }

  /** When `s` holds the separator, splitting cuts it at the first
      occurrence: the first piece is everything before it, and the remaining
      pieces joined back together are everything after it. */
  lemma SplitAtFirst(s: string, sep: char)
    requires sep in s
    ensures var parts := Split(s, sep);
      |parts| >= 2 && s == parts[0] + [sep] + Join(parts[1..], [sep])
  {
    var parts := Split(s, sep);
    JoinSplit(s, sep);
    assert Join(parts, [sep]) == parts[0] + [sep] + Join(parts[1..], [sep]);
  }

  /** A string cut at a separator that does not occur in its head is cut at
      the first occurrence: head and tail are fixed by the string. */
  lemma CutUnique(s: string, sep: char, h1: string, t1: string, h2: string, t2: string)
    requires s == h1 + [sep] + t1 && sep !in h1
    requires s == h2 + [sep] + t2 && sep !in h2
    ensures h1 == h2 && t1 == t2
  {
    assert forall i | 0 <= i < |h1| :: s[i] == h1[i] != sep;
    assert forall i | 0 <= i < |h2| :: s[i] == h2[i] != sep;
    assert s[|h1|] == sep && s[|h2|] == sep;
    assert h1 == s[..|h1|] == h2;
    assert t1 == s[|h1| + 1..] == t2;
  }

  /** strings.TrimSuffix: `s` without `suffix` when it ends with it. */
  function TrimSuffix(s: string, suffix: string): (r: string)
    ensures |suffix| <= |s| && s[|s| - |suffix|..] == suffix ==> r + suffix == s
    ensures !(|suffix| <= |s| && s[|s| - |suffix|..] == suffix) ==> r == s
  {
    if |suffix| <= |s| && s[|s| - |suffix|..] == suffix then s[..|s| - |suffix|] else s
  }

  /** The number a string of decimal digits denotes, most significant
      digit first. */
  function DigitsValue(s: string): nat
    requires forall i | 0 <= i < |s| :: '0' <= s[i] <= '9'
    decreases |s|
  {
    if s == [] then 0 else 10 * DigitsValue(s[..|s| - 1]) + (s[|s| - 1] as int - '0' as int)
  }

  /** The decimal digits of `n`, as fmt's %d writes a non-negative int:
      they denote `n`, with no leading zero. */
  function DecimalText(n: nat): (r: string)
    ensures |r| >= 1
    ensures forall i | 0 <= i < |r| :: '0' <= r[i] <= '9'
    ensures DigitsValue(r) == n
    ensures n > 0 ==> r[0] != '0'
    decreases n
  {
    if n < 10 then [('0' as int + n) as char]
    else
      var r := DecimalText(n / 10) + [('0' as int + n % 10) as char];
      assert r[..|r| - 1] == DecimalText(n / 10);
      r
  }

  /** The lower-case hexadecimal digit of a value below 16. */
  function HexDigit(v: int): (c: char)
    requires 0 <= v < 16
    ensures HexValue(c) == Some(v)
  {
    if v < 10 then ('0' as int + v) as char else ('a' as int + (v - 10)) as char
  }

  /** The value of a hexadecimal digit, either case. */
  function HexValue(c: char): Option<int>
  {
    if '0' <= c <= '9' then Some(c as int - '0' as int)
    else if 'a' <= c <= 'f' then Some(c as int - 'a' as int + 10)
    else if 'A' <= c <= 'F' then Some(c as int - 'A' as int + 10)
    else None
  }

  /** The letter of the one-letter escape strconv.Quote writes for a control
      character, if it has one. */
  function ShortEscape(c: char): Option<char>
  {
    match c as int
    case 7 => Some('a')
    case 8 => Some('b')
    case 9 => Some('t')
    case 10 => Some('n')
    case 11 => Some('v')
    case 12 => Some('f')
    case 13 => Some('r')
    case _ => None
  }

  /** The control character a one-letter escape stands for. */
  function ShortUnescape(e: char): Option<char>
  {
    match e
    case 'a' => Some(7 as char)
    case 'b' => Some(8 as char)
    case 't' => Some(9 as char)
    case 'n' => Some(10 as char)
    case 'v' => Some(11 as char)
    case 'f' => Some(12 as char)
    case 'r' => Some(13 as char)
    case _ => None
  }

  /** How strconv.Quote writes one character: the quote and the backslash
      behind a backslash, the seven control characters with a letter
      escape, the other control characters and DEL as `\x` and two
      lower-case hex digits, everything else as itself. */
  function EscapeChar(c: char): (r: string)
    ensures |r| >= 1 && r[0] != '"'
    ensures r == [c] <==> c != '"' && c != '\\' && !(c as int < 0x20 || c as int == 0x7f)
  {
    if c == '"' || c == '\\' then ['\\', c]
    else if ShortEscape(c).Some? then ['\\', ShortEscape(c).value]
    else if c as int < 0x20 || c as int == 0x7f then ['\\', 'x', HexDigit(c as int / 16), HexDigit(c as int % 16)]
    else [c]
  }

  /** The text between the quotes of strconv.Quote. */
  function Escape(s: string): (r: string)
    ensures |r| >= |s|
    decreases |s|
  {
    if s == [] then [] else EscapeChar(s[0]) + Escape(s[1..])
  }

  /** fmt's %q verb on a string: the escaped text between double quotes.
      Characters from 0x80 up are written as given, not decoded as UTF-8. */
  function Quote(s: string): (r: string)
    ensures |r| >= |s| + 2 && r[0] == '"' && r[|r| - 1] == '"'
  {
    "\"" + Escape(s) + "\""
  }

  /** The quoted text reads back as the string it quotes. */
  lemma QuoteRoundTrip(s: string)
    ensures var r := Quote(s); Unescape(r[1..|r| - 1]) == Some(s)
  {
    UnescapeEscape(s);
    var r := Quote(s);
    assert r[1..|r| - 1] == Escape(s);
  }

  /** Reads escaped text back, as strconv.Unquote reads the inside of a
      quoted string; None for a bare quote or an escape it does not know. */
  function Unescape(t: string): Option<string>
    decreases |t|
  {
    if t == [] then Some([])
    else if t[0] == '"' then None
    else if t[0] != '\\' then Prepend(t[0], Unescape(t[1..]))
    else if |t| < 2 then None
    else if t[1] == '"' || t[1] == '\\' then Prepend(t[1], Unescape(t[2..]))
    else if ShortUnescape(t[1]).Some? then Prepend(ShortUnescape(t[1]).value, Unescape(t[2..]))
    else if t[1] == 'x' && |t| >= 4 && HexValue(t[2]).Some? && HexValue(t[3]).Some? then
      Prepend((HexValue(t[2]).value * 16 + HexValue(t[3]).value) as char, Unescape(t[4..]))
    else None
  }

  function Prepend(c: char, o: Option<string>): Option<string>
  {
    match o
    case None => None
    case Some(s) => Some([c] + s)
  }

  /** Reading back one escaped character gives that character. */
  lemma UnescapeChar(c: char, t: string)
    ensures Unescape(EscapeChar(c) + t) == Prepend(c, Unescape(t))
  {
    var e := EscapeChar(c);
    if c == '"' || c == '\\' {
      assert (e + t)[2..] == t;
    } else if ShortEscape(c).Some? {
      assert (e + t)[2..] == t;
    } else if c as int < 0x20 || c as int == 0x7f {
      assert (e + t)[4..] == t;
      assert (c as int / 16) * 16 + c as int % 16 == c as int;
    } else {
      assert (e + t)[1..] == t;
    }
  }

  /** Reading back the escaped text of any string gives the string. */
  lemma {:induction false} UnescapeEscape(s: string)
    ensures Unescape(Escape(s)) == Some(s)
    decreases |s|
  {
    if s != [] {
      UnescapeEscape(s[1..]);
      UnescapeChar(s[0], Escape(s[1..]));
      assert [s[0]] + s[1..] == s;
    }
  }

  /** Printable ASCII characters other than the quote and the backslash. */
  predicate Plain(s: string)
  {
    forall i | 0 <= i < |s| :: 0x20 <= s[i] as int < 0x7f && s[i] != '"' && s[i] != '\\'
  }

  lemma {:induction false} EscapePlain(s: string)
    requires Plain(s)
    ensures Escape(s) == s
    decreases |s|
  {
    if s != [] {
      EscapePlain(s[1..]);
      assert EscapeChar(s[0]) == [s[0]];
      assert [s[0]] + s[1..] == s;
    }
  }

  /** Text of printable ASCII characters other than the quote and the
      backslash is quoted as itself. */
  lemma QuotePlain(s: string)
    requires Plain(s)
    ensures Quote(s) == "\"" + s + "\""
  {
    EscapePlain(s);
  }
}
