/**
 * The JavaScript string and number operations the source relies on, written out:
 * truthiness of optional strings, `substring`, `indexOf`, `split("\n")`, ASCII
 * `toLowerCase`, `includes`, the `\s` character class and number-to-text conversion.
 */
module Text {
  import opened Wrappers

  /** The characters of the JavaScript regular-expression class `\s` (also what `trim` removes). */
  predicate IsSpace(c: char) {
    c == ' ' || c == '\t' || c == '\n' || c == '\r' || c == '\U{000B}' || c == '\U{000C}'
    || c == '\U{00A0}' || c == '\U{1680}' || ('\U{2000}' <= c <= '\U{200A}')
    || c == '\U{2028}' || c == '\U{2029}' || c == '\U{202F}' || c == '\U{205F}'
    || c == '\U{3000}' || c == '\U{FEFF}'
  }

  /** `!s.trim()`: the string is empty or made of whitespace only. */
  predicate IsBlank(s: string) {
    forall i :: 0 <= i < |s| ==> IsSpace(s[i])
  }

  /** JavaScript truthiness of an optional string: present and non-empty. */
  predicate Truthy(s: Option<string>) {
    s.Some? && s.value != ""
  }

  /** `s || d` for an optional string. */
  function OrElse(s: Option<string>, d: string): (r: string)
    ensures Truthy(s) ==> r == s.value
    ensures !Truthy(s) ==> r == d
  {
    if Truthy(s) then s.value else d
  }

  /** A template-literal `${s}`: an absent value prints as `undefined`. */
  function Shown(s: Option<string>): string {
    match s
    case Some(v) => v
    case None => "undefined"
  }

  /** `${s}` for a value read from a row or a reply, where an absent value is `null`. */
  function ShownNull(s: Option<string>): string {
    match s
    case Some(v) => v
    case None => "null"
  }

  /** `s.substring(0, n)`. */
  function Take(s: string, n: nat): (r: string)
    ensures |r| == if |s| <= n then |s| else n
    ensures r <= s
  {
    if |s| <= n then s else s[..n]
  }

  /** `s.substring(0, n)` followed by `...` when `s` is longer than `n`. */
  function Preview(s: string, n: nat): string {
    Take(s, n) + (if |s| > n then "..." else "")
  }

  /** ASCII `toLowerCase` of one character. */
  function LowerChar(c: char): (r: char)
    ensures 'A' <= c <= 'Z' ==> r as int == c as int + 32
    ensures !('A' <= c <= 'Z') ==> r == c
  {
    if 'A' <= c <= 'Z' then (c as int + 32) as char else c
  }

  /** ASCII `toLowerCase`. */
  function Lower(s: string): (r: string)
    ensures |r| == |s|
    ensures forall i :: 0 <= i < |s| ==> r[i] == LowerChar(s[i])
  {
    if s == [] then [] else [LowerChar(s[0])] + Lower(s[1..])
  }

  /** `p` occurs in `s` at position `i`. */
  predicate At(s: string, i: int, p: string) {
    0 <= i && i + |p| <= |s| && s[i..i + |p|] == p
  }

  /** `s.indexOf(p)`: the first position where `p` occurs, or -1. */
  function IndexOf(s: string, p: string): (r: int)
    ensures -1 <= r <= |s|
    ensures r >= 0 ==> At(s, r, p)
    ensures r >= 0 ==> forall i :: 0 <= i < r ==> !At(s, i, p)
    ensures r == -1 ==> forall i :: 0 <= i <= |s| ==> !At(s, i, p)
    decreases |s|
  {
    if |s| < |p| then -1
    else if p <= s then 0
    else
      var k := IndexOf(s[1..], p);
      assert forall i :: 1 <= i <= |s| ==> (At(s, i, p) <==> At(s[1..], i - 1, p));
      if k == -1 then -1 else k + 1
  }

  /** `s` contains `p` somewhere (`includes`, the `%p%` pattern of `like`). */
  predicate Contains(s: string, p: string) {
    exists i :: 0 <= i <= |s| && At(s, i, p)
  }

  /** `ilike '%p%'`, with case folded over ASCII. */
  predicate ContainsIgnoringCase(s: string, p: string) {
    Contains(Lower(s), Lower(p))
  }

  /** `parts.join(sep)`. */
  function Join(parts: seq<string>, sep: string): string {
    if parts == [] then ""
    else if |parts| == 1 then parts[0]
    else parts[0] + sep + Join(parts[1..], sep)
  }

  /** `items.map((x, i) => entry(i + 1 + start, x))`: one entry per item, numbered from `start + 1`. */
  function Numbered<T>(items: seq<T>, entry: (nat, T) -> string, start: nat): (r: seq<string>)
    ensures |r| == |items|
    ensures forall i :: 0 <= i < |items| ==> r[i] == entry(start + i + 1, items[i])
    decreases |items|
  {
    if items == [] then [] else [entry(start + 1, items[0])] + Numbered(items[1..], entry, start + 1)
  }

  /** One more item adds one more entry, numbered one past the others. */
  lemma NumberedAppend<T>(items: seq<T>, x: T, entry: (nat, T) -> string, start: nat)
    ensures Numbered(items + [x], entry, start) == Numbered(items, entry, start) + [entry(start + |items| + 1, x)]
  {
    var a := Numbered(items + [x], entry, start);
    var c := Numbered(items, entry, start);
    var b := c + [entry(start + |items| + 1, x)];
    assert |a| == |b|;
    forall i | 0 <= i < |a| ensures a[i] == b[i] {
      if i < |items| {
        assert (items + [x])[i] == items[i];
        assert a[i] == entry(start + i + 1, items[i]) == c[i];
      } else {
        assert (items + [x])[i] == x;
      }
    }
  }

  lemma {:induction false} JoinAppend(parts: seq<string>, last: string, sep: string)
    requires parts != []
    ensures Join(parts + [last], sep) == Join(parts, sep) + sep + last
    decreases |parts|
  {
    if |parts| == 1 {
      assert parts + [last] == [parts[0], last];
    } else {
      assert (parts + [last])[1..] == parts[1..] + [last];
      JoinAppend(parts[1..], last, sep);
    }
  }

  /** Regrouping a concatenation; stated once so that long constant prefixes stay opaque terms. */
  lemma Associate(h: string, x: string, y: string, z: string)
    ensures h + (x + y + z) == h + x + y + z
  {
  }

  /** `s.split("\n")`. */
  function SplitLines(s: string): (r: seq<string>)
    ensures |r| >= 1
    ensures forall i :: 0 <= i < |r| ==> '\n' !in r[i]
    decreases |s|
  {
    var k := IndexOf(s, "\n");
    if k < 0 then
      forall i | 0 <= i < |s| ensures s[i] != '\n' {
        assert s[i..i + 1] == [s[i]] && !At(s, i, "\n");
      }
      [s]
    else
      forall i | 0 <= i < k ensures s[..k][i] != '\n' {
        assert s[i..i + 1] == [s[i]] && !At(s, i, "\n");
      }
      [s[..k]] + SplitLines(s[k + 1..])
  }

  /** Joining the pieces of `split("\n")` with `"\n"` gives back the string. */
  lemma {:induction false} SplitLinesJoin(s: string)
    ensures Join(SplitLines(s), "\n") == s
    decreases |s|
  {
    var k := IndexOf(s, "\n");
    if k >= 0 {
      var head := s[..k];
      var rest := s[k + 1..];
      var lines := SplitLines(rest);
      SplitLinesJoin(rest);
      assert SplitLines(s) == [head] + lines;
      var all := [head] + lines;
      assert |all| >= 2 && all[0] == head && all[1..] == lines;
      assert Join(all, "\n") == head + "\n" + Join(lines, "\n");
      assert s == head + "\n" + rest;
    } else {
      assert SplitLines(s) == [s];
    }
  }

  /** The first newline of `a + "\n" + b` is the one after `a` when `a` has none. */
  lemma FirstNewline(a: string, b: string)
    requires '\n' !in a
    ensures IndexOf(a + "\n" + b, "\n") == |a|
  {
    var s := a + "\n" + b;
    assert At(s, |a|, "\n") by {
      assert s[|a|..|a| + 1] == "\n";
    }
    forall i | 0 <= i < |a| ensures !At(s, i, "\n") {
      assert s[i..i + 1] == [a[i]];
    }
  }

  /** Splitting joined newline-free lines gives the lines back. */
  lemma {:induction false} JoinSplitLines(lines: seq<string>)
    requires |lines| >= 1
    requires forall i :: 0 <= i < |lines| ==> '\n' !in lines[i]
    ensures SplitLines(Join(lines, "\n")) == lines
    decreases |lines|
  {
    if |lines| == 1 {
      var s := lines[0];
      forall i | 0 <= i <= |s| ensures !At(s, i, "\n") {
        if i < |s| {
          assert s[i..i + 1] == [s[i]];
        }
      }
    } else {
      var rest := Join(lines[1..], "\n");
      FirstNewline(lines[0], rest);
      var s := lines[0] + "\n" + rest;
      assert s[..|lines[0]|] == lines[0];
      assert s[|lines[0]| + 1..] == rest;
      JoinSplitLines(lines[1..]);
    }
  }

  function Digit(d: int): char
    requires 0 <= d <= 9
  {
    "0123456789"[d]
  }

  /** Decimal text of a natural number. */
  function NatText(n: nat): (r: string)
    ensures |r| >= 1
    ensures forall i :: 0 <= i < |r| ==> '0' <= r[i] <= '9'
  {
    if n < 10 then [Digit(n)] else NatText(n / 10) + [Digit(n % 10)]
  }

  /** Decimal text of an integer, with a leading `-` when negative. */
  function IntText(n: int): string {
    if n < 0 then "-" + NatText(-n) else NatText(n)
  }

  /** Up to `n` decimals of a fraction in [0, 1), stopping when it is exhausted. */
  function FractionDigits(f: real, n: nat): string
    requires 0.0 <= f < 1.0
    decreases n
  {
    if n == 0 || f == 0.0 then ""
    else
      var d := (f * 10.0).Floor;
      [Digit(d)] + FractionDigits(f * 10.0 - d as real, n - 1)
  }

  /** `String(x)` for a number whose decimal expansion ends within 15 places. */
  function NumberText(x: real): string {
    var m := if x < 0.0 then -x else x;
    var whole := m.Floor;
    var digits := FractionDigits(m - whole as real, 15);
    (if x < 0.0 then "-" else "") + IntText(whole) + (if digits == "" then "" else "." + digits)
  }

  function Pow10(n: nat): (r: nat)
    ensures r >= 1
  {
    if n == 0 then 1 else 10 * Pow10(n - 1)
  }

  /** `n` written with exactly `width` digits, padded with leading zeros. */
  function Padded(n: nat, width: nat): string
    decreases width
  {
    if width == 0 then "" else Padded(n / 10, width - 1) + [Digit(n % 10)]
  }

  /** `x.toFixed(places)`: rounded to `places` decimals, ties away from zero. */
  function FixedText(x: real, places: nat): string {
    var m := if x < 0.0 then -x else x;
    var scaled := (m * Pow10(places) as real + 0.5).Floor;
    assert scaled >= 0;
    (if x < 0.0 then "-" else "") + IntText(scaled / Pow10(places))
    + (if places == 0 then "" else "." + Padded(scaled % Pow10(places), places))
  }
}
