/** The JavaScript string operations the application relies on: truthiness of
    an optional string, `trim`, `split` and `join` with a one-character
    separator, rendering a non-negative integer in decimal, and `parseInt`
    without a radix argument. */
module Text {
  import opened Wrappers

  /** JavaScript truthiness of a value that is a string or absent: present and
      not the empty string. */
  predicate Truthy(o: Option<string>) {
    o.Some? && o.value != ""
  }

  /** `o || fallback` for a value that is a string or absent. */
  function Or(o: Option<string>, fallback: string): string {
    if Truthy(o) then o.value else fallback
  }

  // ---------------------------------------------------------------------------
  // trim

  /** The characters `String.prototype.trim` strips: ECMAScript WhiteSpace and
      LineTerminator. */
  predicate IsSpace(c: char) {
    || c == ' ' || c == '\t' || c == '\n' || c == '\r'
    || c == '\U{000B}' || c == '\U{000C}' || c == '\U{00A0}' || c == '\U{1680}'
    || ('\U{2000}' <= c <= '\U{200A}')
    || c == '\U{2028}' || c == '\U{2029}' || c == '\U{202F}' || c == '\U{205F}'
    || c == '\U{3000}' || c == '\U{FEFF}'
  }

  /** Number of whitespace characters at the start of `s`. */
  function LeadingSpaces(s: string): (n: nat)
    ensures n <= |s|
    ensures forall k :: 0 <= k < n ==> IsSpace(s[k])
    ensures n < |s| ==> !IsSpace(s[n])
  {
    if s == [] || !IsSpace(s[0]) then 0 else 1 + LeadingSpaces(s[1..])
  }

  /** Index at which the whitespace at the end of `s` begins. */
  function TrailingStart(s: string): (n: nat)
    ensures n <= |s|
    ensures forall k :: n <= k < |s| ==> IsSpace(s[k])
    ensures 0 < n ==> !IsSpace(s[n - 1])
  {
    if s == [] || !IsSpace(s[|s| - 1]) then |s| else TrailingStart(s[..|s| - 1])
  }

  /** `s.trim()`: the contiguous slice of `s` left after removing whitespace at
      both ends; empty exactly when `s` is all whitespace. */
  function Trim(s: string): (r: string)
    ensures |r| <= |s| && LeadingSpaces(s) + |r| <= |s|
    ensures r == s[LeadingSpaces(s)..LeadingSpaces(s) + |r|]
    ensures forall k :: LeadingSpaces(s) + |r| <= k < |s| ==> IsSpace(s[k])
    ensures r == "" <==> forall k :: 0 <= k < |s| ==> IsSpace(s[k])
    ensures r != "" ==> !IsSpace(r[0]) && !IsSpace(r[|r| - 1])
  {
    var a := LeadingSpaces(s);
    var t := s[a..];
    SpaceTail(s, a, TrailingStart(t));
    t[..TrailingStart(t)]
  }

  /** The whitespace at the end of a suffix is whitespace at the end of the
      whole string. */
  lemma SpaceTail(s: string, a: nat, e: nat)
    requires a <= |s| && e <= |s| - a
    requires forall k :: e <= k < |s[a..]| ==> IsSpace(s[a..][k])
    ensures s[a..][..e] == s[a..a + e]
    ensures forall k :: a + e <= k < |s| ==> IsSpace(s[k])
  {
    forall k | a + e <= k < |s| ensures IsSpace(s[k]) {
      assert s[k] == s[a..][k - a];
    }
  }

  /** Trimming twice is trimming once. */
  lemma {:induction false} TrimIdempotent(s: string)
    ensures Trim(Trim(s)) == Trim(s)
  {
    var r := Trim(s);
    if r != "" {
      assert LeadingSpaces(r) == 0;
      assert TrailingStart(r) == |r|;
    }
  }

  /** Whitespace put in front of a string does not survive trimming. */
  lemma {:induction false} TrimIgnoresLeadingPadding(pre: string, s: string)
    requires forall k :: 0 <= k < |pre| ==> IsSpace(pre[k])
    ensures Trim(pre + s) == Trim(s)
  {
    LeadingSpacesSkip(pre, s);
    assert (pre + s)[|pre| + LeadingSpaces(s)..] == s[LeadingSpaces(s)..];
  }

  /** Whitespace put after a string does not survive trimming. */
  lemma TrimIgnoresTrailingPadding(s: string, post: string)
    requires forall k :: 0 <= k < |post| ==> IsSpace(post[k])
    ensures Trim(s + post) == Trim(s)
  {
    if Trim(s) == "" {
      AllSpaceAppend(s, post);
    } else {
      TrimAppendKept(s, post);
    }
  }

  lemma AllSpaceAppend(s: string, post: string)
    requires forall k :: 0 <= k < |s| ==> IsSpace(s[k])
    requires forall k :: 0 <= k < |post| ==> IsSpace(post[k])
    ensures Trim(s + post) == ""
  {
    var w := s + post;
    forall k | 0 <= k < |w| ensures IsSpace(w[k]) {
      if k < |s| { assert w[k] == s[k]; } else { assert w[k] == post[k - |s|]; }
    }
  }

  lemma TrimAppendKept(s: string, post: string)
    requires exists k :: 0 <= k < |s| && !IsSpace(s[k])
    requires forall k :: 0 <= k < |post| ==> IsSpace(post[k])
    ensures Trim(s + post) == Trim(s)
  {
    var w := s + post;
    var a := LeadingSpaces(s);
    LeadingSpacesPrefix(s, post);
    var t := s[a..];
    assert w[a..] == t + post;
    TrailingStartAppend(t, post);
    var e := TrailingStart(t);
    assert (t + post)[..e] == t[..e];
  }

  lemma {:induction false} LeadingSpacesSkip(pre: string, s: string)
    requires forall k :: 0 <= k < |pre| ==> IsSpace(pre[k])
    ensures LeadingSpaces(pre + s) == |pre| + LeadingSpaces(s)
    ensures (pre + s)[LeadingSpaces(pre + s)..] == s[LeadingSpaces(s)..]
  {
    if pre != [] {
      assert (pre + s)[1..] == pre[1..] + s;
      LeadingSpacesSkip(pre[1..], s);
    } else {
      assert pre + s == s;
    }
  }

  lemma {:induction false} LeadingSpacesPrefix(s: string, post: string)
    requires exists k :: 0 <= k < |s| && !IsSpace(s[k])
    ensures LeadingSpaces(s + post) == LeadingSpaces(s)
  {
    if IsSpace(s[0]) {
      assert (s + post)[1..] == s[1..] + post;
      var k :| 0 <= k < |s| && !IsSpace(s[k]);
      assert s[1..][k - 1] == s[k];
      LeadingSpacesPrefix(s[1..], post);
    }
  }

  lemma {:induction false} TrailingStartAppend(x: string, post: string)
    requires forall k :: 0 <= k < |post| ==> IsSpace(post[k])
    ensures TrailingStart(x + post) == TrailingStart(x)
    decreases |post|
  {
    if post == [] {
      assert x + post == x;
    } else {
      assert (x + post)[..|x + post| - 1] == x + post[..|post| - 1];
      TrailingStartAppend(x, post[..|post| - 1]);
    }
  }

  // ---------------------------------------------------------------------------
  // split and join with a one-character separator

  /** `items.join(sep)`: the first item opens the result, and with a
      one-character separator the result holds exactly one more of it per
      item after the first than the items themselves do. */
  function Join(items: seq<string>, sep: string): (r: string)
    ensures |items| >= 1 ==> items[0] <= r
    ensures |items| >= 1 && |sep| == 1 ==>
      Occurrences(r, sep[0]) == TotalOccurrences(items, sep[0]) + |items| - 1
  {
    if |items| == 0 then ""
    else if |items| == 1 then items[0]
    else
      var rest := Join(items[1..], sep);
      if |sep| == 1 then
        OccurrencesAppend(items[0], sep, sep[0]);
        OccurrencesAppend(items[0] + sep, rest, sep[0]);
        items[0] + sep + rest
      else
        items[0] + sep + rest
  }

  /** `s.indexOf(c)` when `c` occurs: the first occurrence. */
  function IndexOf(s: string, c: char): (i: nat)
    requires c in s
    ensures i < |s| && s[i] == c && c !in s[..i]
  {
    if s[0] == c then 0
    else
      var j := IndexOf(s[1..], c);
      assert s[..j + 1] == [s[0]] + s[1..][..j];
      j + 1
  }

  /** An occurrence of `c` with none before it is the one `IndexOf` finds. */
  lemma {:induction false} IndexOfFirst(s: string, c: char, n: nat)
    requires n < |s| && s[n] == c && c !in s[..n]
    ensures IndexOf(s, c) == n
  {
    if n > 0 {
      assert s[0] == s[..n][0];
      assert s[1..][..n - 1] == s[..n][1..];
      IndexOfFirst(s[1..], c, n - 1);
    }
  }

  /** `s.split(c)`: the pieces between occurrences of `c`, none of which
      contains `c`; joining them with `c` gives back `s`. */
  function Split(s: string, c: char): (parts: seq<string>)
    ensures |parts| >= 1
    ensures forall i :: 0 <= i < |parts| ==> c !in parts[i]
    ensures Join(parts, [c]) == s
    decreases |s|
  {
    if c !in s then [s]
    else
      var i := IndexOf(s, c);
      var rest := Split(s[i + 1..], c);
      var parts := [s[..i]] + rest;
      assert parts[1..] == rest;
      assert s == s[..i] + [c] + s[i + 1..];
      parts
  }

  /** The first piece of `s.split(c)` is the text before the first `c`, or
      all of `s` when `c` does not occur. */
  lemma {:induction false} SplitHead(s: string, c: char)
    ensures c !in Split(s, c)[0]
    ensures c in s ==> |Split(s, c)[0]| < |s| && s[|Split(s, c)[0]|] == c
    ensures c in s ==> Split(s, c)[0] == s[..|Split(s, c)[0]|]
    ensures c !in s ==> Split(s, c)[0] == s
  {
    if c in s {
      var i := IndexOf(s, c);
      assert Split(s, c)[0] == s[..i];
    }
  }

  /** Splitting a join recovers the pieces, provided none of them contains the
      separator. */
  lemma {:induction false} SplitJoin(items: seq<string>, c: char)
    requires |items| >= 1
    requires forall i :: 0 <= i < |items| ==> c !in items[i]
    ensures Split(Join(items, [c]), c) == items
  {
    if |items| > 1 {
      SplitJoin(items[1..], c);
      SplitCons(items[0], Join(items[1..], [c]), c);
      assert items == [items[0]] + items[1..];
    }
  }

  /** Splitting a piece without the separator, the separator and the rest
      gives the piece followed by the split of the rest. */
  lemma SplitCons(x: string, rest: string, c: char)
    requires c !in x
    ensures Split(x + [c] + rest, c) == [x] + Split(rest, c)
  {
    var s := x + [c] + rest;
    var n := |x|;
    assert s[..n] == x;
    IndexOfFirst(s, c, n);
    assert s[n + 1..] == rest;
  }

  /** Number of occurrences of `c` in `s`. */
  function Occurrences(s: string, c: char): nat {
    if s == [] then 0 else (if s[0] == c then 1 else 0) + Occurrences(s[1..], c)
  }

  /** Number of occurrences of `c` over all the strings. */
  function TotalOccurrences(items: seq<string>, c: char): nat {
    if items == [] then 0 else Occurrences(items[0], c) + TotalOccurrences(items[1..], c)
  }

  lemma {:induction false} OccurrencesAppend(a: string, b: string, c: char)
    ensures Occurrences(a + b, c) == Occurrences(a, c) + Occurrences(b, c)
  {
    if a != [] {
      assert (a + b)[1..] == a[1..] + b;
      OccurrencesAppend(a[1..], b, c);
    } else {
      assert a + b == b;
    }
  }

  // ---------------------------------------------------------------------------
  // numbers rendered as text, and parseInt

  /** A digit of the given radix (10 or 16), in either letter case. */
  predicate IsRadixDigit(c: char, radix: nat) {
    if radix == 16 then '0' <= c <= '9' || 'a' <= c <= 'f' || 'A' <= c <= 'F'
    else '0' <= c <= '9'
  }

  function RadixDigitValue(c: char, radix: nat): (d: nat)
    requires IsRadixDigit(c, radix)
    ensures d < 16
  {
    if '0' <= c <= '9' then c as int - '0' as int
    else if 'a' <= c <= 'f' then c as int - 'a' as int + 10
    else c as int - 'A' as int + 10
  }

  predicate AllDigits(s: string, radix: nat) {
    forall k :: 0 <= k < |s| ==> IsRadixDigit(s[k], radix)
  }

  /** The number a string of digits denotes, most significant digit first. */
  function DigitsValue(s: string, radix: nat): nat
    requires AllDigits(s, radix)
  {
    if s == [] then 0
    else radix * DigitsValue(s[..|s| - 1], radix) + RadixDigitValue(s[|s| - 1], radix)
  }

  /** Length of the longest run of digits at the start of `s`. */
  function DigitRun(s: string, radix: nat): (n: nat)
    ensures n <= |s|
    ensures AllDigits(s[..n], radix)
    ensures n < |s| ==> !IsRadixDigit(s[n], radix)
  {
    if s == [] || !IsRadixDigit(s[0], radix) then 0
    else
      var n := 1 + DigitRun(s[1..], radix);
      assert forall k :: 1 <= k < n ==> s[..n][k] == s[1..][..n - 1][k - 1];
      n
  }

  /** `String(n)` for a non-negative integer: a non-empty run of decimal digits
      denoting `n`. */
  function NatToString(n: nat): (s: string)
    ensures s != [] && AllDigits(s, 10)
    ensures DigitsValue(s, 10) == n
    ensures s[0] == '0' ==> s == "0"
  {
    var last := ('0' as int + n % 10) as char;
    if n < 10 then
      assert DigitsValue([last], 10) == 10 * DigitsValue([], 10) + n;
      [last]
    else
      var s := NatToString(n / 10) + [last];
      assert s[..|s| - 1] == NatToString(n / 10);
      s
  }

  /** `Number.parseInt(s)` with no radix: skip leading whitespace, read an
      optional sign, then a `0x`/`0X` prefix selects hexadecimal; the longest
      run of digits that follows is the value. `None` stands for `NaN` (no
      digit at all). */
  function ParseInt(s: string): (r: Option<int>)
    ensures s == [] ==> r.None?
    ensures s != [] && !IsSpace(s[0]) && s[0] != '-' && s[0] != '+' && !IsRadixDigit(s[0], 10) ==> r.None?
  {
    ParseSigned(s[LeadingSpaces(s)..])
  }

  /** `parseInt` once the leading whitespace is gone: a `-` negates what
      follows, a `+` is skipped. */
  function ParseSigned(t: string): (r: Option<int>)
    ensures t == [] ==> r.None?
    ensures t != [] && t[0] != '-' && t[0] != '+' && !IsRadixDigit(t[0], 10) ==> r.None?
  {
    if t != [] && t[0] == '-' then
      var m := ParseMagnitude(t[1..]);
      if m.None? then None else Some(-(m.value as int))
    else if t != [] && t[0] == '+' then
      var m := ParseMagnitude(t[1..]);
      if m.None? then None else Some(m.value)
    else
      var m := ParseMagnitude(t);
      if m.None? then None else Some(m.value)
  }

  /** An unsigned number: `0x` or `0X` selects hexadecimal, anything else is
      read in decimal. */
  function ParseMagnitude(u: string): (r: Option<nat>)
    ensures u == [] ==> r.None?
    ensures u != [] && !IsRadixDigit(u[0], 10) ==> r.None?
  {
    if |u| >= 2 && u[0] == '0' && (u[1] == 'x' || u[1] == 'X') then ReadDigits(u[2..], 16)
    else ReadDigits(u, 10)
  }

  /** The value of the longest run of digits at the start of `body`, or
      `None` when it does not start with a digit. */
  function ReadDigits(body: string, radix: nat): (r: Option<nat>)
    ensures r.None? <==> body == [] || !IsRadixDigit(body[0], radix)
  {
    var n := DigitRun(body, radix);
    if n == 0 then None else Some(DigitsValue(body[..n], radix))
  }
  /** A run of digits followed by a non-digit reads as exactly that run. */
  lemma ReadDigitsPrefix(d: string, rest: string, radix: nat)
    requires d != [] && AllDigits(d, radix)
    requires rest == [] || !IsRadixDigit(rest[0], radix)
    ensures ReadDigits(d + rest, radix) == Some(DigitsValue(d, radix))
  {
    DigitRunPrefix(d, rest, radix);
    assert (d + rest)[..|d|] == d;
  }

  /** A run of digits followed by a non-digit is exactly the longest run. */
  lemma {:induction false} DigitRunPrefix(d: string, rest: string, radix: nat)
    requires AllDigits(d, radix)
    requires rest == [] || !IsRadixDigit(rest[0], radix)
    ensures DigitRun(d + rest, radix) == |d|
  {
    if d == [] {
      assert d + rest == rest;
    } else {
      assert (d + rest)[0] == d[0] && (d + rest)[1..] == d[1..] + rest;
      DigitRunPrefix(d[1..], rest, radix);
    }
  }

  /** Without leading whitespace, `parseInt` starts at the sign. */
  lemma ParseIntUnpadded(s: string)
    requires s == [] || !IsSpace(s[0])
    ensures ParseInt(s) == ParseSigned(s)
  {
    assert LeadingSpaces(s) == 0;
    assert s[0..] == s;
  }

  /** `parseInt` reads the longest run of decimal digits at the start and
      ignores whatever follows it: `parseInt("2go")` is 2. A lone `0`
      followed by `x` or `X` is the hexadecimal prefix instead. */
  lemma ParseIntPrefix(d: string, rest: string)
    requires d != [] && AllDigits(d, 10)
    requires rest == [] || !IsRadixDigit(rest[0], 10)
    requires !(d == "0" && rest != [] && (rest[0] == 'x' || rest[0] == 'X'))
    ensures ParseInt(d + rest) == Some(DigitsValue(d, 10))
  {
    var s := d + rest;
    assert s[0] == d[0] && IsRadixDigit(d[0], 10);
    ParseIntUnpadded(s);
    if |d| >= 2 {
      assert s[1] == d[1] && IsRadixDigit(d[1], 10);
    } else if rest != [] {
      assert s[1] == rest[0] && d == [d[0]];
    }
    ReadDigitsPrefix(d, rest, 10);
  }

  /** A non-empty run of decimal digits parses to the number it denotes. */
  lemma ParseIntDigits(s: string)
    requires s != [] && AllDigits(s, 10)
    ensures ParseInt(s) == Some(DigitsValue(s, 10))
  {
    ParseIntPrefix(s, []);
    assert s + [] == s;
  }

  /** `parseInt("0x" + h)`: after a `0x` or `0X` prefix the longest run of
      hexadecimal digits is read in base 16. */
  lemma ParseIntHex(x: char, h: string, rest: string)
    requires x == 'x' || x == 'X'
    requires h != [] && AllDigits(h, 16)
    requires rest == [] || !IsRadixDigit(rest[0], 16)
    ensures ParseInt(['0', x] + h + rest) == Some(DigitsValue(h, 16))
  {
    var t := h + rest;
    ReadDigitsPrefix(h, rest, 16);
    var s := ['0', x] + t;
    assert s[2..] == t;
    assert ParseMagnitude(s) == ReadDigits(t, 16);
    ParseIntUnpadded(s);
    assert ['0', x] + h + rest == s;
  }

  /** Leading whitespace does not change what `parseInt` reads. */
  lemma ParseIntSkipsSpaces(pre: string, s: string)
    requires forall k :: 0 <= k < |pre| ==> IsSpace(pre[k])
    ensures ParseInt(pre + s) == ParseInt(s)
  {
    LeadingSpacesSkip(pre, s);
  }

  /** A leading `-` negates the number read after it, and a leading `+` is
      ignored. */
  lemma ParseIntSign(s: string)
    requires s == [] || (!IsSpace(s[0]) && s[0] != '-' && s[0] != '+')
    ensures ParseInt("-" + s) == if ParseInt(s).Some? then Some(-ParseInt(s).value) else None
    ensures ParseInt("+" + s) == ParseInt(s)
  {
    ParseIntUnpadded(s);
    ParseIntUnpadded("-" + s);
    ParseIntUnpadded("+" + s);
    assert ("-" + s)[1..] == s && ("+" + s)[1..] == s;
  }

  /** Parsing the decimal rendering of `n` gives back `n`. */
  lemma ParseIntNatToString(n: nat)
    ensures ParseInt(NatToString(n)) == Some(n)
  {
    ParseIntDigits(NatToString(n));
  }
}
