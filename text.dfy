/**
 * The JavaScript string operations the application relies on: `trim`,
 * ASCII `toLowerCase`/`toUpperCase`, `includes`, `join` (with `split` as its
 * inverse) and the default ordering used by `Array.prototype.sort`.
 */
module Text {

  // ---------------------------------------------------------------------------
  // trim
  // ---------------------------------------------------------------------------

  /** The characters `String.prototype.trim` removes: ECMAScript WhiteSpace and LineTerminator. */
  predicate IsTrimmable(c: char) {
    TrimmableCode(c as int)
  }

  /** The code points of ECMAScript WhiteSpace and LineTerminator (tab to carriage return, space,
      no-break space, ogham space mark, the U+2000 block of spaces, the line and paragraph
      separators, narrow and medium mathematical spaces, ideographic space, byte order mark). */
  predicate TrimmableCode(n: int) {
    || 9 <= n <= 13 || n == 32 || n == 0xA0 || n == 0x1680 || 0x2000 <= n <= 0x200A
    || n == 0x2028 || n == 0x2029 || n == 0x202F || n == 0x205F || n == 0x3000 || n == 0xFEFF
  }

  predicate AllTrimmable(s: string) {
    forall i :: 0 <= i < |s| ==> IsTrimmable(s[i])
  }

  /** The index of the first character at or after `i` that is not trimmable (`|s|` if none). */
  function TrimStartIndex(s: string, i: nat): (n: nat)
    requires i <= |s|
    ensures i <= n <= |s|
    decreases |s| - i
  {
    if i < |s| && IsTrimmable(s[i]) then TrimStartIndex(s, i + 1) else i
  }

  /** `TrimStartIndex` skips only trimmable characters and stops at one that is not. */
  lemma {:induction false} TrimStartIndexStops(s: string, i: nat)
    requires i <= |s|
    ensures var n := TrimStartIndex(s, i);
      && (forall k :: i <= k < n ==> IsTrimmable(s[k]))
      && (n < |s| ==> !IsTrimmable(s[n]))
    decreases |s| - i
  {
    if i < |s| && IsTrimmable(s[i]) {
      TrimStartIndexStops(s, i + 1);
    }
  }

  /** The index just past the last character in `s[lo..j]` that is not trimmable (`lo` if none). */
  function TrimEndIndex(s: string, lo: nat, j: nat): (n: nat)
    requires lo <= j <= |s|
    ensures lo <= n <= j
    decreases j
  {
    if lo < j && IsTrimmable(s[j - 1]) then TrimEndIndex(s, lo, j - 1) else j
  }

  /** `TrimEndIndex` drops only trimmable characters and stops after one that is not. */
  lemma {:induction false} TrimEndIndexStops(s: string, lo: nat, j: nat)
    requires lo <= j <= |s|
    ensures var n := TrimEndIndex(s, lo, j);
      && (forall k :: n <= k < j ==> IsTrimmable(s[k]))
      && (lo < n ==> !IsTrimmable(s[n - 1]))
    decreases j
  {
    if lo < j && IsTrimmable(s[j - 1]) {
      TrimEndIndexStops(s, lo, j - 1);
    }
  }

  /** `s.trim()`: `s` without the trimmable characters at either end. */
  function Trim(s: string): (r: string)
    ensures |r| <= |s|
  {
    var a := TrimStartIndex(s, 0);
    s[a..TrimEndIndex(s, a, |s|)]
  }

  /** What `Trim` removed: `Trim(s)` sits at offset `a` of `s`, with only trimmable characters
      around it, and it neither starts nor ends with a trimmable character. */
  lemma TrimIsSlice(s: string) returns (a: nat)
    ensures a + |Trim(s)| <= |s| && Trim(s) == s[a..a + |Trim(s)|]
    ensures forall i :: 0 <= i < a ==> IsTrimmable(s[i])
    ensures forall i :: a + |Trim(s)| <= i < |s| ==> IsTrimmable(s[i])
    ensures Trim(s) != [] ==> !IsTrimmable(Trim(s)[0]) && !IsTrimmable(Trim(s)[|Trim(s)| - 1])
  {
    a := TrimStartIndex(s, 0);
    TrimStartIndexStops(s, 0);
    TrimEndIndexStops(s, a, |s|);
  }

  /** Trimming is idempotent. */
  lemma TrimIdempotent(s: string)
    ensures Trim(Trim(s)) == Trim(s)
  {
    var _ := TrimIsSlice(s);
    TrimUnchanged(Trim(s));
  }

  /** A string with no trimmable character at either end is its own trim. */
  lemma TrimUnchanged(s: string)
    requires s != [] ==> !IsTrimmable(s[0]) && !IsTrimmable(s[|s| - 1])
    ensures Trim(s) == s
  {
    assert TrimStartIndex(s, 0) == 0;
    assert TrimEndIndex(s, 0, |s|) == |s|;
  }

  /** The trimmed string is empty exactly when every character is trimmable. */
  lemma TrimEmptyIff(s: string)
    ensures Trim(s) == [] <==> AllTrimmable(s)
  {
    var a := TrimIsSlice(s);
    if Trim(s) != [] {
      assert s[a] == Trim(s)[0];
    }
  }

  // ---------------------------------------------------------------------------
  // ASCII case mapping
  // ---------------------------------------------------------------------------

  predicate IsUpperAscii(c: char) { 'A' <= c <= 'Z' }
  predicate IsLowerAscii(c: char) { 'a' <= c <= 'z' }

  function LowerChar(c: char): (d: char)
    ensures !IsUpperAscii(d)
    ensures IsUpperAscii(c) ==> d as int == c as int + 32
    ensures !IsUpperAscii(c) ==> d == c
  {
    if IsUpperAscii(c) then (c as int + 32) as char else c
  }

  function UpperChar(c: char): (d: char)
    ensures !IsLowerAscii(d)
    ensures IsLowerAscii(c) ==> d as int == c as int - 32
    ensures !IsLowerAscii(c) ==> d == c
  {
    if IsLowerAscii(c) then (c as int - 32) as char else c
  }

  /** `s.toLowerCase()` on the ASCII letters; every other character is kept. */
  function ToLower(s: string): (r: string)
    ensures |r| == |s|
    ensures forall i :: 0 <= i < |r| ==> !IsUpperAscii(r[i])
    ensures forall i :: 0 <= i < |s| && IsUpperAscii(s[i]) ==> r[i] as int == s[i] as int + 32
    ensures forall i :: 0 <= i < |s| && !IsUpperAscii(s[i]) ==> r[i] == s[i]
  {
    seq(|s|, i requires 0 <= i < |s| => LowerChar(s[i]))
  }

  /** `s.toUpperCase()` on the ASCII letters; every other character is kept. */
  function ToUpper(s: string): (r: string)
    ensures |r| == |s|
    ensures forall i :: 0 <= i < |r| ==> !IsLowerAscii(r[i])
    ensures forall i :: 0 <= i < |s| && IsLowerAscii(s[i]) ==> r[i] as int == s[i] as int - 32
    ensures forall i :: 0 <= i < |s| && !IsLowerAscii(s[i]) ==> r[i] == s[i]
  {
    seq(|s|, i requires 0 <= i < |s| => UpperChar(s[i]))
  }

  /** Lower-casing forgets case: a string and its upper-cased form lower-case alike. */
  lemma LowerIgnoresCase(s: string)
    ensures ToLower(ToUpper(s)) == ToLower(s)
    ensures ToLower(ToLower(s)) == ToLower(s)
  {
    assert forall i :: 0 <= i < |s| ==> LowerChar(UpperChar(s[i])) == LowerChar(s[i]);
  }

  /** A string without ASCII lower-case letters is its own upper-case form. */
  lemma ToUpperUnchanged(s: string)
    requires forall i :: 0 <= i < |s| ==> !IsLowerAscii(s[i])
    ensures ToUpper(s) == s
  {
  }

  // ---------------------------------------------------------------------------
  // includes
  // ---------------------------------------------------------------------------

  predicate StartsWith(s: string, prefix: string) {
    |prefix| <= |s| && s[..|prefix|] == prefix
  }

  /** `part` occurs in `s` starting at position `i`. */
  predicate OccursAt(s: string, part: string, i: int) {
    0 <= i <= |s| - |part| && s[i..i + |part|] == part
  }

  /** `s.includes(part)`, scanning the start positions left to right. */
  predicate Contains(s: string, part: string)
    decreases |s|
  {
    StartsWith(s, part) || (s != [] && Contains(s[1..], part))
  }

  /** `Contains` holds exactly when `part` occurs at some position of `s`. */
  lemma {:induction false} ContainsIff(s: string, part: string)
    ensures Contains(s, part) <==> exists i :: OccursAt(s, part, i)
    decreases |s|
  {
    if s == [] {
      if part == [] { assert OccursAt(s, part, 0); }
    } else {
      ContainsIff(s[1..], part);
      if Contains(s, part) {
        if StartsWith(s, part) {
          assert OccursAt(s, part, 0);
        } else {
          var i :| OccursAt(s[1..], part, i);
          assert s[1..][i..i + |part|] == s[i + 1..i + 1 + |part|];
          assert OccursAt(s, part, i + 1);
        }
      }
      if i :| OccursAt(s, part, i) {
        if i == 0 {
          assert StartsWith(s, part);
        } else {
          assert s[1..][i - 1..i - 1 + |part|] == s[i..i + |part|];
          assert OccursAt(s[1..], part, i - 1);
        }
      }
    }
  }

  // ---------------------------------------------------------------------------
  // join and split
  // ---------------------------------------------------------------------------

  /** `parts.join(sep)`. */
  function Join(parts: seq<string>, sep: string): string
  {
    if |parts| == 0 then ""
    else if |parts| == 1 then parts[0]
    else parts[0] + sep + Join(parts[1..], sep)
  }

  /** `s.split(d)` for a one-character separator: the pieces between occurrences of `d`. */
  function Split(s: string, d: char): (parts: seq<string>)
    ensures |parts| >= 1
    decreases |s|
  {
    if s == [] then [""]
    else if s[0] == d then [""] + Split(s[1..], d)
    else
      var rest := Split(s[1..], d);
      [[s[0]] + rest[0]] + rest[1..]
  }

  /** Splitting a string with no separator in it yields that string alone. */
  lemma {:induction false} SplitNoSeparator(s: string, d: char)
    requires d !in s
    ensures Split(s, d) == [s]
    decreases |s|
  {
    if s != [] {
      SplitNoSeparator(s[1..], d);
      assert [s[0]] + s[1..] == s;
    }
  }

  /** Splitting `p + d + rest` with `d` not in `p` peels off `p`. */
  lemma {:induction false} SplitFirstPiece(p: string, d: char, rest: string)
    requires d !in p
    ensures Split(p + [d] + rest, d) == [p] + Split(rest, d)
    decreases |p|
  {
    var s := p + [d] + rest;
    if p == [] {
      assert s == [d] + rest && s[1..] == rest;
    } else {
      assert s[1..] == p[1..] + [d] + rest;
      SplitFirstPiece(p[1..], d, rest);
      assert [p[0]] + p[1..] == p;
    }
  }

  /** Join then split gives back the parts, when no part contains the separator. */
  lemma {:induction false} SplitJoin(parts: seq<string>, d: char)
    requires |parts| >= 1
    requires forall i :: 0 <= i < |parts| ==> d !in parts[i]
    ensures Split(Join(parts, [d]), d) == parts
  {
    if |parts| == 1 {
      SplitNoSeparator(parts[0], d);
    } else {
      SplitJoin(parts[1..], d);
      SplitFirstPiece(parts[0], d, Join(parts[1..], [d]));
      assert [parts[0]] + parts[1..] == parts;
    }
  }

  /** Split then join gives back the string. */
  lemma {:induction false} JoinSplit(s: string, d: char)
    ensures Join(Split(s, d), [d]) == s
    decreases |s|
  {
    if s == [] {
    } else if s[0] == d {
      JoinSplit(s[1..], d);
      var rest := Split(s[1..], d);
      assert Split(s, d) == [""] + rest && (([""] + rest)[1..]) == rest;
    } else {
      JoinSplit(s[1..], d);
      var rest := Split(s[1..], d);
      var parts := [[s[0]] + rest[0]] + rest[1..];
      if |rest| == 1 {
        assert parts == [[s[0]] + rest[0]];
      } else {
        assert parts[1..] == rest[1..];
        assert Join(rest, [d]) == rest[0] + [d] + Join(rest[1..], [d]);
      }
    }
  }

  // ---------------------------------------------------------------------------
  // the default sort order
  // ---------------------------------------------------------------------------

  /** Lexicographic order by character code, the comparison `Array.prototype.sort` uses by default. */
  predicate Less(a: string, b: string)
    decreases |a|
  {
    b != [] && (a == [] || a[0] < b[0] || (a[0] == b[0] && Less(a[1..], b[1..])))
  }

  lemma {:induction false} LessIrreflexive(a: string)
    ensures !Less(a, a)
    decreases |a|
  {
    if a != [] { LessIrreflexive(a[1..]); }
  }

  lemma {:induction false} LessTransitive(a: string, b: string, c: string)
    requires Less(a, b) && Less(b, c)
    ensures Less(a, c)
    decreases |a|
  {
    if a != [] && a[0] == b[0] && b[0] == c[0] {
      LessTransitive(a[1..], b[1..], c[1..]);
    }
  }

  lemma {:induction false} LessTotal(a: string, b: string)
    ensures a == b || Less(a, b) || Less(b, a)
    decreases |a|
  {
    if a != [] && b != [] && a[0] == b[0] {
      LessTotal(a[1..], b[1..]);
      if a[1..] == b[1..] {
        assert a == [a[0]] + a[1..] && b == [b[0]] + b[1..];
      }
    }
  }

  lemma {:induction false} LessAsymmetric(a: string, b: string)
    requires Less(a, b)
    ensures !Less(b, a)
  {
    if Less(b, a) {
      LessTransitive(a, b, a);
      LessIrreflexive(a);
    }
  }
}
