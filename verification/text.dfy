/** The Python string operations the handlers rely on: substring search (`in`),
    `str.split(sep)`, `sep.join(parts)` and decimal formatting of an `int`. */
module Text {
  import opened Results

  /** `needle` occurs in `s` starting at index `j`. */
  predicate OccursAt(s: string, needle: string, j: nat)
  {
    j + |needle| <= |s| && s[j..j + |needle|] == needle
  }

  /** Python's `needle in s` for two strings, stated without computing it. */
  ghost predicate IsSubstring(needle: string, s: string)
  {
    exists j: nat :: OccursAt(s, needle, j)
  }

  /** The first index at or after `from` where `needle` occurs in `s`
      (Python's `s.find(needle, from)`), or `None` when there is none. */
  function FindFrom(s: string, needle: string, from: nat): (r: Option<nat>)
    ensures r.Some? ==> from <= r.value && OccursAt(s, needle, r.value)
    ensures r.Some? ==> forall j: nat :: from <= j < r.value ==> !OccursAt(s, needle, j)
    ensures r.None? ==> forall j: nat :: from <= j ==> !OccursAt(s, needle, j)
    decreases |s| - from
  {
    if from + |needle| > |s| then None
    else if s[from..from + |needle|] == needle then Some(from)
    else FindFrom(s, needle, from + 1)
  }

  /** Python's `needle in s`. */
  function Contains(s: string, needle: string): (b: bool)
    ensures b <==> IsSubstring(needle, s)
  {
    var r := FindFrom(s, needle, 0);
    if r.Some? then true
    else
      assert forall j: nat :: !OccursAt(s, needle, j);
      false
  }

  /** The search starting at 0 lands on `i` exactly when `i` is the first occurrence. */
  lemma FindFirstOccurrence(s: string, needle: string, i: nat)
    requires OccursAt(s, needle, i)
    requires forall j: nat :: j < i ==> !OccursAt(s, needle, j)
    ensures FindFrom(s, needle, 0) == Some(i)
  {
  }

  /** A string in which `needle`'s first character never appears holds no occurrence of it. */
  lemma NoLeadCharNoOccurrence(s: string, needle: string)
    requires |needle| > 0 && needle[0] !in s
    ensures forall j: nat :: !OccursAt(s, needle, j)
  {
    forall j: nat
      ensures !OccursAt(s, needle, j)
    {
      if j + |needle| <= |s| {
        assert s[j..j + |needle|][0] == s[j];
      }
    }
  }

  /** A prefix that ends before the first occurrence of `needle` holds no occurrence of it. */
  lemma PrefixBeforeFirstOccurrence(s: string, needle: string, i: nat)
    requires |needle| > 0 && i <= |s|
    requires forall j: nat :: j < i ==> !OccursAt(s, needle, j)
    ensures forall j: nat :: !OccursAt(s[..i], needle, j)
  {
    forall j: nat
      ensures !OccursAt(s[..i], needle, j)
    {
      if j + |needle| <= i {
        assert s[..i][j..j + |needle|] == s[j..j + |needle|];
        assert !OccursAt(s, needle, j);
      }
    }
  }

  /** Python's `s.split(sep)` for a non-empty separator: the pieces between the
      left-to-right, non-overlapping occurrences of `sep`. The first piece is the
      start of `s`, and there is at most one piece per character of `s`, plus one. */
  function Split(s: string, sep: string): (r: seq<string>)
    requires |sep| > 0
    ensures 1 <= |r| <= |s| + 1
    ensures r[0] <= s
    decreases |s|
  {
    match FindFrom(s, sep, 0)
    case None => [s]
    case Some(i) => [s[..i]] + Split(s[i + |sep|..], sep)
  }

  /** There are several pieces exactly when the separator occurs, a single piece is
      the whole string, and no piece holds the separator. */
  lemma {:induction false} SplitPieces(s: string, sep: string)
    requires |sep| > 0
    ensures |Split(s, sep)| >= 2 <==> IsSubstring(sep, s)
    ensures !IsSubstring(sep, s) ==> Split(s, sep) == [s]
    ensures forall k :: 0 <= k < |Split(s, sep)| ==> !IsSubstring(sep, Split(s, sep)[k])
    decreases |s|
  {
    match FindFrom(s, sep, 0)
    case None =>
    case Some(i) =>
      assert OccursAt(s, sep, i);
      PrefixBeforeFirstOccurrence(s, sep, i);
      SplitPieces(s[i + |sep|..], sep);
  }

  /** Python's `sep.join(parts)`: it starts with the first part, followed by the
      separator when there are more parts. */
  function Join(parts: seq<string>, sep: string): (r: string)
    ensures |parts| > 0 ==> parts[0] <= r
    ensures |parts| >= 2 ==> OccursAt(r, sep, |parts[0]|)
  {
    if |parts| == 0 then ""
    else if |parts| == 1 then parts[0]
    else parts[0] + sep + Join(parts[1..], sep)
  }

  /** Python's `s.split(sep)[k]`: `None` where Python raises `IndexError`. A piece
      never holds the separator; the first piece always exists and is the start of
      `s`, all of `s` when the separator does not occur; the second piece exists
      exactly when the separator occurs. */
  function Field(s: string, sep: string, k: nat): (r: Option<string>)
    requires |sep| > 0
    ensures r.Some? <==> k < |Split(s, sep)|
    ensures r.Some? ==> !IsSubstring(sep, r.value)
    ensures k == 0 ==> r.Some? && r.value <= s
    ensures k == 0 && !IsSubstring(sep, s) ==> r == Some(s)
    ensures k == 1 ==> (r.Some? <==> IsSubstring(sep, s))
  {
    var pieces := Split(s, sep);
    SplitPieces(s, sep);
    if k < |pieces| then Some(pieces[k]) else None
  }

  /** Joining a piece in front of a non-empty list puts the separator between them. */
  lemma JoinCons(p: string, parts: seq<string>, sep: string)
    requires |parts| > 0
    ensures Join([p] + parts, sep) == p + sep + Join(parts, sep)
  {
    assert ([p] + parts)[1..] == parts;
  }

  /** Splitting a string whose first separator sits at `i` yields the piece before it
      followed by the pieces of the remainder. */
  lemma SplitAt(s: string, sep: string, i: nat)
    requires |sep| > 0
    requires OccursAt(s, sep, i)
    requires forall j: nat :: j < i ==> !OccursAt(s, sep, j)
    ensures i + |sep| <= |s|
    ensures Split(s, sep) == [s[..i]] + Split(s[i + |sep|..], sep)
  {
    FindFirstOccurrence(s, sep, i);
  }

  /** Joining the pieces of a split gives back the original string. */
  lemma {:induction false} JoinSplit(s: string, sep: string)
    requires |sep| > 0
    ensures Join(Split(s, sep), sep) == s
    decreases |s|
  {
    var r := FindFrom(s, sep, 0);
    if r.Some? {
      var i := r.value;
      var rest := s[i + |sep|..];
      SplitAt(s, sep, i);
      JoinSplit(rest, sep);
      JoinCons(s[..i], Split(rest, sep), sep);
      assert s[i..i + |sep|] == sep;
      assert s == s[..i] + s[i..i + |sep|] + rest;
    }
  }

  /** Splitting a join gives back the parts, provided no part holds the
      separator's first character. */
  lemma {:induction false} SplitJoin(parts: seq<string>, sep: string)
    requires |sep| > 0 && |parts| > 0
    requires forall k :: 0 <= k < |parts| ==> sep[0] !in parts[k]
    ensures Split(Join(parts, sep), sep) == parts
  {
    var p := parts[0];
    NoLeadCharNoOccurrence(p, sep);
    if |parts| == 1 {
      assert FindFrom(p, sep, 0).None?;
    } else {
      var rest := Join(parts[1..], sep);
      var s := p + sep + rest;
      JoinCons(p, parts[1..], sep);
      assert [p] + parts[1..] == parts;
      assert s[|p|..|p| + |sep|] == sep;
      forall j: nat | j < |p|
        ensures !OccursAt(s, sep, j)
      {
        assert s[j] == p[j];
        if j + |sep| <= |s| {
          assert s[j..j + |sep|][0] == s[j];
        }
      }
      FindFirstOccurrence(s, sep, |p|);
      SplitAt(s, sep, |p|);
      assert s[..|p|] == p;
      assert s[|p| + |sep|..] == rest;
      SplitJoin(parts[1..], sep);
    }
  }

  /** A lead of at most one character, followed by a two-character separator whose
      characters differ and then by text free of the separator's first character,
      splits into exactly the lead and the text. */
  lemma SplitLabelled(lead: string, sep: string, text: string)
    requires |lead| <= 1
    requires |sep| == 2 && sep[0] != sep[1]
    requires sep[0] !in text
    ensures Split(lead + sep + text, sep) == [lead, text]
  {
    var s := lead + sep + text;
    var n := |lead|;
    assert s[n..n + 2] == sep;
    if n == 1 {
      assert s[0..2][1] == sep[0];
    }
    FindFirstOccurrence(s, sep, n);
    SplitAt(s, sep, n);
    assert s[..n] == lead;
    assert s[n + 2..] == text;
    NoLeadCharNoOccurrence(text, sep);
    assert FindFrom(text, sep, 0).None?;
  }

  /** The decimal digit for `d < 10`. */
  function Digit(d: nat): (c: char)
    requires d < 10
    ensures '0' <= c <= '9' && c as int - '0' as int == d
  {
    ('0' as int + d) as char
  }

  /** Python's `str(n)` for a non-negative `int`. */
  function Decimal(n: nat): (r: string)
    ensures |r| >= 1
    ensures forall k :: 0 <= k < |r| ==> '0' <= r[k] <= '9'
    ensures |r| > 1 ==> r[0] != '0'
    ensures n > 0 ==> r[0] != '0'
  {
    if n < 10 then [Digit(n)] else Decimal(n / 10) + [Digit(n % 10)]
  }

  /** The number a string of decimal digits denotes. */
  function DigitsValue(s: string): int
  {
    if |s| == 0 then 0 else 10 * DigitsValue(s[..|s| - 1]) + (s[|s| - 1] as int - '0' as int)
  }

  /** Reading back the decimal form of `n` gives `n`. */
  lemma {:induction false} DecimalRoundTrip(n: nat)
    ensures DigitsValue(Decimal(n)) == n
  {
    if n >= 10 {
      DecimalRoundTrip(n / 10);
      var r := Decimal(n);
      assert r[..|r| - 1] == Decimal(n / 10);
    }
  }
}
