/**
 * The two Python string operations the corner parser relies on:
 * `str.strip()` with no argument and `str.split(sep)` with an explicit
 * one-character separator, together with `Join`, the inverse of `Split`.
 */
module Text {

  /** The characters Python's `str.isspace()` accepts; `str.strip()` removes exactly these. */
  predicate IsSpace(c: char) {
    || ('\t' <= c <= '\r')
    || ('\U{1C}' <= c <= '\U{1F}')
    || c == ' '
    || c == '\U{85}'
    || c == '\U{A0}'
    || c == '\U{1680}'
    || ('\U{2000}' <= c <= '\U{200A}')
    || c == '\U{2028}'
    || c == '\U{2029}'
    || c == '\U{202F}'
    || c == '\U{205F}'
    || c == '\U{3000}'
  }

  /** No character of `s` is whitespace. */
  predicate NoSpace(s: string) {
    forall k :: 0 <= k < |s| ==> !IsSpace(s[k])
  }

  /** The number of whitespace characters `s` starts with. */
  function LeadingSpace(s: string): (n: nat)
    ensures n <= |s|
    ensures n < |s| ==> !IsSpace(s[n])
  {
    if s != [] && IsSpace(s[0]) then 1 + LeadingSpace(s[1..]) else 0
  }

  /** The number of whitespace characters `s` ends with. */
  function TrailingSpace(s: string): (n: nat)
    ensures n <= |s|
    ensures n < |s| ==> !IsSpace(s[|s| - 1 - n])
  {
    if s != [] && IsSpace(s[|s| - 1]) then 1 + TrailingSpace(s[..|s| - 1]) else 0
  }

  /** Every character counted by `LeadingSpace` is whitespace. */
  lemma {:induction false} LeadingSpaceIsSpace(s: string, k: nat)
    requires k < LeadingSpace(s)
    ensures IsSpace(s[k])
  {
    if k > 0 {
      LeadingSpaceIsSpace(s[1..], k - 1);
    }
  }

  /** Every character counted by `TrailingSpace` is whitespace. */
  lemma {:induction false} TrailingSpaceIsSpace(s: string, k: nat)
    requires k < TrailingSpace(s)
    ensures IsSpace(s[|s| - 1 - k])
  {
    if k > 0 {
      TrailingSpaceIsSpace(s[..|s| - 1], k - 1);
    }
  }

  /**
   * Python's `s.strip()`: the part of `s` left after cutting its leading
   * whitespace and then the trailing whitespace of what remains. Neither end
   * of the result is whitespace.
   */
  function Strip(s: string): (r: string)
    ensures r == [] || (!IsSpace(r[0]) && !IsSpace(r[|r| - 1]))
  {
    var t := s[LeadingSpace(s)..];
    t[..|t| - TrailingSpace(t)]
  }

  /** `Strip` keeps a contiguous part of `s`, starting after its leading whitespace. */
  lemma StripIsSlice(s: string)
    ensures var i := LeadingSpace(s);
      i + |Strip(s)| <= |s| && Strip(s) == s[i..i + |Strip(s)|]
  {
    var i := LeadingSpace(s);
    var t := s[i..];
    assert t[..|t| - TrailingSpace(t)] == s[i..i + |t| - TrailingSpace(t)];
  }

  /** Every character `Strip` cuts off, on either side of what it keeps, is whitespace. */
  lemma StripCutsOnlySpace(s: string, k: nat)
    requires k < |s|
    requires k < LeadingSpace(s) || LeadingSpace(s) + |Strip(s)| <= k
    ensures IsSpace(s[k])
  {
    var i := LeadingSpace(s);
    if k < i {
      LeadingSpaceIsSpace(s, k);
    } else {
      var t := s[i..];
      TrailingSpaceIsSpace(t, |s| - 1 - k);
      assert t[|t| - 1 - (|s| - 1 - k)] == s[k];
    }
  }

  /** Stripping a string that neither starts nor ends with whitespace leaves it unchanged. */
  lemma StripKeeps(s: string)
    requires s == [] || (!IsSpace(s[0]) && !IsSpace(s[|s| - 1]))
    ensures Strip(s) == s
  {
    assert LeadingSpace(s) == 0;
    assert s[0..] == s;
    assert TrailingSpace(s) == 0;
    assert s[..|s|] == s;
  }

  /** Stripping is idempotent. */
  lemma StripIdempotent(s: string)
    ensures Strip(Strip(s)) == Strip(s)
  {
    StripKeeps(Strip(s));
  }

  /** The index of the first `c` in `s`, or `|s|` when there is none. */
  function IndexOf(s: string, c: char): (i: nat)
    ensures i <= |s|
    ensures i < |s| ==> s[i] == c
  {
    if s == [] || s[0] == c then 0 else 1 + IndexOf(s[1..], c)
  }

  /** No `c` occurs before `IndexOf(s, c)`. */
  lemma {:induction false} IndexOfFirst(s: string, c: char)
    ensures c !in s[..IndexOf(s, c)]
  {
    if s != [] && s[0] != c {
      IndexOfFirst(s[1..], c);
      assert s[..IndexOf(s, c)] == [s[0]] + s[1..][..IndexOf(s[1..], c)];
    }
  }

  /**
   * Python's `s.split(sep)` with an explicit separator: the pieces between
   * consecutive separators, empty pieces included, so the empty string
   * splits into one empty piece.
   */
  function Split(s: string, sep: char): (parts: seq<string>)
    ensures |parts| >= 1
    decreases |s|
  {
    var i := IndexOf(s, sep);
    if i == |s| then [s] else [s[..i]] + Split(s[i + 1..], sep)
  }

  /** A split has one more piece than the string has separators. */
  lemma {:induction false} SplitCount(s: string, sep: char)
    ensures |Split(s, sep)| == multiset(s)[sep] + 1
    decreases |s|
  {
    var i := IndexOf(s, sep);
    IndexOfFirst(s, sep);
    if i < |s| {
      SplitCount(s[i + 1..], sep);
      assert s == s[..i] + [sep] + s[i + 1..];
    } else {
      assert s == s[..i];
    }
  }

  /** No piece of a split contains the separator. */
  lemma {:induction false} SplitPiecesOmitSeparator(s: string, sep: char)
    ensures forall j :: 0 <= j < |Split(s, sep)| ==> sep !in Split(s, sep)[j]
    decreases |s|
  {
    var i := IndexOf(s, sep);
    IndexOfFirst(s, sep);
    if i < |s| {
      SplitPiecesOmitSeparator(s[i + 1..], sep);
    }
  }

  /** Python's `sep.join(parts)` for a non-empty list of parts: the inverse of `Split`. */
  function Join(parts: seq<string>, sep: char): string
    requires |parts| >= 1
  {
    if |parts| == 1 then parts[0] else parts[0] + [sep] + Join(parts[1..], sep)
  }

  /** Joining the pieces of a split gives back the original string. */
  lemma {:induction false} JoinSplit(s: string, sep: char)
    ensures Join(Split(s, sep), sep) == s
    decreases |s|
  {
    var i := IndexOf(s, sep);
    if i < |s| {
      var rest := Split(s[i + 1..], sep);
      JoinSplit(s[i + 1..], sep);
      var parts := [s[..i]] + rest;
      assert parts[1..] == rest;
      assert s == s[..i] + [sep] + s[i + 1..];
    }
  }

  /** Splitting the join of separator-free pieces gives back the pieces. */
  lemma {:induction false} SplitJoin(parts: seq<string>, sep: char)
    requires |parts| >= 1
    requires forall j :: 0 <= j < |parts| ==> sep !in parts[j]
    ensures Split(Join(parts, sep), sep) == parts
  {
    var p := parts[0];
    if |parts| == 1 {
    } else {
      var t := Join(parts[1..], sep);
      var s := p + [sep] + t;
      SplitJoin(parts[1..], sep);
      assert s[|p|] == sep;
      assert forall k :: 0 <= k < |p| ==> s[k] == p[k];
      var i := IndexOf(s, sep);
      IndexOfFirst(s, sep);
      assert i == |p|;
      assert s[..i] == p && s[i + 1..] == t;
      assert parts == [p] + parts[1..];
    }
  }

  /** A join starts with the first character of its first (non-empty) piece. */
  lemma {:induction false} JoinFirst(parts: seq<string>, sep: char)
    requires |parts| >= 1 && parts[0] != []
    ensures Join(parts, sep) != [] && Join(parts, sep)[0] == parts[0][0]
  {
  }

  /** A join ends with the last character of its last (non-empty) piece. */
  lemma {:induction false} JoinLast(parts: seq<string>, sep: char)
    requires |parts| >= 1 && parts[|parts| - 1] != []
    ensures var s := Join(parts, sep); s != [] && s[|s| - 1] == parts[|parts| - 1][|parts[|parts| - 1]| - 1]
  {
    if |parts| > 1 {
      JoinLast(parts[1..], sep);
    }
  }

  /** A join of whitespace-free pieces contains no whitespace except its separators. */
  lemma {:induction false} JoinNoSpace(parts: seq<string>, sep: char)
    requires |parts| >= 1 && !IsSpace(sep)
    requires forall i :: 0 <= i < |parts| ==> NoSpace(parts[i])
    ensures NoSpace(Join(parts, sep))
  {
    if |parts| > 1 {
      JoinNoSpace(parts[1..], sep);
      var s := Join(parts, sep);
      forall k | 0 <= k < |s| ensures !IsSpace(s[k]) {
        if k >= |parts[0]| + 1 {
          assert s[k] == Join(parts[1..], sep)[k - |parts[0]| - 1];
        }
      }
    }
  }
}
