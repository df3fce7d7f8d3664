/**
 * The two JavaScript string built-ins the entry parser relies on:
 * `String.prototype.split` with a one-character separator and
 * `String.prototype.trim`.
 */
module JsString {

  /**
   * The code points ECMAScript's `trim` removes: the WhiteSpace set
   * (tab, vertical tab, form feed, space, no-break space, byte order mark
   * and the Unicode space separators) and the LineTerminator set
   * (line feed, carriage return, line and paragraph separators).
   */
  predicate IsTrimmable(c: char)
  {
    || c == '\t' || c == '\n' || c == '\U{000B}' || c == '\U{000C}' || c == '\r'
    || c == ' ' || c == '\U{00A0}' || c == '\U{1680}'
    || ('\U{2000}' <= c <= '\U{200A}')
    || c == '\U{2028}' || c == '\U{2029}' || c == '\U{202F}' || c == '\U{205F}'
    || c == '\U{3000}' || c == '\U{FEFF}'
  }

  predicate AllTrimmable(s: string)
  {
    forall i :: 0 <= i < |s| ==> IsTrimmable(s[i])
  }

  /**
   * `s.split(sep)`: the pieces of `s` between occurrences of `sep`.
   * There is always at least one piece, and no piece contains `sep`.
   */
  function Split(s: string, sep: char): (pieces: seq<string>)
    ensures |pieces| >= 1
    ensures forall i :: 0 <= i < |pieces| ==> sep !in pieces[i]
  {
    if s == [] then [[]]
    else
      var rest := Split(s[1..], sep);
      if s[0] == sep then [[]] + rest else [[s[0]] + rest[0]] + rest[1..]
  }

  /** `pieces.join(sep)`, the inverse of `Split`. */
  function Join(pieces: seq<string>, sep: char): string
  {
    if pieces == [] then []
    else if |pieces| == 1 then pieces[0]
    else pieces[0] + [sep] + Join(pieces[1..], sep)
  }

  /** Splitting loses nothing: joining the pieces gives the input back. */
  lemma {:induction false} JoinSplit(s: string, sep: char)
    ensures Join(Split(s, sep), sep) == s
  {
    if s != [] {
      var rest := Split(s[1..], sep);
      JoinSplit(s[1..], sep);
      if s[0] == sep {
        assert ([[]] + rest)[1..] == rest;
        assert Join(Split(s, sep), sep) == [sep] + Join(rest, sep);
      } else {
        var pieces := [[s[0]] + rest[0]] + rest[1..];
        if |rest| == 1 {
          assert Join(pieces, sep) == [s[0]] + rest[0];
        } else {
          assert pieces[1..] == rest[1..];
          assert Join(rest, sep) == rest[0] + [sep] + Join(rest[1..], sep);
        }
      }
    }
  }

  /** A string without the separator is a single piece. */
  lemma {:induction false} SplitWithoutSeparator(s: string, sep: char)
    requires sep !in s
    ensures Split(s, sep) == [s]
  {
    if s != [] {
      assert s[0] != sep && sep !in s[1..];
      SplitWithoutSeparator(s[1..], sep);
      assert [s[0]] + s[1..] == s;
    }
  }

  /** The first piece is the text before the first separator; the rest are the pieces of what follows it. */
  lemma {:induction false} SplitAtFirst(s: string, sep: char, i: nat)
    requires i < |s| && s[i] == sep && sep !in s[..i]
    ensures Split(s, sep) == [s[..i]] + Split(s[i + 1..], sep)
  {
    if i == 0 {
      assert s[1..] == s[i + 1..];
    } else {
      assert s[0] != sep by { assert s[0] == s[..i][0]; }
      var t := s[1..];
      assert t[..i - 1] == s[1..i];
      assert sep !in t[..i - 1];
      SplitAtFirst(t, sep, i - 1);
      assert t[i..] == s[i + 1..];
      assert [s[0]] + s[1..i] == s[..i];
    }
  }

  /** The number of leading trimmable characters of `s`. */
  function LeadingCount(s: string): (k: nat)
    ensures k <= |s|
  {
    if s != [] && IsTrimmable(s[0]) then 1 + LeadingCount(s[1..]) else 0
  }

  /** The number of trailing trimmable characters of `s`. */
  function TrailingCount(s: string): (k: nat)
    ensures k <= |s|
  {
    if s != [] && IsTrimmable(s[|s| - 1]) then 1 + TrailingCount(s[..|s| - 1]) else 0
  }

  /** `s.trimStart()` */
  function TrimStart(s: string): string
  {
    s[LeadingCount(s)..]
  }

  /** `s.trimEnd()` */
  function TrimEnd(s: string): string
  {
    s[..|s| - TrailingCount(s)]
  }


  /** The leading run is all trimmable and is followed by a character that is not. */
  lemma {:induction false} LeadingCountSpec(s: string)
    ensures AllTrimmable(s[..LeadingCount(s)])
    ensures LeadingCount(s) < |s| ==> !IsTrimmable(s[LeadingCount(s)])
  {
    if s != [] && IsTrimmable(s[0]) {
      LeadingCountSpec(s[1..]);
      var k := LeadingCount(s);
      forall i | 0 <= i < k ensures IsTrimmable(s[i]) {
        if i > 0 {
          assert s[i] == s[1..][..k - 1][i - 1];
        }
      }
      if k < |s| {
        assert s[k] == s[1..][k - 1];
      }
    }
  }

  /** The trailing run is all trimmable and is preceded by a character that is not. */
  lemma {:induction false} TrailingCountSpec(s: string)
    ensures AllTrimmable(s[|s| - TrailingCount(s)..])
    ensures TrailingCount(s) < |s| ==> !IsTrimmable(s[|s| - 1 - TrailingCount(s)])
  {
    if s != [] && IsTrimmable(s[|s| - 1]) {
      var t := s[..|s| - 1];
      TrailingCountSpec(t);
      var k := TrailingCount(s);
      forall i | |s| - k <= i < |s| ensures IsTrimmable(s[i]) {
        if i < |s| - 1 {
          assert s[i] == t[|t| - (k - 1)..][i - (|s| - k)];
        }
      }
      if k < |s| {
        assert s[|s| - 1 - k] == t[|t| - 1 - (k - 1)];
      }
    }
  }

  /** `s.trim()`: the result neither starts nor ends with a trimmable character. */
  function Trim(s: string): (r: string)
    ensures r == [] || (!IsTrimmable(r[0]) && !IsTrimmable(r[|r| - 1]))
  {
    var t := TrimStart(s);
    LeadingCountSpec(s);
    TrailingCountSpec(t);
    var r := TrimEnd(t);
    assert r != [] ==> r[0] == t[0] && r[|r| - 1] == t[|t| - 1 - TrailingCount(t)];
    r
  }

  /**
   * Trimming removes trimmable characters from the two ends and nothing
   * else: the result is the slice of `s` after its leading run, and what
   * follows that slice is all trimmable.
   */
  lemma TrimIsSlice(s: string)
    ensures LeadingCount(s) + |Trim(s)| <= |s|
    ensures Trim(s) == s[LeadingCount(s)..LeadingCount(s) + |Trim(s)|]
    ensures AllTrimmable(s[..LeadingCount(s)])
    ensures AllTrimmable(s[LeadingCount(s) + |Trim(s)|..])
  {
    var k := LeadingCount(s);
    var t := TrimStart(s);
    LeadingCountSpec(s);
    TrailingCountSpec(t);
    SliceOfSlice(s, k, |t| - TrailingCount(t));
  }

  lemma SliceOfSlice(s: string, k: nat, m: nat)
    requires k + m <= |s|
    ensures s[k..][..m] == s[k..k + m] && s[k..][m..] == s[k + m..]
  {
  }

  /** A string is blank (trims to the empty string) exactly when every character is trimmable. */
  lemma TrimEmptyIffBlank(s: string)
    ensures Trim(s) == [] <==> AllTrimmable(s)
  {
    TrimIsSlice(s);
    var k := LeadingCount(s);
    if Trim(s) == [] {
      forall i | 0 <= i < |s| ensures IsTrimmable(s[i]) {
        if i < k {
          assert s[..k][i] == s[i];
        } else {
          assert s[k..][i - k] == s[i];
        }
      }
    }
    if AllTrimmable(s) {
      LeadingCountSpec(s);
    }
  }

  /** Trimming twice is trimming once. */
  lemma TrimIdempotent(s: string)
    ensures Trim(Trim(s)) == Trim(s)
  {
    var r := Trim(s);
    assert LeadingCount(r) == 0;
    assert TrailingCount(r) == 0;
  }
}
