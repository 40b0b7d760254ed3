/**
 * The operations of Python's `str` that the importer relies on, over `seq<char>`.
 * Case mapping is ASCII only.
 */
module Strings {

  predicate IsUpper(c: char)
  {
    'A' <= c <= 'Z'
  }

  /** A digit as `\d` matches it, restricted to ASCII. */
  predicate IsDigit(c: char)
  {
    '0' <= c <= '9'
  }

  /** `c.lower()` for an ASCII character; every other character is kept. */
  function LowerChar(c: char): char
  {
    if IsUpper(c) then (c as int + 32) as char else c
  }

  /** `s.lower()`, character by character. */
  function Lower(s: string): string
  {
    seq(|s|, i requires 0 <= i < |s| => LowerChar(s[i]))
  }

  predicate IsLowerCase(s: string)
  {
    forall i :: 0 <= i < |s| ==> !IsUpper(s[i])
  }

  lemma LowerIsLowerCase(s: string)
    ensures IsLowerCase(Lower(s))
  {
  }

  lemma LowerOfLowerCase(s: string)
    requires IsLowerCase(s)
    ensures Lower(s) == s
  {
  }

  /** `s.startswith(prefix)`. */
  predicate StartsWith(s: string, prefix: string)
  {
    prefix <= s
  }

  /** `s.endswith(suffix)`. */
  predicate EndsWith(s: string, suffix: string)
  {
    |suffix| <= |s| && s[|s| - |suffix|..] == suffix
  }

  /** The position of the first occurrence of `c` (`s.find(c)` when it is found). */
  function FirstIndex(s: string, c: char): (i: nat)
    requires c in s
    ensures i < |s| && s[i] == c && c !in s[..i]
    ensures forall j :: 0 <= j < i ==> s[j] != c
  {
    if s[0] == c then 0
    else
      var j := FirstIndex(s[1..], c);
      assert s[..j + 1] == [s[0]] + s[1..][..j];
      j + 1
  }

  /** A position holding `c` with no `c` before it is the first index of `c`. */
  lemma FirstIndexAt(s: string, c: char, i: nat)
    requires i < |s| && s[i] == c && forall j :: 0 <= j < i ==> s[j] != c
    ensures c in s && FirstIndex(s, c) == i
  {
  }

  /** A suffix of a suffix is a suffix. */
  lemma EndsWithTrans(a: string, b: string, c: string)
    requires EndsWith(a, b) && EndsWith(b, c)
    ensures EndsWith(a, c)
  {
    assert a[|a| - |c|..] == a[|a| - |b|..][|b| - |c|..];
  }

  /**
   * `s.split(sep)` for a one-character separator: the pieces between the
   * separators, from left to right; there is always at least one piece.
   */
  function Split(s: string, sep: char): (parts: seq<string>)
    ensures |parts| >= 1
    ensures forall i :: 0 <= i < |parts| ==> sep !in parts[i]
  {
    if s == [] then [""]
    else
      var rest := Split(s[1..], sep);
      if s[0] == sep then [""] + rest
      else [[s[0]] + rest[0]] + rest[1..]
  }

  /** `sep.join(parts)`. */
  function Join(sep: char, parts: seq<string>): string
  {
    if parts == [] then ""
    else if |parts| == 1 then parts[0]
    else parts[0] + [sep] + Join(sep, parts[1..])
  }

  /** Joining the pieces of a split with the same separator gives the string back. */
  lemma {:induction false} JoinSplit(s: string, sep: char)
    ensures Join(sep, Split(s, sep)) == s
  {
    if s != [] {
      JoinSplit(s[1..], sep);
      var rest := Split(s[1..], sep);
      if s[0] == sep {
        assert Join(sep, Split(s, sep)) == "" + [sep] + Join(sep, rest);
      } else if |rest| == 1 {
        assert Join(sep, Split(s, sep)) == [s[0]] + rest[0];
      } else {
        var parts := Split(s, sep);
        assert parts[1..] == rest[1..];
        assert Join(sep, parts) == [s[0]] + rest[0] + [sep] + Join(sep, rest[1..]);
      }
    }
  }

  /** A string without the separator splits into itself alone. */
  lemma {:induction false} SplitWithoutSeparator(s: string, sep: char)
    requires sep !in s
    ensures Split(s, sep) == [s]
  {
    if s != [] {
      SplitWithoutSeparator(s[1..], sep);
      assert s[0] != sep;
      assert [s[0]] + s[1..] == s;
    }
  }

  /** The first piece of a split is everything before the first separator. */
  lemma {:induction false} SplitHead(s: string, sep: char)
    ensures Split(s, sep)[0] == if sep in s then s[..FirstIndex(s, sep)] else s
  {
    if sep !in s {
      SplitWithoutSeparator(s, sep);
    } else if s[0] != sep {
      SplitHead(s[1..], sep);
      assert s[..FirstIndex(s, sep)] == [s[0]] + s[1..][..FirstIndex(s[1..], sep)];
    }
  }

  /**
   * Dropping the first piece and joining the others back gives everything
   * after the first separator: `sep.join(s.split(sep)[1:])`.
   */
  lemma {:induction false} JoinSplitTail(s: string, sep: char)
    requires sep in s
    ensures Join(sep, Split(s, sep)[1..]) == s[FirstIndex(s, sep) + 1..]
  {
    var rest := Split(s[1..], sep);
    if s[0] == sep {
      JoinSplit(s[1..], sep);
      assert Split(s, sep)[1..] == rest;
    } else {
      JoinSplitTail(s[1..], sep);
      assert Split(s, sep)[1..] == rest[1..];
    }
  }
}
