/**
 * The Python `str` operations the back end relies on: `split` on one
 * separator character, `strip()` with no argument, `replace`, and the
 * decimal formatting an f-string gives an `int`.
 */
module PyStr {

  /** The characters Python's `str.isspace` accepts, which `strip()` removes. */
  predicate IsSpace(c: char) {
    || '\t' <= c <= '\r'
    || '\U{1C}' <= c <= ' '
    || c == '\U{85}' || c == '\U{A0}' || c == '\U{1680}'
    || '\U{2000}' <= c <= '\U{200A}'
    || c == '\U{2028}' || c == '\U{2029}' || c == '\U{202F}' || c == '\U{205F}' || c == '\U{3000}'
  }

  /** How many whitespace characters `s` starts with. */
  function LeadingSpace(s: string): (k: nat)
    ensures k <= |s|
    ensures forall i :: 0 <= i < k ==> IsSpace(s[i])
    ensures k < |s| ==> !IsSpace(s[k])
  {
    if s != [] && IsSpace(s[0]) then 1 + LeadingSpace(s[1..]) else 0
  }

  /** How many whitespace characters `s` ends with. */
  function TrailingSpace(s: string): (k: nat)
    ensures k <= |s|
    ensures forall i :: |s| - k <= i < |s| ==> IsSpace(s[i])
    ensures k < |s| ==> !IsSpace(s[|s| - 1 - k])
  {
    if s != [] && IsSpace(s[|s| - 1]) then 1 + TrailingSpace(s[..|s| - 1]) else 0
  }

  /**
   * `s.strip()`: the slice of `s` that remains once the whitespace at both
   * ends is removed. Everything removed is whitespace and what remains
   * neither starts nor ends with whitespace.
   */
  function Strip(s: string): (r: string)
    ensures LeadingSpace(s) + |r| <= |s|
    ensures r == s[LeadingSpace(s)..LeadingSpace(s) + |r|]
    ensures forall i :: 0 <= i < |s| && !(LeadingSpace(s) <= i < LeadingSpace(s) + |r|) ==> IsSpace(s[i])
    ensures r != [] ==> !IsSpace(r[0]) && !IsSpace(r[|r| - 1])
  {
    var rest := s[LeadingSpace(s)..];
    rest[..|rest| - TrailingSpace(rest)]
  }

  /** `strip()` is empty exactly for all-whitespace strings. */
  lemma StripEmpty(s: string)
    ensures Strip(s) == [] <==> forall i :: 0 <= i < |s| ==> IsSpace(s[i])
  {
    if Strip(s) != [] {
      assert !IsSpace(s[LeadingSpace(s)]);
    }
  }

  /** A string with no whitespace at either end is its own `strip()`. */
  lemma StripTrimmed(s: string)
    requires s == [] || (!IsSpace(s[0]) && !IsSpace(s[|s| - 1]))
    ensures Strip(s) == s
  {
    if s != [] {
      assert LeadingSpace(s) == 0;
      assert TrailingSpace(s) == 0;
    }
  }

  /** `strip()` only removes characters: none appears that was not there. */
  lemma StripKeepsOut(s: string, c: char)
    requires c !in s
    ensures c !in Strip(s)
  {
    var i := LeadingSpace(s);
    forall k | 0 <= k < |Strip(s)| ensures Strip(s)[k] != c {
      assert Strip(s)[k] == s[i + k];
    }
  }

  /** `strip()` is idempotent. */
  lemma StripIdempotent(s: string)
    ensures Strip(Strip(s)) == Strip(s)
  {
    StripTrimmed(Strip(s));
  }

  /**
   * `s.split(sep)`: the pieces between separators, in order. There is one
   * piece more than there are separators, so "" gives [""] and "a,,b" gives
   * ["a", "", "b"]; no piece contains the separator.
   */
  function Split(s: string, sep: char): (r: seq<string>)
    ensures |r| >= 1
    ensures forall k :: 0 <= k < |r| ==> sep !in r[k]
  {
    if s == [] then [""]
    else
      var rest := Split(s[1..], sep);
      if s[0] == sep then [""] + rest
      else [[s[0]] + rest[0]] + rest[1..]
  }

  /** Every character of every piece comes from the string split. */
  lemma {:induction false} SplitKeepsChars(s: string, sep: char, k: nat, c: char)
    requires k < |Split(s, sep)| && c in Split(s, sep)[k]
    ensures c in s
  {
    if s != [] {
      var rest := Split(s[1..], sep);
      if s[0] == sep {
        if k > 0 { SplitKeepsChars(s[1..], sep, k - 1, c); }
      } else if k == 0 {
        if c != s[0] { SplitKeepsChars(s[1..], sep, 0, c); }
      } else {
        SplitKeepsChars(s[1..], sep, k, c);
      }
    }
  }

  /** `sep.join(pieces)`. */
  function Join(pieces: seq<string>, sep: char): string {
    if pieces == [] then ""
    else if |pieces| == 1 then pieces[0]
    else pieces[0] + [sep] + Join(pieces[1..], sep)
  }

  /** Joining the pieces of a split gives back the string. */
  lemma {:induction false} JoinSplit(s: string, sep: char)
    ensures Join(Split(s, sep), sep) == s
  {
    if s != [] {
      var rest := Split(s[1..], sep);
      JoinSplit(s[1..], sep);
      if s[0] == sep {
        assert Split(s, sep) == [""] + rest;
      } else {
        var r := Split(s, sep);
        assert r[1..] == rest[1..];
        if |rest| == 1 {
          assert r == [[s[0]] + rest[0]];
        } else {
          assert Join(rest, sep) == rest[0] + [sep] + Join(rest[1..], sep);
        }
      }
    }
  }

  /** Splitting a string free of the separator gives that string alone. */
  lemma {:induction false} SplitWithoutSep(s: string, sep: char)
    requires sep !in s
    ensures Split(s, sep) == [s]
  {
    if s != [] {
      assert s[0] != sep && sep !in s[1..];
      SplitWithoutSep(s[1..], sep);
      assert [s[0]] + s[1..] == s;
    }
  }

  /** A separator-free head is the first piece; the rest is split on its own. */
  lemma {:induction false} SplitAfterHead(head: string, sep: char, tail: string)
    requires sep !in head
    ensures Split(head + [sep] + tail, sep) == [head] + Split(tail, sep)
  {
    if head != [] {
      var whole := head + [sep] + tail;
      assert whole[0] == head[0] != sep && sep !in head[1..];
      assert whole[1..] == head[1..] + [sep] + tail;
      SplitAfterHead(head[1..], sep, tail);
      assert [head[0]] + head[1..] == head;
    } else {
      assert (head + [sep] + tail)[1..] == tail;
    }
  }

  /** Splitting a join of separator-free pieces gives back the pieces. */
  lemma {:induction false} SplitJoin(pieces: seq<string>, sep: char)
    requires |pieces| >= 1
    requires forall k :: 0 <= k < |pieces| ==> sep !in pieces[k]
    ensures Split(Join(pieces, sep), sep) == pieces
  {
    if |pieces| == 1 {
      SplitWithoutSep(pieces[0], sep);
    } else {
      SplitJoin(pieces[1..], sep);
      SplitAfterHead(pieces[0], sep, Join(pieces[1..], sep));
    }
  }

  /**
   * `s.replace(pattern, replacement)` for a non-empty pattern: every
   * occurrence, scanning left to right without overlap, is replaced.
   */
  function ReplaceAll(s: string, pattern: string, replacement: string): string
    requires pattern != []
  {
    if |s| < |pattern| then s
    else if s[..|pattern|] == pattern then replacement + ReplaceAll(s[|pattern|..], pattern, replacement)
    else [s[0]] + ReplaceAll(s[1..], pattern, replacement)
  }

  /** A prefix that never holds the pattern's first character passes through unchanged. */
  lemma {:induction false} ReplaceAllSkips(prefix: string, pattern: string, replacement: string, s: string)
    requires pattern != [] && pattern[0] !in prefix
    ensures ReplaceAll(prefix + s, pattern, replacement) == prefix + ReplaceAll(s, pattern, replacement)
  {
    if prefix != [] {
      var whole := prefix + s;
      assert pattern[0] !in prefix[1..];
      ReplaceAllSkips(prefix[1..], pattern, replacement, s);
      if |whole| >= |pattern| {
        assert whole[..|pattern|][0] == prefix[0] != pattern[0];
        assert whole[1..] == prefix[1..] + s;
        assert ReplaceAll(whole, pattern, replacement) == [prefix[0]] + ReplaceAll(whole[1..], pattern, replacement);
        assert [prefix[0]] + (prefix[1..] + ReplaceAll(s, pattern, replacement)) == prefix + ReplaceAll(s, pattern, replacement);
      } else {
        assert ReplaceAll(s, pattern, replacement) == s;
      }
    } else {
      assert prefix + s == s;
    }
  }

  /**
   * A template holding the pattern once, between a head and a tail free of
   * its first character, has that one occurrence replaced.
   */
  lemma ReplaceSingle(head: string, pattern: string, tail: string, replacement: string)
    requires pattern != [] && pattern[0] !in head && pattern[0] !in tail
    ensures ReplaceAll(head + pattern + tail, pattern, replacement) == head + replacement + tail
  {
    var rest := pattern + tail;
    assert head + pattern + tail == head + rest;
    ReplaceAllSkips(head, pattern, replacement, rest);
    assert rest[..|pattern|] == pattern && rest[|pattern|..] == tail;
    assert ReplaceAll(rest, pattern, replacement) == replacement + ReplaceAll(tail, pattern, replacement);
    ReplaceAllSkips(tail, pattern, replacement, []);
    assert tail + [] == tail;
    assert ReplaceAll([], pattern, replacement) == [];
  }

  /** The decimal digit for `d`. */
  function Digit(d: nat): (c: char)
    requires d < 10
    ensures '0' <= c <= '9' && c as int - '0' as int == d
  {
    ('0' as int + d) as char
  }

  /** The value of a string of decimal digits. */
  function DecimalValue(s: string): nat
    requires forall i :: 0 <= i < |s| ==> '0' <= s[i] <= '9'
  {
    if s == [] then 0 else 10 * DecimalValue(s[..|s| - 1]) + (s[|s| - 1] as int - '0' as int)
  }

  /** `f"{n}"` for a non-negative `n`: its decimal digits, with no leading zero. */
  function Decimal(n: nat): (r: string)
    ensures r != [] && (r[0] == '0' ==> n == 0)
    ensures forall i :: 0 <= i < |r| ==> '0' <= r[i] <= '9'
  {
    if n < 10 then [Digit(n)] else Decimal(n / 10) + [Digit(n % 10)]
  }

  /** Reading back the digits gives the number: formatting loses nothing. */
  lemma {:induction false} DecimalRoundTrip(n: nat)
    ensures DecimalValue(Decimal(n)) == n
  {
    if n >= 10 {
      DecimalRoundTrip(n / 10);
      assert Decimal(n)[..|Decimal(n)| - 1] == Decimal(n / 10);
    }
  }
}
