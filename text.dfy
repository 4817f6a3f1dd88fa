/**
  The three Python string operations the application relies on:
  `str.strip()` with no argument, `str.split(sep)` with a one-character
  separator, and `str(n)` for a non-negative integer.
 */
module Text {

  /** `c.isspace()` in Python 3: the ASCII whitespace and separator controls
      and the Unicode space characters. */
  predicate IsSpace(c: char) {
    || c == ' '
    || ('\t' <= c <= '\r')               // \t \n \v \f \r
    || ('\U{1C}' <= c <= '\U{1F}')       // file, group, record and unit separators
    || c == '\U{85}' || c == '\U{A0}' || c == '\U{1680}'
    || ('\U{2000}' <= c <= '\U{200A}')
    || c == '\U{2028}' || c == '\U{2029}' || c == '\U{202F}' || c == '\U{205F}'
    || c == '\U{3000}'
  }

  /** How many whitespace characters `s` starts with. */
  function LeadingSpaces(s: string): (n: nat)
    ensures n <= |s|
    ensures forall k | 0 <= k < n :: IsSpace(s[k])
    ensures n < |s| ==> !IsSpace(s[n])
  {
    if s != [] && IsSpace(s[0]) then 1 + LeadingSpaces(s[1..]) else 0
  }

  /** How many whitespace characters `s` ends with. */
  function TrailingSpaces(s: string): (n: nat)
    ensures n <= |s|
    ensures forall k | |s| - n <= k < |s| :: IsSpace(s[k])
    ensures n < |s| ==> !IsSpace(s[|s| - n - 1])
  {
    if s != [] && IsSpace(s[|s| - 1]) then 1 + TrailingSpaces(s[..|s| - 1]) else 0
  }

  /** `s.strip()`: what is left once all whitespace is removed from both
      ends. */
  function Strip(s: string): (r: string)
    ensures |r| <= |s|
  {
    if LeadingSpaces(s) == |s| then [] else s[LeadingSpaces(s)..|s| - TrailingSpaces(s)]
  }

  /** The strip is the infix of `s` that starts after its leading whitespace,
      and everything it removes, in front and behind, is whitespace. */
  lemma StripInfix(s: string)
    ensures LeadingSpaces(s) + |Strip(s)| <= |s|
    ensures Strip(s) == s[LeadingSpaces(s)..LeadingSpaces(s) + |Strip(s)|]
    ensures forall k | LeadingSpaces(s) + |Strip(s)| <= k < |s| :: IsSpace(s[k])
  {
    var l, t := LeadingSpaces(s), TrailingSpaces(s);
    if l == |s| {
      assert Strip(s) == [];
    } else {
      // s[l] is not whitespace, so the trailing run starts after it.
      assert !IsSpace(s[l]);
      assert l < |s| - t;
      assert Strip(s) == s[l..|s| - t];
      assert l + |Strip(s)| == |s| - t;
    }
  }

  /** A non-empty strip starts and ends with a non-whitespace character. */
  lemma StripEnds(s: string)
    ensures Strip(s) != [] ==> !IsSpace(Strip(s)[0]) && !IsSpace(Strip(s)[|Strip(s)| - 1])
  {
    StripInfix(s);
  }

  /** The strip is empty exactly when `s` is all whitespace. */
  lemma StripEmpty(s: string)
    ensures Strip(s) == [] <==> forall k | 0 <= k < |s| :: IsSpace(s[k])
  {
    StripInfix(s);
  }

  /** A string without whitespace at either end is its own strip. */
  lemma {:induction false} StripUnpadded(s: string)
    requires s == [] || (!IsSpace(s[0]) && !IsSpace(s[|s| - 1]))
    ensures Strip(s) == s
  {
    if s != [] {
      assert TrailingSpaces(s) == 0;
    }
  }

  /** `s.split(sep)`: the pieces between occurrences of `sep`, in order; an
      empty string gives one empty piece. */
  function Split(s: string, sep: char): (r: seq<string>)
    ensures |r| >= 1
    decreases |s|
  {
    if s == [] then
      [[]]
    else
      var rest := Split(s[1..], sep);
      if s[0] == sep then [[]] + rest else [[s[0]] + rest[0]] + rest[1..]
  }

  /** No piece of a split holds the separator. */
  lemma {:induction false} SplitPieces(s: string, sep: char)
    ensures forall p | p in Split(s, sep) :: sep !in p
    decreases |s|
  {
    if s != [] {
      SplitPieces(s[1..], sep);
      var rest := Split(s[1..], sep);
      if s[0] != sep {
        assert sep !in rest[0];
        assert forall p | p in rest[1..] :: p in rest;
      }
    }
  }

  /** `sep.join(parts)`, the inverse of `Split`. */
  function Join(parts: seq<string>, sep: char): string
    requires |parts| >= 1
  {
    if |parts| == 1 then parts[0] else parts[0] + [sep] + Join(parts[1..], sep)
  }

  /** Joining the pieces of a split gives back the original string. */
  lemma {:induction false} JoinSplit(s: string, sep: char)
    ensures Join(Split(s, sep), sep) == s
  {
    if s != [] {
      var rest := Split(s[1..], sep);
      JoinSplit(s[1..], sep);
      if s[0] == sep {
        assert Split(s, sep) == [[]] + rest;
        assert Split(s, sep)[1..] == rest;
        assert [s[0]] + s[1..] == s;
      } else if |rest| == 1 {
        assert [s[0]] + s[1..] == s;
      } else {
        var parts := Split(s, sep);
        assert parts[1..] == rest[1..];
        assert Join(rest, sep) == rest[0] + [sep] + Join(rest[1..], sep);
        assert [s[0]] + s[1..] == s;
      }
    }
  }

  /** Splitting a string that starts with `c`: a separator opens a new
      piece, any other character joins the first piece. */
  lemma SplitCons(c: char, s: string, sep: char)
    ensures Split([c] + s, sep)
      == if c == sep then [[]] + Split(s, sep) else [[c] + Split(s, sep)[0]] + Split(s, sep)[1..]
  {
    assert ([c] + s)[1..] == s;
  }

  /** Splitting is a homomorphism: an occurrence of the separator cuts the
      piece list in two. */
  lemma {:induction false} SplitConcat(a: string, b: string, sep: char)
    ensures Split(a + [sep] + b, sep) == Split(a, sep) + Split(b, sep)
  {
    if a == [] {
      assert a + [sep] + b == [sep] + b;
      SplitCons(sep, b, sep);
    } else {
      var c, rest := a[0], a[1..];
      Uncons(a, sep, b);
      if c == sep {
        calc {
          Split(a + [sep] + b, sep);
          { SplitCons(c, rest + [sep] + b, sep); }
          [[]] + Split(rest + [sep] + b, sep);
          { SplitConcat(rest, b, sep); }
          [[]] + (Split(rest, sep) + Split(b, sep));
          ([[]] + Split(rest, sep)) + Split(b, sep);
          { SplitCons(c, rest, sep); }
          Split(a, sep) + Split(b, sep);
        }
      } else {
        calc {
          Split(a + [sep] + b, sep);
          { SplitCons(c, rest + [sep] + b, sep); }
          [[c] + Split(rest + [sep] + b, sep)[0]] + Split(rest + [sep] + b, sep)[1..];
          { SplitConcat(rest, b, sep); }
          [[c] + (Split(rest, sep) + Split(b, sep))[0]] + (Split(rest, sep) + Split(b, sep))[1..];
          { JoinFirst(c, Split(rest, sep), Split(b, sep)); }
          ([[c] + Split(rest, sep)[0]] + Split(rest, sep)[1..]) + Split(b, sep);
          { SplitCons(c, rest, sep); }
          Split(a, sep) + Split(b, sep);
        }
      }
    }
  }

  /** A non-empty sequence is its head followed by its tail, also inside a
      concatenation. */
  lemma ConsAppend<T>(a: seq<T>, b: seq<T>)
    requires a != []
    ensures a == [a[0]] + a[1..]
    ensures a + b == [a[0]] + (a[1..] + b)
  {
  }

  /** A non-empty `a` is its first element followed by the rest, also
      inside `a + [m] + b`. */
  lemma Uncons<T>(a: seq<T>, m: T, b: seq<T>)
    requires a != []
    ensures a == [a[0]] + a[1..]
    ensures a + [m] + b == [a[0]] + (a[1..] + [m] + b)
  {
  }

  /** Prefixing the first group with `c` commutes with appending groups. */
  lemma JoinFirst<T>(c: T, x: seq<seq<T>>, y: seq<seq<T>>)
    requires x != []
    ensures [[c] + (x + y)[0]] + (x + y)[1..] == ([[c] + x[0]] + x[1..]) + y
  {
    assert (x + y)[0] == x[0] && (x + y)[1..] == x[1..] + y;
  }

  predicate IsDigit(c: char) {
    '0' <= c <= '9'
  }

  function DigitChar(d: nat): (c: char)
    requires d < 10
  {
    ('0' as int + d) as char
  }

  function DigitValue(c: char): nat
    requires IsDigit(c)
  {
    (c as int - '0' as int) as nat
  }

  /** The number a string of decimal digits denotes (`int(s)` on digit strings). */
  function DigitsValue(s: string): nat
    requires forall k | 0 <= k < |s| :: IsDigit(s[k])
  {
    if s == [] then 0 else DigitsValue(s[..|s| - 1]) * 10 + DigitValue(s[|s| - 1])
  }

  /** `str(n)` for a non-negative integer: non-empty, decimal digits only, no
      leading zero, and reading it back gives `n`. */
  function Decimal(n: nat): (r: string)
    ensures r != [] && forall k | 0 <= k < |r| :: IsDigit(r[k])
    ensures r[0] == '0' ==> |r| == 1
    ensures DigitsValue(r) == n
  {
    if n < 10 then [DigitChar(n)] else Decimal(n / 10) + [DigitChar(n % 10)]
  }

  /** Different numbers print differently. */
  lemma DecimalInjective(m: nat, n: nat)
    requires Decimal(m) == Decimal(n)
    ensures m == n
  {
    assert DigitsValue(Decimal(m)) == m;
  }
}
