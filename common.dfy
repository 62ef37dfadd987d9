/**
 * The program-wide counter that the renamer, the loop labeler and the
 * TACKY lowering draw fresh ids from, and the decimal formatting that
 * turns those ids (and `i32` values) into text.
 */
module Common {
  import opened Wrappers

  /** A monotonic counter (`usize` in the source, unbounded here). */
  class UniqueIdGenerator {
    var counter: nat

    /** A fresh generator starts at 0, so its first `Next` returns 0. */
    constructor ()
      ensures counter == 0
    {
      counter := 0;
    }

    /** Returns the value the counter had and advances it by exactly one. */
    method Next() returns (id: nat)
      modifies this
      ensures id == old(counter)
      ensures counter == old(counter) + 1
    {
      id := counter;
      counter := counter + 1;
    }
  }

  /** The target operating system, which the emitters receive as a parameter. */
  datatype Platform = MacOS | Linux | Other

  predicate IsDigitChar(c: char) {
    '0' <= c <= '9'
  }

  function DigitChar(d: nat): (c: char)
    requires d < 10
    ensures IsDigitChar(c) && c as int - '0' as int == d
  {
    (d + '0' as int) as char
  }

  function DigitValue(c: char): (d: nat)
    requires IsDigitChar(c)
    ensures d < 10
  {
    c as int - '0' as int
  }

  /** The value of a non-empty run of decimal digits (leading zeros allowed). */
  function DigitsValue(s: string): nat
    requires forall i :: 0 <= i < |s| ==> IsDigitChar(s[i])
  {
    if s == [] then 0
    else 10 * DigitsValue(s[..|s| - 1]) + DigitValue(s[|s| - 1])
  }

  /** Rust's `{}` formatting of an unsigned integer. */
  function NatToString(n: nat): (s: string)
    ensures |s| >= 1
    ensures forall i :: 0 <= i < |s| ==> IsDigitChar(s[i])
  {
    if n < 10 then [DigitChar(n)] else NatToString(n / 10) + [DigitChar(n % 10)]
  }

  /** Rust's `{}` formatting of a signed integer. */
  function IntToString(i: int): (s: string)
    ensures i < 0 ==> |s| >= 2 && s[0] == '-'
    ensures i >= 0 ==> s == NatToString(i)
  {
    if i < 0 then "-" + NatToString(-i) else NatToString(i)
  }

  /** Reading back the digits of `n` gives `n`. */
  lemma {:induction false} NatToStringRoundTrip(n: nat)
    ensures DigitsValue(NatToString(n)) == n
  {
    var s := NatToString(n);
    if n >= 10 {
      NatToStringRoundTrip(n / 10);
      assert s[..|s| - 1] == NatToString(n / 10);
    }
  }

  lemma NatToStringInjective(m: nat, n: nat)
    ensures NatToString(m) == NatToString(n) ==> m == n
  {
    NatToStringRoundTrip(m);
    NatToStringRoundTrip(n);
  }

  /** `name`, a separator that is not a digit, then the decimal `id`. */
  function Suffixed(name: string, sep: char, id: nat): string {
    name + [sep] + NatToString(id)
  }

  /** `format!("{}.{}", name, id)`: the renamer's and the temporaries' naming scheme. */
  function DottedName(name: string, id: nat): string {
    Suffixed(name, '.', id)
  }

  /** In `a + [sep] + d` with `d` all digits, position `|a|` holds the last `sep`. */
  lemma LastSeparator(a: string, sep: char, d: string)
    requires !IsDigitChar(sep)
    requires forall i :: 0 <= i < |d| ==> IsDigitChar(d[i])
    ensures (a + [sep] + d)[|a|] == sep
    ensures forall k :: |a| < k < |a + [sep] + d| ==> (a + [sep] + d)[k] != sep
  {
    var s := a + [sep] + d;
    forall k | |a| < k < |s| ensures s[k] != sep {
      assert s[k] == d[k - |a| - 1];
    }
  }

  /**
   * A suffixed name determines both its parts, whatever the base name
   * holds: the text after the last separator is the digit string.
   */
  lemma SuffixedInjective(a: string, i: nat, b: string, j: nat, sep: char)
    requires !IsDigitChar(sep)
    ensures Suffixed(a, sep, i) == Suffixed(b, sep, j) ==> a == b && i == j
  {
    if Suffixed(a, sep, i) == Suffixed(b, sep, j) {
      var s := Suffixed(a, sep, i);
      var di, dj := NatToString(i), NatToString(j);
      LastSeparator(a, sep, di);
      LastSeparator(b, sep, dj);
      assert |a| == |b|;
      assert a == s[..|a|] == b;
      assert di == s[|a| + 1..] == dj;
      NatToStringInjective(i, j);
    }
  }

  lemma DottedNameInjective(a: string, i: nat, b: string, j: nat)
    ensures DottedName(a, i) == DottedName(b, j) ==> a == b && i == j
  {
    SuffixedInjective(a, i, b, j, '.');
  }

  /** `IntToString` is one-to-one: a leading '-' marks the negatives. */
  lemma IntToStringInjective(i: int, j: int)
    ensures IntToString(i) == IntToString(j) ==> i == j
  {
    if IntToString(i) == IntToString(j) {
      if i < 0 && j < 0 {
        assert NatToString(-i) == IntToString(i)[1..] == IntToString(j)[1..] == NatToString(-j);
        NatToStringInjective(-i, -j);
      } else if i >= 0 && j >= 0 {
        NatToStringInjective(i, j);
      }
    }
  }

  /** The number of line breaks in `s`. */
  function CountNewlines(s: string): nat {
    if s == [] then 0 else (if s[0] == '\n' then 1 else 0) + CountNewlines(s[1..])
  }

  lemma {:induction false} CountNewlinesConcat(a: string, b: string)
    ensures CountNewlines(a + b) == CountNewlines(a) + CountNewlines(b)
  {
    if a != [] {
      assert (a + b)[1..] == a[1..] + b;
      CountNewlinesConcat(a[1..], b);
    } else {
      assert a + b == b;
    }
  }

  lemma {:induction false} NoNewlines(s: string)
    requires '\n' !in s
    ensures CountNewlines(s) == 0
  {
    if s != [] {
      assert s == [s[0]] + s[1..];
      NoNewlines(s[1..]);
    }
  }

  /** Decimal text has no line breaks. */
  lemma IntToStringOneLine(i: int)
    ensures '\n' !in IntToString(i)
  {
  }

  /** The concatenation of `lines`, in order. */
  function Join(lines: seq<string>): string {
    if lines == [] then "" else Join(lines[..|lines| - 1]) + lines[|lines| - 1]
  }

  lemma {:induction false} JoinConcat(a: seq<string>, b: seq<string>)
    ensures Join(a + b) == Join(a) + Join(b)
    decreases |b|
  {
    if b == [] {
      assert a + b == a;
    } else {
      assert (a + b)[..|a + b| - 1] == a + b[..|b| - 1];
      JoinConcat(a, b[..|b| - 1]);
    }
  }

  /** Line `k` is written after the lines before it and before the lines after it. */
  lemma JoinInOrder(lines: seq<string>, k: nat)
    requires k < |lines|
    ensures Join(lines) == Join(lines[..k]) + lines[k] + Join(lines[k + 1..])
  {
    var front := lines[..k + 1];
    assert lines == front + lines[k + 1..];
    JoinConcat(front, lines[k + 1..]);
    assert front[..k] == lines[..k];
  }

  /** Joining lines that each end the line once gives one line break per line. */
  lemma {:induction false} JoinLines(lines: seq<string>)
    requires forall k :: 0 <= k < |lines| ==> CountNewlines(lines[k]) == 1
    ensures CountNewlines(Join(lines)) == |lines|
  {
    if lines != [] {
      JoinLines(lines[..|lines| - 1]);
      CountNewlinesConcat(Join(lines[..|lines| - 1]), lines[|lines| - 1]);
    }
  }

  /** A line of text without breaks, then a break. */
  lemma OneLine(text: string)
    requires '\n' !in text
    ensures CountNewlines(text + "\n") == 1
  {
    NoNewlines(text);
    CountNewlinesConcat(text, "\n");
  }

  /** Writing one more line after the text of `lines`. */
  lemma AppendLine(output: string, lines: seq<string>, line: string)
    ensures output + Join(lines) + line == output + Join(lines + [line])
  {
    assert (lines + [line])[..|lines|] == lines;
  }

  lemma JoinSingle(line: string)
    ensures Join([line]) == line
  {
    assert [line][..0] == [];
  }

  /**
   * The items done so far followed by what a pass over the remaining items
   * produces (a result and the state after it); the item loops of the
   * renamer and the loop labeler keep this as their invariant.
   */
  function Glue<T, S>(done: seq<T>, rest: (Result<seq<T>>, S)): (Result<seq<T>>, S) {
    (if rest.0.Err? then Err(rest.0.msg) else Ok(done + rest.0.value), rest.1)
  }

  /** Gluing twice is gluing the concatenation. */
  lemma GlueGlue<T, S>(a: seq<T>, b: seq<T>, rest: (Result<seq<T>>, S))
    ensures Glue(a, Glue(b, rest)) == Glue(a + b, rest)
  {
    if rest.0.Ok? {
      assert a + (b + rest.0.value) == a + b + rest.0.value;
    }
  }
}
