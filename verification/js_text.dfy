/** The few JavaScript string operations the avatar path is built from:
    `String.prototype.split` with a one-character separator, its inverse
    `Array.prototype.join`, `pop` of the last piece, and the decimal text a
    template literal gives a non-negative integer.
 */
module JsText {

  /** `s.split(sep)`: the maximal separator-free pieces between separators.
      There is always at least one piece (`"".split(".")` is `[""]`). */
  function Split(s: string, sep: char): (parts: seq<string>)
    ensures |parts| >= 1
    ensures forall i :: 0 <= i < |parts| ==> sep !in parts[i]
    decreases |s|
  {
    if |s| == 0 then [""]
    else
      var rest := Split(s[1..], sep);
      if s[0] == sep then [""] + rest
      else [[s[0]] + rest[0]] + rest[1..]
  }

  /** `parts.join(sep)`. */
  function Join(parts: seq<string>, sep: char): string
    decreases |parts|
  {
    if |parts| == 0 then ""
    else if |parts| == 1 then parts[0]
    else parts[0] + [sep] + Join(parts[1..], sep)
  }

  /** Joining never loses text: splitting and joining back gives the input. */
  lemma {:induction false} JoinSplit(s: string, sep: char)
    ensures Join(Split(s, sep), sep) == s
    decreases |s|
  {
    if |s| > 0 {
      var rest := Split(s[1..], sep);
      JoinSplit(s[1..], sep);
      if s[0] == sep {
        assert Split(s, sep) == [""] + rest;
        assert ([""] + rest)[1..] == rest;
      } else {
        var parts := Split(s, sep);
        assert parts == [[s[0]] + rest[0]] + rest[1..];
        if |rest| == 1 {
          assert rest == [s[1..]];
        } else {
          assert parts[1..] == rest[1..];
          assert Join(rest, sep) == rest[0] + [sep] + Join(rest[1..], sep);
        }
      }
    }
  }

  /** A separator-free string is a single piece. */
  lemma {:induction false} SplitPlain(x: string, sep: char)
    requires sep !in x
    ensures Split(x, sep) == [x]
    decreases |x|
  {
    if |x| > 0 {
      assert sep !in x[1..];
      SplitPlain(x[1..], sep);
      assert [x[0]] + x[1..] == x;
    }
  }

  /** Splitting `x + sep + y` with `x` separator-free peels `x` off. */
  lemma {:induction false} SplitAfterPiece(x: string, y: string, sep: char)
    requires sep !in x
    ensures Split(x + [sep] + y, sep) == [x] + Split(y, sep)
    decreases |x|
  {
    var s := x + [sep] + y;
    if |x| == 0 {
      assert s[0] == sep;
      assert s[1..] == y;
    } else {
      assert s[0] == x[0];
      assert s[1..] == x[1..] + [sep] + y;
      assert sep !in x[1..];
      SplitAfterPiece(x[1..], y, sep);
      assert [x[0]] + x[1..] == x;
    }
  }

  /** The other round trip: separator-free pieces survive join then split. */
  lemma {:induction false} SplitJoin(parts: seq<string>, sep: char)
    requires |parts| >= 1
    requires forall i :: 0 <= i < |parts| ==> sep !in parts[i]
    ensures Split(Join(parts, sep), sep) == parts
    decreases |parts|
  {
    if |parts| == 1 {
      SplitPlain(parts[0], sep);
    } else {
      SplitJoin(parts[1..], sep);
      SplitAfterPiece(parts[0], Join(parts[1..], sep), sep);
      assert [parts[0]] + parts[1..] == parts;
    }
  }

  /** Joining peels the last piece off behind the last separator. */
  lemma {:induction false} JoinLast(parts: seq<string>, sep: char)
    requires |parts| >= 2
    ensures Join(parts, sep) == Join(parts[..|parts| - 1], sep) + [sep] + parts[|parts| - 1]
    decreases |parts|
  {
    if |parts| > 2 {
      var tail := parts[1..];
      JoinLast(tail, sep);
      assert tail[..|tail| - 1] == parts[..|parts| - 1][1..];
      assert tail[|tail| - 1] == parts[|parts| - 1];
    } else {
      assert parts[..1] == [parts[0]];
    }
  }

  /** `piece` is the text after the last `sep` of `s`, or all of `s` when
      `s` has no `sep`: a separator-free suffix that is either the whole
      string or preceded by `sep`. */
  ghost predicate IsLastPiece(s: string, sep: char, piece: string)
  {
    && sep !in piece
    && |piece| <= |s|
    && s[|s| - |piece|..] == piece
    && (|piece| == |s| || s[|s| - |piece| - 1] == sep)
  }

  /** At most one string is the last piece of `s`. */
  lemma LastPieceUnique(s: string, sep: char, a: string, b: string)
    requires IsLastPiece(s, sep, a) && IsLastPiece(s, sep, b)
    ensures a == b
  {
  }

  /** `s.split(sep).pop()`: the text after the last separator, or the whole
      string when there is none. */
  function LastPiece(s: string, sep: char): (piece: string)
    ensures IsLastPiece(s, sep, piece)
  {
    var parts := Split(s, sep);
    JoinSplit(s, sep);
    if |parts| >= 2 then
      JoinLast(parts, sep);
      parts[|parts| - 1]
    else
      parts[0]
  }

  /** The piece before the last separator is what is left after removing
      `sep + last`. */
  lemma LastPieceStrip(x: string, sep: char, last: string)
    requires sep !in last
    ensures LastPiece(x + [sep] + last, sep) == last
  {
    var s := x + [sep] + last;
    assert s[|s| - |last|..] == last;
    assert s[|s| - |last| - 1] == sep;
    LastPieceUnique(s, sep, last, LastPiece(s, sep));
  }

  /** Two strings that end in `sep + piece` with separator-free pieces
      agree on the piece and on what precedes it. */
  lemma SplitOffLastPiece(x1: string, x2: string, sep: char, p1: string, p2: string)
    requires sep !in p1 && sep !in p2
    requires x1 + [sep] + p1 == x2 + [sep] + p2
    ensures p1 == p2 && x1 == x2
  {
    LastPieceStrip(x1, sep, p1);
    LastPieceStrip(x2, sep, p2);
    var s := x1 + [sep] + p1;
    assert x1 == s[..|s| - |p1| - 1];
    assert x2 == (x2 + [sep] + p2)[..|s| - |p2| - 1];
  }

  // ---------------------------------------------------------------------
  // Decimal text of non-negative integers
  // ---------------------------------------------------------------------

  function DigitChar(d: nat): (c: char)
    requires d < 10
    ensures '0' <= c <= '9'
  {
    ['0', '1', '2', '3', '4', '5', '6', '7', '8', '9'][d]
  }

  function DigitValue(c: char): (d: nat)
    requires '0' <= c <= '9'
    ensures d < 10
  {
    (c as int - '0' as int) as nat
  }

  ghost predicate AllDigits(s: string)
  {
    forall i :: 0 <= i < |s| ==> '0' <= s[i] <= '9'
  }

  /** `${n}` for a non-negative integer: its decimal digits, most
      significant first, with no leading zero. */
  function Decimal(n: nat): (s: string)
    ensures |s| >= 1 && AllDigits(s)
    ensures |s| > 1 ==> s[0] != '0'
    decreases n
  {
    if n < 10 then [DigitChar(n)]
    else Decimal(n / 10) + [DigitChar(n % 10)]
  }

  /** The number a string of decimal digits denotes. */
  function DecimalValue(s: string): nat
    requires AllDigits(s)
    decreases |s|
  {
    if |s| == 0 then 0
    else 10 * DecimalValue(s[..|s| - 1]) + DigitValue(s[|s| - 1])
  }

  /** Reading the decimal text back gives the number. */
  lemma {:induction false} DecimalRoundTrip(n: nat)
    ensures DecimalValue(Decimal(n)) == n
    decreases n
  {
    var s := Decimal(n);
    if n < 10 {
      assert s[..0] == [];
    } else {
      DecimalRoundTrip(n / 10);
      assert s[..|s| - 1] == Decimal(n / 10);
    }
  }

  /** Distinct numbers have distinct decimal texts. */
  lemma DecimalInjective(m: nat, n: nat)
    requires Decimal(m) == Decimal(n)
    ensures m == n
  {
    DecimalRoundTrip(m);
    DecimalRoundTrip(n);
  }
}
