/**
 * The two pieces of Java's string library that the attachment parsers lean on:
 * `String.split` with a one-character separator and `Integer.parseInt`.
 */
module JavaText {
  import opened Wrappers

  const MinInt: int := -0x8000_0000
  const MaxInt: int := 0x7fff_ffff

  /**
   * All the pieces of `s` between occurrences of `sep`, empty pieces included
   * (what `split` returns before it drops trailing empty strings).
   */
  function Pieces(s: string, sep: char): (r: seq<string>)
    ensures |r| >= 1
    ensures forall i :: 0 <= i < |r| ==> sep !in r[i]
    ensures sep !in s ==> r == [s]
    decreases |s|
  {
    if s == [] then [""]
    else
      var rest := Pieces(s[1..], sep);
      assert s == [s[0]] + s[1..];
      assert sep !in s ==> sep !in s[1..];
      if s[0] == sep then [""] + rest
      else [[s[0]] + rest[0]] + rest[1..]
  }

  /** Glues pieces back together with `sep` between neighbours. */
  function Join(pieces: seq<string>, sep: char): string
    requires |pieces| >= 1
  {
    if |pieces| == 1 then pieces[0] else pieces[0] + [sep] + Join(pieces[1..], sep)
  }

  /** Cutting at every separator loses nothing: the pieces join back to the input. */
  lemma {:induction false} JoinPieces(s: string, sep: char)
    ensures Join(Pieces(s, sep), sep) == s
    decreases |s|
  {
    if s != [] {
      var rest := Pieces(s[1..], sep);
      JoinPieces(s[1..], sep);
      if s[0] == sep {
        JoinEmptyFirst(rest, sep);
      } else {
        JoinExtendFirst(s[0], rest, sep);
      }
      assert [s[0]] + s[1..] == s;
    }
  }

  /** An empty first piece contributes only the separator after it. */
  lemma JoinEmptyFirst(rest: seq<string>, sep: char)
    requires |rest| >= 1
    ensures Join([""] + rest, sep) == [sep] + Join(rest, sep)
  {
    assert ([""] + rest)[1..] == rest;
  }

  /** A character put in front of the first piece comes first in the joined string. */
  lemma JoinExtendFirst(c: char, rest: seq<string>, sep: char)
    requires |rest| >= 1
    ensures Join([[c] + rest[0]] + rest[1..], sep) == [c] + Join(rest, sep)
  {
    var ps := [[c] + rest[0]] + rest[1..];
    if |rest| > 1 {
      assert ps[1..] == rest[1..];
      assert ([c] + rest[0]) + [sep] + Join(rest[1..], sep) == [c] + (rest[0] + [sep] + Join(rest[1..], sep));
    }
  }

  /** A separator after a separator-free prefix starts a new piece. */
  lemma {:induction false} PiecesAfterPrefix(a: string, b: string, sep: char)
    requires sep !in a
    ensures Pieces(a + [sep] + b, sep) == [a] + Pieces(b, sep)
    decreases |a|
  {
    var s := a + [sep] + b;
    if a == [] {
      assert s[1..] == b;
    } else {
      assert s[1..] == a[1..] + [sep] + b;
      PiecesAfterPrefix(a[1..], b, sep);
      assert [a[0]] + a[1..] == a;
    }
  }

  /** `ps` with its run of trailing empty strings removed. */
  function DropTrailingEmpty(ps: seq<string>): (r: seq<string>)
    ensures |r| <= |ps| && r == ps[..|r|]
    ensures forall i :: |r| <= i < |ps| ==> ps[i] == ""
    ensures r != [] ==> r[|r| - 1] != ""
  {
    if ps == [] then []
    else if ps[|ps| - 1] == "" then DropTrailingEmpty(ps[..|ps| - 1])
    else ps
  }

  /**
   * Java's `s.split(sep)` for a separator that is one ordinary character: with no
   * separator in `s` the whole of `s` comes back (even when `s` is empty); otherwise
   * every piece, leading empty ones included, except the trailing empty ones.
   */
  function Split(s: string, sep: char): (r: seq<string>)
    ensures sep !in s ==> r == [s]
    ensures sep in s ==> |r| <= |Pieces(s, sep)| && r == Pieces(s, sep)[..|r|]
    ensures sep in s ==> forall i :: |r| <= i < |Pieces(s, sep)| ==> Pieces(s, sep)[i] == ""
    ensures sep in s && r != [] ==> r[|r| - 1] != ""
    ensures forall i :: 0 <= i < |r| ==> sep !in r[i]
  {
    if sep !in s then [s] else DropTrailingEmpty(Pieces(s, sep))
  }

  /** Two separator-free fields, the second non-empty, split back into exactly those two. */
  lemma SplitTwoFields(a: string, b: string, sep: char)
    requires sep !in a && sep !in b && b != ""
    ensures Split(a + [sep] + b, sep) == [a, b]
  {
    PiecesAfterPrefix(a, b, sep);
    assert sep in a + [sep] + b by { assert (a + [sep] + b)[|a|] == sep; }
  }

  /** Three separator-free fields, the last non-empty, split back into exactly those three. */
  lemma SplitThreeFields(a: string, b: string, c: string, sep: char)
    requires sep !in a && sep !in b && sep !in c && c != ""
    ensures Split(a + [sep] + b + [sep] + c, sep) == [a, b, c]
  {
    var v := a + [sep] + b + [sep] + c;
    assert v == a + [sep] + (b + [sep] + c);
    PiecesAfterPrefix(a, b + [sep] + c, sep);
    PiecesAfterPrefix(b, c, sep);
    assert v[|a|] == sep;
  }

  /** A string made of separators only splits into nothing at all. */
  lemma {:induction false} SplitOnlySeparators(n: nat, sep: char)
    requires n >= 1
    ensures Split(seq(n, _ => sep), sep) == []
  {
    var s := seq(n, _ => sep);
    assert s[0] == sep;
    AllEmptyPieces(n, sep);
  }

  lemma {:induction false} AllEmptyPieces(n: nat, sep: char)
    ensures Pieces(seq(n, _ => sep), sep) == seq(n + 1, _ => "")
  {
    if n > 0 {
      var s := seq(n, _ => sep);
      assert s[1..] == seq(n - 1, _ => sep);
      AllEmptyPieces(n - 1, sep);
    }
  }

  predicate IsDigit(c: char) { '0' <= c <= '9' }

  predicate AllDigits(ds: string) { forall i :: 0 <= i < |ds| ==> IsDigit(ds[i]) }

  /** The value of a run of decimal digits, most significant first. */
  function DigitsValue(ds: string): nat
    requires AllDigits(ds)
  {
    if ds == [] then 0
    else DigitsValue(ds[..|ds| - 1]) * 10 + (ds[|ds| - 1] as int - '0' as int)
  }

  /**
   * `Integer.parseInt(s)`: an optional `-` or `+`, then one or more decimal digits,
   * and a value that fits a Java `int`; anything else is a `NumberFormatException`,
   * here `None`.
   */
  function ParseInt(s: string): (r: Option<int>)
    ensures r.Some? ==> MinInt <= r.value <= MaxInt
    ensures r.Some? ==> s != [] && (IsDigit(s[0]) || s[0] == '-' || s[0] == '+')
    ensures r.Some? && s[0] == '-' ==> r.value <= 0
    ensures r.Some? && s[0] != '-' ==> r.value >= 0
  {
    if s == [] then None
    else
      var digits := if s[0] == '-' || s[0] == '+' then s[1..] else s;
      if digits == [] || !AllDigits(digits) then None
      else
        var mag: int := DigitsValue(digits);
        var v := if s[0] == '-' then 0 - mag else mag;
        if MinInt <= v <= MaxInt then Some(v) else None
  }

  /** The decimal digits of `n`, without leading zeros. */
  function NatToString(n: nat): (r: string)
    ensures r != [] && AllDigits(r) && DigitsValue(r) == n
    ensures n > 0 ==> r[0] != '0'
    decreases n
  {
    if n < 10 then ['0' + n as char]
    else
      var r := NatToString(n / 10) + ['0' + (n % 10) as char];
      assert r[..|r| - 1] == NatToString(n / 10);
      r
  }

  /** `Integer.toString(n)`. */
  function IntToString(n: int): (r: string)
    ensures r != [] && ':' !in r
  {
    if n < 0 then "-" + NatToString(-n) else NatToString(n)
  }

  /** Every Java `int` printed in decimal parses back to itself. */
  lemma ParseIntToString(n: int)
    requires MinInt <= n <= MaxInt
    ensures ParseInt(IntToString(n)) == Some(n)
  {
    var s := IntToString(n);
    if n < 0 {
      assert s[1..] == NatToString(-n);
    }
  }
}
