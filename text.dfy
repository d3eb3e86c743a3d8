/** JavaScript string and number behaviour that both core files rely on:
    optional values, calls that may throw, truthiness of optional strings,
    `String.prototype.split` and `Array.prototype.join` with a one-character
    separator, and `String(n)` for integers. */
module Text {

  datatype Option<+T> = None | Some(value: T) {
    /** `x ?? default` */
    function GetOr(default: T): T {
      if Some? then value else default
    }
  }

  /** The outcome of a call that may throw: its value, or the message of what it threw. */
  datatype Failable<+T> = Ok(value: T) | Threw(message: string)

  /** JavaScript truthiness of an optional string: present and not empty. */
  predicate Truthy(s: Option<string>) {
    s.Some? && s.value != ""
  }

  /** `s.split(sep)`: the maximal pieces of `s` between separators, in order.
      There is always at least one piece. */
  function Split(s: string, sep: char): (parts: seq<string>)
    ensures |parts| >= 1
    decreases |s|
  {
    if s == [] then [[]]
    else
      var rest := Split(s[1..], sep);
      if s[0] == sep then [[]] + rest
      else [[s[0]] + rest[0]] + rest[1..]
  }

  /** `parts.join(sep)` */
  function Join(parts: seq<string>, sep: char): string
    decreases |parts|
  {
    if |parts| == 0 then []
    else if |parts| == 1 then parts[0]
    else parts[0] + [sep] + Join(parts[1..], sep)
  }

  /** No piece of a split holds the separator. */
  lemma {:induction false} SplitPieces(s: string, sep: char)
    ensures forall i :: 0 <= i < |Split(s, sep)| ==> sep !in Split(s, sep)[i]
    decreases |s|
  {
    if s != [] {
      SplitPieces(s[1..], sep);
    }
  }

  /** Joining the pieces of a split gives back the string. */
  lemma {:induction false} JoinSplit(s: string, sep: char)
    ensures Join(Split(s, sep), sep) == s
    decreases |s|
  {
    if s != [] {
      var rest := Split(s[1..], sep);
      JoinSplit(s[1..], sep);
      if s[0] == sep {
        assert Split(s, sep) == [[]] + rest;
        assert Join([[]] + rest, sep) == [] + [sep] + Join(rest, sep);
        assert [sep] + s[1..] == s;
      } else if |rest| == 1 {
        assert Split(s, sep) == [[s[0]] + rest[0]];
        assert [s[0]] + s[1..] == s;
      } else {
        var parts := Split(s, sep);
        assert parts == [[s[0]] + rest[0]] + rest[1..];
        assert parts[1..] == rest[1..];
        assert Join(rest, sep) == rest[0] + [sep] + Join(rest[1..], sep);
        assert [s[0]] + s[1..] == s;
      }
    }
  }

  /** A string holding no separator splits into itself alone. */
  lemma {:induction false} SplitWithoutSeparator(s: string, sep: char)
    requires sep !in s
    ensures Split(s, sep) == [s]
    decreases |s|
  {
    if s != [] {
      SplitWithoutSeparator(s[1..], sep);
      assert [s[0]] + s[1..] == s;
    }
  }

  /** A piece without separators, then a separator: the piece comes off whole. */
  lemma {:induction false} SplitAfterPiece(p: string, sep: char, t: string)
    requires sep !in p
    ensures Split(p + [sep] + t, sep) == [p] + Split(t, sep)
    decreases |p|
  {
    var s := p + [sep] + t;
    if p == [] {
      assert s == [sep] + t;
      assert s[1..] == t;
    } else {
      assert s[0] == p[0];
      assert s[1..] == p[1..] + [sep] + t;
      SplitAfterPiece(p[1..], sep, t);
      assert [p[0]] + p[1..] == p;
    }
  }

  /** Splitting the join of separator-free pieces gives back the pieces. */
  lemma {:induction false} SplitJoin(parts: seq<string>, sep: char)
    requires |parts| >= 1
    requires forall i :: 0 <= i < |parts| ==> sep !in parts[i]
    ensures Split(Join(parts, sep), sep) == parts
    decreases |parts|
  {
    if |parts| == 1 {
      SplitWithoutSeparator(parts[0], sep);
    } else {
      SplitJoin(parts[1..], sep);
      SplitAfterPiece(parts[0], sep, Join(parts[1..], sep));
      assert [parts[0]] + parts[1..] == parts;
    }
  }

  /** The pieces of `[c] + s`, given the pieces `rest` of `s`. */
  function ConsPieces(c: char, rest: seq<string>, sep: char): seq<string>
    requires |rest| >= 1
  {
    if c == sep then [[]] + rest else [[c] + rest[0]] + rest[1..]
  }

  /** Splitting a string with one more character in front. */
  lemma SplitCons(c: char, s: string, sep: char)
    ensures Split([c] + s, sep) == ConsPieces(c, Split(s, sep), sep)
  {
    assert ([c] + s)[0] == c && ([c] + s)[1..] == s;
  }

  /** Splitting a concatenation: every complete piece of `a` stays as it is, and
      the last, unterminated piece of `a` is continued by `b`. */
  lemma {:induction false} SplitAppend(a: string, b: string, sep: char)
    ensures var pa := Split(a, sep);
      Split(a + b, sep) == pa[..|pa| - 1] + Split(pa[|pa| - 1] + b, sep)
    decreases |a|
  {
    if a == [] {
      assert a + b == b;
    } else {
      var c, t := a[0], a[1..];
      assert a == [c] + t && a + b == [c] + (t + b);
      SplitAppend(t, b, sep);
      SplitCons(c, t, sep);
      SplitCons(c, t + b, sep);
      var pt := Split(t, sep);
      SplitAppendStep(c, pt, Split(pt[|pt| - 1] + b, sep), b, sep);
    }
  }

  /** The inductive step of SplitAppend, on the pieces alone. */
  lemma SplitAppendStep(c: char, pt: seq<string>, q: seq<string>, b: string, sep: char)
    requires |pt| >= 1 && |q| >= 1
    requires q == Split(pt[|pt| - 1] + b, sep)
    ensures var pa := ConsPieces(c, pt, sep);
      ConsPieces(c, pt[..|pt| - 1] + q, sep) == pa[..|pa| - 1] + Split(pa[|pa| - 1] + b, sep)
  {
    if c == sep {
      SeparatorStep(c, pt, q, sep);
    } else if |pt| == 1 {
      SplitCons(c, pt[0] + b, sep);
      assert [c] + pt[0] + b == [c] + (pt[0] + b);
    } else {
      InnerStep(c, pt, q, sep);
    }
  }

  /** SplitAppendStep when the new character is the separator. */
  lemma SeparatorStep(c: char, pt: seq<string>, q: seq<string>, sep: char)
    requires |pt| >= 1 && |q| >= 1 && c == sep
    ensures var pa := ConsPieces(c, pt, sep);
      && ConsPieces(c, pt[..|pt| - 1] + q, sep) == pa[..|pa| - 1] + q
      && pa[|pa| - 1] == pt[|pt| - 1]
  {
    var pa := ConsPieces(c, pt, sep);
    assert pa == [[]] + pt;
    assert pa[..|pa| - 1] == [[]] + pt[..|pt| - 1];
  }

  /** SplitAppendStep when the new character joins a piece that is not the last. */
  lemma InnerStep(c: char, pt: seq<string>, q: seq<string>, sep: char)
    requires |pt| >= 2 && |q| >= 1 && c != sep
    ensures var pa := ConsPieces(c, pt, sep);
      && ConsPieces(c, pt[..|pt| - 1] + q, sep) == pa[..|pa| - 1] + q
      && pa[|pa| - 1] == pt[|pt| - 1]
  {
    var pa := ConsPieces(c, pt, sep);
    var r := pt[..|pt| - 1] + q;
    assert pa == [[c] + pt[0]] + pt[1..];
    assert pa[..|pa| - 1] == [[c] + pt[0]] + pt[1..|pt| - 1];
    assert r[0] == pt[0] && r[1..] == pt[1..|pt| - 1] + q;
  }

  /** Joining one more piece in front of at least one other. */
  lemma JoinCons(x: string, xs: seq<string>, sep: char)
    requires |xs| >= 1
    ensures Join([x] + xs, sep) == x + [sep] + Join(xs, sep)
  {
    assert ([x] + xs)[1..] == xs;
  }

  function DigitChar(d: nat): (c: char)
    requires d < 10
    ensures '0' <= c <= '9'
  {
    (d + '0' as int) as char
  }

  predicate IsDecimal(s: string) {
    |s| >= 1 && forall i :: 0 <= i < |s| ==> '0' <= s[i] <= '9'
  }

  /** The value of a string of decimal digits. */
  function DecimalValue(s: string): nat
    requires forall i :: 0 <= i < |s| ==> '0' <= s[i] <= '9'
    decreases |s|
  {
    if s == [] then 0
    else 10 * DecimalValue(s[..|s| - 1]) + (s[|s| - 1] as int - '0' as int)
  }

  /** `String(n)` for a non-negative integer: its decimal digits, without
      leading zeros. */
  function NatToDecimal(n: nat): (s: string)
    ensures IsDecimal(s)
    ensures s[0] == '0' ==> n == 0
    decreases n
  {
    if n < 10 then [DigitChar(n)] else NatToDecimal(n / 10) + [DigitChar(n % 10)]
  }

  /** Reading back the digits of `String(n)` gives `n`. */
  lemma {:induction false} DecimalRoundTrip(n: nat)
    ensures DecimalValue(NatToDecimal(n)) == n
    decreases n
  {
    if n >= 10 {
      DecimalRoundTrip(n / 10);
      var s := NatToDecimal(n);
      assert s[..|s| - 1] == NatToDecimal(n / 10);
    }
  }

  /** `String(n)` for any integer. */
  function IntToDecimal(n: int): string {
    if n < 0 then "-" + NatToDecimal(-n) else NatToDecimal(n)
  }
}
