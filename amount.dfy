/**
 * The amount sanitiser of the point-of-sale page: a typed amount becomes
 * `dollars.cc`, with exactly two characters after the point, by splitting on
 * `.` and truncating or padding the fraction. No character is checked to be
 * a digit; any string is accepted.
 */
module AmountInput {

  /** `pieces` joined back together with `sep` between consecutive pieces. */
  function Join(pieces: seq<string>, sep: char): string
    requires |pieces| >= 1
    decreases |pieces|
  {
    if |pieces| == 1 then pieces[0] else pieces[0] + [sep] + Join(pieces[1..], sep)
  }

  /**
   * JavaScript's `s.split(sep)` for a one-character separator: the maximal
   * pieces of `s` that do not contain `sep`, in order.
   */
  function Split(s: string, sep: char): (pieces: seq<string>)
    ensures |pieces| >= 1
    ensures forall i :: 0 <= i < |pieces| ==> sep !in pieces[i]
    ensures Join(pieces, sep) == s
    decreases |s|
  {
    if s == [] then [[]]
    else if s[0] == sep then [[]] + Split(s[1..], sep)
    else
      var rest := Split(s[1..], sep);
      JoinConsHead([s[0]], rest, sep);
      [[s[0]] + rest[0]] + rest[1..]
  }

  /** Prepending text to the first piece prepends it to the joined string. */
  lemma {:induction false} JoinConsHead(x: string, pieces: seq<string>, sep: char)
    requires |pieces| >= 1
    ensures Join([x + pieces[0]] + pieces[1..], sep) == x + Join(pieces, sep)
  {
    var p := [x + pieces[0]] + pieces[1..];
    if |pieces| > 1 {
      assert p[1..] == pieces[1..];
    }
  }

  /** Splitting is the inverse of joining pieces that do not contain the separator. */
  lemma {:induction false} SplitUnique(pieces: seq<string>, sep: char)
    requires |pieces| >= 1
    requires forall i :: 0 <= i < |pieces| ==> sep !in pieces[i]
    ensures Split(Join(pieces, sep), sep) == pieces
    decreases |Join(pieces, sep)|
  {
    var s := Join(pieces, sep);
    if pieces[0] == [] {
      if |pieces| > 1 {
        assert s == [sep] + Join(pieces[1..], sep);
        assert s[1..] == Join(pieces[1..], sep);
        forall i | 0 <= i < |pieces[1..]| ensures sep !in pieces[1..][i] {
          assert pieces[1..][i] == pieces[i + 1];
        }
        SplitUnique(pieces[1..], sep);
        assert [[]] + pieces[1..] == pieces;
      }
    } else {
      var x, y := pieces[0][0], pieces[0][1..];
      var tail := [y] + pieces[1..];
      assert pieces[0] == [x] + y;
      assert x != sep by { assert pieces[0][0] == x; }
      assert tail[1..] == pieces[1..];
      JoinConsHead([x], tail, sep);
      assert [[x] + tail[0]] + tail[1..] == pieces;
      assert s == [x] + Join(tail, sep);
      assert s[1..] == Join(tail, sep);
      forall i | 0 <= i < |tail| ensures sep !in tail[i] {
        if i == 0 {
          assert y == pieces[0][1..];
        } else {
          assert tail[i] == pieces[i];
        }
      }
      SplitUnique(tail, sep);
    }
  }

  /**
   * The cents part built from the text between the first and the second
   * point: its first two characters, padded on the right with `0`, never
   * rounded.
   */
  function Cents(rawCents: string): (cents: string)
    ensures |cents| == 2
    ensures forall i :: 0 <= i < 2 ==> cents[i] == if i < |rawCents| then rawCents[i] else '0'
  {
    if |rawCents| > 2 then rawCents[..2]
    else if |rawCents| == 2 then rawCents
    else if |rawCents| == 1 then rawCents + "0"
    else "00"
  }

  /** A `dollars.cc` string: exactly one point, followed by exactly two characters. */
  predicate IsDollarsCents(r: string) {
    |r| >= 3 && r[|r| - 3] == '.' && '.' !in r[..|r| - 3] && '.' !in r[|r| - 2..]
  }

  /** `sanitizedAmountInput`: the amount as dollars and two cent characters. */
  function Sanitize(amount: string): (r: string)
    ensures IsDollarsCents(r)
  {
    if '.' !in amount then amount + ".00"
    else
      var pieces := Split(amount, '.');
      var dollar := pieces[0];
      var rawCents := if |pieces| > 1 then pieces[1] else "";
      dollar + "." + Cents(rawCents)
  }

  /** Without a point, the amount is followed by `.00`. */
  lemma SanitizeWithoutPoint(amount: string)
    requires '.' !in amount
    ensures Sanitize(amount) == amount + ".00"
  {
  }

  /**
   * An amount whose text before the first point is `dollar` and whose text
   * between the first point and the next point (or the end) is `rawCents`
   * becomes `dollar` + "." + the first two characters of `rawCents` padded
   * with `0`; whatever follows a second point is dropped.
   */
  lemma {:induction false} SanitizeWithPoint(dollar: string, rawCents: string, rest: string)
    requires '.' !in dollar && '.' !in rawCents
    requires rest == [] || rest[0] == '.'
    ensures Sanitize(dollar + "." + rawCents + rest) == dollar + "." + Cents(rawCents)
  {
    var amount := dollar + "." + rawCents + rest;
    assert amount == dollar + ['.'] + (rawCents + rest);
    assert amount[|dollar|] == '.';
    SplitAfterPiece(dollar, rawCents + rest, '.');
    FirstPiece(rawCents, rest, '.');
  }

  /** A separator-free piece, then the separator: the piece comes first, then the split of the rest. */
  lemma SplitAfterPiece(piece: string, more: string, sep: char)
    requires sep !in piece
    ensures Split(piece + [sep] + more, sep) == [piece] + Split(more, sep)
  {
    var tail := Split(more, sep);
    var pieces := [piece] + tail;
    JoinCons(piece, tail, sep);
    forall i | 0 <= i < |pieces| ensures sep !in pieces[i] {
      if i > 0 {
        assert pieces[i] == tail[i - 1];
      }
    }
    SplitUnique(pieces, sep);
  }

  /** Separator-free text followed by nothing or by the separator is the first piece. */
  lemma FirstPiece(piece: string, rest: string, sep: char)
    requires sep !in piece
    requires rest == [] || rest[0] == sep
    ensures Split(piece + rest, sep)[0] == piece
  {
    if rest == [] {
      assert piece + rest == Join([piece], sep);
      SplitUnique([piece], sep);
    } else {
      assert piece + rest == piece + [sep] + rest[1..];
      SplitAfterPiece(piece, rest[1..], sep);
    }
  }

  /** Joining a piece in front of further pieces puts one separator between. */
  lemma JoinCons(x: string, pieces: seq<string>, sep: char)
    requires |pieces| >= 1
    ensures Join([x] + pieces, sep) == x + [sep] + Join(pieces, sep)
  {
    assert ([x] + pieces)[1..] == pieces;
  }

  /** The four fraction cases: more than two characters are cut to two, two are kept, one is padded with `0`, none gives `00`. */
  lemma FractionCases(dollar: string, rawCents: string, rest: string)
    requires '.' !in dollar && '.' !in rawCents
    requires rest == [] || rest[0] == '.'
    ensures |rawCents| > 2 ==> Sanitize(dollar + "." + rawCents + rest) == dollar + "." + rawCents[..2]
    ensures |rawCents| == 2 ==> Sanitize(dollar + "." + rawCents + rest) == dollar + "." + rawCents
    ensures |rawCents| == 1 ==> Sanitize(dollar + "." + rawCents + rest) == dollar + "." + rawCents + "0"
    ensures |rawCents| == 0 ==> Sanitize(dollar + "." + rawCents + rest) == dollar + ".00"
  {
    SanitizeWithPoint(dollar, rawCents, rest);
  }

  /** Sanitising a sanitised amount returns it unchanged. */
  lemma {:induction false} SanitizeIdempotent(amount: string)
    ensures Sanitize(Sanitize(amount)) == Sanitize(amount)
  {
    var r := Sanitize(amount);
    var n := |r|;
    var dollar, cents := r[..n - 3], r[n - 2..];
    assert r == dollar + "." + cents;
    SanitizeWithPoint(dollar, cents, []);
    assert dollar + "." + cents + [] == r;
  }

  /** Worked example: more than two fraction characters are cut, not rounded. */
  lemma TruncateExample()
    ensures Sanitize("12.999") == "12.99"
  {
    assert "12.999" == "12" + "." + "999" + "";
    FractionCases("12", "999", "");
    assert "999"[..2] == "99";
  }

  /** Worked example: text after a second point is dropped. */
  lemma SecondPointExample()
    ensures Sanitize("1.2.3") == "1.20"
  {
    assert "1.2.3" == "1" + "." + "2" + ".3";
    FractionCases("1", "2", ".3");
  }

  /** Worked example: a one-character fraction is padded with `0`. */
  lemma PadExample()
    ensures Sanitize("5.1") == "5.10"
  {
    assert "5.1" == "5" + "." + "1" + "";
    FractionCases("5", "1", "");
  }

  /** Worked example: an empty fraction becomes `00`. */
  lemma EmptyFractionExample()
    ensures Sanitize("5.") == "5.00"
  {
    assert "5." == "5" + "." + "" + "";
    FractionCases("5", "", "");
  }
}
