/** Which lines of a vehicle's configuration define a measurement, and as what. */
module Definitions {
  import opened Wrappers
  import opened Layout
  import opened Convert
  import opened Decimals
  import opened Vcm

  // ---------------------------------------------------------------- words of a line

  /** A word without white space. */
  predicate IsWord(w: string) {
    |w| > 0 && forall k :: 0 <= k < |w| ==> !IsSpace(w[k])
  }

  predicate AllWords(ws: seq<string>) {
    forall k :: 0 <= k < |ws| ==> IsWord(ws[k])
  }

  /** The words with a space after each. */
  function Line(ws: seq<string>): string {
    if ws == [] then [] else ws[0] + " " + Line(ws[1..])
  }

  lemma {:induction false} WordEnds(w: string, rest: string)
    requires forall k :: 0 <= k < |w| ==> !IsSpace(w[k])
    ensures WordLength(w + " " + rest) == |w|
  {
    if w == [] {
      assert (w + " " + rest)[0] == ' ';
    } else {
      WordEnds(w[1..], rest);
      assert (w + " " + rest)[1..] == w[1..] + " " + rest;
    }
  }

  /** Splitting a line gives the words it was made of. */
  lemma {:induction false} WordsOfLine(ws: seq<string>)
    requires AllWords(ws)
    ensures Words(Line(ws)) == ws
  {
    if ws != [] {
      var line, rest := Line(ws), Line(ws[1..]);
      WordEnds(ws[0], rest);
      assert line[0] == ws[0][0] && line[..|ws[0]|] == ws[0] && line[|ws[0]|..] == " " + rest;
      assert (" " + rest)[1..] == rest;
      WordsOfLine(ws[1..]);
    }
  }

  // ---------------------------------------------------------------- sizes

  predicate AllDigits(s: string) {
    forall k :: 0 <= k < |s| ==> '0' <= s[k] <= '9'
  }

  lemma DigitIsRead(d: nat)
    requires d < 10
    ensures '0' <= Digit(d) <= '9' && Digit(d) as nat - '0' as nat == d
  {
  }

  /** One more character that stands for `d`. */
  lemma {:induction false} OneDigitMore(s: string, c: char, d: nat, acc: nat)
    requires AllDigits(s) && '0' <= c <= '9' && c as nat - '0' as nat == d
    ensures DigitsValue(s + [c], acc) == 10 * DigitsValue(s, acc) + d
  {
    if s == [] {
      assert s + [c] == [c] && [c][1..] == [];
    } else {
      OneDigitMore(s[1..], c, d, 10 * acc + (s[0] as nat - '0' as nat));
      assert (s + [c])[1..] == s[1..] + [c];
    }
  }

  lemma {:induction false} DecimalIsRead(n: nat)
    ensures AllDigits(Decimal(n)) && DigitsValue(Decimal(n), 0) == n
  {
    DigitIsRead(n % 10);
    if n < 10 {
      OneDigitMore("", Digit(n), n, 0);
      assert "" + [Digit(n)] == Decimal(n);
    } else {
      DecimalIsRead(n / 10);
      OneDigitMore(Decimal(n / 10), Digit(n % 10), n % 10, 0);
    }
  }

  /** A number written in decimal is read as that number. */
  lemma StoIOfDecimal(n: nat)
    requires n <= INT_MAX
    ensures StoI(Decimal(n)) == Number(n)
  {
    DecimalIsRead(n);
  }

  // ---------------------------------------------------------------- options

  function KindWord(k: Kind): string {
    match k
    case Integer => "int"
    case Float => "float"
    case Text => "string"
    case Undefined => ""
  }

  function EndianWord(e: Endian): string {
    if e.BigEndian? then "big" else "little"
  }

  function SignWord(s: Sign): string {
    if s.Unsigned? then "unsigned" else "signed"
  }

  /** The words after the type: byte order and sign in either order, the host's byte order and
      `signed` by default. */
  predicate SpellsOrder(opts: seq<string>, e: Endian, s: Sign) {
    || opts == [EndianWord(e), SignWord(s)] || opts == [SignWord(s), EndianWord(e)]
    || (s.Signed? && opts == [EndianWord(e)]) || (e == HOST && opts == [SignWord(s)])
    || (e == HOST && s.Signed? && opts == [])
  }

  /** The words after the size. */
  predicate Spells(opts: seq<string>, m: Measurement) {
    if opts == [] then m.kind.Undefined? && m.endian == HOST && m.sign.Signed?
    else !m.kind.Undefined? && opts[0] == KindWord(m.kind) && SpellsOrder(opts[1..], m.endian, m.sign)
  }

  lemma OrderExactlyWhenSpelled(fourth: string, fifth: string, opts: seq<string>, e: Endian, s: Sign)
    requires |opts| <= 2 && (forall k :: 0 <= k < |opts| ==> opts[k] != "")
    requires fourth == Word(opts, 0) && fifth == Word(opts, 1)
    ensures var first := EndianOf(fourth);
      var endian := if first.Some? then first else if fifth == "" then Some(HOST) else EndianOf(fifth);
      endian == Some(e) && SignOf(if first.Some? then fifth else fourth) == Some(s) <==> SpellsOrder(opts, e, s)
  {
  }

  /** A line of two to five words defines measurement `m` exactly when its second word starts with the
      size and the others spell the type, the byte order and the sign. */
  lemma DefinedExactlyWhenSpelled(ws: seq<string>, m: Measurement)
    requires 2 <= |ws| <= 5 && AllWords(ws) && m.locations == []
    ensures DefinitionOf(ws) == Defined(m)
       <==> StoI(ws[1]).Number? && StoI(ws[1]).n % SIZE_T == m.size && Spells(ws[2..], m)
  {
    var opts := ws[2..];
    if opts != [] {
      OrderExactlyWhenSpelled(Word(ws, 3), Word(ws, 4), opts[1..], m.endian, m.sign);
    }
  }

  lemma SpelledAreWords(opts: seq<string>, m: Measurement)
    requires Spells(opts, m)
    ensures AllWords(opts) && |opts| <= 3
  {
  }

  lemma DigitsAreWord(w: string)
    requires AllDigits(w) && |w| > 0
    ensures IsWord(w)
  {
  }

  /** What is written for a measurement is read as that measurement. */
  lemma DefinitionRoundTrip(name: string, m: Measurement, opts: seq<string>)
    requires IsWord(name) && m.locations == [] && m.size <= INT_MAX && Spells(opts, m)
    ensures DefinitionOf(Words(Line([name, Decimal(m.size)] + opts))) == Defined(m)
  {
    var ws := [name, Decimal(m.size)] + opts;
    SpelledAreWords(opts, m);
    DecimalIsRead(m.size);
    DigitsAreWord(Decimal(m.size));
    WordsOfLine(ws);
    StoIOfDecimal(m.size);
    assert ws[2..] == opts;
    DefinedExactlyWhenSpelled(ws, m);
  }
}
