/** Which texts are instrument names, and what each gives: told on the characters, for every
    text. */
module NameTheorems {
  import opened Options
  import opened Naming

  // ---------- case ----------

  lemma {:induction false} SplitSame(s: string, t: string)
    requires SameButCase(s, t)
    ensures |Split(s)| == |Split(t)|
    ensures forall i :: 0 <= i < |Split(s)| ==> SameButCase(Split(s)[i], Split(t)[i])
  {
    if s != "" {
      assert SameLetter(s[0], t[0]);
      SplitSame(s[1..], t[1..]);
      var a, b := Split(s[1..]), Split(t[1..]);
      if s[0] == '-' {
        assert t[0] == '-';
        assert SameButCase("", "");
      } else {
        PrependSame(s[0], t[0], a[0], b[0]);
      }
    }
  }

  lemma PrependSame(c: char, d: char, s: string, t: string)
    requires SameLetter(c, d) && SameButCase(s, t)
    ensures SameButCase([c] + s, [d] + t)
  {
  }

  lemma {:induction false} DigitsSame(s: string, t: string, base: nat)
    requires SameButCase(s, t)
    ensures ParseDigits(s, base) == ParseDigits(t, base)
  {
    if s != "" {
      var n := |s| - 1;
      assert SameLetter(s[n], t[n]);
      assert SameButCase(s[..n], t[..n]);
      DigitsSame(s[..n], t[..n], base);
    }
  }

  lemma AtoiSame(s: string, t: string)
    requires SameButCase(s, t) && Plain(s) && Plain(t)
    ensures Atoi(s) == Atoi(t)
  {
    if s != "" {
      assert SameLetter(s[0], t[0]);
      assert SameButCase(s[1..], t[1..]);
      DigitsSame(s[1..], t[1..], 10);
    }
    DigitsSame(s, t, 10);
  }

  /** Two texts that agree but for the case of ASCII letters parse to the same result. */
  lemma CaseBlind(s: string, t: string, supported: set<string>)
    requires SameButCase(s, t)
    ensures ParseInstruments(s, supported) == ParseInstruments(t, supported)
  {
    SplitSame(s, t);
    var a, b := Split(s), Split(t);
    if |a| == 4 {
      UpperSame(a[0], b[0]);
      UpperSame(a[1], b[1]);
      AtoiSame(a[2], b[2]);
      UpperSame(a[3], b[3]);
    }
  }

  // ---------- strikes ----------

  function Zeros(k: nat): string {
    seq(k, _ => '0')
  }

  /** The text is the printed number, with any zeros before it and perhaps a plus sign. */
  ghost predicate Writes(s: string, n: nat) {
    exists k: nat :: s == Zeros(k) + Decimal(n) || s == "+" + (Zeros(k) + Decimal(n))
  }

  lemma {:induction false} LeadingZeros(k: nat, t: string)
    ensures ParseDigits(Zeros(k) + t, 10) == ParseDigits(t, 10)
    decreases k + |t|
  {
    var s := Zeros(k) + t;
    if t != "" {
      assert s[..|s| - 1] == Zeros(k) + t[..|t| - 1];
      LeadingZeros(k, t[..|t| - 1]);
    } else if k > 0 {
      assert s == Zeros(k) && s[..k - 1] == Zeros(k - 1) + "";
      LeadingZeros(k - 1, "");
    }
  }

  lemma {:induction false} DigitsWrite(s: string, n: nat) returns (k: nat)
    requires s != "" && ParseDigits(s, 10) == Some(n)
    ensures s == Zeros(k) + Decimal(n)
  {
    var init, d := s[..|s| - 1], DigitValue(s[|s| - 1]);
    assert s == init + [s[|s| - 1]] && d < 10 && s[|s| - 1] == DigitChar(d);
    if init == "" {
      k := 0;
      assert n == d && Decimal(d) == [DigitChar(d)];
    } else {
      var m := ParseDigits(init, 10).value;
      var j := DigitsWrite(init, m);
      if m == 0 {
        k := j + 1;
        assert Decimal(0) == "0" && Zeros(j) + "0" == Zeros(j + 1);
        assert Decimal(d) == [DigitChar(d)];
      } else {
        k := j;
        assert n / 10 == m && n % 10 == d && Decimal(n) == Decimal(m) + [DigitChar(d)];
      }
    }
  }

  /** A piece is read as a strike if and only if it writes a number below 2^63. */
  lemma StrikeReads(s: string, n: nat)
    requires Plain(s)
    ensures Atoi(s) == Some(n) <==> n < INT64_LIMIT && Writes(s, n)
  {
    var digits := if s != "" && s[0] == '+' then s[1..] else s;
    if Atoi(s) == Some(n) {
      var k := DigitsWrite(digits, n);
      assert s == digits || s == "+" + digits;
    }
    if n < INT64_LIMIT && Writes(s, n) {
      var k: nat :| s == Zeros(k) + Decimal(n) || s == "+" + (Zeros(k) + Decimal(n));
      DecimalParses(n);
      LeadingZeros(k, Decimal(n));
      NoSign(k, n);
      assert digits == Zeros(k) + Decimal(n);
    }
  }

  lemma NoSign(k: nat, n: nat)
    ensures var t := Zeros(k) + Decimal(n); t != "" && t[0] != '+'
  {
    DecimalParses(n);
    var t := Zeros(k) + Decimal(n);
    if k == 0 {
      assert t[0] == Decimal(n)[0] && Decimal(n)[0] in Decimal(n);
    }
  }

  // ---------- which texts parse, and to what ----------

  /** How many dashes a text has. */
  function Dashes(s: string): nat {
    multiset(s)['-']
  }

  lemma {:induction false} PiecesCount(s: string)
    ensures |Split(s)| == Dashes(s) + 1
  {
    if s != "" {
      PiecesCount(s[1..]);
      assert s == [s[0]] + s[1..];
      assert multiset(s) == multiset{s[0]} + multiset(s[1..]);
    }
  }

  lemma {:induction false} Joined(s: string) returns (rest: string)
    ensures var parts := Split(s);
      if |parts| == 1 then s == parts[0] else s == parts[0] + "-" + rest && Split(rest) == parts[1..]
  {
    rest := "";
    if s != "" {
      var c, tail := s[0], Split(s[1..]);
      assert s == [c] + s[1..];
      if c == '-' {
        rest := s[1..];
        assert s == "" + "-" + rest && Split(s)[1..] == Split(rest);
      } else {
        rest := Joined(s[1..]);
        assert Split(s)[1..] == tail[1..];
        Prepend(c, tail[0], rest);
      }
    }
  }

  lemma Prepend(c: char, a: string, rest: string)
    ensures [c] + (a + "-" + rest) == ([c] + a) + "-" + rest
  {
  }

  /** Without exactly three dashes a text is refused; with them it is four pieces in a row. */
  lemma FourPieces(s: string, supported: set<string>) returns (a: string, b: string, c: string, d: string)
    ensures Dashes(s) != 3 ==> ParseInstruments(s, supported) == Err(InvalidInstrument)
    ensures Dashes(s) == 3 ==>
      Plain(a) && Plain(b) && Plain(c) && Plain(d) && s == a + "-" + b + "-" + c + "-" + d
  {
    PiecesCount(s);
    var parts := Split(s);
    a, b, c, d := "", "", "", "";
    if |parts| == 4 {
      a, b, c, d := parts[0], parts[1], parts[2], parts[3];
      var r1 := Joined(s);
      var r2 := Joined(r1);
      var r3 := Joined(r2);
      var _ := Joined(r3);
      DashAssoc(a, b, r2);
      DashAssoc(a + "-" + b, c, r3);
    }
  }

  /** What a supported currency in capitals looks like written in any case. */
  ghost predicate Supports(supported: set<string>, text: string) {
    exists u :: u in supported && Capital(u) && SameButCase(u, text)
  }

  ghost predicate ReadAs(text: string, i: Instrument, b: string, n: nat, supported: set<string>) {
    && i.underlying in supported && Capital(i.underlying) && SameButCase(i.underlying, text)
    && Capital(i.expiry) && SameButCase(i.expiry, b)
    && i.strike == Nearest(n)
  }

  /** Four pieces, piece by piece: an unsupported currency is refused first, then a strike that is
      no number below 2^63, then any contract but one C or one P in either case; and otherwise the
      instrument has the first two pieces in capitals, the float nearest to the strike, and the
      contract the last piece names. */
  lemma PieceByPiece(a: string, b: string, c: string, d: string, supported: set<string>)
    requires Plain(a) && Plain(b) && Plain(c) && Plain(d)
    ensures var r := ParseInstruments(a + "-" + b + "-" + c + "-" + d, supported);
      && (r == Err(UnsupportedCurrency) <==> !Supports(supported, a))
      && (r == Err(InvalidStrikePrice) <==>
            Supports(supported, a) && forall n: nat :: n < INT64_LIMIT ==> !Writes(c, n))
      && (r == Err(InvalidStrategy) <==>
            && Supports(supported, a) && (exists n: nat :: n < INT64_LIMIT && Writes(c, n))
            && d !in {"C", "c", "P", "p"})
      && (r.Ok? ==>
            && (exists n: nat :: n < INT64_LIMIT && Writes(c, n) && ReadAs(a, r.instrument, b, n, supported))
            && (r.instrument.contracts == CALL <==> d in {"C", "c"})
            && (r.instrument.contracts == PUT <==> d in {"P", "p"}))
      && r != Err(InvalidInstrument)
  {
    SplitFour(a, b, c, d);
    SupportsIff(a, supported);
    UpperIs(a);
    UpperIs(b);
    ContractPiece(d);
    forall n: nat ensures Atoi(c) == Some(n) <==> n < INT64_LIMIT && Writes(c, n) {
      StrikeReads(c, n);
    }
    hide Split, ToUpper, Nearest, Atoi, Writes, Supports;
    if Atoi(c).Some? {
      assert Writes(c, Atoi(c).value);
    }
  }

  lemma SupportsIff(a: string, supported: set<string>)
    ensures ToUpper(a) in supported <==> Supports(supported, a)
  {
    UpperIs(a);
    if Supports(supported, a) {
      var u :| u in supported && Capital(u) && SameButCase(u, a);
      UpperSame(u, a);
      CapitalUpper(u);
    }
  }

  lemma ContractPiece(d: string)
    ensures ToUpper(d) == "C" <==> d in {"C", "c"}
    ensures ToUpper(d) == "P" <==> d in {"P", "p"}
  {
    UpperIs(d);
    if |d| == 1 {
      assert d == [d[0]] && SameLetter(ToUpper(d)[0], d[0]);
      CapitalUpper("C");
      CapitalUpper("P");
      UpperSame("c", "C");
      UpperSame("p", "P");
    }
  }

  lemma Twenty()
    ensures Decimal(20500) == "20500"
  {
    assert Decimal(205) == "205" by {
      assert Decimal(2) == "2" && Decimal(20) == "20";
    }
    assert Decimal(2050) == "2050";
  }

  const EXAMPLE := Instrument("BTC", "30JUN23", 20500, CALL)

  lemma ExamplePrinted()
    ensures InstrumentName(EXAMPLE) == "BTC-30JUN23-20500-C"
  {
    Twenty();
    hide Decimal;
    assert "BTC" + "-" + "30JUN23" == "BTC-30JUN23";
    assert "BTC-30JUN23" + "-" + "20500" == "BTC-30JUN23-20500";
    assert "BTC-30JUN23-20500" + "-" + "C" == "BTC-30JUN23-20500-C";
  }

  lemma ExampleNamed()
    ensures Named(EXAMPLE, {"BTC"}) && EXAMPLE.strike <= FLOAT_DIGITS
  {
  }

  lemma ExampleCase()
    ensures SameButCase("BTC-30JUN23-20500-C", "btc-30jun23-20500-c")
  {
  }

  /** One name, in capitals and in small letters. */
  lemma OneName()
    ensures InstrumentName(EXAMPLE) == "BTC-30JUN23-20500-C"
    ensures ParseInstruments("BTC-30JUN23-20500-C", {"BTC"}) == Ok(EXAMPLE)
    ensures ParseInstruments("btc-30jun23-20500-c", {"BTC"}) == Ok(EXAMPLE)
  {
    hide *;
    ExamplePrinted();
    ExampleNamed();
    ExampleCase();
    NameRoundTrip(EXAMPLE, {"BTC"});
    CaseBlind("BTC-30JUN23-20500-C", "btc-30jun23-20500-c", {"BTC"});
  }

  // ---------- numbers whose base is left to their prefix ----------

  lemma NextDigit(s: string, c: char, base: nat)
    ensures ParseDigits(s + [c], base) ==
      match ParseDigits(s, base)
      case None => None
      case Some(n) => if DigitValue(c) < base then Some(n * base + DigitValue(c)) else None
  {
    assert (s + [c])[..|s|] == s;
  }

  lemma TwoDigits(c: char, d: char, base: nat)
    requires DigitValue(c) < base
    ensures ParseDigits([c, d], base) == if DigitValue(d) < base then Some(DigitValue(c) * base + DigitValue(d)) else None
  {
    assert [] + [c] == [c] && [c] + [d] == [c, d];
    NextDigit([], c, base);
    NextDigit([c], d, base);
  }

  /** How a prefix sets the base of an order id, letters of either case being digits above nine,
      and which digits each base has. */
  lemma Prefixes(c: char, d: char)
    ensures DigitValue(c) < 16 && DigitValue(d) < 16 ==>
      ParseUint0(['0', 'x', c, d]) == ParseUint0(['0', 'X', c, d]) == Number(DigitValue(c) * 16 + DigitValue(d))
    ensures DigitValue(c) < 8 && DigitValue(d) < 8 ==>
      ParseUint0(['0', 'o', c, d]) == ParseUint0(['0', 'O', c, d]) == Number(DigitValue(c) * 8 + DigitValue(d))
    ensures DigitValue(c) < 2 && DigitValue(d) < 2 ==>
      ParseUint0(['0', 'b', c, d]) == ParseUint0(['0', 'B', c, d]) == Number(DigitValue(c) * 2 + DigitValue(d))
    ensures DigitValue(c) < 8 && DigitValue(d) < 8 ==> ParseUint0(['0', c, d]) == Number(DigitValue(c) * 8 + DigitValue(d))
    ensures DigitValue(c) == DigitValue('9') <==> c == '9'
    ensures DigitValue('f') == DigitValue('F') == 15 && ParseUint0("") == SyntaxError
  {
    assert ['0', c, d][1..] == [c, d];
    forall p ensures ['0', p, c, d][2..] == [c, d] {}
    assert ['0', 'x', c, d][2..] == [c, d];
    if DigitValue(c) < 16 { TwoDigits(c, d, 16); }
    if DigitValue(c) < 8 { TwoDigits(c, d, 8); }
    if DigitValue(c) < 2 { TwoDigits(c, d, 2); }
  }
}
