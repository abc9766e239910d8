/** Names the gateway prints and parses again: request keys made of an id and a user id, the
    order id a request travels under, and instrument names. */
module Naming {
  import opened Options

  const UINT64_LIMIT := 0x1_0000_0000_0000_0000
  const INT64_LIMIT := 0x8000_0000_0000_0000

  // ---------- splitting ----------

  predicate Plain(s: string) {
    '-' !in s
  }

  /** The pieces between dashes, always at least one. */
  function Split(s: string): (parts: seq<string>)
    ensures |parts| >= 1
    ensures forall i :: 0 <= i < |parts| ==> Plain(parts[i])
  {
    if s == "" then [""]
    else
      var rest := Split(s[1..]);
      if s[0] == '-' then [""] + rest else [[s[0]] + rest[0]] + rest[1..]
  }

  lemma {:induction false} SplitFirst(a: string, s: string)
    requires Plain(a)
    ensures Split(a + "-" + s) == [a] + Split(s)
  {
    var t := a + "-" + s;
    if a == "" {
      assert t[0] == '-' && t[1..] == s;
    } else {
      assert a[0] in a && forall c :: c in a[1..] ==> c in a;
      assert t[0] == a[0] && t[1..] == a[1..] + "-" + s;
      SplitFirst(a[1..], s);
      assert [a[0]] + a[1..] == a;
    }
  }

  lemma {:induction false} SplitPlain(a: string)
    requires Plain(a)
    ensures Split(a) == [a]
  {
    if a != "" {
      assert a[0] in a && forall c :: c in a[1..] ==> c in a;
      SplitPlain(a[1..]);
      assert [a[0]] + a[1..] == a;
    }
  }

  /** A string splits into itself alone only when it has no dash. */
  lemma {:induction false} SplitHead(s: string)
    ensures Split(s)[0] == s <==> Plain(s)
    ensures |Split(s)[0]| <= |s|
  {
    if s != "" {
      SplitHead(s[1..]);
      assert s == [s[0]] + s[1..];
      assert Plain(s) <==> s[0] != '-' && Plain(s[1..]);
      if s[0] != '-' && Split(s)[0] == s {
        assert Split(s)[0][1..] == s[1..];
      }
    }
  }

  // ---------- decimal numbers ----------

  function DigitChar(d: nat): char
    requires d < 10
  {
    '0' + d as char
  }

  /** `strconv.FormatUint(n, 10)`. */
  function Decimal(n: nat): string {
    if n < 10 then [DigitChar(n)] else Decimal(n / 10) + [DigitChar(n % 10)]
  }

  /** The value of a digit, letters counting from ten, or 36 for any other character. */
  function DigitValue(c: char): nat {
    if '0' <= c <= '9' then (c - '0') as nat
    else if 'a' <= c <= 'z' then (c - 'a') as nat + 10
    else if 'A' <= c <= 'Z' then (c - 'A') as nat + 10
    else 36
  }

  function ParseDigits(s: string, base: nat): Option<nat> {
    if s == "" then Some(0)
    else
      var d := DigitValue(s[|s| - 1]);
      match ParseDigits(s[..|s| - 1], base)
      case None => None
      case Some(n) => if d < base then Some(n * base + d) else None
  }

  datatype Parsed = Number(value: nat) | SyntaxError | RangeError

  function InRange(n: Option<nat>): Parsed {
    match n
    case None => SyntaxError
    case Some(v) => if v < UINT64_LIMIT then Number(v) else RangeError
  }

  /** `strconv.ParseUint(s, 10, 64)`. */
  function ParseUint10(s: string): Parsed {
    if s == "" then SyntaxError else InRange(ParseDigits(s, 10))
  }

  /** `strconv.ParseUint(s, 0, 64)`: a prefix gives the base, and a leading zero means octal. */
  function ParseUint0(s: string): Parsed {
    if s == "" then SyntaxError
    else if s[0] != '0' then InRange(ParseDigits(s, 10))
    else if |s| >= 3 && (s[1] == 'b' || s[1] == 'B') then InRange(ParseDigits(s[2..], 2))
    else if |s| >= 3 && (s[1] == 'o' || s[1] == 'O') then InRange(ParseDigits(s[2..], 8))
    else if |s| >= 3 && (s[1] == 'x' || s[1] == 'X') then InRange(ParseDigits(s[2..], 16))
    else InRange(ParseDigits(s[1..], 8))
  }

  /** The number a failed parse still returns: zero, or the largest value when out of range. */
  function ValueOf(p: Parsed): nat {
    match p
    case Number(v) => v
    case SyntaxError => 0
    case RangeError => UINT64_LIMIT - 1
  }

  lemma {:induction false} DecimalParses(n: nat)
    ensures Decimal(n) != "" && Plain(Decimal(n))
    ensures ParseDigits(Decimal(n), 10) == Some(n)
    ensures Decimal(n)[0] == '0' <==> n == 0
    ensures forall c :: c in Decimal(n) ==> '0' <= c <= '9'
  {
    var s := Decimal(n);
    if n < 10 {
      assert s[..0] == "";
      assert ParseDigits(s[..0], 10) == Some(0);
      assert DigitValue(s[0]) == n;
    } else {
      DecimalParses(n / 10);
      assert s[..|s| - 1] == Decimal(n / 10);
      assert DigitValue(s[|s| - 1]) == n % 10;
    }
  }

  /** Reading a printed number back, in base 10 or with the base left to its prefix, gives it. */
  lemma PrintedNumber(n: nat)
    requires n < UINT64_LIMIT
    ensures ParseUint10(Decimal(n)) == Number(n)
    ensures ParseUint0(Decimal(n)) == Number(n)
  {
    DecimalParses(n);
    if n == 0 {
      assert Decimal(0)[1..] == "";
    }
  }

  // ---------- request keys ----------

  function GetKeyFromIdUserID(id: nat, userID: string): string {
    Decimal(id) + "-" + userID
  }

  function GetIdUserIDFromKey(key: string): (nat, string) {
    var parts := Split(key);
    var id := ParseUint10(parts[0]);
    if id.Number? && |parts| > 1 then (id.value, parts[1]) else (ValueOf(id), "")
  }

  /** Parsing a key returns its id, for every id and user id; and the user id as well exactly
      when that has no dash. */
  lemma KeyRoundTrip(id: nat, userID: string)
    requires id < UINT64_LIMIT
    ensures GetIdUserIDFromKey(GetKeyFromIdUserID(id, userID)).0 == id
    ensures GetIdUserIDFromKey(GetKeyFromIdUserID(id, userID)) == (id, userID) <==> Plain(userID)
  {
    DecimalParses(id);
    PrintedNumber(id);
    SplitFirst(Decimal(id), userID);
    SplitHead(userID);
  }

  /** A printed id that does not fit is read as the largest one, and the user id is dropped. */
  lemma KeyOverflow(id: nat, userID: string)
    requires id >= UINT64_LIMIT
    ensures GetIdUserIDFromKey(GetKeyFromIdUserID(id, userID)) == (UINT64_LIMIT - 1, "")
  {
    DecimalParses(id);
    SplitFirst(Decimal(id), userID);
  }

  /** Different requests have different keys. */
  lemma KeyInjective(id: nat, userID: string, id': nat, userID': string)
    requires GetKeyFromIdUserID(id, userID) == GetKeyFromIdUserID(id', userID')
    ensures id == id' && userID == userID'
  {
    DecimalParses(id);
    DecimalParses(id');
    SplitFirst(Decimal(id), userID);
    SplitFirst(Decimal(id'), userID');
    assert Split(GetKeyFromIdUserID(id, userID))[0] == Decimal(id);
    assert Split(GetKeyFromIdUserID(id', userID'))[0] == Decimal(id');
    var n := |Decimal(id)| + 1;
    assert GetKeyFromIdUserID(id, userID)[n..] == userID;
    assert GetKeyFromIdUserID(id', userID')[n..] == userID';
  }

  /** The key the engine handlers recompute from an order's id and user. */
  function ReplyKey(clOrdID: string, userID: string): string {
    GetKeyFromIdUserID(ValueOf(ParseUint0(clOrdID)), userID)
  }

  /** An order sent under the printed request id comes back to the key the request was
      registered under, and the reply to that key carries the request's id, as section 5 of
      the JSON-RPC 2.0 specification asks. */
  lemma ReplyCorrelates(id: nat, userID: string)
    requires id < UINT64_LIMIT
    ensures ReplyKey(Decimal(id), userID) == GetKeyFromIdUserID(id, userID)
    ensures GetIdUserIDFromKey(ReplyKey(Decimal(id), userID)).0 == id
  {
    PrintedNumber(id);
    KeyRoundTrip(id, userID);
  }

  // ---------- instruments ----------

  datatype Contracts = CALL | PUT
  datatype Instrument = Instrument(underlying: string, expiry: string, strike: nat, contracts: Contracts)
  datatype InstrumentError = InvalidInstrument | UnsupportedCurrency | InvalidStrikePrice | InvalidStrategy
  datatype Result = Ok(instrument: Instrument) | Err(error: InstrumentError)

  function UpperChar(c: char): char {
    if 'a' <= c <= 'z' then c - 'a' + 'A' else c
  }

  function ToUpper(s: string): string {
    if s == "" then "" else [UpperChar(s[0])] + ToUpper(s[1..])
  }

  /** No small ASCII letter. */
  predicate Capital(s: string) {
    forall i :: 0 <= i < |s| ==> !('a' <= s[i] <= 'z')
  }

  /** The same character, or the same ASCII letter in either case. */
  predicate SameLetter(c: char, d: char) {
    || c == d
    || ('a' <= c <= 'z' && 'A' <= d <= 'Z' && c - 'a' == d - 'A')
    || ('A' <= c <= 'Z' && 'a' <= d <= 'z' && c - 'A' == d - 'a')
  }

  predicate SameButCase(s: string, t: string) {
    |s| == |t| && forall i :: 0 <= i < |s| ==> SameLetter(s[i], t[i])
  }

  /** What `ToUpper` gives: the same letters, none of them small. */
  lemma {:induction false} UpperIs(s: string)
    ensures SameButCase(ToUpper(s), s) && Capital(ToUpper(s))
    ensures Plain(s) ==> Plain(ToUpper(s))
  {
    if s != "" {
      UpperIs(s[1..]);
      assert Plain(s) ==> Plain(s[1..]) && s[0] != '-';
      assert forall i :: 0 < i < |s| ==> ToUpper(s)[i] == ToUpper(s[1..])[i - 1] && s[i] == s[1..][i - 1];
    }
  }

  /** Capitals that agree but for case are equal, so this is the only such string. */
  lemma CapitalsEqual(s: string, t: string)
    requires Capital(s) && Capital(t) && SameButCase(s, t)
    ensures s == t
  {
    forall i | 0 <= i < |s| ensures s[i] == t[i] {
      assert SameLetter(s[i], t[i]);
    }
  }

  lemma CapitalUpper(s: string)
    requires Capital(s)
    ensures ToUpper(s) == s
  {
    UpperIs(s);
    CapitalsEqual(ToUpper(s), s);
  }

  lemma UpperSame(s: string, t: string)
    requires SameButCase(s, t)
    ensures ToUpper(s) == ToUpper(t)
  {
    UpperIs(s);
    UpperIs(t);
    var a, b := ToUpper(s), ToUpper(t);
    hide SameLetter, ToUpper, Capital;
    forall i | 0 <= i < |s| ensures SameLetter(a[i], b[i]) {
      SameThrough(a[i], s[i], t[i], b[i]);
    }
    CapitalsEqual(a, b);
  }

  lemma SameThrough(a: char, c: char, d: char, b: char)
    requires SameLetter(a, c) && SameLetter(c, d) && SameLetter(b, d)
    ensures SameLetter(a, b)
  {
  }

  /** `strconv.Atoi`: an optional sign and decimal digits, within 64 bits. A piece of a split
      name has no '-', so the only sign left is '+'. */
  function Atoi(s: string): Option<nat>
    requires Plain(s)
  {
    var digits := if s != "" && s[0] == '+' then s[1..] else s;
    if digits == "" then None
    else
      match ParseDigits(digits, 10)
      case None => None
      case Some(n) => if n < INT64_LIMIT then Some(n) else None
  }

  // ---------- the float strike ----------

  const FLOAT_DIGITS := 0x20_0000_0000_0000  // 2^53

  function Pow2(j: nat): (u: nat)
    ensures u >= 1
  {
    if j == 0 then 1 else 2 * Pow2(j - 1)
  }

  /** The spacing of the 64-bit floats around a natural number, as an exponent of two. */
  function Spacing(n: nat): nat {
    if n < FLOAT_DIGITS then 0 else 1 + Spacing(n / 2)
  }

  /** `strconv.ParseFloat` of a natural number: the nearest float, a tie going to the even one. */
  function Nearest(n: nat): nat {
    var u := Pow2(Spacing(n));
    var q, r := n / u, n % u;
    if 2 * r < u || (2 * r == u && q % 2 == 0) then q * u else (q + 1) * u
  }

  /** The number is a float. */
  predicate IsFloat(n: nat) {
    Nearest(n) == n
  }

  lemma SmallFloat(n: nat)
    requires n <= FLOAT_DIGITS
    ensures IsFloat(n)
  {
    if n == FLOAT_DIGITS {
      assert Spacing(n / 2) == 0 && Pow2(1) == 2 * Pow2(0);
    }
  }

  lemma {:induction false} SpacingBounds(n: nat)
    ensures n < Pow2(Spacing(n)) * FLOAT_DIGITS
    ensures Spacing(n) > 0 ==> Pow2(Spacing(n)) * (FLOAT_DIGITS / 2) <= n
  {
    if n >= FLOAT_DIGITS {
      SpacingBounds(n / 2);
      assert Pow2(Spacing(n)) == 2 * Pow2(Spacing(n / 2));
    }
  }

  /** A number of at most 53 significant bits is a float. */
  lemma {:induction false} ScaledFloat(k: nat, j: nat)
    requires k <= FLOAT_DIGITS
    ensures (k * Pow2(j)) % Pow2(Spacing(k * Pow2(j))) == 0
  {
    var n := k * Pow2(j);
    if n < FLOAT_DIGITS {
      assert Pow2(0) == 1;
    } else if j == 0 {
      assert n == FLOAT_DIGITS && Spacing(n / 2) == 0;
    } else {
      Halve(k, Pow2(j - 1));
      ScaledFloat(k, j - 1);
      DoubleDivides(k * Pow2(j - 1), Pow2(Spacing(n / 2)));
    }
  }

  lemma Halve(k: nat, v: nat)
    ensures k * (2 * v) == 2 * (k * v) && k * (2 * v) / 2 == k * v
  {
    assert k * (2 * v) == 2 * (k * v);
  }

  lemma DoubleDivides(a: nat, u: nat)
    requires u >= 1 && a % u == 0
    ensures (2 * a) % (2 * u) == 0
  {
    var q := a / u;
    assert a == q * u;
    assert 2 * a == q * (2 * u);
    MultipleDivides(q, 2 * u);
  }

  lemma Multiples(x: int, u: nat)
    ensures x >= 1 ==> x * u >= u
    ensures x <= -1 ==> x * u + u <= 0
  {
    if x >= 1 {
      assert x * u == (x - 1) * u + u && (x - 1) * u >= 0;
    } else if x <= -1 {
      assert x * u == (x + 1) * u - u && (-x - 1) * u >= 0;
    }
  }

  lemma MultipleDivides(q: nat, u: nat)
    requires u >= 1
    ensures (q * u) % u == 0 && (q * u) / u == q
  {
    var n := q * u;
    var d, r := n / u, n % u;
    assert n == d * u + r && 0 <= r < u;
    assert (q - d) * u == q * u - d * u == r;
    Multiples(q - d, u);
  }

  lemma DividedFloat(n: nat)
    requires n % Pow2(Spacing(n)) == 0
    ensures IsFloat(n)
  {
  }

  lemma QuotientBelow(n: nat, u: nat, limit: nat)
    requires u >= 1 && n < u * limit
    ensures n / u < limit
  {
    var d, r := n / u, n % u;
    assert n == d * u + r;
    assert (d - limit) * u == d * u - limit * u && limit * u == u * limit;
    Multiples(d - limit, u);
  }

  lemma NearestForm(n: nat) returns (k: nat)
    ensures k <= FLOAT_DIGITS && Nearest(n) == k * Pow2(Spacing(n))
    ensures 2 * (Nearest(n) - n) <= Pow2(Spacing(n)) && 2 * (n - Nearest(n)) <= Pow2(Spacing(n))
    ensures 2 * (Nearest(n) - n) == Pow2(Spacing(n)) || 2 * (n - Nearest(n)) == Pow2(Spacing(n)) ==> k % 2 == 0
  {
    var u := Pow2(Spacing(n));
    SpacingBounds(n);
    hide Pow2, Spacing;
    QuotientBelow(n, u, FLOAT_DIGITS);
    var q, r := n / u, n % u;
    assert n == q * u + r && (q + 1) * u == q * u + u;
    k := if 2 * r < u || (2 * r == u && q % 2 == 0) then q else q + 1;
  }

  /** What `ParseFloat` returns is a float, within half a spacing: rounding twice is rounding
      once. */
  lemma NearestIsFloat(n: nat)
    ensures IsFloat(Nearest(n))
    ensures 2 * (Nearest(n) - n) <= Pow2(Spacing(n)) && 2 * (n - Nearest(n)) <= Pow2(Spacing(n))
  {
    var k := NearestForm(n);
    hide Nearest, Spacing, Pow2, IsFloat;
    ScaledFloat(k, Spacing(n));
    DividedFloat(k * Pow2(Spacing(n)));
  }

  lemma {:induction false} SpacingIn(n: nat, j: nat)
    requires Pow2(j) * (FLOAT_DIGITS / 2) <= n < Pow2(j) * FLOAT_DIGITS && j > 0
    ensures Spacing(n) == j
  {
    assert Pow2(j) == 2 * Pow2(j - 1);
    if j > 1 {
      assert Pow2(j - 1) == 2 * Pow2(j - 2);
      SpacingIn(n / 2, j - 1);
    } else {
      assert Spacing(n / 2) == 0;
    }
  }

  lemma Multiple(n: nat, u: nat)
    requires 1 <= u <= n
    ensures (n / u) * u <= n && (n / u + 1) * u <= 2 * n
  {
    var q := n / u;
    assert n == q * u + n % u;
    assert (q + 1) * u == q * u + u;
  }

  lemma NearestAtMostDouble(n: nat)
    requires n >= 1
    ensures Nearest(n) <= 2 * n
  {
    var u := Pow2(Spacing(n));
    SpacingBounds(n);
    assert u == 1 || u * (FLOAT_DIGITS / 2) <= n;
    hide Pow2, Spacing;
    Multiple(n, u);
  }

  const HALF_STEP := 512  // half the spacing of the floats just below 2^63

  /** Which 64-bit integers round up to 2^63: the last 512. */
  lemma RoundsToLimit(n: nat)
    requires n < INT64_LIMIT
    ensures Nearest(n) <= INT64_LIMIT
    ensures Nearest(n) < INT64_LIMIT <==> n < INT64_LIMIT - HALF_STEP
  {
    if n >= INT64_LIMIT / 2 {
      assert Pow2(10) == 1024 by {
        assert Pow2(5) == 32;
        assert Pow2(10) == 2 * (2 * (2 * (2 * (2 * Pow2(5)))));
      }
      SpacingIn(n, 10);
    } else if n > 0 {
      NearestAtMostDouble(n);
    } else {
      SmallFloat(0);
    }
  }

  // ---------- parsing and printing ----------

  /** Parsing with the expiry check off. The strike is checked as an integer and kept as a float. */
  function ParseInstruments(s: string, supported: set<string>): Result {
    var parts := Split(s);
    if |parts| != 4 then Err(InvalidInstrument)
    else
      var underlying, expiry := ToUpper(parts[0]), ToUpper(parts[1]);
      if underlying !in supported then Err(UnsupportedCurrency)
      else
        match Atoi(parts[2])
        case None => Err(InvalidStrikePrice)
        case Some(strike) =>
          var contract := ToUpper(parts[3]);
          if contract == "C" then Ok(Instrument(underlying, expiry, Nearest(strike), CALL))
          else if contract == "P" then Ok(Instrument(underlying, expiry, Nearest(strike), PUT))
          else Err(InvalidStrategy)
  }

  /** The name every handler builds: the strike without decimals, and the contract's initial. */
  function InstrumentName(i: Instrument): string {
    i.underlying + "-" + i.expiry + "-" + Decimal(i.strike) + "-" + (if i.contracts == CALL then "C" else "P")
  }

  /** A supported underlying and an expiry, in capitals and without dashes. */
  predicate Named(i: Instrument, supported: set<string>) {
    && i.underlying in supported
    && Plain(i.underlying) && Capital(i.underlying)
    && Plain(i.expiry) && Capital(i.expiry)
  }

  lemma DashAssoc(a: string, b: string, rest: string)
    ensures a + "-" + b + "-" + rest == a + "-" + (b + "-" + rest)
  {
  }

  lemma SplitFour(a: string, b: string, c: string, d: string)
    requires Plain(a) && Plain(b) && Plain(c) && Plain(d)
    ensures Split(a + "-" + b + "-" + c + "-" + d) == [a, b, c, d]
  {
    SplitPlain(d);
    SplitFirst(c, d);
    SplitFirst(b, c + "-" + d);
    SplitFirst(a, b + "-" + (c + "-" + d));
    DashAssoc(a + "-" + b, c, d);
    DashAssoc(a, b, c + "-" + d);
  }

  lemma SplitName(i: Instrument)
    requires Plain(i.underlying) && Plain(i.expiry)
    ensures Split(InstrumentName(i)) ==
      [i.underlying, i.expiry, Decimal(i.strike), if i.contracts == CALL then "C" else "P"]
  {
    DecimalParses(i.strike);
    SplitFour(i.underlying, i.expiry, Decimal(i.strike), if i.contracts == CALL then "C" else "P");
  }

  lemma NameParses(i: Instrument, supported: set<string>)
    requires Named(i, supported)
    ensures ParseInstruments(InstrumentName(i), supported) ==
      if i.strike < INT64_LIMIT then Ok(i.(strike := Nearest(i.strike))) else Err(InvalidStrikePrice)
  {
    SplitName(i);
    DecimalParses(i.strike);
    var digits := Decimal(i.strike);
    assert digits[0] in digits;
    assert Atoi(digits) == if i.strike < INT64_LIMIT then Some(i.strike) else None;
    CapitalUpper("C");
    CapitalUpper("P");
    CapitalUpper(i.underlying);
    CapitalUpper(i.expiry);
    hide Nearest, Split, Decimal;
  }

  /** Parsing the printed name of an instrument gives the instrument back if and only if its
      strike is a float below 2^63; every strike up to 2^53 is one. */
  lemma NameRoundTrip(i: Instrument, supported: set<string>)
    requires Named(i, supported)
    ensures ParseInstruments(InstrumentName(i), supported) == Ok(i) <==> i.strike < INT64_LIMIT && IsFloat(i.strike)
    ensures i.strike <= FLOAT_DIGITS ==> ParseInstruments(InstrumentName(i), supported) == Ok(i)
  {
    NameParses(i, supported);
    if i.strike <= FLOAT_DIGITS {
      SmallFloat(i.strike);
    }
  }

  /** The strike a name gives, before it is rounded. */
  function StrikeText(s: string): nat {
    var parts := Split(s);
    if |parts| == 4 && Atoi(parts[2]).Some? then Atoi(parts[2]).value else 0
  }

  /** Every name that parses, however it is written, parses to an instrument in capitals with a
      float strike, and printing and parsing that gives it again if and only if the strike of the
      name is not one of the last 512 below 2^63: those round to 2^63, which is then refused. */
  lemma ParsedFixedPoint(s: string, supported: set<string>)
    requires ParseInstruments(s, supported).Ok?
    ensures var i := ParseInstruments(s, supported).instrument;
      && Named(i, supported) && i.strike == Nearest(StrikeText(s)) && IsFloat(i.strike)
      && StrikeText(s) < INT64_LIMIT
      && ParseInstruments(InstrumentName(i), supported) ==
           if StrikeText(s) < INT64_LIMIT - HALF_STEP then Ok(i) else Err(InvalidStrikePrice)
  {
    var parts := Split(s);
    UpperIs(parts[0]);
    UpperIs(parts[1]);
    hide Nearest, Split, ToUpper;
    NearestIsFloat(StrikeText(s));
    RoundsToLimit(StrikeText(s));
    NameParses(ParseInstruments(s, supported).instrument, supported);
  }

  /** The name with the largest strike that parses: the name printed for it does not. */
  lemma LargestStrike(supported: set<string>, expiry: string)
    requires Named(Instrument("BTC", expiry, 0, CALL), supported)
    ensures var last := Instrument("BTC", expiry, INT64_LIMIT - 1, CALL);
      && ParseInstruments(InstrumentName(last), supported) == Ok(last.(strike := INT64_LIMIT))
      && ParseInstruments(InstrumentName(last.(strike := INT64_LIMIT)), supported) == Err(InvalidStrikePrice)
  {
    var last := Instrument("BTC", expiry, INT64_LIMIT - 1, CALL);
    RoundsToLimit(INT64_LIMIT - 1);
    hide ToUpper, Nearest, ParseInstruments, InstrumentName;
    NameParses(last, supported);
    NameParses(last.(strike := INT64_LIMIT), supported);
  }

  /** And a strike that is no float does not come back: 2^53 + 1 is read as 2^53. */
  lemma UnevenStrike(supported: set<string>, expiry: string)
    requires Named(Instrument("BTC", expiry, 0, CALL), supported)
    ensures var i := Instrument("BTC", expiry, FLOAT_DIGITS + 1, CALL);
      ParseInstruments(InstrumentName(i), supported) == Ok(i.(strike := FLOAT_DIGITS))
  {
    var n := FLOAT_DIGITS + 1;
    assert Spacing(n / 2) == 0 && Pow2(1) == 2 * Pow2(0);
    assert n / 2 == FLOAT_DIGITS / 2 && n % 2 == 1 && (FLOAT_DIGITS / 2) % 2 == 0;
    assert Nearest(n) == FLOAT_DIGITS;
    NameParses(Instrument("BTC", expiry, n, CALL), supported);
  }
}
