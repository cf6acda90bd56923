/** Normalization of the input, and the canonical string that is hashed. */
module Fingerprints {
  import opened Domain

  // ---- Normalization -------------------------------------------------------------------------

  /** The white space and line terminators that `String.prototype.trim` removes. */
  predicate IsSpace(u: CodeUnit) {
    || 0x09 <= u <= 0x0D || u == 0x20 || u == 0xA0 || u == 0x1680 || 0x2000 <= u <= 0x200A
    || u == 0x2028 || u == 0x2029 || u == 0x202F || u == 0x205F || u == 0x3000 || u == 0xFEFF
  }

  /** One by one: the 25 white space and line terminator code points of ECMAScript. */
  lemma SpacesAre(u: CodeUnit)
    ensures IsSpace(u) <==> u in {
      0x0009, 0x000A, 0x000B, 0x000C, 0x000D, 0x0020, 0x00A0, 0x1680, 0x2000, 0x2001, 0x2002, 0x2003, 0x2004,
      0x2005, 0x2006, 0x2007, 0x2008, 0x2009, 0x200A, 0x2028, 0x2029, 0x202F, 0x205F, 0x3000, 0xFEFF}
  {}

  function TrimStart(t: Text): Text {
    if t != [] && IsSpace(t[0]) then TrimStart(t[1..]) else t
  }

  function TrimEnd(t: Text): Text {
    if t != [] && IsSpace(t[|t| - 1]) then TrimEnd(t[..|t| - 1]) else t
  }

  function Trim(t: Text): Text {
    TrimEnd(TrimStart(t))
  }

  /** `toUpperCase` on ASCII letters, the only ones a currency may contain. */
  function Upper(u: CodeUnit): CodeUnit {
    if 0x61 <= u <= 0x7A then u - 0x20 else u
  }

  function UpperCase(t: Text): (r: Text)
    ensures |r| == |t|
  {
    seq(|t|, i requires 0 <= i < |t| => Upper(t[i]))
  }

  function Normalize(x: TransactionInput): TransactionInput {
    TransactionInput(x.amount, UpperCase(Trim(x.currency)), Trim(x.description))
  }

  /** Nothing left to trim at either end. */
  predicate Trimmed(t: Text) {
    t == [] || (!IsSpace(t[0]) && !IsSpace(t[|t| - 1]))
  }

  lemma {:induction false} TrimStartShape(t: Text)
    ensures TrimStart(t) == [] || !IsSpace(TrimStart(t)[0])
  {
    if t != [] && IsSpace(t[0]) {
      TrimStartShape(t[1..]);
    }
  }

  lemma {:induction false} TrimEndShape(t: Text)
    requires t == [] || !IsSpace(t[0])
    ensures Trimmed(TrimEnd(t))
  {
    if t != [] && IsSpace(t[|t| - 1]) {
      TrimEndShape(t[..|t| - 1]);
    }
  }

  lemma TrimShape(t: Text)
    ensures Trimmed(Trim(t))
    ensures Trimmed(t) ==> Trim(t) == t
  {
    TrimStartShape(t);
    TrimEndShape(TrimStart(t));
  }

  lemma UpperCaseShape(t: Text)
    ensures Trimmed(t) ==> Trimmed(UpperCase(t))
    ensures UpperCase(UpperCase(t)) == UpperCase(t)
  {}

  lemma NormalizeIsIdempotent(x: TransactionInput)
    ensures Normalize(Normalize(x)) == Normalize(x)
  {
    TrimShape(x.currency);
    TrimShape(x.description);
    UpperCaseShape(Trim(x.currency));
    TrimShape(UpperCase(Trim(x.currency)));
    TrimShape(Trim(x.description));
  }

  predicate AllSpace(t: Text) {
    forall i :: 0 <= i < |t| ==> IsSpace(t[i])
  }

  /** `m` is `t` without the white space around it. */
  ghost predicate TrimsTo(t: Text, m: Text) {
    Trimmed(m) && exists a, b :: AllSpace(a) && AllSpace(b) && t == a + m + b
  }

  lemma {:induction false} TrimStartCuts(t: Text) returns (a: Text)
    ensures AllSpace(a) && t == a + TrimStart(t)
  {
    a := [];
    if t != [] && IsSpace(t[0]) {
      a := TrimStartCuts(t[1..]);
      a := [t[0]] + a;
      assert t == [t[0]] + t[1..];
    }
  }

  lemma {:induction false} TrimEndCuts(t: Text) returns (b: Text)
    ensures AllSpace(b) && t == TrimEnd(t) + b
  {
    b := [];
    if t != [] && IsSpace(t[|t| - 1]) {
      b := TrimEndCuts(t[..|t| - 1]);
      b := b + [t[|t| - 1]];
      assert t == t[..|t| - 1] + [t[|t| - 1]];
    }
  }

  lemma TrimTrims(t: Text)
    ensures TrimsTo(t, Trim(t))
  {
    TrimShape(t);
    var a := TrimStartCuts(t);
    var b := TrimEndCuts(TrimStart(t));
    assert t == a + Trim(t) + b;
  }

  lemma NoSpaceInside(a: Text, m: Text, b: Text, i: nat)
    requires i < |a + m + b| && AllSpace(a) && AllSpace(b)
    ensures !IsSpace((a + m + b)[i]) ==> |a| <= i < |a| + |m|
  {
    var t := a + m + b;
    if i < |a| {
      assert t[i] == a[i];
    } else if i >= |a| + |m| {
      assert t[i] == b[i - |a| - |m|];
    }
  }

  lemma TrimCutsAgree(a: Text, m: Text, b: Text, p: Text, n: Text, q: Text)
    requires AllSpace(a) && AllSpace(b) && AllSpace(p) && AllSpace(q) && a + m + b == p + n + q
    requires Trimmed(m)
    ensures m != [] ==> |p| <= |a| && |a| + |m| <= |p| + |n|
  {
    if m != [] {
      var t := a + m + b;
      assert t[|a|] == m[0] && t[|a| + |m| - 1] == m[|m| - 1];
      NoSpaceInside(p, n, q, |a|);
      NoSpaceInside(p, n, q, |a| + |m| - 1);
    }
  }

  /** There is only one way to trim. */
  lemma TrimIsUnique(t: Text, m: Text, n: Text)
    requires TrimsTo(t, m) && TrimsTo(t, n)
    ensures m == n
  {
    var a, b :| AllSpace(a) && AllSpace(b) && t == a + m + b;
    var p, q :| AllSpace(p) && AllSpace(q) && t == p + n + q;
    TrimCutsAgree(a, m, b, p, n, q);
    TrimCutsAgree(p, n, q, a, m, b);
    assert m == t[|a|..|a| + |m|] && n == t[|p|..|p| + |n|];
  }

  /** One unit and its capital. */
  predicate Capital(u: CodeUnit, v: CodeUnit) {
    v == if 0x61 <= u <= 0x7A then u - 0x20 else u
  }

  /** Nothing but the white space around the texts, and the case of the currency, is given up. */
  lemma NormalizeMeans(x: TransactionInput) returns (currency: Text)
    ensures Normalize(x).amount == x.amount
    ensures TrimsTo(x.description, Normalize(x).description)
    ensures TrimsTo(x.currency, currency) && |Normalize(x).currency| == |currency|
    ensures forall i :: 0 <= i < |currency| ==> Capital(currency[i], Normalize(x).currency[i])
  {
    currency := Trim(x.currency);
    TrimTrims(x.currency);
    TrimTrims(x.description);
  }

  /** The same letters, in whatever case. */
  predicate SameUpToCase(s: Text, t: Text) {
    |s| == |t| && forall i :: 0 <= i < |s| ==>
      || s[i] == t[i]
      || (0x41 <= s[i] <= 0x5A && t[i] == s[i] + 0x20)
      || (0x61 <= s[i] <= 0x7A && t[i] == s[i] - 0x20)
  }

  lemma UpperCaseFolds(s: Text, t: Text)
    ensures UpperCase(s) == UpperCase(t) <==> SameUpToCase(s, t)
  {
    if UpperCase(s) == UpperCase(t) {
      forall i | 0 <= i < |s|
        ensures Upper(s[i]) == Upper(t[i])
      {
        assert UpperCase(s)[i] == UpperCase(t)[i];
      }
    }
  }

  /** Two inputs normalize alike exactly if they agree up to white space around, and case of the currency. */
  lemma NormalizeAgrees(x: TransactionInput, y: TransactionInput,
                        xCurrency: Text, yCurrency: Text, xDescription: Text, yDescription: Text)
    requires TrimsTo(x.currency, xCurrency) && TrimsTo(y.currency, yCurrency)
    requires TrimsTo(x.description, xDescription) && TrimsTo(y.description, yDescription)
    ensures Normalize(x) == Normalize(y) <==>
      x.amount == y.amount && xDescription == yDescription && SameUpToCase(xCurrency, yCurrency)
  {
    TrimTrims(x.currency);
    TrimTrims(y.currency);
    TrimTrims(x.description);
    TrimTrims(y.description);
    TrimIsUnique(x.currency, xCurrency, Trim(x.currency));
    TrimIsUnique(y.currency, yCurrency, Trim(y.currency));
    TrimIsUnique(x.description, xDescription, Trim(x.description));
    TrimIsUnique(y.description, yDescription, Trim(y.description));
    UpperCaseFolds(xCurrency, yCurrency);
  }

  // ---- Numbers -------------------------------------------------------------------------------

  predicate IsDigit(u: CodeUnit) {
    0x30 <= u <= 0x39
  }

  function Decimal(n: nat): (t: Text)
    ensures t != [] && IsDigit(t[0])
  {
    if n < 10 then [0x30 + n] else Decimal(n / 10) + [0x30 + n % 10]
  }

  const MINUS: CodeUnit := 0x2D

  function Number(n: int): Text {
    if n < 0 then [MINUS] + Decimal(-n) else Decimal(n)
  }

  function ReadDigits(t: Text, value: int): (int, Text) {
    if t != [] && IsDigit(t[0]) then ReadDigits(t[1..], 10 * value + (t[0] - 0x30)) else (value, t)
  }

  lemma {:induction false} DecimalReads(n: nat, rest: Text)
    ensures ReadDigits(Decimal(n) + rest, 0) == ReadDigits(rest, n)
  {
    if n < 10 {
      assert (Decimal(n) + rest)[1..] == rest;
    } else {
      var last := [0x30 + n % 10];
      assert Decimal(n) + rest == Decimal(n / 10) + (last + rest);
      DecimalReads(n / 10, last + rest);
      assert (last + rest)[1..] == rest;
    }
  }

  function ReadNumber(t: Text): (int, Text) {
    if t != [] && t[0] == MINUS then
      var (n, rest) := ReadDigits(t[1..], 0);
      (-n, rest)
    else ReadDigits(t, 0)
  }

  lemma NumberReads(n: int, rest: Text)
    requires rest == [] || !IsDigit(rest[0])
    ensures ReadNumber(Number(n) + rest) == (n, rest)
  {
    if n < 0 {
      DecimalReads(-n, rest);
      assert (Number(n) + rest)[1..] == Decimal(-n) + rest;
    } else {
      DecimalReads(n, rest);
    }
  }

  // ---- Strings, escaped as in section 7 of RFC 8259 ------------------------------------------

  const QUOTE: CodeUnit := 0x22
  const BACKSLASH: CodeUnit := 0x5C

  predicate High(u: CodeUnit) {
    0xD800 <= u <= 0xDBFF
  }

  predicate Low(u: CodeUnit) {
    0xDC00 <= u <= 0xDFFF
  }

  function HexDigit(d: nat): CodeUnit
    requires d < 16
  {
    if d < 10 then 0x30 + d else 0x61 + d - 10
  }

  function HexValue(u: CodeUnit): Option<nat> {
    if IsDigit(u) then Some(u - 0x30)
    else if 0x61 <= u <= 0x66 then Some(u - 0x61 + 10)
    else None
  }

  /** Backslash, `u`, and four lower-case hexadecimal digits. */
  function UnicodeEscape(u: CodeUnit): Text {
    [BACKSLASH, 0x75, HexDigit(u / 0x1000), HexDigit(u / 0x100 % 16), HexDigit(u / 0x10 % 16), HexDigit(u % 16)]
  }

  /** The two-character escapes: the letter after the backslash. */
  function ShortEscape(u: CodeUnit): Option<CodeUnit> {
    if u == QUOTE then Some(QUOTE)
    else if u == BACKSLASH then Some(BACKSLASH)
    else if u == 0x08 then Some(0x62)
    else if u == 0x09 then Some(0x74)
    else if u == 0x0A then Some(0x6E)
    else if u == 0x0C then Some(0x66)
    else if u == 0x0D then Some(0x72)
    else None
  }

  function ShortUnescape(u: CodeUnit): Option<CodeUnit> {
    if u == QUOTE then Some(QUOTE)
    else if u == BACKSLASH then Some(BACKSLASH)
    else if u == 0x62 then Some(0x08)
    else if u == 0x74 then Some(0x09)
    else if u == 0x6E then Some(0x0A)
    else if u == 0x66 then Some(0x0C)
    else if u == 0x72 then Some(0x0D)
    else None
  }

  /** The seven two-character escapes of section 7 of RFC 8259 that `JSON.stringify` uses. */
  lemma ShortEscapesAre(u: CodeUnit, v: CodeUnit)
    ensures ShortEscape(u) == Some(v) <==>
      (u, v) in {(0x22, 0x22), (0x5C, 0x5C), (0x08, 0x62), (0x09, 0x74), (0x0A, 0x6E), (0x0C, 0x66), (0x0D, 0x72)}
    ensures ShortUnescape(v) == Some(u) <==> ShortEscape(u) == Some(v)
  {}

  predicate PairAhead(t: Text) {
    |t| > 1 && High(t[0]) && Low(t[1])
  }

  /** How many units the next escape covers: two for a surrogate pair. */
  function Taken(t: Text): nat
    requires t != []
  {
    if PairAhead(t) then 2 else 1
  }

  /** The next escape: lone surrogates and control characters are escaped, pairs are not. */
  function Chunk(t: Text): Text
    requires t != []
  {
    var u := t[0];
    if ShortEscape(u).Some? then [BACKSLASH, ShortEscape(u).value]
    else if PairAhead(t) then t[..2]
    else if u < 0x20 || High(u) || Low(u) then UnicodeEscape(u)
    else [u]
  }

  /** What may stand for itself does: everything but quotes, backslashes, controls and lone surrogates. */
  lemma PlainExactly(t: Text)
    requires t != []
    ensures Chunk(t)[0] != BACKSLASH <==>
      t[0] != QUOTE && t[0] != BACKSLASH && t[0] >= 0x20 && ((High(t[0]) || Low(t[0])) ==> PairAhead(t))
    ensures Chunk(t)[0] != BACKSLASH ==> Chunk(t) == t[..Taken(t)]
  {
    assert t[..1] == [t[0]];
  }

  /** `JSON.stringify` of a string, without its quotes. */
  function Escape(t: Text): Text {
    if t == [] then [] else Chunk(t) + Escape(t[Taken(t)..])
  }

  function Prepend(u: CodeUnit, read: Option<(Text, Text)>): Option<(Text, Text)> {
    match read
    case None => None
    case Some((t, rest)) => Some(([u] + t, rest))
  }

  function ReadHex(t: Text): Option<CodeUnit>
    requires |t| == 4
  {
    var a, b, c, d := HexValue(t[0]), HexValue(t[1]), HexValue(t[2]), HexValue(t[3]);
    if a.Some? && b.Some? && c.Some? && d.Some? && a.value < 16 && b.value < 16 && c.value < 16 && d.value < 16
    then Some(0x1000 * a.value + 0x100 * b.value + 0x10 * c.value + d.value)
    else None
  }

  /** Reads an escaped string up to and including its closing quote. */
  function ReadString(t: Text): Option<(Text, Text)> {
    if t == [] then None
    else if t[0] == QUOTE then Some(([], t[1..]))
    else if t[0] != BACKSLASH then Prepend(t[0], ReadString(t[1..]))
    else if |t| >= 2 && ShortUnescape(t[1]).Some? then Prepend(ShortUnescape(t[1]).value, ReadString(t[2..]))
    else if |t| >= 6 && t[1] == 0x75 && ReadHex(t[2..6]).Some? then
      Prepend(ReadHex(t[2..6]).value, ReadString(t[6..]))
    else None
  }

  lemma HexReads(d: nat)
    requires d < 16
    ensures HexValue(HexDigit(d)) == Some(d)
  {}

  lemma HexDigitsSpell(u: CodeUnit)
    ensures u / 0x1000 < 16
    ensures u == 0x1000 * (u / 0x1000) + 0x100 * (u / 0x100 % 16) + 0x10 * (u / 0x10 % 16) + u % 16
  {
    var x, y := u / 0x10, u / 0x100;
    assert y == x / 0x10 && u / 0x1000 == y / 0x10;
  }

  lemma HexDigitsRead(u: CodeUnit)
    ensures ReadHex(UnicodeEscape(u)[2..6]) == Some(u)
  {
    HexDigitsSpell(u);
    HexReads(u / 0x1000);
    HexReads(u / 0x100 % 16);
    HexReads(u / 0x10 % 16);
    HexReads(u % 16);
  }

  lemma HexEscapeReads(digits: Text, u: CodeUnit, rest: Text)
    requires |digits| == 4 && ReadHex(digits) == Some(u)
    ensures ReadString([BACKSLASH, 0x75] + digits + rest) == Prepend(u, ReadString(rest))
  {
    var t := [BACKSLASH, 0x75] + digits + rest;
    assert t[2..6] == digits;
    assert t[6..] == rest;
  }

  lemma UnicodeEscapeReads(u: CodeUnit, rest: Text)
    ensures ReadString(UnicodeEscape(u) + rest) == Prepend(u, ReadString(rest))
  {
    HexDigitsRead(u);
    var digits := UnicodeEscape(u)[2..6];
    assert UnicodeEscape(u) == [BACKSLASH, 0x75] + digits;
    HexEscapeReads(digits, u, rest);
  }

  lemma ShortEscapeReads(u: CodeUnit, rest: Text)
    requires ShortEscape(u).Some?
    ensures ReadString([BACKSLASH, ShortEscape(u).value] + rest) == Prepend(u, ReadString(rest))
  {
    assert ([BACKSLASH, ShortEscape(u).value] + rest)[2..] == rest;
  }

  lemma PlainReads(u: CodeUnit, rest: Text)
    requires u != QUOTE && u != BACKSLASH
    ensures ReadString([u] + rest) == Prepend(u, ReadString(rest))
  {
    assert ([u] + rest)[1..] == rest;
  }

  function PrependAll(us: Text, read: Option<(Text, Text)>): Option<(Text, Text)> {
    match read
    case None => None
    case Some((t, rest)) => Some((us + t, rest))
  }

  lemma PairReads(t: Text, rest: Text)
    requires PairAhead(t)
    ensures ReadString(t[..2] + rest) == PrependAll(t[..2], ReadString(rest))
  {
    PlainReads(t[1], rest);
    PlainReads(t[0], [t[1]] + rest);
    assert t[..2] + rest == [t[0]] + ([t[1]] + rest);
    if ReadString(rest).Some? {
      assert t[..2] + ReadString(rest).value.0 == [t[0]] + ([t[1]] + ReadString(rest).value.0);
    }
  }

  lemma ChunkReads(t: Text, rest: Text)
    requires t != []
    ensures ReadString(Chunk(t) + rest) == PrependAll(t[..Taken(t)], ReadString(rest))
  {
    var u := t[0];
    if PairAhead(t) {
      PairReads(t, rest);
    } else {
      assert t[..1] == [u];
      if ShortEscape(u).Some? {
        ShortEscapeReads(u, rest);
      } else if u < 0x20 || High(u) || Low(u) {
        UnicodeEscapeReads(u, rest);
      } else {
        PlainReads(u, rest);
      }
    }
  }

  /** Reading undoes escaping, and stops exactly at the closing quote. */
  lemma {:induction false} EscapeReads(t: Text, rest: Text)
    ensures ReadString(Escape(t) + [QUOTE] + rest) == Some((t, rest))
    decreases |t|
  {
    if t == [] {
      assert Escape(t) + [QUOTE] + rest == [QUOTE] + rest;
      assert ([QUOTE] + rest)[1..] == rest;
    } else {
      var next := t[Taken(t)..];
      EscapeReads(next, rest);
      assert Escape(t) + [QUOTE] + rest == Chunk(t) + (Escape(next) + [QUOTE] + rest);
      ChunkReads(t, Escape(next) + [QUOTE] + rest);
      assert t == t[..Taken(t)] + next;
    }
  }

  // ---- The canonical string ------------------------------------------------------------------

  function Units(s: string): (t: Text)
    ensures |t| == |s| && forall i :: 0 <= i < |s| ==> t[i] == (s[i] as int) % 0x1_0000
  {
    seq(|s|, i requires 0 <= i < |s| => (s[i] as int) % 0x1_0000)
  }

  const AMOUNT := Units("{\"amount\":")
  const CURRENCY := Units(",\"currency\":\"")
  const DESCRIPTION := Units(",\"description\":\"")
  const CLOSE := Units("}")

  function Canonical(x: TransactionInput): Text {
    AMOUNT + (Number(x.amount) + (CURRENCY + (Escape(x.currency) + [QUOTE] +
      (DESCRIPTION + (Escape(x.description) + [QUOTE] + CLOSE)))))
  }

  function Strip(t: Text, prefix: Text): Option<Text> {
    if |prefix| <= |t| && t[..|prefix|] == prefix then Some(t[|prefix|..]) else None
  }

  lemma StripAppend(prefix: Text, rest: Text)
    ensures Strip(prefix + rest, prefix) == Some(rest)
  {
    assert (prefix + rest)[..|prefix|] == prefix;
    assert (prefix + rest)[|prefix|..] == rest;
  }

  function ReadText(t: Text, opening: Text): Option<(Text, Text)> {
    match Strip(t, opening)
    case None => None
    case Some(rest) => ReadString(rest)
  }

  /** The inverse of `Canonical`. */
  function ReadCanonical(t: Text): Option<TransactionInput> {
    match Strip(t, AMOUNT)
    case None => None
    case Some(afterAmount) =>
      var (amount, afterNumber) := ReadNumber(afterAmount);
      match ReadText(afterNumber, CURRENCY)
      case None => None
      case Some((currency, afterCurrency)) =>
        match ReadText(afterCurrency, DESCRIPTION)
        case None => None
        case Some((description, end)) =>
          if end == CLOSE then Some(TransactionInput(amount, currency, description)) else None
  }

  lemma CanonicalReads(x: TransactionInput)
    ensures ReadCanonical(Canonical(x)) == Some(x)
  {
    var last := Escape(x.description) + [QUOTE] + CLOSE;
    var middle := Escape(x.currency) + [QUOTE] + (DESCRIPTION + last);
    StripAppend(AMOUNT, Number(x.amount) + (CURRENCY + middle));
    assert (CURRENCY + middle)[0] == 0x2C;
    NumberReads(x.amount, CURRENCY + middle);
    StripAppend(CURRENCY, middle);
    EscapeReads(x.currency, DESCRIPTION + last);
    StripAppend(DESCRIPTION, last);
    EscapeReads(x.description, CLOSE);
  }

  /** Two inputs have the same canonical string exactly when they normalize to the same input. */
  lemma CanonicalIsFaithful(x: TransactionInput, y: TransactionInput)
    ensures Canonical(Normalize(x)) == Canonical(Normalize(y)) <==> Normalize(x) == Normalize(y)
  {
    CanonicalReads(Normalize(x));
    CanonicalReads(Normalize(y));
  }

  /** `createRequestFingerprint`, for whatever digest it is built on. */
  function RequestFingerprint(digest: Text -> Fingerprint, x: TransactionInput): Fingerprint {
    digest(Canonical(Normalize(x)))
  }

  /** Where the digest does not collide, equal fingerprints mean equal normalized payloads. */
  lemma FingerprintIdentifiesPayload(digest: Text -> Fingerprint, x: TransactionInput, y: TransactionInput)
    requires digest(Canonical(Normalize(x))) == digest(Canonical(Normalize(y)))
      ==> Canonical(Normalize(x)) == Canonical(Normalize(y))
    ensures RequestFingerprint(digest, x) == RequestFingerprint(digest, y) <==> Normalize(x) == Normalize(y)
    ensures RequestFingerprint(digest, Normalize(x)) == RequestFingerprint(digest, x)
  {
    CanonicalIsFaithful(x, y);
    NormalizeIsIdempotent(x);
  }

  /**
   * In terms of the inputs: where the digest does not collide, fingerprints agree exactly for equal
   * amounts, equal trimmed descriptions, and trimmed currencies that are equal up to case.
   */
  lemma FingerprintsAgreeExactly(digest: Text -> Fingerprint, x: TransactionInput, y: TransactionInput,
                                 xCurrency: Text, yCurrency: Text, xDescription: Text, yDescription: Text)
    requires TrimsTo(x.currency, xCurrency) && TrimsTo(y.currency, yCurrency)
    requires TrimsTo(x.description, xDescription) && TrimsTo(y.description, yDescription)
    requires digest(Canonical(Normalize(x))) == digest(Canonical(Normalize(y)))
      ==> Canonical(Normalize(x)) == Canonical(Normalize(y))
    ensures RequestFingerprint(digest, x) == RequestFingerprint(digest, y) <==>
      x.amount == y.amount && xDescription == yDescription && SameUpToCase(xCurrency, yCurrency)
  {
    FingerprintIdentifiesPayload(digest, x, y);
    NormalizeAgrees(x, y, xCurrency, yCurrency, xDescription, yDescription);
  }
}
