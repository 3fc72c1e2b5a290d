/** UUID text to sixteen bytes and back, as the generated client does it. */
module WireUuid {
  import opened Prelude

  type Text = Bytes

  const DASH: Byte := 45
  const PLUS: Byte := 43

  // --- hexadecimal digits --------------------------------------------------

  predicate IsHex(c: Byte) {
    48 <= c <= 57 || 97 <= c <= 102 || 65 <= c <= 70
  }

  predicate IsLowerHex(c: Byte) {
    48 <= c <= 57 || 97 <= c <= 102
  }

  function Digit(c: Byte): int
    requires IsHex(c)
  {
    if c <= 57 then c as int - 48 else if c <= 70 then c as int - 55 else c as int - 87
  }

  function Lower(n: int): Byte
    requires 0 <= n < 16
  {
    if n < 10 then (48 + n) as Byte else (87 + n) as Byte
  }

  lemma {:induction false} LowerDigit(n: int, c: Byte)
    requires 0 <= n < 16 && IsLowerHex(c)
    ensures IsLowerHex(Lower(n)) && Digit(Lower(n)) == n && Lower(Digit(c)) == c && 0 <= Digit(c) < 16
  {
  }

  /** The number parser takes two digits, and also a plus sign and one digit. */
  predicate PairOk(a: Byte, b: Byte) {
    IsHex(b) && (IsHex(a) || a == PLUS)
  }

  function PairValue(a: Byte, b: Byte): Byte
    requires PairOk(a, b)
  {
    if a == PLUS then Digit(b) as Byte else (Digit(a) * 16 + Digit(b)) as Byte
  }

  // --- parsing -------------------------------------------------------------

  /** The text without its dashes. */
  function Compact(text: Text): Text {
    if |text| == 0 then []
    else Compact(text[..|text| - 1]) + if text[|text| - 1] == DASH then [] else [text[|text| - 1]]
  }

  predicate PairsOk(compact: Text, n: nat) {
    2 * n <= |compact| && forall k :: 0 <= k < n ==> PairOk(compact[2 * k], compact[2 * k + 1])
  }

  predicate Parses(text: Text) {
    |text| == 36 && |Compact(text)| == 32 && PairsOk(Compact(text), 16)
  }

  function Values(compact: Text, n: nat): (bytes: Bytes)
    requires PairsOk(compact, n)
    ensures |bytes| == n && forall k :: 0 <= k < n ==> bytes[k] == PairValue(compact[2 * k], compact[2 * k + 1])
  {
    seq(n, k requires 0 <= k < n => PairValue(compact[2 * k], compact[2 * k + 1]))
  }

  function Parse(text: Text): (bytes: Bytes)
    requires Parses(text)
    ensures |bytes| == 16
  {
    Values(Compact(text), 16)
  }

  /** Filters the dashes, then reads the rest two bytes at a time. */
  method WireBytes(text: Text) returns (bytes: Option<Bytes>)
    ensures bytes.Some? <==> Parses(text)
    ensures bytes.Some? ==> bytes.value == Parse(text)
  {
    if |text| != 36 {
      return None;
    }
    var compact: Text := [];
    for i := 0 to |text|
      invariant compact == Compact(text[..i])
    {
      assert text[..i + 1][..i] == text[..i];
      if text[i] != DASH {
        compact := compact + [text[i]];
      }
    }
    assert text[..|text|] == text;
    if |compact| != 32 {
      return None;
    }
    var read: Bytes := [];
    for k := 0 to 16
      invariant PairsOk(compact, k) && read == Values(compact, k)
    {
      if !PairOk(compact[2 * k], compact[2 * k + 1]) {
        return None;
      }
      read := read + [PairValue(compact[2 * k], compact[2 * k + 1])];
    }
    return Some(read);
  }

  // --- formatting ----------------------------------------------------------

  predicate Grouped(k: int) {
    k == 4 || k == 6 || k == 8 || k == 10
  }

  /** Where the k-th byte's digits begin, past the dashes before them. */
  function Column(k: nat): nat {
    2 * k + (if k > 4 then 1 else 0) + (if k > 6 then 1 else 0) + (if k > 8 then 1 else 0) + (if k > 10 then 1 else 0)
  }

  function Pair(b: Byte): Text {
    [Lower(b as int / 16), Lower(b as int % 16)]
  }

  /** The dash that closes a group before the k-th byte, if one does. */
  function Gap(k: int): Text {
    if Grouped(k) then [DASH] else []
  }

  /** The text of the first `n` bytes. */
  function Format(bytes: Bytes, n: nat): (text: Text)
    requires n <= |bytes|
    ensures |text| == Column(n)
  {
    if n == 0 then []
    else Format(bytes, n - 1) + Gap(n - 1) + Pair(bytes[n - 1])
  }

  method FormatText(bytes: Bytes) returns (text: Text)
    requires |bytes| == 16
    ensures text == Format(bytes, 16) && |text| == 36
  {
    text := [];
    for k := 0 to 16
      invariant text == Format(bytes, k)
    {
      if Grouped(k) {
        text := text + [DASH];
      }
      text := text + [Lower(bytes[k] as int / 16), Lower(bytes[k] as int % 16)];
    }
  }

  // --- round trips ---------------------------------------------------------

  lemma {:induction false} CompactAppend(a: Text, b: Text)
    ensures Compact(a + b) == Compact(a) + Compact(b)
    decreases |b|
  {
    if b == [] {
      assert a + b == a;
    } else {
      assert (a + b)[..|a + b| - 1] == a + b[..|b| - 1];
      CompactAppend(a, b[..|b| - 1]);
    }
  }

  lemma {:induction false} CompactOne(text: Text)
    requires |text| == 1
    ensures Compact(text) == if text[0] == DASH then [] else text
  {
    assert |text[..0]| == 0;
  }

  lemma {:induction false} CompactTwo(text: Text)
    requires |text| == 2 && text[0] != DASH && text[1] != DASH
    ensures Compact(text) == text
  {
    CompactOne(text[..1]);
  }

  lemma {:induction false} PairParses(b: Byte)
    ensures PairOk(Pair(b)[0], Pair(b)[1]) && PairValue(Pair(b)[0], Pair(b)[1]) == b && Pair(b)[0] != DASH
            && Pair(b)[1] != DASH
  {
    LowerDigit(b as int / 16, 48);
    LowerDigit(b as int % 16, 48);
  }

  lemma {:induction false} CompactFormat(bytes: Bytes, n: nat)
    requires 0 < n <= |bytes|
    ensures Compact(Format(bytes, n)) == Compact(Format(bytes, n - 1)) + Pair(bytes[n - 1])
  {
    var before, gap, pair := Format(bytes, n - 1), Gap(n - 1), Pair(bytes[n - 1]);
    PairParses(bytes[n - 1]);
    CompactTwo(pair);
    CompactAppend(before + gap, pair);
    CompactAppend(before, gap);
    if Grouped(n - 1) {
      CompactOne(gap);
    }
  }

  lemma {:induction false} ValuesAppend(c: Text, n: nat, a: Byte, b: Byte)
    requires |c| == 2 * n && PairsOk(c, n) && PairOk(a, b)
    ensures PairsOk(c + [a, b], n + 1) && Values(c + [a, b], n + 1) == Values(c, n) + [PairValue(a, b)]
  {
  }

  ghost predicate ParsesAs(c: Text, bytes: Bytes) {
    |c| == 2 * |bytes| && PairsOk(c, |bytes|) && Values(c, |bytes|) == bytes
  }

  lemma {:induction false} PairAppend(c: Text, bytes: Bytes, b: Byte)
    requires ParsesAs(c, bytes)
    ensures ParsesAs(c + Pair(b), bytes + [b])
  {
    PairParses(b);
    ValuesAppend(c, |bytes|, Pair(b)[0], Pair(b)[1]);
    assert Pair(b) == [Pair(b)[0], Pair(b)[1]];
  }

  /** What is formatted parses back to the same bytes. */
  lemma {:induction false} FormatParses(bytes: Bytes, n: nat)
    requires n <= |bytes|
    ensures ParsesAs(Compact(Format(bytes, n)), bytes[..n])
    decreases n
  {
    if n > 0 {
      FormatParses(bytes, n - 1);
      CompactFormat(bytes, n);
      PairAppend(Compact(Format(bytes, n - 1)), bytes[..n - 1], bytes[n - 1]);
      assert bytes[..n - 1] + [bytes[n - 1]] == bytes[..n];
    }
  }

  lemma {:induction false} ParseFormat(bytes: Bytes)
    requires |bytes| == 16
    ensures Parses(Format(bytes, 16)) && Parse(Format(bytes, 16)) == bytes
  {
    FormatParses(bytes, 16);
  }

  predicate CanonicalAt(text: Text, i: nat)
    requires i < |text|
  {
    if i == 8 || i == 13 || i == 18 || i == 23 then text[i] == DASH else IsLowerHex(text[i])
  }

  /** The canonical text of section 4 of RFC 9562: lower-case digits, dashes after 8, 12, 16 and 20 of them. */
  predicate Canonical(text: Text) {
    |text| == 36 && forall i :: 0 <= i < 36 ==> CanonicalAt(text, i)
  }

  lemma {:induction false} FormatCanonical(bytes: Bytes, n: nat)
    requires n <= |bytes| && n <= 16
    ensures forall i :: 0 <= i < Column(n) ==> CanonicalAt(Format(bytes, n), i)
    decreases n
  {
    if n > 0 {
      FormatCanonical(bytes, n - 1);
      LowerDigit(bytes[n - 1] as int / 16, 48);
      LowerDigit(bytes[n - 1] as int % 16, 48);
      var before, text := Format(bytes, n - 1), Format(bytes, n);
      forall i | 0 <= i < Column(n)
        ensures CanonicalAt(text, i)
      {
        if i < |before| {
          assert CanonicalAt(before, i) && text[i] == before[i];
        }
      }
    }
  }

  /** The column of the k-th byte's first digit. */
  function Start(k: nat): nat {
    Column(k) + if Grouped(k) then 1 else 0
  }

  function ColumnByte(text: Text, k: nat): Byte
    requires Canonical(text) && k < 16
  {
    assert CanonicalAt(text, Start(k)) && CanonicalAt(text, Start(k) + 1);
    (Digit(text[Start(k)]) * 16 + Digit(text[Start(k) + 1])) as Byte
  }

  lemma {:induction false} ColumnPair(text: Text, k: nat)
    requires Canonical(text) && k < 16
    ensures Start(k) + 2 == Column(k + 1) <= 36 && Pair(ColumnByte(text, k)) == text[Start(k)..Column(k + 1)]
    ensures Grouped(k) ==> text[Column(k)..Start(k)] == [DASH]
  {
    var at := Start(k);
    assert CanonicalAt(text, at) && CanonicalAt(text, at + 1);
    LowerDigit(0, text[at]);
    LowerDigit(0, text[at + 1]);
    if Grouped(k) {
      assert CanonicalAt(text, at - 1);
    }
  }

  /** Reading the canonical columns gives bytes that format back to the text. */
  lemma {:induction false} CanonicalColumns(text: Text, n: nat, bytes: Bytes)
    requires Canonical(text) && n <= 16 && |bytes| == 16
    requires forall k :: 0 <= k < 16 ==> bytes[k] == ColumnByte(text, k)
    ensures Column(n) <= 36 && Format(bytes, n) == text[..Column(n)]
    decreases n
  {
    if n > 0 {
      CanonicalColumns(text, n - 1, bytes);
      ColumnPair(text, n - 1);
      assert text[..Column(n - 1)] + Gap(n - 1) == text[..Start(n - 1)];
      assert text[..Start(n - 1)] + Pair(bytes[n - 1]) == text[..Column(n)];
    }
  }

  lemma {:induction false} CanonicalParses(text: Text)
    requires Canonical(text)
    ensures Parses(text) && Format(Parse(text), 16) == text
  {
    var bytes := seq(16, k requires 0 <= k < 16 => ColumnByte(text, k));
    CanonicalColumns(text, 16, bytes);
    assert text[..36] == text;
    ParseFormat(bytes);
  }

  /** A text survives the trip exactly when it is canonical. */
  lemma {:induction false} FormatParseIff(text: Text)
    requires Parses(text)
    ensures Format(Parse(text), 16) == text <==> Canonical(text)
  {
    if Canonical(text) {
      CanonicalParses(text);
    }
    FormatCanonical(Parse(text), 16);
  }

  lemma {:induction false} CompactHead(text: Text)
    requires |text| > 0 && text[0] != DASH
    ensures Compact(text) == text[..1] + Compact(text[1..])
  {
    CompactOne(text[..1]);
    CompactAppend(text[..1], text[1..]);
    assert text[..1] + text[1..] == text;
  }

  /** The client also accepts texts that do not survive: a plus sign in place of a leading zero, for one. */
  lemma {:induction false} PlusAccepted(text: Text)
    requires Canonical(text) && text[0] == 48
    ensures Parses(text) && Parses(text[0 := PLUS]) && Parse(text[0 := PLUS]) == Parse(text)
            && !Canonical(text[0 := PLUS])
  {
    var other := text[0 := PLUS];
    CanonicalParses(text);
    CompactHead(text);
    CompactHead(other);
    assert other[1..] == text[1..];
    var c, d := Compact(text), Compact(other);
    assert c[0] == 48 && d[0] == PLUS && c[1..] == d[1..];
    forall k | 0 <= k < 16
      ensures PairOk(d[2 * k], d[2 * k + 1]) && PairValue(d[2 * k], d[2 * k + 1]) == PairValue(c[2 * k], c[2 * k + 1])
    {
      assert PairOk(c[2 * k], c[2 * k + 1]);
      assert c[2 * k + 1] == c[1..][2 * k] && d[2 * k + 1] == d[1..][2 * k];
      if k > 0 {
        assert c[2 * k] == c[1..][2 * k - 1] && d[2 * k] == d[1..][2 * k - 1];
      }
    }
    assert Parse(other) == Parse(text);
    assert !CanonicalAt(other, 0);
  }
}
