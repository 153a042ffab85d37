// Numbers as bits, and strings of them regrouped: how base32 is defined in
// section 6 of RFC 4648. Bits are 0 and 1, most significant first.
module Bits {

  predicate AreBits(bits: seq<nat>) {
    forall i | 0 <= i < |bits| :: bits[i] < 2
  }

  function Pow2(w: nat): (p: nat)
    ensures p > 0
  {
    if w == 0 then 1 else 2 * Pow2(w - 1)
  }

  predicate Below(values: seq<nat>, w: nat) {
    forall i | 0 <= i < |values| :: values[i] < Pow2(w)
  }

  function BitsOf(n: nat, w: nat): (bits: seq<nat>)
    ensures |bits| == w && AreBits(bits)
  {
    if w == 0 then [] else BitsOf(n / 2, w - 1) + [n % 2]
  }

  function ValueOf(bits: seq<nat>): nat {
    if bits == [] then 0 else 2 * ValueOf(bits[..|bits| - 1]) + bits[|bits| - 1]
  }

  lemma {:induction false} ValueOfBits(n: nat, w: nat)
    requires n < Pow2(w)
    ensures ValueOf(BitsOf(n, w)) == n
  {
    if w > 0 {
      ValueOfBits(n / 2, w - 1);
      assert BitsOf(n, w)[..w - 1] == BitsOf(n / 2, w - 1);
    }
  }

  lemma {:induction false} BitsOfValue(bits: seq<nat>)
    requires AreBits(bits)
    ensures ValueOf(bits) < Pow2(|bits|) && BitsOf(ValueOf(bits), |bits|) == bits
  {
    if bits != [] {
      var front := bits[..|bits| - 1];
      assert bits == front + [bits[|bits| - 1]];
      BitsOfValue(front);
    }
  }

  // Values written one after another in w bits each.
  function Unpack(values: seq<nat>, w: nat): (bits: seq<nat>)
    ensures |bits| == |values| * w && AreBits(bits)
  {
    if values == [] then [] else BitsOf(values[0], w) + Unpack(values[1..], w)
  }

  function Zeros(n: nat): (zeros: seq<nat>)
    ensures |zeros| == n && forall i | 0 <= i < n :: zeros[i] == 0
  {
    seq(n, i => 0)
  }

  // Bits read w at a time; the last few are filled up with zeros.
  function Pack(bits: seq<nat>, w: nat): seq<nat>
    requires w > 0
    decreases |bits|
  {
    if bits == [] then []
    else if |bits| <= w then [ValueOf(bits + Zeros(w - |bits|))]
    else [ValueOf(bits[..w])] + Pack(bits[w..], w)
  }

  // Reading whole groups undoes writing them,
  lemma {:induction false} PackUnpack(values: seq<nat>, w: nat)
    requires w > 0 && Below(values, w)
    ensures Pack(Unpack(values, w), w) == values
  {
    if values != [] {
      var bits, rest := BitsOf(values[0], w), Unpack(values[1..], w);
      ValueOfBits(values[0], w);
      PackUnpack(values[1..], w);
      assert (bits + rest)[..w] == bits && (bits + rest)[w..] == rest;
      assert bits + Zeros(0) == bits;
      if |values| == 1 {
        assert bits + rest == bits;
      } else {
        assert |rest| == |values[1..]| * w >= w;
      }
    }
  }

  // and writing undoes reading, up to the zeros, of k groups.
  lemma {:induction false} UnpackPack(bits: seq<nat>, w: nat, fill: nat, k: nat)
    requires w > 0 && AreBits(bits) && fill < w && |bits| + fill == k * w
    ensures Unpack(Pack(bits, w), w) == bits + Zeros(fill)
    ensures Below(Pack(bits, w), w)
    decreases k
  {
    if bits == [] {
      FewGroups(k, w);
    } else if |bits| <= w {
      FewGroups(k, w);
      LastGroup(bits, w, fill);
    } else {
      assert (k - 1) * w == k * w - w;
      BitsOfValue(bits[..w]);
      UnpackPack(bits[w..], w, fill, k - 1);
      FirstGroup(ValueOf(bits[..w]), Pack(bits[w..], w), w);
      assert bits[..w] + (bits[w..] + Zeros(fill)) == bits + Zeros(fill);
    }
  }

  lemma FewGroups(k: nat, w: nat)
    requires w > 0
    ensures k * w < w ==> k == 0 && k * w == 0
    ensures w <= k * w < 2 * w ==> k == 1 && k * w == w
  {
    if k >= 2 {
      assert k * w >= 2 * w;
    }
  }

  lemma LastGroup(bits: seq<nat>, w: nat, fill: nat)
    requires bits != [] && AreBits(bits) && |bits| + fill == w
    ensures Unpack(Pack(bits, w), w) == bits + Zeros(fill)
    ensures Below(Pack(bits, w), w)
  {
    var all := bits + Zeros(fill);
    BitsOfValue(all);
    FirstGroup(ValueOf(all), [], w);
    assert all + [] == all;
  }

  lemma FirstGroup(v: nat, rest: seq<nat>, w: nat)
    ensures Unpack([v] + rest, w) == BitsOf(v, w) + Unpack(rest, w)
  {
    assert ([v] + rest)[1..] == rest;
  }

  // Cut between two groups, the parts can be read apart.
  lemma {:induction false} PackParts(a: seq<nat>, b: seq<nat>, k: nat, w: nat)
    requires w > 0 && |a| == k * w && b != []
    ensures Pack(a + b, w) == Pack(a, w) + Pack(b, w)
    decreases k
  {
    if k == 0 {
      assert a + b == b;
    } else {
      assert |a| - w == (k - 1) * w;
      assert (a + b)[..w] == a[..w] && (a + b)[w..] == a[w..] + b;
      PackParts(a[w..], b, k - 1, w);
      if |a| == w {
        assert a + Zeros(0) == a[..w] && a[w..] == [];
      }
    }
  }

  // ----- Order -----

  // Lexicographic order, of sequences of one length.
  predicate Before(a: seq<nat>, b: seq<nat>)
    requires |a| == |b|
  {
    a != [] && (a[0] < b[0] || (a[0] == b[0] && Before(a[1..], b[1..])))
  }

  lemma {:induction false} NotBeforeItself(a: seq<nat>)
    ensures !Before(a, a)
  {
    if a != [] {
      NotBeforeItself(a[1..]);
    }
  }

  lemma {:induction false} BeforeParts(a: seq<nat>, b: seq<nat>, c: seq<nat>, d: seq<nat>)
    requires |a| == |b| && |c| == |d|
    ensures Before(a + c, b + d) <==> Before(a, b) || (a == b && Before(c, d))
  {
    if a == [] {
      assert a + c == c && b + d == d;
    } else {
      BeforeParts(a[1..], b[1..], c, d);
      assert (a + c)[1..] == a[1..] + c && (b + d)[1..] == b[1..] + d;
      assert a == [a[0]] + a[1..] && b == [b[0]] + b[1..];
    }
  }

  lemma {:induction false} ValueOrder(a: seq<nat>, b: seq<nat>)
    requires |a| == |b| && AreBits(a) && AreBits(b)
    ensures ValueOf(a) < ValueOf(b) <==> Before(a, b)
    ensures ValueOf(a) == ValueOf(b) <==> a == b
  {
    if a != [] {
      var n := |a| - 1;
      assert a == a[..n] + [a[n]] && b == b[..n] + [b[n]];
      ValueOrder(a[..n], b[..n]);
      BeforeParts(a[..n], b[..n], [a[n]], [b[n]]);
    }
  }

  // Writing values in bits keeps their order.
  lemma {:induction false} UnpackOrder(a: seq<nat>, b: seq<nat>, w: nat)
    requires |a| == |b| && Below(a, w) && Below(b, w)
    ensures Before(Unpack(a, w), Unpack(b, w)) <==> Before(a, b)
  {
    if a != [] {
      var x, y := BitsOf(a[0], w), BitsOf(b[0], w);
      ValueOfBits(a[0], w);
      ValueOfBits(b[0], w);
      ValueOrder(x, y);
      BeforeParts(x, y, Unpack(a[1..], w), Unpack(b[1..], w));
      UnpackOrder(a[1..], b[1..], w);
    }
  }
}

// Identifiers as the API shows them (server/internal/domain/id.go).
module Ids {
  import opened Wrappers
  import opened Bits

  const ALPHABET: string := "0123456789abcdefghjkmnpqrstvwxyz"
  const ENCODED_ID_LEN: nat := 26

  predicate IsId(id: seq<nat>) {
    |id| == 16 && Below(id, 8)
  }

  // ----- Base32 -----

  predicate InAlphabet(c: char) {
    || '0' <= c <= '9' || 'a' <= c <= 'h' || c == 'j' || c == 'k' || c == 'm' || c == 'n'
    || 'p' <= c <= 't' || 'v' <= c <= 'z'
  }

  function DigitOf(c: char): (digit: nat)
    requires InAlphabet(c)
    ensures digit < 32
  {
    var n := c as int;
    if c <= '9' then n - '0' as int
    else if c <= 'h' then n - 'a' as int + 10
    else if c <= 'k' then n - 'j' as int + 18
    else if c <= 'n' then n - 'm' as int + 20
    else if c <= 't' then n - 'p' as int + 22
    else n - 'v' as int + 27
  }

  // A character's digit is its place in the alphabet, which is in order.
  lemma AlphabetInOrder(c: char, d: char)
    requires InAlphabet(c) && InAlphabet(d)
    ensures DigitOf(c) < |ALPHABET| == 32 && ALPHABET[DigitOf(c)] == c
    ensures DigitOf(c) < DigitOf(d) <==> c < d
  {
  }

  lemma AlphabetPlaces(v: nat)
    requires v < 32
    ensures |ALPHABET| == 32 && InAlphabet(ALPHABET[v]) && DigitOf(ALPHABET[v]) == v
  {
  }

  function Spell(digits: seq<nat>): (s: string)
    requires Below(digits, 5)
    ensures |s| == |digits| && forall i | 0 <= i < |s| :: InAlphabet(s[i]) && DigitOf(s[i]) == digits[i]
  {
    assert Pow2(5) == 32 by { assert Pow2(3) == 8; }
    assert forall i | 0 <= i < |digits| :: digits[i] in digits;
    seq(|digits|, i requires 0 <= i < |digits| => AlphabetPlaces(digits[i]); ALPHABET[digits[i]])
  }

  function Digits(s: string): (digits: seq<nat>)
    requires forall c <- s :: InAlphabet(c)
    ensures |digits| == |s| && Below(digits, 5) && forall i | 0 <= i < |s| :: digits[i] == DigitOf(s[i])
  {
    assert Pow2(5) == 32 by { assert Pow2(3) == 8; }
    seq(|s|, i requires 0 <= i < |s| => DigitOf(s[i]))
  }

  lemma SpellDigits(s: string)
    requires forall c <- s :: InAlphabet(c)
    ensures Spell(Digits(s)) == s
  {
    forall i | 0 <= i < |s| ensures Spell(Digits(s))[i] == s[i] {
      AlphabetInOrder(s[i], s[i]);
      AlphabetInOrder(Spell(Digits(s))[i], s[i]);
    }
  }

  // Unpadded base32: the bytes' bits, five to a digit.
  function Encode(bytes: seq<nat>): string
    requires Below(bytes, 8)
  {
    EncodedBelow(bytes);
    Spell(Pack(Unpack(bytes, 8), 5))
  }

  lemma EncodedBelow(bytes: seq<nat>)
    ensures Below(Pack(Unpack(bytes, 8), 5), 5)
  {
    var bits := Unpack(bytes, 8);
    var fill := (5 - |bits| % 5) % 5;
    UnpackPack(bits, 5, fill, (|bits| + fill) / 5);
  }

  // Line ends inside are dropped before anything is decoded.
  function Stripped(s: string): string {
    if s == "" then ""
    else (if s[0] == '\n' || s[0] == '\r' then "" else [s[0]]) + Stripped(s[1..])
  }

  // The whole bytes in the digits' bits.
  function Decode(s: string): Option<seq<nat>> {
    var t := Stripped(s);
    if forall c <- t :: InAlphabet(c) then
      var bits := Unpack(Digits(t), 5);
      Some(Pack(bits[..|bits| - |bits| % 8], 8))
    else None
  }

  // ----- Identifiers -----

  function FormatID(prefix: string, id: seq<nat>): string
    requires IsId(id)
  {
    prefix + "_" + Encode(id)
  }

  function ParseID(prefix: string, s: string): Option<seq<nat>> {
    var want := prefix + "_";
    if !(want <= s) then None
    else
      var body := s[|want|..];
      if |body| != ENCODED_ID_LEN then None
      else
        var raw := Decode(body);
        if raw.None? || |raw.value| != 16 then None else raw
  }

  // ----- What parses -----

  lemma {:induction false} StrippedSame(s: string)
    ensures |Stripped(s)| <= |s|
    ensures |Stripped(s)| == |s| <==> Stripped(s) == s
    ensures (forall c <- s :: InAlphabet(c)) ==> Stripped(s) == s
  {
    if s != "" {
      StrippedSame(s[1..]);
      assert s == [s[0]] + s[1..];
      if forall c <- s :: InAlphabet(c) {
        assert InAlphabet(s[0]);
      }
    }
  }

  lemma {:induction false} PackedLength(bits: seq<nat>, k: nat)
    requires |bits| == 8 * k
    ensures |Pack(bits, 8)| == k
    decreases k
  {
    if k > 1 {
      PackedLength(bits[8..], k - 1);
    }
  }

  // Decoding gives sixteen bytes for twenty-six characters of the alphabet,
  // and for no others of that length: a line end dropped leaves too few.
  lemma DecodesSixteen(body: string)
    requires |body| == ENCODED_ID_LEN
    ensures (Decode(body).Some? && |Decode(body).value| == 16) <==> forall c <- body :: InAlphabet(c)
  {
    StrippedSame(body);
    var t := Stripped(body);
    if forall c <- t :: InAlphabet(c) {
      var bits := Unpack(Digits(t), 5);
      PackedLength(bits[..|bits| - |bits| % 8], |bits| / 8);
    }
  }

  // An identifier is accepted exactly when it is the prefix wanted, an
  // underscore, and twenty-six digits and small letters, none of them i, l, o
  // or u.
  lemma AcceptedExactly(prefix: string, s: string)
    ensures ParseID(prefix, s).Some? <==>
            && prefix + "_" <= s && |s| == |prefix| + 1 + 26
            && forall i | |prefix| + 1 <= i < |s| ::
                 ('0' <= s[i] <= '9' || 'a' <= s[i] <= 'z') && s[i] !in "ilou"
  {
    if prefix + "_" <= s && |s| == |prefix| + 1 + ENCODED_ID_LEN {
      var body := s[|prefix| + 1..];
      DecodesSixteen(body);
      forall c ensures InAlphabet(c) <==> ('0' <= c <= '9' || 'a' <= c <= 'z') && c !in "ilou" {
        LettersLeftOut(c);
      }
      assert forall i | |prefix| + 1 <= i < |s| :: s[i] == body[i - |prefix| - 1];
      if forall i | |prefix| + 1 <= i < |s| :: InAlphabet(s[i]) {
        forall c | c in body ensures InAlphabet(c) {
          var k :| 0 <= k < |body| && body[k] == c;
          assert s[|prefix| + 1 + k] == c;
        }
      } else {
        var i :| |prefix| + 1 <= i < |s| && !InAlphabet(s[i]);
        assert s[i] in body;
      }
    }
  }

  lemma LettersLeftOut(c: char)
    ensures InAlphabet(c) <==> ('0' <= c <= '9' || 'a' <= c <= 'z') && c !in "ilou"
  {
  }

  // ----- There and back -----

  lemma EncodedBits(id: seq<nat>)
    requires IsId(id)
    ensures var digits := Pack(Unpack(id, 8), 5);
            |digits| == 26 && Unpack(digits, 5) == Unpack(id, 8) + Zeros(2)
  {
    var bits := Unpack(id, 8);
    EncodedBelow(id);
    UnpackPack(bits, 5, 2, 26);
  }

  lemma EncodeWellFormed(id: seq<nat>)
    requires IsId(id)
    ensures |Encode(id)| == ENCODED_ID_LEN && forall c <- Encode(id) :: InAlphabet(c)
    ensures Digits(Encode(id)) == Pack(Unpack(id, 8), 5)
  {
    EncodedBits(id);
  }

  // Parsing undoes formatting, for every identifier and prefix; and an
  // identifier formatted with one prefix is refused for every other.
  lemma ParseUndoesFormat(prefix: string, other: string, id: seq<nat>)
    requires IsId(id)
    ensures ParseID(other, FormatID(prefix, id)) == if other == prefix then Some(id) else None
  {
    var s := FormatID(prefix, id);
    EncodeWellFormed(id);
    if other == prefix {
      assert s[|prefix| + 1..] == Encode(id);
      DecodeEncoded(id);
    } else if |other| == |prefix| {
      OtherPrefix(prefix, other, Encode(id));
    }
  }

  lemma OtherPrefix(prefix: string, other: string, rest: string)
    requires |other| == |prefix| && other != prefix
    ensures !(other + "_" <= prefix + "_" + rest)
  {
    var i :| 0 <= i < |prefix| && prefix[i] != other[i];
    assert (other + "_")[i] == other[i] && (prefix + "_" + rest)[i] == prefix[i];
  }

  lemma DecodeEncoded(id: seq<nat>)
    requires IsId(id)
    ensures Decode(Encode(id)) == Some(id)
  {
    EncodeWellFormed(id);
    StrippedSame(Encode(id));
    EncodedBits(id);
    var bits := Unpack(Digits(Encode(id)), 5);
    assert bits[..128] == Unpack(id, 8);
    PackUnpack(id, 8);
  }

  // The digits an accepted body comes back as: the last one loses the two
  // bits that no byte holds.
  function Canonical(digits: seq<nat>): seq<nat>
    requires |digits| == 26
  {
    digits[..25] + [digits[25] / 4 * 4]
  }

  lemma LastDigit(v: nat)
    requires v < 32
    ensures ValueOf(BitsOf(v, 5)[..3] + Zeros(2)) == v / 4 * 4
  {
    var top := BitsOf(v / 4, 3);
    assert BitsOf(v, 5) == top + [v / 2 % 2] + [v % 2] by {
      assert BitsOf(v / 2, 4) == BitsOf(v / 2 / 2, 3) + [v / 2 % 2];
      assert v / 2 / 2 == v / 4;
    }
    assert BitsOf(v, 5)[..3] == top;
    var padded := top + Zeros(2);
    assert padded[..4] == top + [0] && padded[..4][..3] == top;
    assert ValueOf(padded) == 2 * ValueOf(padded[..4]);
    assert ValueOf(padded[..4]) == 2 * ValueOf(top);
    assert Pow2(3) == 8;
    ValueOfBits(v / 4, 3);
  }

  lemma Reencoded(digits: seq<nat>)
    requires |digits| == 26 && Below(digits, 5)
    ensures var bits := Unpack(digits, 5);
            |bits| == 130 && Pack(bits[..128], 5) == Canonical(digits)
  {
    assert Pow2(5) == 32 by { assert Pow2(3) == 8; }
    var front := digits[..25];
    assert digits[25] in digits;
    UnpackLast(digits);
    var bits, most := Unpack(digits, 5), Unpack(front, 5);
    var last := BitsOf(digits[25], 5);
    assert bits[..128] == most + last[..3];
    assert forall v <- front :: v in digits;
    PackUnpack(front, 5);
    PackParts(most, last[..3], 25, 5);
    LastDigit(digits[25]);
  }

  lemma {:induction false} UnpackLast(values: seq<nat>)
    requires values != []
    ensures Unpack(values, 5) == Unpack(values[..|values| - 1], 5) + BitsOf(values[|values| - 1], 5)
  {
    if |values| > 1 {
      UnpackLast(values[1..]);
      assert values[1..][..|values| - 2] == values[..|values| - 1][1..];
    }
  }

  lemma ParsedFormat(prefix: string, s: string)
    requires ParseID(prefix, s).Some?
    ensures var body := s[|prefix| + 1..];
            var id := ParseID(prefix, s).value;
            && IsId(id) && |body| == 26 && (forall c <- body :: InAlphabet(c))
            && FormatID(prefix, id) == prefix + "_" + Encode(id)
            && Digits(Encode(id)) == Canonical(Digits(body))
  {
    AcceptedExactly(prefix, s);
    var body := s[|prefix| + 1..];
    StrippedSame(body);
    var bits := Unpack(Digits(body), 5);
    var id := ParseID(prefix, s).value;
    assert id == Pack(bits[..128], 8);
    UnpackPack(bits[..128], 8, 0, 16);
    assert bits[..128] + Zeros(0) == bits[..128];
    EncodeWellFormed(id);
    Reencoded(Digits(body));
  }

  lemma CanonicalFixed(digits: seq<nat>)
    requires |digits| == 26
    ensures Canonical(digits) == digits <==> digits[25] % 4 == 0
  {
    assert Canonical(digits)[25] == digits[25] / 4 * 4;
    assert digits == digits[..25] + [digits[25]];
  }

  lemma DigitsDecide(a: string, b: string)
    requires (forall c <- a :: InAlphabet(c)) && forall c <- b :: InAlphabet(c)
    ensures a == b <==> Digits(a) == Digits(b)
  {
    SpellDigits(a);
    SpellDigits(b);
  }

  // Formatting undoes parsing only for the spelling formatting itself uses,
  // the one whose last digit is a multiple of four;
  lemma FormatUndoesParse(prefix: string, s: string)
    requires ParseID(prefix, s).Some?
    ensures ParsesWhole(s) && IsId(ParseID(prefix, s).value)
    ensures FormatID(prefix, ParseID(prefix, s).value) == s <==> DigitOf(s[|s| - 1]) % 4 == 0
  {
    AcceptedExactly(prefix, s);
    ParsedFormat(prefix, s);
    var head := prefix + "_";
    var body, id := s[|head|..], ParseID(prefix, s).value;
    assert s == head + body;
    EncodeWellFormed(id);
    DigitsDecide(Encode(id), body);
    CanonicalFixed(Digits(body));
    assert body[25] == s[|s| - 1] && body[25] in body;
    assert (head + Encode(id))[|head|..] == Encode(id);
  }

  predicate ParsesWhole(s: string) {
    s != "" && InAlphabet(s[|s| - 1])
  }

  // so every identifier has exactly four spellings, alike but for the last
  // two bits.
  lemma FourSpellings(prefix: string, s: string, t: string)
    requires ParseID(prefix, s).Some? && ParseID(prefix, t).Some?
    ensures |s| == |t| && ParsesWhole(s) && ParsesWhole(t)
    ensures ParseID(prefix, s) == ParseID(prefix, t) <==>
            s[..|s| - 1] == t[..|t| - 1] && DigitOf(s[|s| - 1]) / 4 == DigitOf(t[|t| - 1]) / 4
  {
    FormatUndoesParse(prefix, s);
    FormatUndoesParse(prefix, t);
    ParsedFormat(prefix, s);
    ParsedFormat(prefix, t);
    AcceptedExactly(prefix, s);
    AcceptedExactly(prefix, t);
    var p := |prefix| + 1;
    SameWhenDigitsAre(ParseID(prefix, s).value, ParseID(prefix, t).value);
    CanonicalSame(s[p..], t[p..]);
    SameUpToLast(prefix + "_", s, t);
  }

  lemma SameWhenDigitsAre(x: seq<nat>, y: seq<nat>)
    requires IsId(x) && IsId(y)
    ensures x == y <==> Pack(Unpack(x, 8), 5) == Pack(Unpack(y, 8), 5)
    ensures forall c <- Encode(x) :: InAlphabet(c)
    ensures forall c <- Encode(y) :: InAlphabet(c)
    ensures Digits(Encode(x)) == Pack(Unpack(x, 8), 5) && Digits(Encode(y)) == Pack(Unpack(y, 8), 5)
  {
    EncodeWellFormed(x);
    EncodeWellFormed(y);
    DecodeEncoded(x);
    DecodeEncoded(y);
  }

  lemma SameUpToLast(head: string, s: string, t: string)
    requires |s| == |t| == |head| + 26 && head <= s && head <= t
    ensures s[..|s| - 1] == t[..|t| - 1] <==> s[|head|..][..25] == t[|head|..][..25]
    ensures s[|head|..][25] == s[|s| - 1] && t[|head|..][25] == t[|t| - 1]
  {
    var n := |s| - 1;
    assert s[..n] == head + s[|head|..][..25] && t[..n] == head + t[|head|..][..25];
    assert s[..n][|head|..] == s[|head|..][..25] && t[..n][|head|..] == t[|head|..][..25];
  }

  lemma CanonicalSame(a: string, b: string)
    requires |a| == |b| == 26 && (forall c <- a :: InAlphabet(c)) && (forall c <- b :: InAlphabet(c))
    ensures Canonical(Digits(a)) == Canonical(Digits(b)) <==>
            a[..25] == b[..25] && DigitOf(a[25]) / 4 == DigitOf(b[25]) / 4
  {
    var x, y := Digits(a), Digits(b);
    if Canonical(x) == Canonical(y) {
      assert Canonical(x)[25] == Canonical(y)[25];
      forall i | 0 <= i < 25 ensures a[i] == b[i] {
        assert Canonical(x)[i] == Canonical(y)[i];
        AlphabetInOrder(a[i], b[i]);
        AlphabetInOrder(b[i], a[i]);
      }
    }
    if a[..25] == b[..25] && DigitOf(a[25]) / 4 == DigitOf(b[25]) / 4 {
      forall i | 0 <= i < 25 ensures x[i] == y[i] {
        assert a[i] == a[..25][i];
      }
      assert x[..25] == y[..25];
    }
  }

  // ----- Order -----

  function Codes(s: string): (codes: seq<nat>)
    ensures |codes| == |s|
  {
    seq(|s|, i requires 0 <= i < |s| => s[i] as int)
  }

  lemma {:induction false} SpellingOrder(a: string, b: string)
    requires |a| == |b| && (forall c <- a :: InAlphabet(c)) && (forall c <- b :: InAlphabet(c))
    ensures Before(Codes(a), Codes(b)) <==> Before(Digits(a), Digits(b))
  {
    if a != "" {
      AlphabetInOrder(a[0], b[0]);
      AlphabetInOrder(b[0], a[0]);
      SpellingOrder(a[1..], b[1..]);
      assert Codes(a)[1..] == Codes(a[1..]) && Codes(b)[1..] == Codes(b[1..]);
      assert Digits(a)[1..] == Digits(a[1..]) && Digits(b)[1..] == Digits(b[1..]);
    }
  }

  lemma EncodedOrder(x: seq<nat>, y: seq<nat>)
    requires IsId(x) && IsId(y)
    ensures |Encode(x)| == |Encode(y)| == ENCODED_ID_LEN
    ensures Before(Codes(Encode(x)), Codes(Encode(y))) <==> Before(x, y)
  {
    EncodeWellFormed(x);
    EncodeWellFormed(y);
    SpellingOrder(Encode(x), Encode(y));
    EncodedBits(x);
    EncodedBits(y);
    UnpackOrder(Digits(Encode(x)), Digits(Encode(y)), 5);
    BeforeParts(Unpack(x, 8), Unpack(y, 8), Zeros(2), Zeros(2));
    NotBeforeItself(Zeros(2));
    UnpackOrder(x, y, 8);
  }

  // Formatted identifiers of one kind compare as strings exactly as their
  // bytes do: since the bytes begin with the time, by when they were made.
  lemma StringsSortAsBytes(prefix: string, x: seq<nat>, y: seq<nat>)
    requires IsId(x) && IsId(y)
    ensures |FormatID(prefix, x)| == |FormatID(prefix, y)|
    ensures Before(Codes(FormatID(prefix, x)), Codes(FormatID(prefix, y))) <==> Before(x, y)
  {
    EncodedOrder(x, y);
    var head := Codes(prefix + "_");
    assert Codes(FormatID(prefix, x)) == head + Codes(Encode(x));
    assert Codes(FormatID(prefix, y)) == head + Codes(Encode(y));
    BeforeParts(head, head, Codes(Encode(x)), Codes(Encode(y)));
    NotBeforeItself(head);
  }
}
