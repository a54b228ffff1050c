/** The command line's own base64 encoder, against section 4 of RFC 4648. */
module Base64 {
  import opened Wrappers

  const UPPER := "ABCDEFGHIJKLMNOPQRSTUVWXYZ"
  const LOWER := "abcdefghijklmnopqrstuvwxyz"
  const DIGITS := "0123456789"
  const TABLE := UPPER + LOWER + DIGITS + "+/"

  /******* Characters and the six bits they stand for *******/

  function Letter(x: bv6): (c: char)
    ensures ValueOf(c) == Some(x) && c != '='
  {
    TableAt(x as int);
    TABLE[x as int]
  }

  // Where a character stands in the alphabet.
  function IndexOf(c: char): Option<nat> {
    if 'A' <= c <= 'Z' then Some(c as int - 'A' as int)
    else if 'a' <= c <= 'z' then Some(c as int - 'a' as int + 26)
    else if '0' <= c <= '9' then Some(c as int - '0' as int + 52)
    else if c == '+' then Some(62)
    else if c == '/' then Some(63)
    else None
  }

  function ValueOf(c: char): Option<bv6> {
    if IndexOf(c).Some? then Some(IndexOf(c).value as bv6) else None
  }

  lemma TableAt(i: nat)
    requires i < 64
    ensures IndexOf(TABLE[i]) == Some(i)
  {
    TableCode(i);
    if i < 62 {
      IndexInRange(TABLE[i], i);
    }
  }

  lemma TableCode(i: nat)
    requires i < 64
    ensures |TABLE| == 64
    ensures i < 62 ==>
              TABLE[i] as int ==
                if i < 26 then 'A' as int + i else if i < 52 then 'a' as int + i - 26 else '0' as int + i - 52
    ensures i >= 62 ==> TABLE[i] == if i == 62 then '+' else '/'
  {
    TableIsThePart(i);
    if i < 26 {
      UpperAt(i);
    } else if i < 52 {
      LowerAt(i - 26);
    } else if i < 62 {
      DigitAt(i - 52);
    }
  }

  lemma IndexInRange(c: char, i: nat)
    requires i < 62
    requires c as int == if i < 26 then 'A' as int + i else if i < 52 then 'a' as int + i - 26 else '0' as int + i - 52
    ensures IndexOf(c) == Some(i)
  {
  }

  lemma TableIsThePart(i: nat)
    requires i < 64
    ensures |UPPER| == |LOWER| == 26 && |DIGITS| == 10 && |TABLE| == 64
    ensures TABLE[i] == if i < 26 then UPPER[i] else if i < 52 then LOWER[i - 26] else if i < 62 then DIGITS[i - 52]
                        else if i == 62 then '+' else '/'
  {
    Parts(UPPER, LOWER, DIGITS, "+/", i);
  }

  lemma Parts(a: string, b: string, c: string, d: string, i: nat)
    requires i < |a| + |b| + |c| + |d|
    ensures (a + b + c + d)[i] ==
              if i < |a| then a[i] else if i < |a| + |b| then b[i - |a|]
              else if i < |a| + |b| + |c| then c[i - |a| - |b|] else d[i - |a| - |b| - |c|]
  {
  }

  lemma UpperAt(i: nat)
    requires i < 26
    ensures UPPER[i] as int == 'A' as int + i
  {
  }

  lemma LowerAt(i: nat)
    requires i < 26
    ensures LOWER[i] as int == 'a' as int + i
  {
  }

  lemma DigitAt(i: nat)
    requires i < 10
    ensures DIGITS[i] as int == '0' as int + i
  {
  }

  function Letters(x: seq<bv6>): (r: string)
    ensures |r| == |x| && forall i :: 0 <= i < |r| ==> r[i] != '='
  {
    if x == [] then "" else Letters(x[..|x| - 1]) + [Letter(x[|x| - 1])]
  }

  function Values(s: string): Option<seq<bv6>> {
    if s == "" then Some([])
    else
      var front, last := Values(s[..|s| - 1]), ValueOf(s[|s| - 1]);
      if front.None? || last.None? then None else Some(front.value + [last.value])
  }

  lemma ValuesSnoc(front: string, c: char)
    requires Values(front).Some? && ValueOf(c).Some?
    ensures Values(front + [c]) == Some(Values(front).value + [ValueOf(c).value])
  {
    assert (front + [c])[..|front|] == front;
  }

  lemma {:induction false} ValuesOfLetters(x: seq<bv6>)
    ensures Values(Letters(x)) == Some(x)
  {
    if x != [] {
      var front, last := x[..|x| - 1], x[|x| - 1];
      ValuesOfLetters(front);
      ValuesSnoc(Letters(front), Letter(last));
      assert x == front + [last];
    }
  }

  lemma {:induction false} LettersJoin(x: seq<bv6>, y: seq<bv6>)
    ensures Letters(x + y) == Letters(x) + Letters(y)
    decreases |y|
  {
    if y == [] {
      assert x + y == x;
    } else {
      var front := y[..|y| - 1];
      assert (x + y)[..|x + y| - 1] == x + front;
      LettersJoin(x, front);
    }
  }

  /******* Octets and groups of six bits *******/

  function Group(a: bv8, b: bv8, c: bv8): bv32 {
    ((a as bv32) << 16) | ((b as bv32) << 8) | (c as bv32)
  }

  function Sextet(v: bv32, k: nat): bv6
    requires k < 4
  {
    if k == 0 then ((v >> 18) & 0x3F) as bv6
    else if k == 1 then ((v >> 12) & 0x3F) as bv6
    else if k == 2 then ((v >> 6) & 0x3F) as bv6
    else (v & 0x3F) as bv6
  }

  // Missing octets are filled up with zeros, and groups made of nothing else left out.
  function Sextets(b: seq<bv8>): seq<bv6> {
    if |b| == 0 then []
    else if |b| == 1 then var v := Group(b[0], 0, 0); [Sextet(v, 0), Sextet(v, 1)]
    else if |b| == 2 then var v := Group(b[0], b[1], 0); [Sextet(v, 0), Sextet(v, 1), Sextet(v, 2)]
    else Quantum(b[0], b[1], b[2]) + Sextets(b[3..])
  }

  function Quantum(a: bv8, b: bv8, c: bv8): (r: seq<bv6>)
    ensures |r| == 4
  {
    var v := Group(a, b, c);
    [Sextet(v, 0), Sextet(v, 1), Sextet(v, 2), Sextet(v, 3)]
  }

  function Join(a: bv6, b: bv6, c: bv6, d: bv6): bv32 {
    ((a as bv32) << 18) | ((b as bv32) << 12) | ((c as bv32) << 6) | (d as bv32)
  }

  function Octet(v: bv32, k: nat): bv8
    requires k < 3
  {
    if k == 0 then ((v >> 16) & 0xFF) as bv8
    else if k == 1 then ((v >> 8) & 0xFF) as bv8
    else (v & 0xFF) as bv8
  }

  // The octets in groups of six bits; bits left over at the end must be zero.
  function Octets(x: seq<bv6>): Option<seq<bv8>> {
    if |x| == 0 then Some([])
    else if |x| == 1 then None
    else if |x| == 2 then
      if x[1] & 0xF == 0 then Some([Octet(Join(x[0], x[1], 0, 0), 0)]) else None
    else if |x| == 3 then
      var v := Join(x[0], x[1], x[2], 0);
      if x[2] & 3 == 0 then Some([Octet(v, 0), Octet(v, 1)]) else None
    else
      var v, rest := Join(x[0], x[1], x[2], x[3]), Octets(x[4..]);
      if rest.None? then None else Some([Octet(v, 0), Octet(v, 1), Octet(v, 2)] + rest.value)
  }

  lemma SplitAndJoin(a: bv8, b: bv8, c: bv8)
    ensures var v := Group(a, b, c);
            && Join(Sextet(v, 0), Sextet(v, 1), Sextet(v, 2), Sextet(v, 3)) == v
            && Octet(v, 0) == a && Octet(v, 1) == b && Octet(v, 2) == c
            && (c == 0 ==> Sextet(v, 3) == 0 && Sextet(v, 2) & 3 == 0)
            && (b == 0 && c == 0 ==> Sextet(v, 2) == 0 && Sextet(v, 1) & 0xF == 0)
  {
  }

  lemma {:induction false} OctetsOfSextets(b: seq<bv8>)
    ensures Octets(Sextets(b)) == Some(b)
  {
    if |b| == 1 {
      SplitAndJoin(b[0], 0, 0);
      assert b == [b[0]];
    } else if |b| == 2 {
      SplitAndJoin(b[0], b[1], 0);
      assert b == [b[0], b[1]];
    } else if |b| > 2 {
      SplitAndJoin(b[0], b[1], b[2]);
      OctetsOfSextets(b[3..]);
      var head := Quantum(b[0], b[1], b[2]);
      assert (head + Sextets(b[3..]))[4..] == Sextets(b[3..]);
      assert b == [b[0], b[1], b[2]] + b[3..];
    }
  }

  lemma {:induction false} SextetCount(b: seq<bv8>)
    ensures |Sextets(b)| + PadOf(|b|) == 4 * ((|b| + 2) / 3)
  {
    if |b| > 2 {
      SextetCount(b[3..]);
      assert |Sextets(b)| == 4 + |Sextets(b[3..])|;
      AnotherThree(|b| - 3);
    }
  }

  lemma AnotherThree(n: nat)
    ensures PadOf(n + 3) == PadOf(n) && (n + 3 + 2) / 3 == (n + 2) / 3 + 1
  {
  }

  /******* The encoding *******/

  function PadOf(n: nat): nat {
    (3 - n % 3) % 3
  }

  function Pad(n: nat): (r: string)
    ensures |r| == n && forall i :: 0 <= i < n ==> r[i] == '='
  {
    if n == 0 then "" else Pad(n - 1) + "="
  }

  function Encode(b: seq<bv8>): string {
    Letters(Sextets(b)) + Pad(PadOf(|b|))
  }

  // As many '=' as fill the last four characters up, no more than two.
  function PadIn(s: string): nat {
    if |s| > 0 && s[|s| - 1] == '=' then
      if |s| > 1 && s[|s| - 2] == '=' then 2 else 1
    else 0
  }

  function Decode(s: string): Option<seq<bv8>> {
    if |s| % 4 != 0 then None
    else
      var x := Values(s[..|s| - PadIn(s)]);
      if x.None? then None else Octets(x.value)
  }

  lemma PadFound(letters: string, n: nat)
    requires n <= 2 && forall i :: 0 <= i < |letters| ==> letters[i] != '='
    ensures PadIn(letters + Pad(n)) == n
  {
  }

  lemma SextetsFill(b: seq<bv8>)
    ensures (|Sextets(b)| + PadOf(|b|)) % 4 == 0
  {
    SextetCount(b);
  }

  lemma RoundTrip(b: seq<bv8>)
    ensures Decode(Encode(b)) == Some(b)
  {
    var x, n := Sextets(b), PadOf(|b|);
    SextetsFill(b);
    ValuesOfLetters(x);
    PadFound(Letters(x), n);
    DecodeLetters(x, n);
    OctetsOfSextets(b);
  }

  lemma DecodeLetters(x: seq<bv6>, n: nat)
    requires Values(Letters(x)) == Some(x) && PadIn(Letters(x) + Pad(n)) == n && (|x| + n) % 4 == 0
    ensures Decode(Letters(x) + Pad(n)) == Octets(x)
  {
    var s := Letters(x) + Pad(n);
    assert s[..|s| - n] == Letters(x);
  }

  lemma CharacterAtIndex(c: char)
    requires IndexOf(c).Some?
    ensures IndexOf(c).value < 64 && TABLE[IndexOf(c).value] == c
  {
    if 'A' <= c <= 'Z' {
      UpperAt(IndexOf(c).value);
    } else if 'a' <= c <= 'z' {
      LowerAt(IndexOf(c).value - 26);
    } else if '0' <= c <= '9' {
      DigitAt(IndexOf(c).value - 52);
    }
  }

  lemma BitsOfIndex(i: nat)
    requires i < 64
    ensures (i as bv6) as int == i
  {
  }

  lemma LetterOfValue(c: char)
    requires ValueOf(c).Some?
    ensures Letter(ValueOf(c).value) == c
  {
    var i := IndexOf(c).value;
    CharacterAtIndex(c);
    BitsOfIndex(i);
    LetterAt(i);
  }

  lemma LetterAt(i: nat)
    requires i < 64 && (i as bv6) as int == i
    ensures Letter(i as bv6) == TABLE[i]
  {
    var x := i as bv6;
    assert Letter(x) == TABLE[x as int];
  }

  lemma {:induction false} LettersOfValues(s: string)
    requires Values(s).Some?
    ensures Letters(Values(s).value) == s && |Values(s).value| == |s|
  {
    if s != "" {
      LettersOfValues(s[..|s| - 1]);
      LetterOfValue(s[|s| - 1]);
      var front := Values(s[..|s| - 1]).value;
      assert (front + [ValueOf(s[|s| - 1]).value])[..|front|] == front;
    }
  }

  lemma JoinAndSplit(a: bv6, b: bv6, c: bv6, d: bv6)
    ensures var v := Join(a, b, c, d);
            && Quantum(Octet(v, 0), Octet(v, 1), Octet(v, 2)) == [a, b, c, d]
            && (b & 0xF == 0 && c == 0 && d == 0 ==> Octet(v, 1) == 0 && Octet(v, 2) == 0)
            && (c & 3 == 0 && d == 0 ==> Octet(v, 2) == 0)
  {
  }

  lemma {:induction false} SextetsOfOctets(x: seq<bv6>)
    requires Octets(x).Some?
    ensures Sextets(Octets(x).value) == x
  {
    if |x| == 2 {
      JoinAndSplit(x[0], x[1], 0, 0);
    } else if |x| == 3 {
      JoinAndSplit(x[0], x[1], x[2], 0);
    } else if |x| > 3 {
      JoinAndSplit(x[0], x[1], x[2], x[3]);
      SextetsOfOctets(x[4..]);
      var v, rest := Join(x[0], x[1], x[2], x[3]), Octets(x[4..]).value;
      var octets := [Octet(v, 0), Octet(v, 1), Octet(v, 2)];
      assert (octets + rest)[3..] == rest;
      assert x == x[..4] + x[4..];
    }
  }

  lemma {:induction false} OctetCount(x: seq<bv6>)
    requires Octets(x).Some?
    ensures |x| % 4 == (4 - PadOf(|Octets(x).value|)) % 4
  {
    if |x| > 3 {
      var rest := x[4..];
      OctetCount(rest);
      assert |Octets(x).value| == 3 + |Octets(rest).value|;
      AnotherFour(|rest|, |Octets(rest).value|);
    }
  }

  lemma AnotherFour(length: nat, octets: nat)
    requires length % 4 == (4 - PadOf(octets)) % 4
    ensures (length + 4) % 4 == (4 - PadOf(3 + octets)) % 4
  {
    AnotherThree(octets);
  }

  lemma PadCut(s: string)
    ensures PadIn(s) <= |s| && s == s[..|s| - PadIn(s)] + Pad(PadIn(s))
  {
    assert Pad(0) == "" && Pad(1) == "=" && Pad(2) == "==";
  }

  lemma PadFits(length: nat, pad: nat, n: nat)
    requires length % 4 == 0 && pad <= 2 && pad <= length
    requires (length - pad) % 4 == (4 - PadOf(n)) % 4
    ensures pad == PadOf(n)
  {
  }

  // What decodes is what the encoder writes for the result: no two texts decode alike.
  lemma DecodesOnlyEncodings(s: string)
    requires Decode(s).Some?
    ensures Encode(Decode(s).value) == s
  {
    PadCut(s);
    var front := s[..|s| - PadIn(s)];
    LettersOfValues(front);
    var x := Values(front).value;
    SextetsOfOctets(x);
    OctetCount(x);
    PadFits(|s|, PadIn(s), |Octets(x).value|);
  }

  // Four characters for every three octets begun; padding is what the length asks for and stands
  // at the end alone.
  lemma EncodedShape(b: seq<bv8>)
    ensures var r := Encode(b);
            && |r| == 4 * ((|b| + 2) / 3)
            && forall k :: 0 <= k < |r| ==> (r[k] == '=' <==> k >= |r| - PadOf(|b|))
  {
    SextetCount(b);
  }

  // The octets taken in one round.
  function Round(b: seq<bv8>, i: nat): (r: seq<bv8>)
    requires i < |b|
    ensures 1 <= |r| <= 3
  {
    if i + 3 <= |b| then b[i..i + 3] else b[i..]
  }

  lemma FewLetters(a: bv6, b: bv6, c: bv6, d: bv6)
    ensures Letters([a, b]) == [Letter(a), Letter(b)]
    ensures Letters([a, b, c]) == [Letter(a), Letter(b), Letter(c)]
    ensures Letters([a, b, c, d]) == [Letter(a), Letter(b), Letter(c), Letter(d)]
  {
    assert [a][..0] == [] && Letters([a]) == [Letter(a)];
    assert [a, b][..1] == [a];
    assert [a, b, c][..2] == [a, b];
    assert [a, b, c, d][..3] == [a, b, c];
  }

  function GroupOf(b: seq<bv8>): bv32
    requires 1 <= |b| <= 3
  {
    Group(b[0], if |b| > 1 then b[1] else 0, if |b| > 2 then b[2] else 0)
  }

  lemma FewSextets(b: seq<bv8>)
    requires 1 <= |b| <= 3
    ensures var v := GroupOf(b);
            Sextets(b) == if |b| == 1 then [Sextet(v, 0), Sextet(v, 1)]
                          else if |b| == 2 then [Sextet(v, 0), Sextet(v, 1), Sextet(v, 2)]
                          else [Sextet(v, 0), Sextet(v, 1), Sextet(v, 2), Sextet(v, 3)]
  {
    if |b| == 3 {
      assert b[3..] == [];
      assert Sextets(b[3..]) == [];
    }
  }

  lemma PaddedLetters(a: bv6, b: bv6, c: bv6, d: bv6)
    ensures Letters([a, b]) + Pad(PadOf(1)) == [Letter(a), Letter(b), '=', '=']
    ensures Letters([a, b, c]) + Pad(PadOf(2)) == [Letter(a), Letter(b), Letter(c), '=']
    ensures Letters([a, b, c, d]) + Pad(PadOf(3)) == [Letter(a), Letter(b), Letter(c), Letter(d)]
  {
    FewLetters(a, b, c, d);
    assert Pad(0) == "" && Pad(1) == "=" && Pad(2) == "==";
    assert PadOf(1) == 2 && PadOf(2) == 1 && PadOf(3) == 0;
  }

  // The four characters for n octets in a group.
  function Spelled(v: bv32, n: nat): string {
    [Letter(Sextet(v, 0)), Letter(Sextet(v, 1)),
     if n > 1 then Letter(Sextet(v, 2)) else '=', if n > 2 then Letter(Sextet(v, 3)) else '=']
  }

  lemma EncodeFew(b: seq<bv8>)
    requires 1 <= |b| <= 3
    ensures Encode(b) == Spelled(GroupOf(b), |b|)
  {
    var v := GroupOf(b);
    var s0, s1, s2, s3 := Sextet(v, 0), Sextet(v, 1), Sextet(v, 2), Sextet(v, 3);
    FewSextets(b);
    PaddedLetters(s0, s1, s2, s3);
    if |b| == 1 {
      assert Encode(b) == Letters([s0, s1]) + Pad(PadOf(1));
    } else if |b| == 2 {
      assert Encode(b) == Letters([s0, s1, s2]) + Pad(PadOf(2));
    } else {
      assert Encode(b) == Letters([s0, s1, s2, s3]) + Pad(PadOf(3));
    }
  }

  // The characters' bits spelled out for the last octets; more are taken three by three.
  lemma CharactersOf(a: bv8, b: bv8, c: bv8, rest: seq<bv8>)
    ensures Encode([]) == ""
    ensures Encode([a]) == [Letter((a >> 2) as bv6), Letter(((a & 3) << 4) as bv6), '=', '=']
    ensures Encode([a, b]) ==
              [Letter((a >> 2) as bv6), Letter((((a & 3) << 4) | (b >> 4)) as bv6),
               Letter(((b & 0xF) << 2) as bv6), '=']
    ensures Encode([a, b, c]) ==
              [Letter((a >> 2) as bv6), Letter((((a & 3) << 4) | (b >> 4)) as bv6),
               Letter((((b & 0xF) << 2) | (c >> 6)) as bv6), Letter((c & 0x3F) as bv6)]
    ensures rest != [] ==> Encode([a, b, c] + rest) == Encode([a, b, c]) + Encode(rest)
  {
    EncodeFew([a]);
    EncodeFew([a, b]);
    EncodeFew([a, b, c]);
    BitsOf(a, b, c);
    BitsOf(a, b, 0);
    BitsOf(a, 0, 0);
    var all := [a, b, c] + rest;
    if rest != [] {
      assert all[..3] == [a, b, c] && all[3..] == rest;
      RoundThenRest(all);
    }
  }

  lemma BitsOf(a: bv8, b: bv8, c: bv8)
    ensures var v := Group(a, b, c);
            && Sextet(v, 0) == (a >> 2) as bv6
            && Sextet(v, 1) == (((a & 3) << 4) | (b >> 4)) as bv6
            && Sextet(v, 2) == (((b & 0xF) << 2) | (c >> 6)) as bv6
            && Sextet(v, 3) == (c & 0x3F) as bv6
  {
  }

  lemma ZerosFillUp(a: bv8, b: bv8)
    ensures Group(a, b, 0) == ((a as bv32) << 16) | ((b as bv32) << 8)
    ensures Group(a, 0, 0) == (a as bv32) << 16
  {
  }

  method GroupAt(b: seq<bv8>, i: nat) returns (v: bv32)
    requires i < |b|
    ensures v == GroupOf(Round(b, i))
  {
    if i + 2 < |b| {
      v := ((b[i] as bv32) << 16) | ((b[i + 1] as bv32) << 8) | (b[i + 2] as bv32);
      assert v == Group(b[i], b[i + 1], b[i + 2]);
    } else if i + 1 < |b| {
      v := ((b[i] as bv32) << 16) | ((b[i + 1] as bv32) << 8);
      ZerosFillUp(b[i], b[i + 1]);
      assert v == Group(b[i], b[i + 1], 0);
    } else {
      v := (b[i] as bv32) << 16;
      ZerosFillUp(b[i], 0);
      assert v == Group(b[i], 0, 0);
    }
  }

  method SpellRound(v: bv32, n: nat) returns (out: string)
    requires 1 <= n
    ensures out == Spelled(v, n)
  {
    out := [Letter(((v >> 18) & 0x3F) as bv6), Letter(((v >> 12) & 0x3F) as bv6),
            Letter(((v >> 6) & 0x3F) as bv6), Letter((v & 0x3F) as bv6)];
    if n == 1 {
      out := out[2 := '='][3 := '='];
    } else if n == 2 {
      out := out[3 := '='];
    }
  }

  // One turn of the loop: the group, its letters, and padding over the last ones.
  method EncodeRound(b: seq<bv8>, i: nat) returns (out: string)
    requires i < |b|
    ensures out == Encode(Round(b, i))
  {
    var v := GroupAt(b, i);
    out := SpellRound(v, |b| - i);
    EncodeFew(Round(b, i));
    SpelledAlike(v, |b| - i, |Round(b, i)|);
  }

  lemma SpelledAlike(v: bv32, m: nat, n: nat)
    requires n == if m <= 3 then m else 3
    ensures Spelled(v, m) == Spelled(v, n)
  {
  }

  method Base64Encode(b: seq<bv8>) returns (r: string)
    ensures r == Encode(b)
    ensures Decode(r) == Some(b)
  {
    r := "";
    var i := 0;
    while i < |b|
      invariant 0 <= i
      invariant r + Rounds(b, i) == Rounds(b, 0)
    {
      var out := EncodeRound(b, i);
      r := r + out;
      i := i + 3;
    }
    RoundsEncode(b, 0);
    RoundTrip(b);
  }

  // Round after round from i on.
  function Rounds(b: seq<bv8>, i: nat): string
    decreases |b| - i
  {
    if i >= |b| then "" else Encode(Round(b, i)) + Rounds(b, i + 3)
  }

  lemma {:induction false} RoundsEncode(b: seq<bv8>, i: nat)
    requires i <= |b|
    ensures Rounds(b, i) == Encode(b[i..])
    decreases |b| - i
  {
    if i + 3 < |b| {
      RoundsEncode(b, i + 3);
      var head, tail := b[i..i + 3], b[i + 3..];
      assert b[i..][3..] == tail && b[i..][..3] == head;
      RoundThenRest(b[i..]);
    } else if i + 3 == |b| {
      assert b[i..i + 3] == b[i..];
    }
  }

  lemma RoundThenRest(b: seq<bv8>)
    requires |b| > 3
    ensures Encode(b) == Encode(b[..3]) + Encode(b[3..])
  {
    assert b[..3][3..] == [];
    var head := Quantum(b[0], b[1], b[2]);
    assert Sextets(b[..3]) == head;
    assert Sextets(b) == head + Sextets(b[3..]);
    LettersJoin(head, Sextets(b[3..]));
    assert PadOf(|b|) == PadOf(|b| - 3);
  }
}
