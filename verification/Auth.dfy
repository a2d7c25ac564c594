/**
Registry credentials (ParseAuth in pkg/server/image_pull.go).  They arrive as
the base64 text (section 4 of RFC 4648) of "user:password" and are decoded into
a buffer that may be longer than what was encoded, padded with NUL bytes.
*/
module Auth {
  import opened Wrappers
  import opened Seqs

  const NUL: byte := 0
  const LF: byte := 10
  const CR: byte := 13
  const COLON: byte := 58
  const PAD: byte := 61

  // ---------------------------------------------------------------- base64

  /** The base64 alphabet: A-Z, a-z, 0-9, '+' and '/'. */
  function Symbol(v: int): (c: byte)
    requires 0 <= v < 64
    ensures Digit(c) == v && c != LF && c != CR && c != PAD
  {
    if v < 26 then (65 + v) as byte
    else if v < 52 then (71 + v) as byte
    else if v < 62 then (v - 4) as byte
    else if v == 62 then 43
    else 47
  }

  /** The value of a symbol, or -1 of any other byte. */
  function Digit(c: byte): (v: int)
    ensures -1 <= v < 64
    ensures v >= 0 ==> c != LF && c != CR && c != PAD
  {
    var x := c as int;
    if 65 <= x <= 90 then x - 65
    else if 97 <= x <= 122 then x - 71
    else if 48 <= x <= 57 then x + 4
    else if x == 43 then 62
    else if x == 47 then 63
    else -1
  }

  /** The four symbols of a 24-bit group. */
  function Group(v: int): (t: seq<byte>)
    requires 0 <= v < 0x1000000
    ensures |t| == 4 && LF !in t && CR !in t
  {
    [Symbol(v / 0x40000), Symbol(v / 0x1000 % 64), Symbol(v / 64 % 64), Symbol(v % 64)]
  }

  function Bits(x: seq<byte>): int
    requires |x| == 3
  {
    x[0] as int * 0x10000 + x[1] as int * 0x100 + x[2] as int
  }

  function Encode(x: seq<byte>): (t: seq<byte>)
    ensures LF !in t && CR !in t && (x == [] <==> t == [])
    decreases |x|
  {
    if x == [] then []
    else if |x| < 3 then LastGroup(x)
    else Group(Bits(x[..3])) + Encode(x[3..])
  }

  /** One byte or two: the group is filled up with zero bits and the symbols that hold none of the bytes are padding. */
  function LastGroup(x: seq<byte>): (t: seq<byte>)
    requires 1 <= |x| <= 2
    ensures |t| == 4 && LF !in t && CR !in t
  {
    if |x| == 1 then Group(Bits(x + [0, 0]))[..2] + [PAD, PAD] else Group(Bits(x + [0]))[..3] + [PAD]
  }

  /** The three bytes of a 24-bit group. */
  function Octets(v: int): (x: seq<byte>)
    requires 0 <= v < 0x1000000
    ensures |x| == 3
  {
    [(v / 0x10000) as byte, (v / 0x100 % 0x100) as byte, (v % 0x100) as byte]
  }

  function Quantum(a: int, b: int, c: int, d: int): (v: int)
    requires 0 <= a < 64 && 0 <= b < 64 && 0 <= c < 64 && 0 <= d < 64
    ensures 0 <= v < 0x1000000
  {
    a * 0x40000 + b * 0x1000 + c * 64 + d
  }

  /**
  Go's decoder on text without line breaks: groups of four symbols, of which
  the last may end in one or two padding signs.  Unused bits are not looked at.
  */
  function DecodeGroups(t: seq<byte>): (r: Result<seq<byte>>)
    ensures r.Ok? ==> |r.value| <= |t| / 4 * 3
    decreases |t|
  {
    if t == [] then Ok([])
    else if |t| < 4 || Digit(t[0]) < 0 || Digit(t[1]) < 0 then Err("illegal base64 data")
    else if Digit(t[2]) < 0 then
      if t[2] == PAD && t[3] == PAD && |t| == 4 then Ok(Octets(Quantum(Digit(t[0]), Digit(t[1]), 0, 0))[..1])
      else Err("illegal base64 data")
    else if Digit(t[3]) < 0 then
      if t[3] == PAD && |t| == 4 then Ok(Octets(Quantum(Digit(t[0]), Digit(t[1]), Digit(t[2]), 0))[..2])
      else Err("illegal base64 data")
    else
      var rest := DecodeGroups(t[4..]);
      if rest.Err? then rest
      else Ok(Octets(Quantum(Digit(t[0]), Digit(t[1]), Digit(t[2]), Digit(t[3]))) + rest.value)
  }

  function WithoutLineBreaks(t: seq<byte>): (s: seq<byte>)
    ensures |s| <= |t|
  {
    if t == [] then []
    else if t[0] == LF || t[0] == CR then WithoutLineBreaks(t[1..])
    else [t[0]] + WithoutLineBreaks(t[1..])
  }

  function Decode(t: seq<byte>): Result<seq<byte>> {
    DecodeGroups(WithoutLineBreaks(t))
  }

  function DecodedLen(n: nat): nat {
    n / 4 * 3
  }

  // ------------------------------------------------------------- credentials

  datatype AuthConfig = AuthConfig(
    username: seq<byte>, password: seq<byte>, auth: seq<byte>, identityToken: seq<byte>)

  function Zeros(n: nat): seq<byte> {
    if n == 0 then [] else [NUL] + Zeros(n - 1)
  }

  /** The buffer that the text is decoded into. */
  function Decoded(t: seq<byte>): (r: Result<seq<byte>>)
    ensures r.Ok? ==> |r.value| == DecodedLen(|t|)
  {
    var d := Decode(t);
    if d.Err? then d
    else
      var pad := DecodedLen(|t|) - |d.value|;
      ZerosLength(pad);
      Ok(d.value + Zeros(pad))
  }

  function TrimLeft(s: seq<byte>): seq<byte> {
    if s != [] && s[0] == NUL then TrimLeft(s[1..]) else s
  }

  function TrimRight(s: seq<byte>): seq<byte> {
    if s != [] && s[|s| - 1] == NUL then TrimRight(s[..|s| - 1]) else s
  }

  /** strings.Trim(s, "\x00"). */
  function Trim(s: seq<byte>): seq<byte> {
    TrimRight(TrimLeft(s))
  }

  type Credentials = (seq<byte>, seq<byte>)

  /** The decoded text split at its first colon, the second half trimmed. */
  function SplitPair(s: seq<byte>): Result<Credentials> {
    var k := IndexOf(s, COLON, 0);
    if k == |s| then Err("invalid decoded auth") else Ok((s[..k], Trim(s[k + 1..])))
  }

  function ParseAuth(auth: Option<AuthConfig>): Result<Credentials> {
    if auth.None? then Ok(([], []))
    else
      var a := auth.value;
      if a.username != [] then Ok((a.username, a.password))
      else if a.identityToken != [] then Ok(([], a.identityToken))
      else if a.auth != [] then
        var d := Decoded(a.auth);
        if d.Err? then Err(d.error) else SplitPair(d.value)
      else Err("invalid auth config")
  }

  // ---------------------------------------------------------------- proofs

  lemma ZerosLength(n: nat)
    ensures |Zeros(n)| == n
  {
  }

  lemma GroupDigits(v: int)
    requires 0 <= v < 0x1000000
    ensures var t := Group(v); forall i :: 0 <= i < 4 ==> Digit(t[i]) >= 0
    ensures var t := Group(v); Quantum(Digit(t[0]), Digit(t[1]), Digit(t[2]), Digit(t[3])) == v
    ensures v % 64 == 0 ==> Digit(Group(v)[3]) == 0
    ensures v % 0x1000 == 0 ==> Digit(Group(v)[2]) == 0
  {
    hide Symbol, Digit;
    assert v / 0x1000 == v / 0x40000 * 64 + v / 0x1000 % 64;
    assert v / 64 == v / 0x1000 * 64 + v / 64 % 64;
  }

  lemma BitsOctets(x: seq<byte>)
    requires |x| == 3
    ensures 0 <= Bits(x) < 0x1000000 && Octets(Bits(x)) == x
  {
    var a, b, c := x[0] as int, x[1] as int, x[2] as int;
    var v := Bits(x);
    assert v / 0x100 == a * 0x100 + b;
    assert v / 0x10000 == a;
    assert v / 0x100 % 0x100 == b;
    assert v % 0x100 == c;
    assert x == [a as byte, b as byte, c as byte];
  }

  /** A full group at the front is decoded on its own. */
  lemma DecodeGroup(x: seq<byte>, rest: seq<byte>)
    requires |x| == 3
    ensures DecodeGroups(rest).Ok? ==> DecodeGroups(Group(Bits(x)) + rest) == Ok(x + DecodeGroups(rest).value)
  {
    hide Group, Quantum, Octets, Digit;
    BitsOctets(x);
    GroupDigits(Bits(x));
    var t := Group(Bits(x)) + rest;
    assert t[4..] == rest;
    assert forall i :: 0 <= i < 4 ==> t[i] == Group(Bits(x))[i];
  }

  lemma DecodeNothing()
    ensures DecodeGroups([]) == Ok([])
  {
  }

  lemma DecodeOne(x: seq<byte>)
    requires |x| == 1
    ensures DecodeGroups(Encode(x)) == Ok(x)
  {
    hide Group, Quantum, Octets, Digit;
    var y := x + [0, 0];
    BitsOctets(y);
    GroupDigits(Bits(y));
    assert Octets(Bits(y))[..1] == x;
    var t := Group(Bits(y))[..2] + [PAD, PAD];
    assert Digit(PAD) < 0;
    assert DecodeGroups(t) == Ok(x);
    assert Encode(x) == t;
  }

  lemma DecodeTwo(x: seq<byte>)
    requires |x| == 2
    ensures DecodeGroups(Encode(x)) == Ok(x)
  {
    hide Group, Quantum, Octets, Digit;
    var y := x + [0];
    BitsOctets(y);
    GroupDigits(Bits(y));
    assert Octets(Bits(y))[..2] == x;
    var t := Group(Bits(y))[..3] + [PAD];
    assert Digit(PAD) < 0;
    assert DecodeGroups(t) == Ok(x);
    assert Encode(x) == t;
  }

  /** Decoding undoes encoding. */
  lemma {:induction false} Base64RoundTrip(x: seq<byte>)
    ensures DecodeGroups(Encode(x)) == Ok(x)
    decreases |x|
  {
    hide Group, DecodeGroups, Bits;
    if |x| >= 3 {
      Base64RoundTrip(x[3..]);
      DecodeGroup(x[..3], Encode(x[3..]));
      assert x == x[..3] + x[3..];
    } else if |x| == 2 {
      DecodeTwo(x);
    } else if |x| == 1 {
      DecodeOne(x);
    } else {
      assert DecodeGroups([]) == Ok([]) by {
        DecodeNothing();
      }
    }
  }

  /** Every three bytes begun take four symbols. */
  lemma {:induction false} EncodeLength(x: seq<byte>)
    ensures |Encode(x)| == (|x| + 2) / 3 * 4
    decreases |x|
  {
    if |x| >= 3 {
      assert |Encode(x)| == 4 + |Encode(x[3..])|;
      hide Encode;
      EncodeLength(x[3..]);
      assert (|x| + 2) / 3 == (|x[3..]| + 2) / 3 + 1;
    }
  }

  /** What the encoder writes has no line breaks of its own. */
  lemma {:induction false} EncodeIsOneLine(x: seq<byte>)
    ensures WithoutLineBreaks(Encode(x)) == Encode(x)
  {
    NothingBroken(Encode(x));
  }

  lemma {:induction false} NothingBroken(t: seq<byte>)
    requires LF !in t && CR !in t
    ensures WithoutLineBreaks(t) == t
  {
    if t != [] {
      NothingBroken(t[1..]);
    }
  }

  // ------------------------------------------------- what the decoder accepts

  /** Symbols only, but for `p` padding signs at the end. */
  predicate PaddedBy(t: seq<byte>, p: nat) {
    && p <= |t|
    && (forall i :: 0 <= i < |t| - p ==> Digit(t[i]) >= 0)
    && (forall i :: |t| - p <= i < |t| ==> t[i] == PAD)
  }

  predicate WellFormed(t: seq<byte>) {
    |t| % 4 == 0 && (PaddedBy(t, 0) || (|t| > 0 && (PaddedBy(t, 1) || PaddedBy(t, 2))))
  }

  /** Text is decoded exactly if it is whole groups of symbols with at most two padding signs, all at the end. */
  lemma {:induction false} DecodesExactly(t: seq<byte>)
    ensures DecodeGroups(t).Ok? <==> WellFormed(t)
    decreases |t|
  {
    hide Digit, Octets, Quantum;
    if |t| <= 4 {
      DecodesShort(t);
    } else {
      DecodesExactly(t[4..]);
      assert Digit(PAD) < 0;
      if |t| % 4 == 0 && forall i :: 0 <= i < 4 ==> Digit(t[i]) >= 0 {
        PaddedFront(t, 0);
        PaddedFront(t, 1);
        PaddedFront(t, 2);
      }
    }
  }

  lemma DecodesShort(t: seq<byte>)
    requires |t| <= 4
    ensures DecodeGroups(t).Ok? <==> WellFormed(t)
  {
    hide Digit, Octets, Quantum;
    assert Digit(PAD) < 0;
    if |t| == 4 {
      assert t[4..] == [] && DecodeGroups([]).Ok?;
      assert PaddedBy(t, 0) <==> Digit(t[0]) >= 0 && Digit(t[1]) >= 0 && Digit(t[2]) >= 0 && Digit(t[3]) >= 0;
      assert PaddedBy(t, 1) <==> Digit(t[0]) >= 0 && Digit(t[1]) >= 0 && Digit(t[2]) >= 0 && t[3] == PAD;
      assert PaddedBy(t, 2) <==> Digit(t[0]) >= 0 && Digit(t[1]) >= 0 && t[2] == PAD && t[3] == PAD;
    }
  }

  lemma PaddedFront(t: seq<byte>, p: nat)
    requires |t| >= 4 + p && forall i :: 0 <= i < 4 ==> Digit(t[i]) >= 0
    ensures PaddedBy(t, p) <==> PaddedBy(t[4..], p)
  {
    hide Digit;
    assert t == t[..4] + t[4..];
    assert forall i :: 4 <= i < |t| ==> t[i] == t[4..][i - 4];
    assert forall i :: 0 <= i < |t| - 4 ==> t[4..][i] == t[i + 4];
  }

  // --------------------------------------------------------------- the padding

  lemma {:induction false} TrimZeros(n: nat)
    ensures TrimLeft(Zeros(n)) == []
  {
    if n > 0 {
      assert Zeros(n)[1..] == Zeros(n - 1);
      TrimZeros(n - 1);
    }
  }

  lemma {:induction false} TrimLeftPadded(s: seq<byte>, n: nat)
    ensures TrimLeft(s + Zeros(n)) == if TrimLeft(s) == [] then [] else TrimLeft(s) + Zeros(n)
    decreases |s|
  {
    if s == [] {
      assert s + Zeros(n) == Zeros(n);
      TrimZeros(n);
    } else {
      assert (s + Zeros(n))[1..] == s[1..] + Zeros(n);
      TrimLeftPadded(s[1..], n);
    }
  }

  lemma {:induction false} ZerosEnd(n: nat)
    requires n > 0
    ensures Zeros(n) == Zeros(n - 1) + [NUL]
  {
    if n > 1 {
      ZerosEnd(n - 1);
    }
  }

  lemma {:induction false} TrimRightPadded(s: seq<byte>, n: nat)
    ensures TrimRight(s + Zeros(n)) == TrimRight(s)
    decreases n
  {
    if n == 0 {
      assert s + Zeros(0) == s;
    } else {
      ZerosEnd(n);
      var t := s + Zeros(n);
      assert t == s + Zeros(n - 1) + [NUL];
      assert t[|t| - 1] == NUL && t[..|t| - 1] == s + Zeros(n - 1);
      TrimRightPadded(s, n - 1);
    }
  }

  lemma TrimPadded(s: seq<byte>, n: nat)
    ensures Trim(s + Zeros(n)) == Trim(s)
  {
    TrimLeftPadded(s, n);
    TrimRightPadded(TrimLeft(s), n);
  }

  lemma {:induction false} ZerosAreNul(n: nat)
    ensures forall i :: 0 <= i < |Zeros(n)| ==> Zeros(n)[i] == NUL
  {
    if n > 0 {
      ZerosAreNul(n - 1);
    }
  }

  /** The NUL bytes behind the decoded text change nothing. */
  lemma PaddingIsHarmless(x: seq<byte>, n: nat)
    ensures SplitPair(x + Zeros(n)) == SplitPair(x)
  {
    hide Trim, IndexOf;
    var k := IndexOf(x, COLON, 0);
    var s := x + Zeros(n);
    ZerosAreNul(n);
    if k < |x| {
      IndexIs(s, COLON, 0, k);
      assert s[..k] == x[..k];
      assert s[k + 1..] == x[k + 1..] + Zeros(n);
      TrimPadded(x[k + 1..], n);
    } else {
      IndexIs(s, COLON, 0, |s|);
    }
  }

  // ------------------------------------------------------------ main results

  /** The base64 alphabet of section 4 of RFC 4648, its padding sign, and the separator of the credentials. */
  lemma Alphabet(v: int)
    requires 0 <= v < 64
    ensures 0 <= v < 26 ==> Symbol(v) as int == 'A' as int + v
    ensures 26 <= v < 52 ==> Symbol(v) as int == 'a' as int + v - 26
    ensures 52 <= v < 62 ==> Symbol(v) as int == '0' as int + v - 52
    ensures v == 62 ==> Symbol(v) as int == '+' as int
    ensures v == 63 ==> Symbol(v) as int == '/' as int
    ensures PAD as int == '=' as int && COLON as int == ':' as int && LF as int == 10 && CR as int == 13
  {
  }

  /** The configuration that carries only the encoded text. */
  function Encoded(t: seq<byte>): Option<AuthConfig> {
    Some(AuthConfig([], [], t, []))
  }

  /** An encoded text, broken into lines at will, is split as the bytes it encodes. */
  lemma ParsesWhatWasEncoded(x: seq<byte>, t: seq<byte>)
    requires x != [] && WithoutLineBreaks(t) == Encode(x)
    ensures ParseAuth(Encoded(t)) == SplitPair(x)
  {
    hide SplitPair, Encode, DecodeGroups;
    Base64RoundTrip(x);
    assert t != [];
    PaddingIsHarmless(x, DecodedLen(|t|) - |x|);
  }

  predicate NulEnds(s: seq<byte>) {
    s != [] && (s[0] == NUL || s[|s| - 1] == NUL)
  }

  lemma TrimShorter(s: seq<byte>)
    ensures |TrimLeft(s)| <= |s| && |TrimRight(s)| <= |s|
  {
  }

  lemma TrimKeepsExactly(s: seq<byte>)
    ensures Trim(s) == s <==> !NulEnds(s)
  {
    if s != [] {
      TrimShorter(s[1..]);
      TrimShorter(TrimLeft(s));
      TrimShorter(s[..|s| - 1]);
    }
  }

  /**
  The credentials come back exactly if the user name has no colon and the
  password neither starts nor ends with NUL.
  */
  lemma AuthRoundTrip(user: seq<byte>, password: seq<byte>)
    ensures ParseAuth(Encoded(Encode(user + [COLON] + password))) == Ok((user, password))
      <==> COLON !in user && !NulEnds(password)
  {
    hide ParseAuth, Encode, WithoutLineBreaks;
    EncodeIsOneLine(user + [COLON] + password);
    AuthInLines(user, password, Encode(user + [COLON] + password));
  }

  /** The same for an encoded text that is broken into lines. */
  lemma AuthInLines(user: seq<byte>, password: seq<byte>, t: seq<byte>)
    requires WithoutLineBreaks(t) == Encode(user + [COLON] + password)
    ensures ParseAuth(Encoded(t)) == Ok((user, password)) <==> COLON !in user && !NulEnds(password)
  {
    hide ParseAuth, Encode, WithoutLineBreaks, Trim, IndexOf;
    var x := user + [COLON] + password;
    ParsesWhatWasEncoded(x, t);
    var k := IndexOf(x, COLON, 0);
    if COLON in user {
      var i :| 0 <= i < |user| && user[i] == COLON;
      assert x[i] == COLON;
      assert |x[..k]| != |user|;
    } else {
      IndexIs(x, COLON, 0, |user|);
      assert x[..k] == user && x[k + 1..] == password;
      TrimKeepsExactly(password);
    }
  }

  /**
  When credentials are refused, in terms of the decoded bytes and not of the
  padded buffer.  Without any the pull is anonymous.
  */
  lemma RefusedExactly(auth: Option<AuthConfig>)
    ensures ParseAuth(auth).Err? <==>
      && auth.Some? && auth.value.username == [] && auth.value.identityToken == []
      && var text := auth.value.auth; text == [] || Decode(text).Err? || COLON !in Decode(text).value
    ensures auth.None? ==> ParseAuth(auth) == Ok(([], []))
    ensures auth.Some? && auth.value.username != [] ==>
      ParseAuth(auth) == Ok((auth.value.username, auth.value.password))
    ensures auth.Some? && auth.value.username == [] && auth.value.identityToken != [] ==>
      ParseAuth(auth) == Ok(([], auth.value.identityToken))
  {
    hide DecodeGroups, Trim, WithoutLineBreaks, IndexOf;
    if auth.Some? && Decode(auth.value.auth).Ok? {
      var text := auth.value.auth;
      var bytes := Decode(text).value;
      var k := IndexOf(bytes, COLON, 0);
      PaddingIsHarmless(bytes, DecodedLen(|text|) - |bytes|);
      assert k == |bytes| <==> COLON !in bytes;
    }
  }
}
