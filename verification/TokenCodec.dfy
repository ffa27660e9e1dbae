/**
 The license token envelope of packages/license/src/encoding.ts: `trl_<base64url(payload)>.<base64url(signature)>`,
 with the unpadded base64url of section 5 of RFC 4648.
 */
module TokenCodec {
  import opened Wrappers

  newtype Byte = b: int | 0 <= b < 256
  type Sextet = v: int | 0 <= v < 64

  const PREFIX := "trl_"
  const SIGNATURE_LENGTH := 64

  // ---------------------------------------------------------------- the alphabet

  function ToChar(v: Sextet): char {
    if v < 26 then 'A' + v as char
    else if v < 52 then 'a' + (v - 26) as char
    else if v < 62 then '0' + (v - 52) as char
    else if v == 62 then '-' else '_'
  }

  /** The decoder also takes the '+' and '/' of plain base64, and skips every other character. */
  function FromChar(c: char): Option<Sextet> {
    if 'A' <= c <= 'Z' then Some((c - 'A') as int)
    else if 'a' <= c <= 'z' then Some((c - 'a') as int + 26)
    else if '0' <= c <= '9' then Some((c - '0') as int + 52)
    else if c == '-' || c == '+' then Some(62)
    else if c == '_' || c == '/' then Some(63)
    else None
  }

  // ---------------------------------------------------------------- bytes to sextets and back

  function ToSextets(bs: seq<Byte>): seq<Sextet> {
    if bs == [] then []
    else
      var a := bs[0] as int;
      if |bs| == 1 then [a / 4, a % 4 * 16]
      else
        var b := bs[1] as int;
        if |bs| == 2 then [a / 4, a % 4 * 16 + b / 16, b % 16 * 4]
        else
          var c := bs[2] as int;
          [a / 4, a % 4 * 16 + b / 16, b % 16 * 4 + c / 64, c % 64] + ToSextets(bs[3..])
  }

  /** A last group of two or three sextets gives one or two bytes; a lone sextet gives none. */
  function FromSextets(vs: seq<Sextet>): seq<Byte> {
    if |vs| < 2 then []
    else
      var w: int, x: int := vs[0], vs[1];
      var a := (w * 4 + x / 16) as Byte;
      if |vs| == 2 then [a]
      else
        var y: int := vs[2];
        var b := (x % 16 * 16 + y / 4) as Byte;
        if |vs| == 3 then [a, b]
        else
          var z: int := vs[3];
          [a, b, (y % 4 * 64 + z) as Byte] + FromSextets(vs[4..])
  }

  function Spell(vs: seq<Sextet>): string {
    if vs == [] then "" else [ToChar(vs[0])] + Spell(vs[1..])
  }

  function Read(s: string): seq<Sextet> {
    if s == "" then []
    else (if FromChar(s[0]).Some? then [FromChar(s[0]).value] else []) + Read(s[1..])
  }

  function Encode(bs: seq<Byte>): string {
    Spell(ToSextets(bs))
  }

  function Decode(s: string): seq<Byte> {
    FromSextets(Read(s))
  }

  // ---------------------------------------------------------------- the groups of section 4 of RFC 4648

  function Value(digits: seq<int>, base: nat): int {
    if digits == [] then 0 else Value(digits[..|digits| - 1], base) * base + digits[|digits| - 1]
  }

  function ByteGroup(bs: seq<Byte>, k: nat): (g: seq<int>)
    requires 3 * k < |bs|
    ensures 1 <= |g| <= 3
  {
    var e := if 3 * k + 3 <= |bs| then 3 * k + 3 else |bs|;
    seq(e - 3 * k, i requires 0 <= i < e - 3 * k => bs[3 * k + i] as int)
  }

  /** Group k of three bytes and group k of four sextets are the same number; a last group of one or two bytes
      is the number of two or three sextets, without the four or two zero bits that fill it up. There is no padding. */
  lemma {:induction false} GroupsCarryTheBytes(bs: seq<Byte>, k: nat)
    requires 3 * k < |bs|
    ensures var g, vs := ByteGroup(bs, k), ToSextets(bs);
            && 4 * k + |g| + 1 <= |vs| && (|g| < 3 || 3 * k + 3 == |bs| ==> |vs| == 4 * k + |g| + 1)
            && Value(vs[4 * k..4 * k + |g| + 1], 64)
               == Value(g, 256) * (if |g| == 1 then 16 else if |g| == 2 then 4 else 1)
    decreases |bs|
  {
    hide ToSextets, Value;
    if k == 0 {
      FirstGroup(bs);
    } else {
      GroupsCarryTheBytes(bs[3..], k - 1);
      LaterGroups(bs, k);
      LaterSextets(ToSextets(bs), ToSextets(bs[3..]), k, |ByteGroup(bs, k)|);
    }
  }

  lemma LaterGroups(bs: seq<Byte>, k: nat)
    requires k > 0 && 3 * k < |bs|
    ensures ByteGroup(bs[3..], k - 1) == ByteGroup(bs, k)
    ensures |ToSextets(bs)| == 4 + |ToSextets(bs[3..])| && ToSextets(bs)[4..] == ToSextets(bs[3..])
  {
  }

  lemma LaterSextets(vs: seq<int>, rest: seq<int>, k: nat, n: nat)
    requires k > 0 && |vs| == 4 + |rest| && vs[4..] == rest && 4 * (k - 1) + n + 1 <= |rest|
    ensures vs[4 * k..4 * k + n + 1] == rest[4 * (k - 1)..4 * (k - 1) + n + 1]
  {
  }

  lemma FirstGroup(bs: seq<Byte>)
    requires bs != []
    ensures var g, vs := ByteGroup(bs, 0), ToSextets(bs);
            && |g| + 1 <= |vs| && (|g| < 3 || 3 == |bs| ==> |vs| == |g| + 1)
            && Value(vs[..|g| + 1], 64) == Value(g, 256) * (if |g| == 1 then 16 else if |g| == 2 then 4 else 1)
  {
    var g, vs := ByteGroup(bs, 0), ToSextets(bs);
    var a := bs[0] as int;
    var b := if |bs| > 1 then bs[1] as int else 0;
    var c := if |bs| > 2 then bs[2] as int else 0;
    assert vs[0] == a / 4 && vs[1] == a % 4 * 16 + b / 16;
    assert |g| >= 2 ==> vs[2] == b % 16 * 4 + c / 64;
    assert |g| == 3 ==> vs[3] == c % 64;
    ValueOfGroup(g, 256);
    ValueOfGroup(vs[..|g| + 1], 64);
    hide ToSextets, Value;
    SplitBits(a, b, c);
  }

  lemma SplitBits(a: int, b: int, c: int)
    ensures a / 4 * 64 + a % 4 * 16 == a * 16
    ensures (a / 4 * 64 + (a % 4 * 16 + b / 16)) * 64 + b % 16 * 4 == (a * 256 + b) * 4
    ensures ((a / 4 * 64 + (a % 4 * 16 + b / 16)) * 64 + (b % 16 * 4 + c / 64)) * 64 + c % 64 == (a * 256 + b) * 256 + c
  {
  }

  lemma ValueOfGroup(g: seq<int>, base: nat)
    requires 1 <= |g| <= 4
    ensures Value(g, base) == if |g| == 1 then g[0] else if |g| == 2 then g[0] * base + g[1]
                              else if |g| == 3 then (g[0] * base + g[1]) * base + g[2]
                              else ((g[0] * base + g[1]) * base + g[2]) * base + g[3]
  {
    if |g| > 1 {
      ValueOfGroup(g[..|g| - 1], base);
    } else {
      assert g[..0] == [];
    }
  }

  // ---------------------------------------------------------------- the round trip

  lemma {:induction false} ReadSpell(vs: seq<Sextet>)
    ensures Read(Spell(vs)) == vs
    decreases |vs|
  {
    if vs != [] {
      assert Spell(vs)[1..] == Spell(vs[1..]);
      ReadSpell(vs[1..]);
    }
  }

  lemma {:induction false} FromToSextets(bs: seq<Byte>)
    ensures FromSextets(ToSextets(bs)) == bs
    decreases |bs|
  {
    if |bs| >= 3 {
      assert ToSextets(bs)[4..] == ToSextets(bs[3..]);
      FromToSextets(bs[3..]);
      assert bs == [bs[0], bs[1], bs[2]] + bs[3..];
    }
  }

  /** Decoding undoes encoding, for every length modulo three. */
  lemma DecodeEncode(bs: seq<Byte>)
    ensures Decode(Encode(bs)) == bs
  {
    ReadSpell(ToSextets(bs));
    FromToSextets(bs);
  }

  lemma {:induction false} SpellHasNoDot(vs: seq<Sextet>)
    ensures '.' !in Spell(vs) && |Spell(vs)| == |vs|
    decreases |vs|
  {
    if vs != [] { SpellHasNoDot(vs[1..]); }
  }

  // ---------------------------------------------------------------- the envelope

  datatype ParsedToken = ParsedToken(payload: seq<Byte>, signature: seq<Byte>)

  datatype ParseError = Empty | WrongPrefix | NoSeparator | EmptySegment | BadSignatureLength | BadJson

  function BuildToken(payload: seq<Byte>, signature: seq<Byte>): string {
    PREFIX + Encode(payload) + "." + Encode(signature)
  }

  function IndexOf(s: string, c: char): (i: Option<nat>)
    ensures i.Some? ==> i.value < |s| && s[i.value] == c && c !in s[..i.value]
    ensures i.None? ==> c !in s
  {
    if s == "" then None
    else if s[0] == c then Some(0)
    else
      assert forall k: nat :: 1 <= k <= |s| ==> s[..k] == [s[0]] + s[1..][..k - 1];
      match IndexOf(s[1..], c)
      case Some(i) => Some(i + 1)
      case None => None
  }

  /** `isJson` stands for JSON.parse of the decoded text not throwing. */
  function ParseToken(token: string, isJson: seq<Byte> -> bool): Result<ParsedToken, ParseError> {
    if token == "" then Err(Empty)
    else if !(PREFIX <= token) then Err(WrongPrefix)
    else
      var body := token[|PREFIX|..];
      match IndexOf(body, '.')
      case None => Err(NoSeparator)
      case Some(i) =>
        if i == 0 || i + 1 == |body| then Err(EmptySegment)
        else
          var payload, signature := Decode(body[..i]), Decode(body[i + 1..]);
          if |signature| != SIGNATURE_LENGTH then Err(BadSignatureLength)
          else if !isJson(payload) then Err(BadJson)
          else Ok(ParsedToken(payload, signature))
  }

  lemma {:induction false} FirstDotIsTheSeparator(head: string, tail: string)
    requires '.' !in head
    ensures IndexOf(head + "." + tail, '.') == Some(|head|)
    decreases |head|
  {
    var s := head + "." + tail;
    if head != "" {
      assert s[1..] == head[1..] + "." + tail;
      FirstDotIsTheSeparator(head[1..], tail);
    }
  }

  lemma EncodeIsEmptyOnlyForNothing(bs: seq<Byte>)
    ensures |Encode(bs)| == 0 <==> |bs| == 0
    ensures '.' !in Encode(bs)
  {
    SpellHasNoDot(ToSextets(bs));
  }

  /** Parsing a built token gives back exactly what went in, and succeeds if and only if the payload is not empty
      and is JSON and the signature has 64 bytes. */
  lemma ParseBuild(payload: seq<Byte>, signature: seq<Byte>, isJson: seq<Byte> -> bool)
    ensures var r := ParseToken(BuildToken(payload, signature), isJson);
            && (r.Ok? <==> payload != [] && |signature| == SIGNATURE_LENGTH && isJson(payload))
            && (r.Ok? ==> r.value == ParsedToken(payload, signature))
  {
    EncodeIsEmptyOnlyForNothing(payload);
    EncodeIsEmptyOnlyForNothing(signature);
    DecodeEncode(payload);
    DecodeEncode(signature);
    hide Encode, Decode;
    SplitsAtTheDot(Encode(payload), Encode(signature));
  }

  lemma SplitsAtTheDot(head: string, tail: string)
    requires '.' !in head
    ensures var token := PREFIX + head + "." + tail;
            && token != "" && PREFIX <= token && IndexOf(token[|PREFIX|..], '.') == Some(|head|)
            && token[|PREFIX|..][..|head|] == head && token[|PREFIX|..][|head| + 1..] == tail
            && |token[|PREFIX|..]| == |head| + 1 + |tail|
  {
    var token := PREFIX + head + "." + tail;
    assert token[|PREFIX|..] == head + "." + tail;
    FirstDotIsTheSeparator(head, tail);
  }

  /** Any two texts around the first dot are decoded apart. */
  lemma ParseHalves(head: string, tail: string, isJson: seq<Byte> -> bool)
    requires head != "" && tail != "" && '.' !in head && |Decode(tail)| == SIGNATURE_LENGTH && isJson(Decode(head))
    ensures ParseToken(PREFIX + head + "." + tail, isJson) == Ok(ParsedToken(Decode(head), Decode(tail)))
  {
    hide Decode, IndexOf;
    SplitsAtTheDot(head, tail);
  }

  /** Two different contents never share a token. */
  lemma BuildIsInjective(p1: seq<Byte>, s1: seq<Byte>, p2: seq<Byte>, s2: seq<Byte>)
    requires BuildToken(p1, s1) == BuildToken(p2, s2)
    ensures p1 == p2 && s1 == s2
  {
    EncodeIsEmptyOnlyForNothing(p1);
    EncodeIsEmptyOnlyForNothing(p2);
    var b1, b2 := Encode(p1) + "." + Encode(s1), Encode(p2) + "." + Encode(s2);
    assert BuildToken(p1, s1)[|PREFIX|..] == b1 && BuildToken(p2, s2)[|PREFIX|..] == b2;
    FirstDotIsTheSeparator(Encode(p1), Encode(s1));
    FirstDotIsTheSeparator(Encode(p2), Encode(s2));
    assert b1[..|Encode(p1)|] == Encode(p1) && b2[..|Encode(p2)|] == Encode(p2);
    assert b1[|Encode(p1)| + 1..] == Encode(s1) && b2[|Encode(p2)| + 1..] == Encode(s2);
    DecodeEncode(p1);
    DecodeEncode(p2);
    DecodeEncode(s1);
    DecodeEncode(s2);
  }

  // ---------------------------------------------------------------- tokens that extend one another

  lemma {:induction false} ReadAdds(s: string, x: string)
    ensures Read(s + x) == Read(s) + Read(x)
    decreases |s|
  {
    if s == "" {
      assert s + x == x;
    } else {
      hide FromChar;
      assert (s + x)[1..] == s[1..] + x;
      ReadAdds(s[1..], x);
      JoinThree(if FromChar(s[0]).Some? then [FromChar(s[0]).value] else [], Read(s[1..]), Read(x));
    }
  }

  lemma JoinThree(a: seq<Sextet>, b: seq<Sextet>, c: seq<Sextet>)
    ensures a + (b + c) == a + b + c
  {
  }

  lemma {:induction false} DecodedLength(vs: seq<Sextet>)
    ensures |FromSextets(vs)| == |vs| / 4 * 3 + (if |vs| % 4 < 2 then 0 else |vs| % 4 - 1)
    decreases |vs|
  {
    if |vs| >= 4 { DecodedLength(vs[4..]); }
  }

  /** Text after a signature adds no sextet, or the signature would be too long. */
  lemma SignatureIsFull(s: string, x: string)
    requires |Decode(s)| == SIGNATURE_LENGTH && |Decode(s + x)| == SIGNATURE_LENGTH
    ensures Decode(s + x) == Decode(s)
  {
    ReadAdds(s, x);
    DecodedLength(Read(s));
    DecodedLength(Read(s + x));
    assert |Read(s)| == 86 && |Read(s + x)| == 86;
    assert Read(x) == [] && Read(s) + [] == Read(s);
  }

  /** The encoded payload of a text that has the prefix and a dot. */
  function PayloadSegment(token: string): Option<string> {
    if PREFIX <= token && IndexOf(token[|PREFIX|..], '.').Some?
    then Some(token[|PREFIX|..][..IndexOf(token[|PREFIX|..], '.').value])
    else None
  }

  function SignatureSegment(token: string): string
    requires PayloadSegment(token).Some?
  {
    token[|PREFIX|..][|PayloadSegment(token).value| + 1..]
  }

  lemma ParsedSegments(token: string, isJson: seq<Byte> -> bool)
    requires ParseToken(token, isJson).Ok?
    ensures PayloadSegment(token).Some?
    ensures ParseToken(token, isJson).value.payload == Decode(PayloadSegment(token).value)
    ensures ParseToken(token, isJson).value.signature == Decode(SignatureSegment(token))
    ensures |Decode(SignatureSegment(token))| == SIGNATURE_LENGTH
  {
    hide Decode;
  }

  lemma {:induction false} IndexOfInPrefix(s: string, x: string, c: char)
    requires IndexOf(s, c).Some?
    ensures IndexOf(s + x, c) == IndexOf(s, c)
    decreases |s|
  {
    if s[0] != c {
      assert (s + x)[1..] == s[1..] + x;
      IndexOfInPrefix(s[1..], x, c);
    }
  }

  /** Text appended to a key after its dot belongs to the signature. */
  lemma ExtensionKeepsThePayload(token: string, x: string)
    requires PayloadSegment(token).Some?
    ensures PayloadSegment(token + x) == PayloadSegment(token)
    ensures SignatureSegment(token + x) == SignatureSegment(token) + x
  {
    var body := token[|PREFIX|..];
    assert PREFIX <= token + x && (token + x)[|PREFIX|..] == body + x;
    IndexOfInPrefix(body, x, '.');
    var i := IndexOf(body, '.').value;
    assert (body + x)[..i] == body[..i] && (body + x)[i + 1..] == body[i + 1..] + x;
  }

  /** A key and an extension of it that both parse are the same token. */
  lemma ExtensionIsTheSameToken(token: string, x: string, isJson: seq<Byte> -> bool)
    requires ParseToken(token, isJson).Ok? && ParseToken(token + x, isJson).Ok?
    ensures ParseToken(token + x, isJson) == ParseToken(token, isJson)
  {
    hide Decode, ParseToken, PayloadSegment, SignatureSegment;
    ParsedSegments(token, isJson);
    ParsedSegments(token + x, isJson);
    ExtensionKeepsThePayload(token, x);
    SignatureIsFull(SignatureSegment(token), x);
  }

  // ---------------------------------------------------------------- the alphabet and the envelope, literally

  const ALPHABET := "ABCDEFGHIJKLMNOPQRSTUVWXYZabcdefghijklmnopqrstuvwxyz0123456789-_"

  lemma AlphabetHas64()
    ensures |ALPHABET| == 64
  {
  }

  lemma CharOfAlphabet(v: Sextet)
    ensures |ALPHABET| == 64 && ToChar(v) == ALPHABET[v]
  {
    var capitals := "ABCDEFGHIJKLMNOPQRSTUVWXYZ";
    assert |capitals| == 26 && (v < 26 ==> capitals[v] == 'A' + v as char);
  }

  /** The k-th character of an encoding is the character of the alphabet that the k-th sextet names. */
  lemma EncodeUsesTheAlphabet(bs: seq<Byte>, k: nat)
    ensures |ALPHABET| == 64 && |Encode(bs)| == |ToSextets(bs)|
    ensures k < |Encode(bs)| ==> Encode(bs)[k] == ALPHABET[ToSextets(bs)[k]]
  {
    AlphabetHas64();
    SpellsByIndex(ToSextets(bs), k);
  }

  lemma {:induction false} SpellsByIndex(vs: seq<Sextet>, k: nat)
    ensures |Spell(vs)| == |vs| && |ALPHABET| == 64 && (k < |vs| ==> Spell(vs)[k] == ALPHABET[vs[k]])
    decreases |vs|
  {
    AlphabetHas64();
    hide ALPHABET;
    if vs != [] {
      CharOfAlphabet(vs[0]);
      SpellsByIndex(vs[1..], if k > 0 then k - 1 else 0);
    }
  }

  /** A character is read as its place in the alphabet, '+' and '/' as the last two places, and nothing else is read. */
  lemma CharIsReadByItsPlace(c: char, v: Sextet)
    ensures |ALPHABET| == 64
    ensures FromChar(c) == Some(v) <==> ALPHABET[v] == c || (c == '+' && v == 62) || (c == '/' && v == 63)
  {
    CharOfAlphabet(v);
    hide ALPHABET;
    CharsAreOneToOne(c, v);
  }

  lemma CharsAreOneToOne(c: char, v: Sextet)
    ensures FromChar(c) == Some(v) <==> ToChar(v) == c || (c == '+' && v == 62) || (c == '/' && v == 63)
  {
  }

  /** Decoding reads character by character and skips what it cannot read. */
  lemma ReadOneMore(s: string, c: char)
    ensures Read(s + [c]) == Read(s) + if FromChar(c).Some? then [FromChar(c).value] else []
  {
    ReadAdds(s, [c]);
    assert [c][1..] == "";
  }

  function SextetGroup(vs: seq<Sextet>, k: nat): (g: seq<int>)
    requires 4 * k < |vs|
    ensures 1 <= |g| <= 4
  {
    var e := if 4 * k + 4 <= |vs| then 4 * k + 4 else |vs|;
    seq(e - 4 * k, i requires 0 <= i < e - 4 * k => vs[4 * k + i])
  }

  function Numbers(bs: seq<Byte>): seq<int> { seq(|bs|, i requires 0 <= i < |bs| => bs[i] as int) }

  /** Group k of four sextets decodes to the three bytes of the same number; a last group of three or two sextets to two
      or one bytes, without the spare low bits. */
  lemma {:induction false} GroupsAreRead(vs: seq<Sextet>, k: nat)
    requires 4 * k + 1 < |vs|
    ensures var g, bs := SextetGroup(vs, k), FromSextets(vs);
            && 2 <= |g| && 3 * k + |g| - 1 <= |bs|
            && Value(Numbers(bs[3 * k..3 * k + |g| - 1]), 256)
               == Value(g, 64) / (if |g| == 4 then 1 else if |g| == 3 then 4 else 16)
    decreases |vs|
  {
    hide FromSextets, Value, SextetGroup, Numbers;
    if k == 0 {
      FirstGroupIsRead(vs);
    } else {
      GroupsAreRead(vs[4..], k - 1);
      LaterBytes(vs, k, |SextetGroup(vs[4..], k - 1)| - 1);
    }
  }

  lemma LaterBytes(vs: seq<Sextet>, k: nat, n: nat)
    requires k > 0 && 4 * k + 1 < |vs| && 3 * (k - 1) + n <= |FromSextets(vs[4..])|
    ensures SextetGroup(vs[4..], k - 1) == SextetGroup(vs, k)
    ensures 3 * k + n <= |FromSextets(vs)|
    ensures FromSextets(vs)[3 * k..3 * k + n] == FromSextets(vs[4..])[3 * (k - 1)..3 * (k - 1) + n]
  {
    assert FromSextets(vs)[3..] == FromSextets(vs[4..]);
    SlicesOfTails(FromSextets(vs), FromSextets(vs[4..]), k, n);
  }

  lemma SlicesOfTails(bs: seq<Byte>, rest: seq<Byte>, k: nat, n: nat)
    requires k > 0 && |bs| == 3 + |rest| && bs[3..] == rest && 3 * (k - 1) + n <= |rest|
    ensures bs[3 * k..3 * k + n] == rest[3 * (k - 1)..3 * (k - 1) + n]
  {
  }

  lemma FirstGroupIsRead(vs: seq<Sextet>)
    requires 2 <= |vs|
    ensures var g, bs := SextetGroup(vs, 0), FromSextets(vs);
            && 2 <= |g| && |g| - 1 <= |bs|
            && Value(Numbers(bs[..|g| - 1]), 256) == Value(g, 64) / (if |g| == 4 then 1 else if |g| == 3 then 4 else 16)
  {
    var g, bs := SextetGroup(vs, 0), FromSextets(vs);
    ValueOfGroup(g, 64);
    ValueOfGroup(Numbers(bs[..|g| - 1]), 256);
    var w: int, x: int := vs[0], vs[1];
    var y: int := if |vs| > 2 then vs[2] else 0;
    var z: int := if |vs| > 3 then vs[3] else 0;
    assert bs[0] as int == w * 4 + x / 16;
    assert |g| > 2 ==> bs[1] as int == x % 16 * 16 + y / 4;
    assert |g| > 3 ==> bs[2] as int == y % 4 * 64 + z;
    hide Value, FromSextets;
    JoinBits(w, x, y, z);
  }

  lemma JoinBits(w: int, x: int, y: int, z: int)
    requires 0 <= w < 64 && 0 <= x < 64 && 0 <= y < 64 && 0 <= z < 64
    ensures w * 4 + x / 16 == (w * 64 + x) / 16
    ensures (w * 4 + x / 16) * 256 + (x % 16 * 16 + y / 4) == ((w * 64 + x) * 64 + y) / 4
    ensures ((w * 4 + x / 16) * 256 + (x % 16 * 16 + y / 4)) * 256 + (y % 4 * 64 + z)
         == ((w * 64 + x) * 64 + y) * 64 + z
  {
  }

  /** A built token is the literal prefix, the payload, a dot and the signature. */
  lemma TokenIsSpelledOut(payload: seq<Byte>, signature: seq<Byte>)
    ensures BuildToken(payload, signature) == "trl_" + Encode(payload) + "." + Encode(signature)
  {
  }

  /** What parsing makes of any text without the prefix or without a dot after it. */
  lemma TextsThatAreNoTokens(token: string, isJson: seq<Byte> -> bool)
    ensures ParseToken(token, isJson) == Err(Empty) <==> token == ""
    ensures ParseToken(token, isJson) == Err(WrongPrefix) <==> token != "" && !("trl_" <= token)
    ensures ParseToken(token, isJson) == Err(NoSeparator) <==> "trl_" <= token && '.' !in token[4..]
  {
    hide Decode;
  }

  /** And of any text with them, cut at its first dot. */
  lemma TextsCutAtTheDot(head: string, tail: string, isJson: seq<Byte> -> bool)
    requires '.' !in head
    ensures ParseToken("trl_" + head + "." + tail, isJson) ==
              if head == "" || tail == "" then Err(EmptySegment)
              else if |Decode(tail)| != 64 then Err(BadSignatureLength)
              else if !isJson(Decode(head)) then Err(BadJson)
              else Ok(ParsedToken(Decode(head), Decode(tail)))
  {
    hide Decode, IndexOf;
    SplitsAtTheDot(head, tail);
  }
}
