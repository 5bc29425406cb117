/** Join-token values and approval ids are random bytes in unpadded base64url (section 5 of RFC 4648).
    Both sources draw a multiple of three bytes, so the encoding has no short final group. */
module RandomIds {
  import opened Prelude

  type ApprovalEntropy = b: seq<byte> | |b| == 18 witness seq(18, _ => 0)
  type TokenEntropy = b: seq<byte> | |b| == 24 witness seq(24, _ => 0)

  type Sextet = d: int | 0 <= d < 64

  /** The base64url alphabet. */
  function Symbol(d: Sextet): (c: char)
  {
    if d < 26 then ('A' as int + d) as char
    else if d < 52 then ('a' as int + d - 26) as char
    else if d < 62 then ('0' as int + d - 52) as char
    else if d == 62 then '-'
    else '_'
  }

  lemma SymbolInjective(d: Sextet, e: Sextet)
    requires Symbol(d) == Symbol(e)
    ensures d == e
  {
    assert 'A' as int == 65 && 'a' as int == 97 && '0' as int == 48 && '-' as int == 45 && '_' as int == 95;
  }

  function Group(a: byte, b: byte, c: byte): (n: int)
    ensures 0 <= n < 0x100_0000
  {
    a as int * 0x1_0000 + b as int * 0x100 + c as int
  }

  function EncodeGroup(a: byte, b: byte, c: byte): (s: string)
    ensures |s| == 4
  {
    var n := Group(a, b, c);
    [Symbol(n / 262144), Symbol(n / 4096 % 64), Symbol(n / 64 % 64), Symbol(n % 64)]
  }

  function Encode(bytes: seq<byte>): (s: string)
    requires |bytes| % 3 == 0
    ensures |s| == |bytes| / 3 * 4
  {
    if bytes == [] then ""
    else EncodeGroup(bytes[0], bytes[1], bytes[2]) + Encode(bytes[3..])
  }

  lemma DigitsDetermine(n: int, m: int)
    requires 0 <= n < 0x100_0000 && 0 <= m < 0x100_0000
    requires n / 262144 == m / 262144 && n / 4096 % 64 == m / 4096 % 64
    requires n / 64 % 64 == m / 64 % 64 && n % 64 == m % 64
    ensures n == m
  {
    assert n / 64 / 64 == n / 4096 && n / 4096 / 64 == n / 262144;
    assert m / 64 / 64 == m / 4096 && m / 4096 / 64 == m / 262144;
  }

  lemma GroupInjective(a: byte, b: byte, c: byte, x: byte, y: byte, z: byte)
    requires Group(a, b, c) == Group(x, y, z)
    ensures a == x && b == y && c == z
  {
  }

  lemma EncodeGroupInjective(a: byte, b: byte, c: byte, x: byte, y: byte, z: byte)
    requires EncodeGroup(a, b, c) == EncodeGroup(x, y, z)
    ensures a == x && b == y && c == z
  {
    var n, m := Group(a, b, c), Group(x, y, z);
    var s, t := EncodeGroup(a, b, c), EncodeGroup(x, y, z);
    assert s[0] == t[0] && s[1] == t[1] && s[2] == t[2] && s[3] == t[3];
    assert n / 262144 == m / 262144 by { SymbolInjective(n / 262144, m / 262144); }
    assert n / 4096 % 64 == m / 4096 % 64 by { SymbolInjective(n / 4096 % 64, m / 4096 % 64); }
    assert n / 64 % 64 == m / 64 % 64 by { SymbolInjective(n / 64 % 64, m / 64 % 64); }
    assert n % 64 == m % 64 by { SymbolInjective(n % 64, m % 64); }
    DigitsDetermine(n, m);
    GroupInjective(a, b, c, x, y, z);
  }

  /** Distinct draws of one length give distinct ids: freshness of ids is freshness of the random bytes. */
  lemma {:induction false} EncodeInjective(x: seq<byte>, y: seq<byte>)
    requires |x| == |y| && |x| % 3 == 0
    ensures Encode(x) == Encode(y) <==> x == y
  {
    if x != [] && Encode(x) == Encode(y) {
      var gx, gy := EncodeGroup(x[0], x[1], x[2]), EncodeGroup(y[0], y[1], y[2]);
      assert gx == Encode(x)[..4] == Encode(y)[..4] == gy;
      assert Encode(x[3..]) == Encode(x)[4..] == Encode(y)[4..] == Encode(y[3..]);
      EncodeGroupInjective(x[0], x[1], x[2], y[0], y[1], y[2]);
      EncodeInjective(x[3..], y[3..]);
      assert x == [x[0], x[1], x[2]] + x[3..];
      assert y == [y[0], y[1], y[2]] + y[3..];
    }
  }

  /** randID in internal/policy/grants.go: never empty, so an issued id always takes the approval branch. */
  function RandID(entropy: ApprovalEntropy): (id: string)
    ensures |id| == 24 && id != ""
  {
    Encode(entropy)
  }

  /** randToken in internal/token/token.go. */
  function RandToken(entropy: TokenEntropy): (value: string)
    ensures |value| == 32
  {
    Encode(entropy)
  }
}
