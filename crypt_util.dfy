// CryptUtil: the SCRAM "Hi" salted-password derivation (a chained HMAC whose
// rounds are XOR-accumulated, section 2.2 of RFC 5802), the byte-wise xor it
// uses, and the SASLprep-like preparation of the password (map space-like
// characters to ASCII space, delete invisible ones, normalise with NFKC,
// reject prohibited categories and mixed bidirectional text).
//
// HMAC, NFKC, the Unicode general categories and java.text.Bidi are library
// code: they enter as function values, with the length facts the code needs.

module CryptUtil {
  import opened Wrappers
  import opened JavaLang

  type byte = bv8

  // ---------------------------------------------------------------------
  // HMAC as javax.crypto.Mac provides it

  /** A MAC algorithm: its output length and the keyed function (key, message). */
  datatype MacAlgorithm = MacAlgorithm(macLength: nat, compute: (seq<byte>, seq<byte>) -> seq<byte>)

  ghost predicate ValidMac(alg: MacAlgorithm) {
    forall key, message :: |alg.compute(key, message)| == alg.macLength
  }

  /** The algorithms Mac.getInstance knows, by name ("HmacSHA256", ...). */
  type Provider = map<string, MacAlgorithm>

  ghost predicate ValidProvider(provider: Provider) {
    forall name :: name in provider ==> ValidMac(provider[name])
  }

  const NoSuchAlgorithm: string := "NoSuchAlgorithmException"
  const EmptyKey: string := "Empty key"

  /** A Mac instance: initialised with a key, accumulating input until doFinal. */
  class Mac {
    const algorithm: MacAlgorithm
    const key: seq<byte>
    var input: seq<byte>

    constructor (algorithm: MacAlgorithm, key: seq<byte>)
      ensures this.algorithm == algorithm && this.key == key && input == []
    {
      this.algorithm := algorithm;
      this.key := key;
      input := [];
    }

    /** mac.update(data) */
    method Update(data: seq<byte>)
      modifies this
      ensures input == old(input) + data
    {
      input := input + data;
    }

    /** mac.doFinal(): the MAC of everything since the last reset; resets. */
    method DoFinal() returns (tag: seq<byte>)
      requires ValidMac(algorithm)
      modifies this
      ensures tag == algorithm.compute(key, old(input)) && |tag| == algorithm.macLength
      ensures input == []
    {
      tag := algorithm.compute(key, input);
      input := [];
    }
  }

  /**
   * CryptUtil.hmac(algorithm, key): an unknown algorithm is a RuntimeException
   * (wrapping NoSuchAlgorithmException); an empty key makes SecretKeySpec
   * throw IllegalArgumentException, which is not caught.
   */
  method Hmac(provider: Provider, hmacAlgorithm: string, key: seq<byte>) returns (r: Outcome<Mac>)
    ensures hmacAlgorithm !in provider ==> r == Throws(RuntimeException(NoSuchAlgorithm))
    ensures hmacAlgorithm in provider && key == [] ==> r == Throws(IllegalArgumentException(EmptyKey))
    ensures hmacAlgorithm in provider && key != [] ==>
      r.Ok? && fresh(r.value) && r.value.algorithm == provider[hmacAlgorithm] && r.value.key == key && r.value.input == []
  {
    if hmacAlgorithm !in provider {
      return Throws(RuntimeException(NoSuchAlgorithm));
    }
    if key == [] {
      return Throws(IllegalArgumentException(EmptyKey));
    }
    var mac := new Mac(provider[hmacAlgorithm], key);
    return Ok(mac);
  }

  // ---------------------------------------------------------------------
  // xor

  /** The byte-wise xor of a with the first |a| bytes of b. */
  function XorBytes(a: seq<byte>, b: seq<byte>): seq<byte>
    requires |b| >= |a|
  {
    seq(|a|, i requires 0 <= i < |a| => a[i] ^ b[i])
  }

  /** CryptUtil.xor: a fresh array c of a's length with c[i] = a[i] ^ b[i]. */
  method Xor(a: seq<byte>, b: seq<byte>) returns (c: seq<byte>)
    requires |b| >= |a|
    ensures |c| == |a| && forall i :: 0 <= i < |a| ==> c[i] == a[i] ^ b[i]
    ensures c == XorBytes(a, b)
  {
    var arr := new byte[|a|];
    var i := 0;
    while i < |a|
      invariant 0 <= i <= |a|
      invariant forall j :: 0 <= j < i ==> arr[j] == a[j] ^ b[j]
    {
      arr[i] := a[i] ^ b[i];
      i := i + 1;
    }
    c := arr[..];
  }

  /** Xoring twice with the same bytes gives the original back. */
  lemma XorBytesCancel(a: seq<byte>, b: seq<byte>)
    requires |b| >= |a|
    ensures XorBytes(XorBytes(a, b), b) == a
  {
    var once := XorBytes(a, b);
    forall i | 0 <= i < |a| ensures XorBytes(once, b)[i] == a[i] {
      assert once[i] == a[i] ^ b[i];
    }
  }

  // ---------------------------------------------------------------------
  // Hi(str, salt, i) of RFC 5802

  /** INT(1): the four big-endian bytes of the block number 1. */
  const Int1: seq<byte> := [0, 0, 0, 1]

  /** U_n: U_1 = HMAC(password, salt + INT(1)), U_n = HMAC(password, U_(n-1)). */
  function U(alg: MacAlgorithm, password: seq<byte>, salt: seq<byte>, n: nat): seq<byte>
    requires n >= 1
  {
    if n == 1 then alg.compute(password, salt + Int1)
    else alg.compute(password, U(alg, password, salt, n - 1))
  }

  /** Hi after n rounds: U_1 xor U_2 xor ... xor U_n, as the loop accumulates it. */
  function HiSpec(alg: MacAlgorithm, password: seq<byte>, salt: seq<byte>, n: nat): (r: seq<byte>)
    requires ValidMac(alg) && n >= 1
    ensures |r| == alg.macLength
  {
    if n == 1 then U(alg, password, salt, 1)
    else XorBytes(HiSpec(alg, password, salt, n - 1), U(alg, password, salt, n))
  }

  /** The rounds U_1 .. U_n. */
  function Rounds(alg: MacAlgorithm, password: seq<byte>, salt: seq<byte>, n: nat): seq<seq<byte>>
  {
    seq(n, i requires 0 <= i < n => U(alg, password, salt, i + 1))
  }

  /** The xor of a non-empty list of equally long byte strings, in list order. */
  function XorAll(blocks: seq<seq<byte>>, width: nat): (r: seq<byte>)
    requires |blocks| >= 1 && forall k :: 0 <= k < |blocks| ==> |blocks[k]| == width
    ensures |r| == width
  {
    if |blocks| == 1 then blocks[0]
    else XorBytes(XorAll(blocks[..|blocks| - 1], width), blocks[|blocks| - 1])
  }

  /** The loop's accumulator is the RFC 5802 formula Hi = U_1 xor ... xor U_n. */
  lemma {:induction false} HiIsXorOfRounds(alg: MacAlgorithm, password: seq<byte>, salt: seq<byte>, n: nat)
    requires ValidMac(alg) && n >= 1
    ensures HiSpec(alg, password, salt, n) == XorAll(Rounds(alg, password, salt, n), alg.macLength)
  {
    var rounds := Rounds(alg, password, salt, n);
    if n > 1 {
      HiIsXorOfRounds(alg, password, salt, n - 1);
      assert rounds[..n - 1] == Rounds(alg, password, salt, n - 1);
    }
  }

  /** Two successive accumulators differ by exactly the newest round. */
  lemma HiDifference(alg: MacAlgorithm, password: seq<byte>, salt: seq<byte>, n: nat)
    requires ValidMac(alg) && n >= 2
    ensures XorBytes(HiSpec(alg, password, salt, n), HiSpec(alg, password, salt, n - 1))
         == U(alg, password, salt, n)
  {
    var previous := HiSpec(alg, password, salt, n - 1);
    var current := HiSpec(alg, password, salt, n);
    var u := U(alg, password, salt, n);
    forall i | 0 <= i < |u| ensures XorBytes(current, previous)[i] == u[i] {
      assert current[i] == previous[i] ^ u[i];
    }
  }

  /** The value of CryptUtil.hi, errors included. */
  function HiResult(provider: Provider, hmacAlgorithm: string, password: seq<byte>, salt: seq<byte>,
                    iterations: int): (r: Outcome<seq<byte>>)
    requires ValidProvider(provider)
    ensures r.Ok? ==> hmacAlgorithm in provider && |r.value| == provider[hmacAlgorithm].macLength
  {
    if hmacAlgorithm !in provider then Throws(RuntimeException(NoSuchAlgorithm))
    else if password == [] then Throws(IllegalArgumentException(EmptyKey))
    else Ok(HiSpec(provider[hmacAlgorithm], password, salt, if iterations < 1 then 1 else iterations))
  }

  /**
   * CryptUtil.hi: one Mac keyed with the password for every round; U_1 is the
   * MAC of salt + INT(1), every later round the MAC of the previous round,
   * and the result is their running xor. With iterations <= 1 the loop body
   * never runs and the result is U_1.
   */
  method Hi(provider: Provider, hmacAlgorithm: string, password: seq<byte>, salt: seq<byte>, iterations: int)
    returns (r: Outcome<seq<byte>>)
    requires ValidProvider(provider)
    ensures r == HiResult(provider, hmacAlgorithm, password, salt, iterations)
    ensures r.Ok? && iterations <= 1 ==> r.value == provider[hmacAlgorithm].compute(password, salt + Int1)
  {
    var created := Hmac(provider, hmacAlgorithm, password);
    if created.Throws? {
      return Throws(created.ex);
    }
    var result := HiRounds(created.value, salt, iterations);
    return Ok(result);
  }

  /** The rounds of CryptUtil.hi on a freshly keyed Mac, each fed the previous round. */
  method HiRounds(mac: Mac, salt: seq<byte>, iterations: int) returns (result: seq<byte>)
    requires ValidMac(mac.algorithm) && mac.input == []
    modifies mac
    ensures result == HiSpec(mac.algorithm, mac.key, salt, if iterations < 1 then 1 else iterations)
  {
    mac.Update(salt);
    mac.Update(Int1);
    assert mac.input == salt + Int1;
    var uPrev := mac.DoFinal();
    result := uPrev;
    var c := 1;
    while c < iterations
      invariant 1 <= c && (c <= iterations || c == 1)
      invariant mac.input == []
      invariant uPrev == U(mac.algorithm, mac.key, salt, c)
      invariant result == HiSpec(mac.algorithm, mac.key, salt, c)
    {
      uPrev, result := HiRound(mac, salt, c, uPrev, result);
      c := c + 1;
    }
  }

  /** One later round of CryptUtil.hi: the MAC of the previous round, xored into the accumulator. */
  method HiRound(mac: Mac, ghost salt: seq<byte>, ghost c: nat, uPrev: seq<byte>, result: seq<byte>)
    returns (u: seq<byte>, next: seq<byte>)
    requires ValidMac(mac.algorithm) && mac.input == [] && c >= 1
    requires uPrev == U(mac.algorithm, mac.key, salt, c) && result == HiSpec(mac.algorithm, mac.key, salt, c)
    modifies mac
    ensures mac.input == []
    ensures u == U(mac.algorithm, mac.key, salt, c + 1) && next == HiSpec(mac.algorithm, mac.key, salt, c + 1)
  {
    mac.Update(uPrev);
    assert mac.input == uPrev;
    u := mac.DoFinal();
    next := Xor(result, u);
  }

  // ---------------------------------------------------------------------
  // saslPrepare

  /** Characters the space step replaces by ' ': U+00A0, U+1680, U+2000..U+200B, U+202F, U+205F, U+3000. */
  predicate IsSpaceLike(c: char) {
    c == '\U{00A0}' || c == '\U{1680}' || ('\U{2000}' <= c <= '\U{200B}')
    || c == '\U{202F}' || c == '\U{205F}' || c == '\U{3000}'
  }

  /**
   * Characters the removal step deletes: U+00AD, U+034F, U+1806,
   * U+180B..U+180D, U+200B..U+200D, U+2060, U+FE00..U+FE0F, U+FEFF.
   */
  predicate IsRemovable(c: char) {
    c == '\U{00AD}' || c == '\U{034F}' || c == '\U{1806}' || ('\U{180B}' <= c <= '\U{180D}')
    || ('\U{200B}' <= c <= '\U{200D}') || c == '\U{2060}' || ('\U{FE00}' <= c <= '\U{FE0F}')
    || c == '\U{FEFF}'
  }

  /** The space step: replaceAll of the space pattern by " ". */
  function MapSpaces(s: string): (r: string)
    ensures |r| == |s|
    ensures forall i :: 0 <= i < |s| ==> r[i] == if IsSpaceLike(s[i]) then ' ' else s[i]
  {
    if s == [] then [] else [if IsSpaceLike(s[0]) then ' ' else s[0]] + MapSpaces(s[1..])
  }

  /** The removal step: replaceAll of the removal pattern by "". */
  function RemoveInvisible(s: string): (r: string)
    ensures |r| <= |s|
    ensures forall i :: 0 <= i < |r| ==> !IsRemovable(r[i])
  {
    if s == [] then []
    else if IsRemovable(s[0]) then RemoveInvisible(s[1..])
    else [s[0]] + RemoveInvisible(s[1..])
  }

  /** Every character that is not removable survives, as often as it occurs. */
  lemma {:induction false} RemoveInvisibleKeeps(s: string)
    ensures forall c :: !IsRemovable(c) ==> multiset(RemoveInvisible(s))[c] == multiset(s)[c]
  {
    if s != [] {
      RemoveInvisibleKeeps(s[1..]);
      assert s == [s[0]] + s[1..];
    }
  }

  lemma {:induction false} MapSpacesAppend(a: string, b: string)
    ensures MapSpaces(a + b) == MapSpaces(a) + MapSpaces(b)
    decreases |a|
  {
    if a == [] {
      assert a + b == b;
    } else {
      var ab := a + b;
      assert ab[0] == a[0] && ab[1..] == a[1..] + b;
      MapSpacesAppend(a[1..], b);
    }
  }

  lemma {:induction false} RemoveInvisibleAppend(a: string, b: string)
    ensures RemoveInvisible(a + b) == RemoveInvisible(a) + RemoveInvisible(b)
    decreases |a|
  {
    if a == [] {
      assert a + b == b;
    } else {
      var ab := a + b;
      assert ab[0] == a[0] && ab[1..] == a[1..] + b;
      RemoveInvisibleAppend(a[1..], b);
    }
  }

  /** The text that reaches NFKC: spaces mapped, then invisible characters removed. */
  function BeforeNormalization(input: string): string {
    RemoveInvisible(MapSpaces(input))
  }

  lemma BeforeNormalizationAppend(a: string, b: string)
    ensures BeforeNormalization(a + b) == BeforeNormalization(a) + BeforeNormalization(b)
  {
    MapSpacesAppend(a, b);
    RemoveInvisibleAppend(MapSpaces(a), MapSpaces(b));
  }

  /**
   * U+200B is listed by both steps, but the space step runs first: a zero
   * width space ends up as an ASCII space and is never deleted.
   */
  lemma ZeroWidthSpaceBecomesSpace(a: string, b: string)
    ensures BeforeNormalization(a + "\U{200B}" + b)
         == BeforeNormalization(a) + " " + BeforeNormalization(b)
  {
    BeforeNormalizationAppend(a + "\U{200B}", b);
    BeforeNormalizationAppend(a, "\U{200B}");
    assert MapSpaces("\U{200B}") == " ";
    assert RemoveInvisible(" ") == " ";
  }

  /** A soft hyphen, by contrast, disappears. */
  lemma SoftHyphenDeleted(a: string, b: string)
    ensures BeforeNormalization(a + "\U{00AD}" + b) == BeforeNormalization(a) + BeforeNormalization(b)
  {
    BeforeNormalizationAppend(a + "\U{00AD}", b);
    BeforeNormalizationAppend(a, "\U{00AD}");
    assert MapSpaces("\U{00AD}") == "\U{00AD}";
    assert RemoveInvisible("\U{00AD}") == "";
  }

  /** What reaches NFKC holds neither a space-like nor a removable character. */
  lemma BeforeNormalizationClean(input: string)
    ensures forall i :: 0 <= i < |BeforeNormalization(input)| ==>
      !IsSpaceLike(BeforeNormalization(input)[i]) && !IsRemovable(BeforeNormalization(input)[i])
  {
    var mapped := MapSpaces(input);
    var cleaned := RemoveInvisible(mapped);
    RemoveInvisibleKeeps(mapped);
    forall i | 0 <= i < |cleaned| ensures !IsSpaceLike(cleaned[i]) {
      var c := cleaned[i];
      assert c in multiset(cleaned);
      assert c in multiset(mapped);
      var j :| 0 <= j < |mapped| && mapped[j] == c;
    }
  }

  /** Unicode general category classes the prohibition pattern names. */
  datatype GeneralCategory = Letter | Mark | Number | Punctuation | Symbol | Separator | Other

  /** java.util.regex \s without UNICODE_CHARACTER_CLASS: [ \t\n\x0B\f\r]. */
  predicate IsRegexWhitespace(c: char) {
    c == ' ' || c == '\t' || c == '\n' || c == '\U{000B}' || c == '\U{000C}' || c == '\r'
  }

  /** The Unicode library services saslPrepare calls. */
  datatype UnicodeServices = UnicodeServices(
    nfkc: string -> string,                 // Normalizer.normalize(_, NFKC)
    category: char -> GeneralCategory,      // the \p{..} classes
    requiresBidi: string -> bool,           // Bidi.requiresBidi
    bidiIsMixed: string -> bool,            // new Bidi(_, LEFT_TO_RIGHT).isMixed()
    bidiLevelAt: (string, int) -> int)      // new Bidi(_, LEFT_TO_RIGHT).getLevelAt(_)

  /** Bidi.DIRECTION_RIGHT_TO_LEFT */
  const DirectionRightToLeft: int := 1

  /** A character outside letter, mark, number, punctuation, symbol and \s. */
  predicate IsProhibited(u: UnicodeServices, c: char) {
    u.category(c) !in {Letter, Mark, Number, Punctuation, Symbol} && !IsRegexWhitespace(c)
  }

  predicate HasProhibited(u: UnicodeServices, s: string) {
    exists i :: 0 <= i < |s| && IsProhibited(u, s[i])
  }

  /**
   * The bidi rejection: the normalised text needs bidi processing and the
   * ORIGINAL input is mixed, unless the original starts right-to-left and
   * ends at the same level.
   */
  predicate BidiRejected(u: UnicodeServices, input: string, normalized: string) {
    u.requiresBidi(normalized) && u.bidiIsMixed(input)
    && !(u.bidiLevelAt(input, 0) == DirectionRightToLeft
         && u.bidiLevelAt(input, 0) == u.bidiLevelAt(input, |input| - 1))
  }

  const ProhibitedMessage: string := "String contains prohibited characters"
  const MixedBidiMessage: string := "String contains mixed bidi characters"

  /** CryptUtil.saslPrepare */
  function SaslPrepare(u: UnicodeServices, input: string): (r: Outcome<string>)
    ensures r.Ok? ==> r.value == u.nfkc(BeforeNormalization(input)) && !HasProhibited(u, r.value)
    ensures r == Throws(IllegalArgumentException(ProhibitedMessage))
        <==> HasProhibited(u, u.nfkc(BeforeNormalization(input)))
    ensures r == Throws(IllegalArgumentException(MixedBidiMessage))
        <==> !HasProhibited(u, u.nfkc(BeforeNormalization(input)))
             && BidiRejected(u, input, u.nfkc(BeforeNormalization(input)))
    ensures r.Throws? ==> r.ex.IllegalArgumentException?
  {
    var normalized := u.nfkc(RemoveInvisible(MapSpaces(input)));
    if HasProhibited(u, normalized) then Throws(IllegalArgumentException(ProhibitedMessage))
    else if BidiRejected(u, input, normalized) then Throws(IllegalArgumentException(MixedBidiMessage))
    else Ok(normalized)
  }

  // ---------------------------------------------------------------------
  // String.getBytes(UTF_8)

  function Utf8Char(c: char): (r: seq<byte>)
    ensures 1 <= |r| <= 4
    ensures (c as int < 0x80) ==> r == [c as int as byte]
  {
    var n := c as int;
    if n < 0x80 then [n as byte]
    else if n < 0x800 then [(0xC0 + n / 0x40) as byte, (0x80 + n % 0x40) as byte]
    else if n < 0x1_0000 then
      [(0xE0 + n / 0x1000) as byte, (0x80 + (n / 0x40) % 0x40) as byte, (0x80 + n % 0x40) as byte]
    else
      [(0xF0 + n / 0x4_0000) as byte, (0x80 + (n / 0x1000) % 0x40) as byte,
       (0x80 + (n / 0x40) % 0x40) as byte, (0x80 + n % 0x40) as byte]
  }

  /** The UTF-8 encoding of a string: empty exactly when the string is. */
  function Utf8Encode(s: string): (r: seq<byte>)
    ensures |s| <= |r| <= 4 * |s|
  {
    if s == [] then [] else Utf8Char(s[0]) + Utf8Encode(s[1..])
  }

  // ---------------------------------------------------------------------
  // computeSaltedPassword

  /** The value of CryptUtil.computeSaltedPassword. */
  function SaltedPassword(provider: Provider, u: UnicodeServices, hmacAlgorithm: string, password: string,
                          salt: seq<byte>, iterations: int): (r: Outcome<seq<byte>>)
    requires ValidProvider(provider)
    ensures SaslPrepare(u, password).Throws? ==> r == Throws(SaslPrepare(u, password).ex)
    ensures r.Ok? ==> hmacAlgorithm in provider && |r.value| == provider[hmacAlgorithm].macLength
  {
    match SaslPrepare(u, password)
    case Throws(e) => Throws(e)
    case Ok(prepared) => HiResult(provider, hmacAlgorithm, Utf8Encode(prepared), salt, iterations)
  }

  /**
   * CryptUtil.computeSaltedPassword: Hi over the UTF-8 bytes of the prepared
   * password. A preparation failure escapes before any Mac is created.
   */
  method ComputeSaltedPassword(provider: Provider, u: UnicodeServices, hmacAlgorithm: string, password: string,
                               salt: seq<byte>, iterations: int) returns (r: Outcome<seq<byte>>)
    requires ValidProvider(provider)
    ensures r == SaltedPassword(provider, u, hmacAlgorithm, password, salt, iterations)
  {
    var prepared := SaslPrepare(u, password);
    if prepared.Throws? {
      return Throws(prepared.ex);
    }
    r := Hi(provider, hmacAlgorithm, Utf8Encode(prepared.value), salt, iterations);
  }

  /** A bad password is reported as such even when the algorithm is unknown. */
  lemma PreparationErrorFirst(provider: Provider, u: UnicodeServices, hmacAlgorithm: string, password: string,
                              salt: seq<byte>, iterations: int)
    requires ValidProvider(provider) && hmacAlgorithm !in provider
    ensures SaltedPassword(provider, u, hmacAlgorithm, password, salt, iterations).Throws?
    ensures SaltedPassword(provider, u, hmacAlgorithm, password, salt, iterations).ex.IllegalArgumentException?
        <==> SaslPrepare(u, password).Throws?
  {
  }

  /**
   * A password made only of invisible characters prepares to the empty
   * string, whose empty UTF-8 key SecretKeySpec refuses.
   */
  lemma InvisiblePasswordHasEmptyKey(provider: Provider, u: UnicodeServices, hmacAlgorithm: string,
                                     salt: seq<byte>, iterations: int)
    requires ValidProvider(provider) && hmacAlgorithm in provider
    requires u.nfkc([]) == [] && !u.requiresBidi([])
    ensures SaltedPassword(provider, u, hmacAlgorithm, "\U{00AD}\U{200D}", salt, iterations)
         == Throws(IllegalArgumentException(EmptyKey))
  {
    assert MapSpaces("\U{00AD}\U{200D}") == "\U{00AD}\U{200D}";
    assert RemoveInvisible("\U{00AD}\U{200D}") == [];
    assert !HasProhibited(u, []);
  }
}
