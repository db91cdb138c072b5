// FahCryptContext: the client side of the key exchange. An insertion-ordered
// registry of (hash, HMAC) algorithm pairs, first-match negotiation against
// the SCRAM methods a user advertises, and the 64-byte client key
// public key ++ client nonce ++ one-time-auth tag.
//
// libsodium is a foreign library: its sizes and functions enter as a value,
// and the key pair and nonce it would generate are parameters of Init.

module FahCryptContext {
  import opened Wrappers
  import opened JavaLang
  import opened CryptUtil
  import opened Communication

  // ---------------------------------------------------------------------
  // The registry: a LinkedHashMap<String, String> from hash to HMAC name

  type Entry = (string, string)

  predicate UniqueKeys(entries: seq<Entry>) {
    forall i, j :: 0 <= i < j < |entries| ==> entries[i].0 != entries[j].0
  }

  /** The keys in iteration order. */
  function Keys(entries: seq<Entry>): (keys: seq<string>) {
    seq(|entries|, i requires 0 <= i < |entries| => entries[i].0)
  }

  /** The keys of an entry followed by a registry. */
  lemma KeysCons(e: Entry, entries: seq<Entry>)
    ensures Keys([e] + entries) == [e.0] + Keys(entries)
  {
    assert forall i :: 0 < i <= |entries| ==> ([e] + entries)[i] == entries[i - 1];
  }

  /** LinkedHashMap.put: a present key keeps its place and takes the new value; a new key goes last. */
  function Put(entries: seq<Entry>, key: string, value: string): (r: seq<Entry>)
    ensures Keys(r) == if key in Keys(entries) then Keys(entries) else Keys(entries) + [key]
    ensures UniqueKeys(entries) ==> UniqueKeys(r)
  {
    if entries == [] then
      assert Keys([(key, value)]) == [key];
      [(key, value)]
    else
      var e := entries[0];
      assert entries == [e] + entries[1..];
      KeysCons(e, entries[1..]);
      if e.0 == key then
        KeysCons((key, value), entries[1..]);
        UniqueReplaceFirst(entries, value);
        [(key, value)] + entries[1..]
      else
        var rest := Put(entries[1..], key, value);
        KeysCons(e, rest);
        UniqueConsIfUnique(entries, rest);
        [e] + rest
  }

  /** Replacing the first entry's value keeps the keys unique. */
  lemma UniqueReplaceFirst(entries: seq<Entry>, value: string)
    requires entries != []
    ensures UniqueKeys(entries) ==> UniqueKeys([(entries[0].0, value)] + entries[1..])
  {
    var r := [(entries[0].0, value)] + entries[1..];
    assert forall i :: 0 <= i < |r| ==> r[i].0 == entries[i].0;
  }

  /** Putting into the tail of a registry with unique keys keeps them unique when the head's key stays absent. */
  lemma UniqueConsIfUnique(entries: seq<Entry>, rest: seq<Entry>)
    requires entries != []
    requires UniqueKeys(entries[1..]) ==> UniqueKeys(rest)
    requires Keys(rest) == Keys(entries[1..]) || exists key :: Keys(rest) == Keys(entries[1..]) + [key] && key != entries[0].0
    ensures UniqueKeys(entries) ==> UniqueKeys([entries[0]] + rest)
  {
    if UniqueKeys(entries) {
      assert UniqueKeys(entries[1..]) by {
        forall i, j | 0 <= i < j < |entries[1..]| ensures entries[1..][i].0 != entries[1..][j].0 {
          assert entries[1..][i] == entries[i + 1] && entries[1..][j] == entries[j + 1];
        }
      }
      assert entries[0].0 !in Keys(entries[1..]) by {
        forall i | 0 <= i < |entries[1..]| ensures Keys(entries[1..])[i] != entries[0].0 {
          assert entries[1..][i] == entries[i + 1];
        }
      }
      UniqueCons(entries[0], rest);
    }
  }

  /** A key missing from a registry with unique keys can go in front of it. */
  lemma UniqueCons(e: Entry, entries: seq<Entry>)
    requires UniqueKeys(entries) && e.0 !in Keys(entries)
    ensures UniqueKeys([e] + entries)
  {
    var all := [e] + entries;
    forall i, j | 0 <= i < j < |all|
      ensures all[i].0 != all[j].0
    {
      if i == 0 {
        assert all[j] == entries[j - 1] && Keys(entries)[j - 1] == entries[j - 1].0;
      } else {
        assert all[i] == entries[i - 1] && all[j] == entries[j - 1];
      }
    }
  }

  /** Re-registering a hash keeps its position and replaces its HMAC name. */
  lemma {:induction false} PutExisting(entries: seq<Entry>, i: nat, value: string)
    requires UniqueKeys(entries) && i < |entries|
    ensures Put(entries, entries[i].0, value) == entries[i := (entries[i].0, value)]
  {
    if i > 0 {
      assert entries[0].0 != entries[i].0;
      assert UniqueKeys(entries[1..]) by {
        forall a, b | 0 <= a < b < |entries[1..]| ensures entries[1..][a].0 != entries[1..][b].0 {
          assert entries[1..][a] == entries[a + 1] && entries[1..][b] == entries[b + 1];
        }
      }
      PutExisting(entries[1..], i - 1, value);
      assert entries[1..][i - 1 := (entries[i].0, value)] == entries[i := (entries[i].0, value)][1..];
    }
  }

  /** A new hash is appended after all registered ones. */
  lemma {:induction false} PutNew(entries: seq<Entry>, key: string, value: string)
    requires key !in Keys(entries)
    ensures Put(entries, key, value) == entries + [(key, value)]
  {
    if entries != [] {
      assert entries == [entries[0]] + entries[1..];
      KeysCons(entries[0], entries[1..]);
      PutNew(entries[1..], key, value);
      assert [entries[0]] + (entries[1..] + [(key, value)]) == entries + [(key, value)];
    }
  }

  /** The registry behind the static HASH_HMAC_ALGORITHMS map. */
  class AlgorithmRegistry {
    var entries: seq<Entry>

    ghost predicate Valid()
      reads this
    {
      UniqueKeys(entries)
    }

    /** The static initialiser: SHA-256/HmacSHA256 first, then SHA-1/HmacSHA1. */
    constructor (provider: Provider)
      requires "HmacSHA256" in provider && "HmacSHA1" in provider
      ensures Valid() && entries == [("SHA-256", "HmacSHA256"), ("SHA-1", "HmacSHA1")]
    {
      entries := [];
      new;
      var first := RegisterAlgorithms(provider, "SHA-256", "HmacSHA256");
      var second := RegisterAlgorithms(provider, "SHA-1", "HmacSHA1");
      PutNew([("SHA-256", "HmacSHA256")], "SHA-1", "HmacSHA1");
    }

    /**
     * registerAlgoritms: an HMAC the provider does not know is a
     * RuntimeException and leaves the registry as it was; otherwise put.
     */
    method RegisterAlgorithms(provider: Provider, hashAlgorithm: string, hmacAlgorithm: string)
      returns (r: Outcome<()>)
      requires Valid()
      modifies this
      ensures Valid()
      ensures hmacAlgorithm !in provider ==> r == Throws(RuntimeException(NoSuchAlgorithm)) && entries == old(entries)
      ensures hmacAlgorithm in provider ==> r == Ok(()) && entries == Put(old(entries), hashAlgorithm, hmacAlgorithm)
    {
      if hmacAlgorithm !in provider {
        return Throws(RuntimeException(NoSuchAlgorithm));
      }
      entries := Put(entries, hashAlgorithm, hmacAlgorithm);
      return Ok(());
    }
  }

  // ---------------------------------------------------------------------
  // Users and negotiation

  /** FahUser.AuthMethod: a SCRAM method the user supports. */
  datatype AuthMethod = AuthMethod(name: string, iterations: int, salt: seq<byte>)

  /** FahUser: name, XMPP id and the auth methods keyed by name ("SCRAM-SHA-256", ...). */
  datatype FahUser = FahUser(name: string, jid: string, authMethods: map<string, AuthMethod>)

  /** FahUserAuthMethod: the negotiated algorithms with the user's salt and iterations. */
  datatype FahUserAuthMethod = FahUserAuthMethod(hashAlgorithm: string, hmacAlgorithm: string,
                                                 scramAlgorithm: string, authMethod: AuthMethod)

  function ScramName(hashAlgorithm: string): string {
    "SCRAM-" + hashAlgorithm
  }

  function MethodFor(e: Entry, methods: map<string, AuthMethod>): FahUserAuthMethod
    requires ScramName(e.0) in methods
  {
    FahUserAuthMethod(e.0, e.1, ScramName(e.0), methods[ScramName(e.0)])
  }

  /**
   * The first registered pair whose "SCRAM-" + hash the user offers, or None:
   * None exactly when no registered hash is offered, otherwise the entry at
   * the first offered position with that entry's salt and iterations.
   */
  function BestAuthMethod(entries: seq<Entry>, methods: map<string, AuthMethod>): (r: Option<FahUserAuthMethod>)
    ensures r.None? <==> forall i :: 0 <= i < |entries| ==> ScramName(entries[i].0) !in methods
    ensures r.Some? ==> exists i :: (0 <= i < |entries| && ScramName(entries[i].0) in methods
      && (forall j :: 0 <= j < i ==> ScramName(entries[j].0) !in methods)
      && r.value == MethodFor(entries[i], methods))
  {
    if entries == [] then None
    else if ScramName(entries[0].0) in methods then
      Some(MethodFor(entries[0], methods))
    else
      var rest := BestAuthMethod(entries[1..], methods);
      if rest.Some? then
        var i :| 0 <= i < |entries[1..]| && ScramName(entries[1..][i].0) in methods
          && (forall j :: 0 <= j < i ==> ScramName(entries[1..][j].0) !in methods)
          && rest.value == MethodFor(entries[1..][i], methods);
        assert forall j :: 0 <= j < i + 1 ==> ScramName(entries[j].0) !in methods by {
          forall j | 0 <= j < i + 1 ensures ScramName(entries[j].0) !in methods {
            if j > 0 { assert entries[j] == entries[1..][j - 1]; }
          }
        }
        assert entries[i + 1] == entries[1..][i];
        rest
      else
        assert forall i :: 0 <= i < |entries| ==> ScramName(entries[i].0) !in methods by {
          forall i | 0 <= i < |entries| ensures ScramName(entries[i].0) !in methods {
            if i > 0 { assert entries[i] == entries[1..][i - 1]; }
          }
        }
        rest
  }

  /** With the default registry, SCRAM-SHA-256 is preferred whenever the user offers it. */
  lemma DefaultPrefersSha256(methods: map<string, AuthMethod>)
    requires "SCRAM-SHA-256" in methods
    ensures BestAuthMethod([("SHA-256", "HmacSHA256"), ("SHA-1", "HmacSHA1")], methods)
         == Some(FahUserAuthMethod("SHA-256", "HmacSHA256", "SCRAM-SHA-256", methods["SCRAM-SHA-256"]))
  {
    assert ScramName("SHA-256") == "SCRAM-SHA-256";
  }

  // ---------------------------------------------------------------------
  // libsodium

  /** The libsodium entry points the client key uses, with their sizes. */
  datatype Sodium = Sodium(
    publicKeyBytes: nat,                                      // crypto_box_publickeybytes
    onetimeauthBytes: nat,                                    // crypto_onetimeauth_bytes
    onetimeauthKeyBytes: nat,                                 // crypto_onetimeauth_keybytes
    generichash: (nat, seq<byte>, seq<byte>) -> seq<byte>,    // (length, in, key)
    onetimeauthTag: (seq<byte>, seq<byte>) -> seq<byte>)      // (in, key)

  ghost predicate ValidSodium(s: Sodium) {
    (forall n, input, key :: |s.generichash(n, input, key)| == n)
    && (forall input, key :: |s.onetimeauthTag(input, key)| == s.onetimeauthBytes)
  }

  /** The sizes of libsodium's default primitives (X25519 keys, Poly1305 tags). */
  predicate LibsodiumSizes(s: Sodium) {
    s.publicKeyBytes == 32 && s.onetimeauthBytes == 16 && s.onetimeauthKeyBytes == 32
  }

  /** The message of the wrong-key-length IllegalArgumentException. */
  function KeyLengthMessage(actual: nat, expected: nat): string {
    "Invalid key length - actual: " + NatToString(actual) + ", expected: " + NatToString(expected)
  }

  /** Sodium.crypto_onetimeauth: the key must have crypto_onetimeauth_keybytes bytes. */
  function Onetimeauth(s: Sodium, input: seq<byte>, key: seq<byte>): (r: Outcome<seq<byte>>)
    requires ValidSodium(s)
    ensures r.Ok? <==> |key| == s.onetimeauthKeyBytes
    ensures r.Ok? ==> |r.value| == s.onetimeauthBytes
    ensures r.Throws? ==> r.ex == IllegalArgumentException(KeyLengthMessage(|key|, s.onetimeauthKeyBytes))
  {
    if |key| != s.onetimeauthKeyBytes then Throws(IllegalArgumentException(KeyLengthMessage(|key|, s.onetimeauthKeyBytes)))
    else Ok(s.onetimeauthTag(input, key))
  }

  /** KeyPair: the result of crypto_box_keypair. */
  datatype KeyPair = KeyPair(primitive: string, publicKey: seq<byte>, secretKey: seq<byte>)

  const ClientKeyLength: nat := 64
  const SaltedPasswordLength: nat := 32
  const ClientNonceLength: nat := 16

  /** The value of createClientKey, errors included. */
  function ClientKey(provider: Provider, u: UnicodeServices, sodium: Sodium, password: string,
                     m: FahUserAuthMethod, keyPair: KeyPair, nonce: seq<byte>): (r: Outcome<seq<byte>>)
    requires ValidProvider(provider) && ValidSodium(sodium)
    ensures var salted := SaltedPassword(provider, u, m.hmacAlgorithm, password, m.authMethod.salt, m.authMethod.iterations);
      salted.Throws? ==> r == Throws(salted.ex)
    ensures var salted := SaltedPassword(provider, u, m.hmacAlgorithm, password, m.authMethod.salt, m.authMethod.iterations);
      r.Ok? <==> salted.Ok? && |salted.value| == SaltedPasswordLength
                 && |keyPair.publicKey| + |nonce| + sodium.onetimeauthBytes == ClientKeyLength
    ensures var salted := SaltedPassword(provider, u, m.hmacAlgorithm, password, m.authMethod.salt, m.authMethod.iterations);
      salted.Ok? && r.Throws? ==> r == Throws(RuntimeException(""))
    ensures r.Ok? ==> |r.value| == ClientKeyLength && |keyPair.publicKey| + |nonce| <= ClientKeyLength
    ensures r.Ok? ==> r.value[..|keyPair.publicKey|] == keyPair.publicKey
    ensures r.Ok? ==> r.value[|keyPair.publicKey|..|keyPair.publicKey| + |nonce|] == nonce
    ensures r.Ok? ==> r.value[|keyPair.publicKey| + |nonce|..] == sodium.onetimeauthTag(keyPair.publicKey,
      sodium.generichash(sodium.onetimeauthKeyBytes,
        SaltedPassword(provider, u, m.hmacAlgorithm, password, m.authMethod.salt, m.authMethod.iterations).value, nonce))
  {
    match SaltedPassword(provider, u, m.hmacAlgorithm, password, m.authMethod.salt, m.authMethod.iterations)
    case Throws(e) => Throws(e)
    case Ok(salted) =>
      if |salted| != SaltedPasswordLength then Throws(RuntimeException(""))
      else
        var otaKey := sodium.generichash(sodium.onetimeauthKeyBytes, salted, nonce);
        match Onetimeauth(sodium, keyPair.publicKey, otaKey)
        case Throws(e) => Throws(e)
        case Ok(tag) =>
          if |keyPair.publicKey| + |nonce| + |tag| != ClientKeyLength then Throws(RuntimeException(""))
          else
            var key := keyPair.publicKey + nonce + tag;
            assert key[..|keyPair.publicKey|] == keyPair.publicKey;
            assert key[|keyPair.publicKey|..|keyPair.publicKey| + |nonce|] == nonce;
            assert key[|keyPair.publicKey| + |nonce|..] == tag;
            Ok(key)
  }

  /** A negotiated SHA-1 method (20-byte HMAC) can never produce a client key. */
  lemma Sha1NeverYieldsClientKey(provider: Provider, u: UnicodeServices, sodium: Sodium, password: string,
                                 m: FahUserAuthMethod, keyPair: KeyPair, nonce: seq<byte>)
    requires ValidProvider(provider) && ValidSodium(sodium)
    requires m.hmacAlgorithm == "HmacSHA1" && "HmacSHA1" in provider && provider["HmacSHA1"].macLength == 20
    ensures ClientKey(provider, u, sodium, password, m, keyPair, nonce).Throws?
  {
  }

  /**
   * With libsodium's sizes, a 32-byte public key and a 16-byte nonce, the
   * length checks pass whenever the salted password has 32 bytes.
   */
  lemma LibsodiumClientKeySucceeds(provider: Provider, u: UnicodeServices, sodium: Sodium, password: string,
                                   m: FahUserAuthMethod, keyPair: KeyPair, nonce: seq<byte>)
    requires ValidProvider(provider) && ValidSodium(sodium) && LibsodiumSizes(sodium)
    requires |keyPair.publicKey| == 32 && |nonce| == 16
    requires SaltedPassword(provider, u, m.hmacAlgorithm, password, m.authMethod.salt, m.authMethod.iterations).Ok?
    requires |SaltedPassword(provider, u, m.hmacAlgorithm, password, m.authMethod.salt, m.authMethod.iterations).value| == 32
    ensures ClientKey(provider, u, sodium, password, m, keyPair, nonce).Ok?
  {
  }

  /** System.arraycopy(src, 0, dest, destPos, src.length) */
  method ArrayCopy(src: seq<byte>, dest: array<byte>, destPos: nat)
    requires destPos + |src| <= dest.Length
    modifies dest
    ensures dest[..] == old(dest[..destPos]) + src + old(dest[destPos + |src|..])
  {
    var i := 0;
    while i < |src|
      invariant 0 <= i <= |src|
      invariant dest[..destPos] == old(dest[..destPos])
      invariant dest[destPos..destPos + i] == src[..i]
      invariant dest[destPos + |src|..] == old(dest[destPos + |src|..])
    {
      dest[destPos + i] := src[i];
      i := i + 1;
    }
    assert dest[..] == dest[..destPos] + dest[destPos..destPos + |src|] + dest[destPos + |src|..];
  }

  /** new byte[64] filled by three System.arraycopy calls, one part after the other. */
  method CopyParts(a: seq<byte>, b: seq<byte>, c: seq<byte>) returns (s: seq<byte>)
    ensures s == a + b + c
  {
    var result := new byte[|a| + |b| + |c|];
    ArrayCopy(a, result, 0);
    assert result[..|a| + |b|][|a|..] == result[|a|..|a| + |b|];
    ArrayCopy(b, result, |a|);
    assert result[..|a|] == a;
    ArrayCopy(c, result, |a| + |b|);
    assert result[..|a| + |b|] == a + b;
    return result[..];
  }

  // ---------------------------------------------------------------------
  // The context

  class CryptContext {
    const communication: FahCommunication
    const registry: AlgorithmRegistry
    const provider: Provider
    const unicode: UnicodeServices
    const sodium: Sodium
    var keyPair: Option<KeyPair>
    var clientNonce: Option<seq<byte>>

    ghost predicate Valid() {
      ValidProvider(provider) && ValidSodium(sodium)
    }

    constructor (communication: FahCommunication, registry: AlgorithmRegistry, provider: Provider,
                 unicode: UnicodeServices, sodium: Sodium)
      requires ValidProvider(provider) && ValidSodium(sodium)
      ensures Valid() && this.communication == communication && this.registry == registry
      ensures this.provider == provider && this.unicode == unicode && this.sodium == sodium
      ensures keyPair == None && clientNonce == None
    {
      this.communication := communication;
      this.registry := registry;
      this.provider := provider;
      this.unicode := unicode;
      this.sodium := sodium;
      keyPair := None;
      clientNonce := None;
    }

    /** getBestAuthMethod: walks the registry in insertion order. */
    method GetBestAuthMethod(user: FahUser) returns (r: Option<FahUserAuthMethod>)
      ensures r == BestAuthMethod(registry.entries, user.authMethods)
    {
      var entries := registry.entries;
      var i := 0;
      while i < |entries|
        invariant 0 <= i <= |entries|
        invariant BestAuthMethod(entries, user.authMethods) == BestAuthMethod(entries[i..], user.authMethods)
      {
        var scram := ScramName(entries[i].0);
        if scram in user.authMethods {
          return Some(FahUserAuthMethod(entries[i].0, entries[i].1, scram, user.authMethods[scram]));
        }
        assert entries[i..][1..] == entries[i + 1..];
        i := i + 1;
      }
      return None;
    }

    /**
     * createClientKey: the salted password must have 32 bytes; the tag is the
     * one-time auth of the public key under generichash(salted, key = nonce);
     * the three parts are copied into a fresh 64-byte array.
     */
    method CreateClientKey(password: string, m: FahUserAuthMethod) returns (r: Outcome<seq<byte>>)
      requires Valid() && keyPair.Some? && clientNonce.Some?
      ensures r == ClientKey(provider, unicode, sodium, password, m, keyPair.value, clientNonce.value)
    {
      var salted := ComputeSaltedPassword(provider, unicode, m.hmacAlgorithm, password, m.authMethod.salt,
                                          m.authMethod.iterations);
      if salted.Throws? {
        return Throws(salted.ex);
      }
      if |salted.value| != SaltedPasswordLength {
        return Throws(RuntimeException(""));
      }
      var nonce := clientNonce.value;
      var otaKey := sodium.generichash(sodium.onetimeauthKeyBytes, salted.value, nonce);
      var publicKey := keyPair.value.publicKey;
      var ota := Onetimeauth(sodium, publicKey, otaKey);
      if ota.Throws? {
        return Throws(ota.ex);
      }
      if |publicKey| + |nonce| + |ota.value| != ClientKeyLength {
        return Throws(RuntimeException(""));
      }
      var result := CopyParts(publicKey, nonce, ota.value);
      return Ok(result);
    }

    /**
     * init: negotiate; with no common method return false before anything is
     * generated or sent. Otherwise keep the fresh key pair and 16-byte nonce,
     * build the client key and send it with cryptExchangeLocalKeys2.
     */
    method Init(user: FahUser, password: string, generatedKeyPair: KeyPair, generatedNonce: seq<byte>)
      returns (r: Outcome<bool>)
      requires Valid() && |generatedNonce| == ClientNonceLength
      modifies this, communication
      ensures BestAuthMethod(registry.entries, user.authMethods).None? ==>
        r == Ok(false) && keyPair == old(keyPair) && clientNonce == old(clientNonce)
        && communication.sent == old(communication.sent)
      ensures BestAuthMethod(registry.entries, user.authMethods).Some? ==>
        keyPair == Some(generatedKeyPair) && clientNonce == Some(generatedNonce)
      ensures BestAuthMethod(registry.entries, user.authMethods).Some? ==>
        var m := BestAuthMethod(registry.entries, user.authMethods).value;
        var key := ClientKey(provider, unicode, sodium, password, m, generatedKeyPair, generatedNonce);
        (key.Throws? ==> r == Throws(key.ex) && communication.sent == old(communication.sent))
        && (key.Ok? ==>
              r == Ok(true) && communication.sent == old(communication.sent) +
                [RpcRequest("RemoteInterface.cryptExchangeLocalKeys2",
                  [StringValue(user.jid), BytesValue(key.value), StringValue(m.scramAlgorithm), IntValue(0)])])
    {
      var m := GetBestAuthMethod(user);
      if m.None? {
        return Ok(false);
      }
      keyPair := Some(generatedKeyPair);
      clientNonce := Some(generatedNonce);
      var clientKey := CreateClientKey(password, m.value);
      if clientKey.Throws? {
        return Throws(clientKey.ex);
      }
      communication.RpcCall("RemoteInterface.cryptExchangeLocalKeys2",
        [StringValue(user.jid), BytesValue(clientKey.value), StringValue(m.value.scramAlgorithm), IntValue(0)]);
      return Ok(true);
    }
  }
}
