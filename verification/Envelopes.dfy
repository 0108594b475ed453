/**
 * The sealed-envelope text format and the keyring operations built on it.
 * Only the cipher itself is a parameter: everything about envelope texts is
 * computed as the source computes it.
 */
module Envelopes {
  import opened Strings

  const SCHEME_SECRET: string := "tpsecret"
  const SCHEME_DAEMON: string := "tpdaemon"

  datatype Parsed = Parsed(version: nat, fields: seq<string>)

  /** `scheme.v{version}.{fields...}` */
  function Format(scheme: string, version: nat, fields: seq<string>): string {
    Join([scheme, "v" + Decimal(version)] + fields, '.')
  }

  predicate HasScheme(scheme: string, value: string) {
    scheme + "." <= value
  }

  /** The version token `v[1-9][0-9]*`, in canonical spelling. */
  function ParseVersion(token: string): Option<nat> {
    if |token| < 2 || token[0] != 'v' || token[1] == '0' || !AllDigits(token[1..]) then None
    else
      var version := ParseDecimal(token[1..]);
      if version < 1 || token != "v" + Decimal(version) then None else Some(version)
  }

  /** Structural parse; never fails loudly. */
  function Parse(scheme: string, value: string, fieldCount: nat): (r: Option<Parsed>)
    ensures r.Some? ==> |r.value.fields| == fieldCount && r.value.version >= 1
  {
    if !HasScheme(scheme, value) then None
    else
      var tokens := Split(value, '.');
      if |tokens| != 2 + fieldCount || tokens[0] != scheme then None
      else
        var fields := tokens[2..];
        match ParseVersion(tokens[1])
        case None => None
        case Some(version) =>
          if "" in fields then None else Some(Parsed(version, fields))
  }

  predicate PlainField(field: string) {
    field != "" && '.' !in field
  }

  lemma VersionRoundTrip(version: nat)
    requires version >= 1
    ensures ParseVersion("v" + Decimal(version)) == Some(version)
  {
    var digits := Decimal(version);
    assert ("v" + digits)[1..] == digits;
    ParseDecimalOf(version);
  }

  /** Formatting then parsing gives the version and the fields back. */
  lemma ParseFormat(scheme: string, version: nat, fields: seq<string>)
    requires PlainField(scheme) && version >= 1
    requires forall i :: 0 <= i < |fields| ==> PlainField(fields[i])
    ensures Parse(scheme, Format(scheme, version, fields), |fields|) == Some(Parsed(version, fields))
  {
    var tokens := [scheme, "v" + Decimal(version)] + fields;
    forall i | 0 <= i < |tokens| ensures '.' !in tokens[i] {
      if i == 1 {
        assert forall k :: 0 <= k < |tokens[1]| ==> tokens[1][k] != '.';
      } else if i >= 2 {
        assert PlainField(fields[i - 2]);
      }
    }
    SplitJoin(tokens, '.');
    VersionRoundTrip(version);
    var value := Join(tokens, '.');
    assert value == scheme + "." + Join(tokens[1..], '.');
    assert HasScheme(scheme, value);
    assert tokens[2..] == fields;
  }

  /** Parsing is exact: whatever parses is the canonical text of what it parsed to. */
  lemma FormatParse(scheme: string, value: string, fieldCount: nat)
    requires Parse(scheme, value, fieldCount).Some?
    ensures var p := Parse(scheme, value, fieldCount).value;
            |p.fields| == fieldCount && p.version >= 1 && value == Format(scheme, p.version, p.fields)
  {
    var p := Parse(scheme, value, fieldCount).value;
    var tokens := Split(value, '.');
    assert tokens == [scheme, "v" + Decimal(p.version)] + p.fields;
    JoinSplit(value, '.');
  }

  // ---------------------------------------------------------------- keyring

  /**
   * The cipher: `seal(version, draw, plaintext)` is the payload text produced
   * with the key of that version and the draw-th random initialisation vector;
   * `open(version, payload)` is `None` when authentication or decoding fails.
   */
  datatype Cipher = Cipher(seal: (nat, nat, string) -> string, open: (nat, string) -> Option<string>)

  /** The derived keyring: the current version, the fallback versions, and their keys inside the cipher. */
  datatype Secrets = Secrets(current: nat, fallbacks: set<nat>, cipher: Cipher)

  /** The versions there is a key for. */
  predicate KnownVersion(s: Secrets, version: nat) {
    version == s.current || version in s.fallbacks
  }

  /** What is sealed under the key of a known version opens under it, and payloads are non-empty base64url text. */
  ghost predicate SoundCipher(s: Secrets) {
    && (forall version: nat :: KnownVersion(s, version) ==> version >= 1)
    && (forall version: nat, draw: nat, plaintext: string :: KnownVersion(s, version) ==>
          var payload := s.cipher.seal(version, draw, plaintext);
          PlainField(payload) && s.cipher.open(version, payload) == Some(plaintext))
  }

  /** `parseSecretEnvelope`: the key version of an at-rest envelope. */
  function SecretVersion(text: string): Option<nat> {
    match Parse(SCHEME_SECRET, text, 1)
    case None => None
    case Some(p) => Some(p.version)
  }

  predicate IsDaemonEnvelope(text: string) {
    Parse(SCHEME_DAEMON, text, 3).Some?
  }

  function Encrypt(s: Secrets, draw: nat, plaintext: string): string {
    Format(SCHEME_SECRET, s.current, [s.cipher.seal(s.current, draw, plaintext)])
  }

  /** `decryptSecret`; `None` stands for every error it throws. */
  function Decrypt(s: Secrets, text: string): Option<string> {
    if !HasScheme(SCHEME_SECRET, text) && !HasScheme(SCHEME_DAEMON, text) then None
    else
      match Parse(SCHEME_SECRET, text, 1)
      case None => None
      case Some(p) =>
        if p.version != s.current && p.version !in s.fallbacks then None
        else s.cipher.open(p.version, p.fields[0])
  }

  /**
   * What the sweep uses of the envelope texts and the keyring, as one value:
   * the theorems about the sweep hold for every lawful keyring.
   */
  datatype Keyring = Keyring(
    current: nat,
    version: string -> Option<nat>,
    daemon: string -> bool,
    daemonPrefixed: string -> bool,
    decrypt: string -> Option<string>,
    encrypt: (nat, string) -> string)

  ghost predicate Lawful(k: Keyring) {
    && (forall draw: nat, plaintext: string ::
          k.decrypt(k.encrypt(draw, plaintext)) == Some(plaintext)
            && k.version(k.encrypt(draw, plaintext)) == Some(k.current))
    && (forall text: string :: k.version(text).Some? ==> text != "" && !k.daemon(text) && !k.daemonPrefixed(text))
  }

  /** The keyring the control plane runs with. */
  function KeyringOf(s: Secrets): Keyring {
    Keyring(s.current, SecretVersion, IsDaemonEnvelope, (text: string) => HasScheme(SCHEME_DAEMON, text),
            (text: string) => Decrypt(s, text), (draw: nat, plaintext: string) => Encrypt(s, draw, plaintext))
  }

  /** The envelope of a plaintext under the key of a version. */
  function SealedUnder(s: Secrets, version: nat, draw: nat, plaintext: string): string {
    Format(SCHEME_SECRET, version, [s.cipher.seal(version, draw, plaintext)])
  }

  lemma SecretHasScheme(version: nat, payload: string)
    ensures HasScheme(SCHEME_SECRET, Format(SCHEME_SECRET, version, [payload]))
  {
    var tokens := [SCHEME_SECRET, "v" + Decimal(version)] + [payload];
    assert Join(tokens, '.') == SCHEME_SECRET + "." + Join(tokens[1..], '.');
  }

  /** A well-formed envelope opens to what the key of its own version makes of its payload, if there is such a key. */
  lemma DecryptFormatted(s: Secrets, version: nat, payload: string)
    requires version >= 1 && PlainField(payload)
    ensures Decrypt(s, Format(SCHEME_SECRET, version, [payload]))
            == if KnownVersion(s, version) then s.cipher.open(version, payload) else None
    ensures SecretVersion(Format(SCHEME_SECRET, version, [payload])) == Some(version)
  {
    ParseFormat(SCHEME_SECRET, version, [payload]);
    SecretHasScheme(version, payload);
  }

  /**
   * Rotation: a secret sealed under any known version, current or fallback,
   * opens to the plaintext it was sealed from.
   */
  lemma DecryptKnown(s: Secrets, version: nat, draw: nat, plaintext: string)
    requires SoundCipher(s) && KnownVersion(s, version)
    ensures Decrypt(s, SealedUnder(s, version, draw, plaintext)) == Some(plaintext)
    ensures SecretVersion(SealedUnder(s, version, draw, plaintext)) == Some(version)
  {
    var payload := s.cipher.seal(version, draw, plaintext);
    assert PlainField(payload) && s.cipher.open(version, payload) == Some(plaintext);
    DecryptFormatted(s, version, payload);
  }

  /** The text is an envelope of a known version whose payload opens to the plaintext under that version's key. */
  ghost predicate OpensTo(s: Secrets, text: string, plaintext: string) {
    exists version: nat, payload: string ::
      && KnownVersion(s, version) && version >= 1 && PlainField(payload)
      && text == Format(SCHEME_SECRET, version, [payload]) && s.cipher.open(version, payload) == Some(plaintext)
  }

  /** Decryption succeeds on those texts and on no others. */
  lemma DecryptExactly(s: Secrets, text: string, plaintext: string)
    ensures Decrypt(s, text) == Some(plaintext) <==> OpensTo(s, text, plaintext)
  {
    if Decrypt(s, text) == Some(plaintext) {
      FormatParse(SCHEME_SECRET, text, 1);
      var p := Parse(SCHEME_SECRET, text, 1).value;
      FieldsArePlain(SCHEME_SECRET, text, 1);
      assert p.fields == [p.fields[0]];
      assert KnownVersion(s, p.version);
    }
    if OpensTo(s, text, plaintext) {
      var version: nat, payload: string :|
        && KnownVersion(s, version) && version >= 1 && PlainField(payload)
        && text == Format(SCHEME_SECRET, version, [payload]) && s.cipher.open(version, payload) == Some(plaintext);
      DecryptFormatted(s, version, payload);
    }
  }

  lemma {:induction false} SplitPieces(s: string, sep: char)
    ensures forall i :: 0 <= i < |Split(s, sep)| ==> sep !in Split(s, sep)[i]
  {
    if s != "" {
      SplitPieces(s[1..], sep);
    }
  }

  /** The text is a canonical envelope of the scheme with that version and so many fields. */
  ghost predicate IsEnvelope(scheme: string, text: string, version: nat, count: nat) {
    exists fields: seq<string> ::
      && |fields| == count && (forall i :: 0 <= i < count ==> PlainField(fields[i]))
      && version >= 1 && text == Format(scheme, version, fields)
  }

  lemma FieldsArePlain(scheme: string, text: string, count: nat)
    requires Parse(scheme, text, count).Some?
    ensures forall i :: 0 <= i < count ==> PlainField(Parse(scheme, text, count).value.fields[i])
  {
    SplitPieces(text, '.');
    var fields := Split(text, '.')[2..];
    assert forall i :: 0 <= i < count ==> fields[i] in fields;
  }

  /**
   * What the sweep takes for an envelope: one field and a version under the
   * at-rest scheme, three fields under the daemon's.
   */
  lemma EnvelopesExactly(text: string, version: nat)
    ensures SecretVersion(text) == Some(version) <==> IsEnvelope(SCHEME_SECRET, text, version, 1)
    ensures IsDaemonEnvelope(text) <==> exists v: nat :: IsEnvelope(SCHEME_DAEMON, text, v, 3)
  {
    if SecretVersion(text).Some? {
      FormatParse(SCHEME_SECRET, text, 1);
      FieldsArePlain(SCHEME_SECRET, text, 1);
    }
    if IsEnvelope(SCHEME_SECRET, text, version, 1) {
      EnvelopeParses(SCHEME_SECRET, text, version, 1);
    }
    if IsDaemonEnvelope(text) {
      FormatParse(SCHEME_DAEMON, text, 3);
      FieldsArePlain(SCHEME_DAEMON, text, 3);
      assert IsEnvelope(SCHEME_DAEMON, text, Parse(SCHEME_DAEMON, text, 3).value.version, 3);
    }
    if v: nat :| IsEnvelope(SCHEME_DAEMON, text, v, 3) {
      EnvelopeParses(SCHEME_DAEMON, text, v, 3);
    }
  }

  lemma EnvelopeParses(scheme: string, text: string, version: nat, count: nat)
    requires PlainField(scheme) && IsEnvelope(scheme, text, version, count)
    ensures Parse(scheme, text, count).Some? && Parse(scheme, text, count).value.version == version
  {
    var fields: seq<string> :|
      && |fields| == count && (forall i :: 0 <= i < count ==> PlainField(fields[i]))
      && version >= 1 && text == Format(scheme, version, fields);
    ParseFormat(scheme, version, fields);
  }

  /** A freshly sealed text opens to its plaintext and carries the current version. */
  lemma EncryptLaws(s: Secrets, draw: nat, plaintext: string)
    requires SoundCipher(s)
    ensures Decrypt(s, Encrypt(s, draw, plaintext)) == Some(plaintext)
    ensures SecretVersion(Encrypt(s, draw, plaintext)) == Some(s.current)
  {
    assert Encrypt(s, draw, plaintext) == SealedUnder(s, s.current, draw, plaintext);
    DecryptKnown(s, s.current, draw, plaintext);
  }

  /** No at-rest envelope, sealed output included, is taken for a daemon envelope. */
  lemma SchemesDiffer(text: string)
    requires SecretVersion(text).Some?
    ensures text != "" && !HasScheme(SCHEME_DAEMON, text) && !IsDaemonEnvelope(text)
  {
    assert text[2] == 's';
  }

  /** The envelope code over any sound cipher is a lawful keyring. */
  lemma KeyringLawful(s: Secrets)
    requires SoundCipher(s)
    ensures Lawful(KeyringOf(s))
  {
    var k := KeyringOf(s);
    forall draw: nat, plaintext: string
      ensures k.decrypt(k.encrypt(draw, plaintext)) == Some(plaintext)
      ensures k.version(k.encrypt(draw, plaintext)) == Some(k.current)
    {
      EncryptLaws(s, draw, plaintext);
    }
    forall text: string | k.version(text).Some? ensures text != "" && !k.daemon(text) && !k.daemonPrefixed(text) {
      SchemesDiffer(text);
    }
  }
}
