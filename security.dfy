/**
 * util/SecurityManager.kt: the passcode is kept only as the lowercase hex
 * text of its SHA-256 digest, next to an "enabled" flag that defaults to off.
 * The digest (UTF-8 encoding followed by SHA-256) is a parameter.
 */
module SecurityManager {
  import opened Wrappers

  /** A digest byte, read as unsigned the way "%02x" prints a Java byte. */
  newtype byte = x: int | 0 <= x < 256

  /** A passcode as the keypad produces it: four decimal digits. */
  predicate IsPasscode(p: string)
  {
    |p| == 4 && forall i :: 0 <= i < 4 ==> '0' <= p[i] <= '9'
  }

  /**
   * What the model assumes of the digest: 32 bytes for every input, and no
   * two four-digit passcodes share one.
   */
  ghost predicate SoundDigest(digest: string -> seq<byte>)
  {
    && (forall s :: |digest(s)| == 32)
    && (forall p, q :: IsPasscode(p) && IsPasscode(q) && digest(p) == digest(q) ==> p == q)
  }

  /** The lowercase hex digit for 0..15. */
  function HexDigit(n: nat): (c: char)
    requires n < 16
    ensures ('0' <= c <= '9') || ('a' <= c <= 'f')
    ensures c as int == if n < 10 then '0' as int + n else 'a' as int + n - 10
  {
    "0123456789abcdef"[n]
  }

  /** "%02x" of one byte. */
  function HexByte(b: byte): (s: string)
    ensures |s| == 2
  {
    [HexDigit(b as int / 16), HexDigit(b as int % 16)]
  }

  lemma HexDigitInjective(m: nat, n: nat)
    requires m < 16 && n < 16 && HexDigit(m) == HexDigit(n)
    ensures m == n
  {
    var c, d := HexDigit(m) as int, HexDigit(n) as int;
    assert c == d;
  }

  lemma HexByteInjective(a: byte, b: byte)
    requires HexByte(a) == HexByte(b)
    ensures a == b
  {
    var x, y := a as int, b as int;
    assert 0 <= x < 256 && 0 <= y < 256;
    HexDigitInjective(x / 16, y / 16);
    HexDigitInjective(x % 16, y % 16);
    SameDigitsSameByte(x, y);
  }

  lemma SameDigitsSameByte(x: int, y: int)
    requires x / 16 == y / 16 && x % 16 == y % 16
    ensures x == y
  {
    assert x == (x / 16) * 16 + x % 16;
    assert y == (y / 16) * 16 + y % 16;
  }

  /** The fold of "%02x" over the digest bytes, left to right. */
  function Hex(bytes: seq<byte>): (s: string)
    ensures |s| == 2 * |bytes|
    ensures forall i :: 0 <= i < |s| ==> ('0' <= s[i] <= '9') || ('a' <= s[i] <= 'f')
  {
    if bytes == [] then "" else Hex(bytes[..|bytes| - 1]) + HexByte(bytes[|bytes| - 1])
  }

  lemma {:induction false} HexInjective(a: seq<byte>, b: seq<byte>)
    requires Hex(a) == Hex(b)
    ensures a == b
  {
    if a != [] {
      var n := |a|;
      assert |b| == n;
      var ha, hb := Hex(a), Hex(b);
      assert ha[2 * n - 2..] == HexByte(a[n - 1]);
      assert hb[2 * n - 2..] == HexByte(b[n - 1]);
      HexByteInjective(a[n - 1], b[n - 1]);
      assert ha[..2 * n - 2] == Hex(a[..n - 1]);
      assert hb[..2 * n - 2] == Hex(b[..n - 1]);
      HexInjective(a[..n - 1], b[..n - 1]);
      assert a == a[..n - 1] + [a[n - 1]];
      assert b == b[..n - 1] + [b[n - 1]];
    }
  }

  /** hashPasscode: the lower-case hex text of the digest, two characters per byte. */
  function HashPasscode(digest: string -> seq<byte>, p: string): (h: string)
    ensures |h| == 2 * |digest(p)|
    ensures forall i :: 0 <= i < |h| ==> ('0' <= h[i] <= '9') || ('a' <= h[i] <= 'f')
  {
    Hex(digest(p))
  }

  /** verifyPasscode on a stored value: nothing stored, or an empty hash, never matches. */
  function Verifies(digest: string -> seq<byte>, stored: Option<string>, q: string): (ok: bool)
    ensures stored.None? ==> !ok
    ensures ok ==> stored.Some? && stored.value == HashPasscode(digest, q)
  {
    stored.Some? && stored.value != "" && HashPasscode(digest, q) == stored.value
  }

  /** Once `p` is saved, a passcode verifies exactly when it is `p`. */
  lemma {:induction false} SavedPasscodeVerifies(digest: string -> seq<byte>, p: string, q: string)
    requires SoundDigest(digest) && IsPasscode(p) && IsPasscode(q)
    ensures Verifies(digest, Some(HashPasscode(digest, p)), q) <==> q == p
  {
    assert |HashPasscode(digest, p)| == 64;
    if Verifies(digest, Some(HashPasscode(digest, p)), q) {
      HexInjective(digest(q), digest(p));
    }
  }

  /** The security preferences file: the stored hash and the enabled flag, each possibly absent. */
  class SecurityPrefs {
    var passcodeHash: Option<string>
    var passcodeEnabled: Option<bool>
    const digest: string -> seq<byte>

    constructor (digest: string -> seq<byte>, hash: Option<string>, enabled: Option<bool>)
      ensures this.digest == digest && passcodeHash == hash && passcodeEnabled == enabled
    {
      this.digest := digest;
      passcodeHash := hash;
      passcodeEnabled := enabled;
    }

    method SavePasscode(p: string)
      modifies this
      ensures passcodeHash == Some(HashPasscode(digest, p))
      ensures passcodeEnabled == old(passcodeEnabled)
    {
      passcodeHash := Some(HashPasscode(digest, p));
    }

    /** Nothing stored, or an empty stored hash, never verifies; a match is the hash of `q`. */
    function VerifyPasscode(q: string): (ok: bool)
      reads this
      ensures passcodeHash.None? || passcodeHash == Some("") ==> !ok
      ensures ok ==> passcodeHash == Some(HashPasscode(digest, q))
    {
      Verifies(digest, passcodeHash, q)
    }

    function IsPasscodeEnabled(): (enabled: bool)
      reads this
      ensures passcodeEnabled.None? ==> !enabled
      ensures passcodeEnabled.Some? ==> enabled == passcodeEnabled.value
    {
      passcodeEnabled.Some? && passcodeEnabled.value
    }

    method SetPasscodeEnabled(enabled: bool)
      modifies this
      ensures passcodeEnabled == Some(enabled) && passcodeHash == old(passcodeHash)
      ensures IsPasscodeEnabled() == enabled
    {
      passcodeEnabled := Some(enabled);
    }

    /** Removes both entries: protection reads as off and no passcode verifies. */
    method ClearPasscode()
      modifies this
      ensures passcodeHash == None && passcodeEnabled == None
      ensures !IsPasscodeEnabled()
      ensures forall q :: !VerifyPasscode(q)
    {
      passcodeHash := None;
      passcodeEnabled := None;
    }
  }
}
