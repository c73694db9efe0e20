/**
 The two forms a stored value has: the at-rest ciphertext of a user's text, or a value the
 user's own devices encrypted, of which only the shape is known.
 */
module Encryption {
  import opened Options

  type UserId = nat

  const PREFIX := "e2ee:v1:"

  // A 12-byte nonce and a 16-byte authentication tag
  const MIN_BLOB_BYTES := 28

  const INDEX_LENGTH := 32

  const KEY_CHECK_LENGTH := 64

  predicate IsBase64Char(c: char) {
    'A' <= c <= 'Z' || 'a' <= c <= 'z' || '0' <= c <= '9' || c == '+' || c == '/'
  }

  // Line breaks are skipped wherever they stand
  function WithoutBreaks(s: string): (t: string)
    ensures forall c :: c in t <==> c in s && c != '\r' && c != '\n'
    decreases |s|
  {
    if s == [] then []
    else if s[0] == '\r' || s[0] == '\n' then WithoutBreaks(s[1..])
    else [s[0]] + WithoutBreaks(s[1..])
  }

  function Padding(s: string): (n: nat)
    ensures n <= |s| && n <= 2
  {
    if |s| >= 2 && s[|s| - 2] == '=' && s[|s| - 1] == '=' then 2
    else if |s| >= 1 && s[|s| - 1] == '=' then 1
    else 0
  }

  // The length of what standard padded base64 (section 4 of RFC 4648) decodes to
  function DecodedLength(s: string): Option<nat> {
    var t := WithoutBreaks(s);
    var pad := Padding(t);
    if |t| % 4 == 0 && forall i | 0 <= i < |t| - pad :: IsBase64Char(t[i]) then Some(3 * (|t| / 4) - pad) else None
  }

  predicate IsBlob(s: string) {
    && PREFIX <= s
    && DecodedLength(s[|PREFIX|..]).Some?
    && DecodedLength(s[|PREFIX|..]).value >= MIN_BLOB_BYTES
  }

  predicate IsLowerHex(s: string, length: nat) {
    |s| == length && forall c | c in s :: '0' <= c <= '9' || 'a' <= c <= 'f'
  }

  predicate IsIndex(s: string) {
    IsLowerHex(s, INDEX_LENGTH)
  }

  predicate IsKeyCheck(s: string) {
    IsLowerHex(s, KEY_CHECK_LENGTH)
  }

  // At-rest encryption: one function per user, with its inverse
  datatype Cipher = Cipher(enc: (UserId, string) -> string, dec: (UserId, string) -> Option<string>)

  // The base64 of a nonce, a text of any length encrypted, and its authentication tag
  predicate IsCiphertext(value: string) {
    DecodedLength(value).Some? && DecodedLength(value).value >= MIN_BLOB_BYTES
  }

  ghost predicate Sound(k: Cipher) {
    && (forall u, s {:trigger k.enc(u, s)} :: k.dec(u, k.enc(u, s)) == Some(s))
    && (forall u, s {:trigger k.enc(u, s)} :: IsCiphertext(k.enc(u, s)))
    && (forall u, value {:trigger k.dec(u, value)} :: k.dec(u, value).Some? ==> IsCiphertext(value))
  }

  lemma Base64HasNoColon(s: string)
    requires DecodedLength(s).Some?
    ensures ':' !in s
  {
    var t := WithoutBreaks(s);
    if ':' in s {
      assert ':' in t;
      var i :| 0 <= i < |t| && t[i] == ':';
      assert false;
    }
  }

  // A blob is never the at-rest ciphertext of anything, and does not decrypt as one
  lemma BlobsAreNotAtRest(k: Cipher, u: UserId, text: string, blob: string)
    requires Sound(k) && IsBlob(blob)
    ensures k.enc(u, text) != blob && k.dec(u, blob) == None
  {
    assert blob[4] == PREFIX[4] == ':';
    if IsCiphertext(blob) {
      Base64HasNoColon(blob);
    }
    assert !IsCiphertext(blob);
  }

  // Nor is the empty value
  lemma EmptyIsNotAtRest(k: Cipher, u: UserId, text: string)
    requires Sound(k)
    ensures k.enc(u, text) != "" && k.dec(u, "") == None
  {
    assert !IsCiphertext("");
  }

  // What a user's text looks like at rest
  predicate AtRest(k: Cipher, u: UserId, value: string) {
    k.dec(u, value).Some? && k.enc(u, k.dec(u, value).value) == value
  }

  lemma EncIsInjective(k: Cipher, u: UserId, a: string, b: string)
    requires Sound(k) && k.enc(u, a) == k.enc(u, b)
    ensures a == b
  {
    assert k.dec(u, k.enc(u, a)) == Some(a) && k.dec(u, k.enc(u, b)) == Some(b);
  }

  // ---- The assumptions can be met ----

  // A character by its number, in groups of four letters
  function SpellNumber(n: nat): string {
    if n == 0 then "BBBB" else "AAAA" + SpellNumber(n - 1)
  }

  function Spell(s: string): string
    decreases |s|
  {
    if s == [] then [] else SpellNumber(s[0] as int) + Spell(s[1..])
  }

  predicate IsScalar(n: nat) {
    n < 0xD800 || 0xE000 <= n < 0x11_0000
  }

  function Unspell(t: string, n: nat): Option<string>
    decreases |t|
  {
    if t == [] then (if n == 0 then Some([]) else None)
    else if "AAAA" <= t then Unspell(t[4..], n + 1)
    else if "BBBB" <= t && IsScalar(n) then
      var rest := Unspell(t[4..], 0);
      if rest.None? then None else Some([n as char] + rest.value)
    else None
  }

  lemma {:induction false} UnspellNumber(n: nat, m: nat, t: string)
    requires IsScalar(m + n)
    ensures Unspell(SpellNumber(n) + t, m) ==
            var rest := Unspell(t, 0); if rest.None? then None else Some([(m + n) as char] + rest.value)
    decreases n
  {
    var u := SpellNumber(n) + t;
    assert u[4..] == if n == 0 then t else SpellNumber(n - 1) + t;
    if n == 0 {
      assert u[0] == 'B' && "BBBB" <= u;
    } else {
      UnspellNumber(n - 1, m + 1, t);
    }
  }

  lemma {:induction false} UnspellSpell(s: string)
    ensures Unspell(Spell(s), 0) == Some(s)
    decreases |s|
  {
    if s != [] {
      UnspellSpell(s[1..]);
      UnspellNumber(s[0] as int, 0, Spell(s[1..]));
      assert s == [s[0]] + s[1..];
    }
  }

  predicate IsSpelt(t: string) {
    |t| % 4 == 0 && forall c | c in t :: c == 'A' || c == 'B'
  }

  lemma SpeltTogether(s: string, t: string)
    requires IsSpelt(s) && IsSpelt(t)
    ensures IsSpelt(s + t)
  {
  }

  lemma {:induction false} NumberIsSpelt(n: nat)
    ensures IsSpelt(SpellNumber(n))
    decreases n
  {
    if n > 0 {
      NumberIsSpelt(n - 1);
    }
  }

  lemma {:induction false} SpellIsSpelt(s: string)
    ensures IsSpelt(Spell(s))
    decreases |s|
  {
    if s != [] {
      NumberIsSpelt(s[0] as int);
      SpellIsSpelt(s[1..]);
    }
  }

  lemma {:induction false} UnspeltWasSpelt(t: string, n: nat)
    requires Unspell(t, n).Some?
    ensures IsSpelt(t)
    decreases |t|
  {
    if t != [] {
      UnspeltWasSpelt(t[4..], if "AAAA" <= t then n + 1 else 0);
      assert t == t[..4] + t[4..];
      assert forall i | 0 <= i < 4 :: t[i] == if "AAAA" <= t then "AAAA"[i] else "BBBB"[i];
      SpeltTogether(t[..4], t[4..]);
    }
  }

  lemma {:induction false} NothingToSkip(s: string)
    requires forall c | c in s :: c == 'A' || c == 'B'
    ensures WithoutBreaks(s) == s
    decreases |s|
  {
    if s != [] {
      assert s[0] in s && forall c | c in s[1..] :: c in s;
      NothingToSkip(s[1..]);
      assert s == [s[0]] + s[1..];
    }
  }

  // Forty letters are thirty bytes
  const PAD := "AAAAAAAAAAAAAAAAAAAAAAAAAAAAAAAAAAAAAAAA"

  lemma PaddedIsCiphertext(t: string)
    requires IsSpelt(t)
    ensures IsCiphertext(PAD + t)
  {
    assert IsSpelt(PAD) && |PAD| == 40;
    SpeltTogether(PAD, t);
    NothingToSkip(PAD + t);
    assert forall i | 0 <= i < |PAD + t| :: (PAD + t)[i] in PAD + t;
    hide IsSpelt;
    assert DecodedLength(PAD + t) == Some(3 * (|PAD + t| / 4));
  }

  const SPELLING := Cipher((u, s) => PAD + Spell(s), (u, t) => if PAD <= t then Unspell(t[|PAD|..], 0) else None)

  // Some cipher is as assumed, so the results that assume it are about something
  lemma SoundCipherExists()
    ensures Sound(SPELLING)
  {
    hide IsCiphertext;
    forall u: UserId, s: string
      ensures SPELLING.dec(u, SPELLING.enc(u, s)) == Some(s) && IsCiphertext(SPELLING.enc(u, s))
    {
      assert (PAD + Spell(s))[|PAD|..] == Spell(s);
      UnspellSpell(s);
      SpellIsSpelt(s);
      PaddedIsCiphertext(Spell(s));
    }
    forall u: UserId, value: string | SPELLING.dec(u, value).Some?
      ensures IsCiphertext(value)
    {
      UnspeltWasSpelt(value[|PAD|..], 0);
      PaddedIsCiphertext(value[|PAD|..]);
      assert value == PAD + value[|PAD|..];
    }
  }
}
