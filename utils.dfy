/** Credential derivation (utils/utils.go): the username is a fixed prefix
    followed by the binding word; the password is the lower-case hexadecimal
    rendering of the SHA-1 digest of the word followed by the salt. */
module Utils {

  import opened Outcomes

  const UsernamePrefix: string := "tsuru_"

  /** The username derived from a binding word (an application host). */
  function GenerateUsername(word: string): (username: string)
    ensures |username| == |UsernamePrefix| + |word|
    ensures username[..|UsernamePrefix|] == UsernamePrefix
    ensures username[|UsernamePrefix|..] == word
  {
    UsernamePrefix + word
  }

  /** The binding word a username was derived from, if it was derived at all. */
  function WordOfUsername(username: string): Option<string>
  {
    if |username| >= |UsernamePrefix| && username[..|UsernamePrefix|] == UsernamePrefix
    then Some(username[|UsernamePrefix|..])
    else None
  }

  /** Deriving a username and reading the word back is the identity, and a
      username that reads back to a word is exactly that word's username. */
  lemma UsernameRoundTrip(word: string, username: string)
    ensures WordOfUsername(GenerateUsername(word)) == Some(word)
    ensures WordOfUsername(username) == Some(word) ==> GenerateUsername(word) == username
  {
    if WordOfUsername(username) == Some(word) {
      assert username == username[..|UsernamePrefix|] + username[|UsernamePrefix|..];
    }
  }

  /** Distinct binding words give distinct usernames. */
  lemma UsernameInjective(w1: string, w2: string)
    ensures GenerateUsername(w1) == GenerateUsername(w2) <==> w1 == w2
  {
    if GenerateUsername(w1) == GenerateUsername(w2) {
      UsernameRoundTrip(w1, GenerateUsername(w2));
      UsernameRoundTrip(w2, GenerateUsername(w2));
    }
  }

  // ---- Hexadecimal rendering of a digest, as Go's "%x" verb does it ----

  type Byte = b: int | 0 <= b < 256

  /** A SHA-1 digest: 20 bytes. */
  type Digest = d: seq<Byte> | |d| == 20 witness seq(20, _ => 0)

  const HexDigits: string := "0123456789abcdef"

  predicate IsLowerHex(s: string) {
    forall i :: 0 <= i < |s| ==> s[i] in HexDigits
  }

  /** Each byte becomes two lower-case hexadecimal digits, high nibble first. */
  function HexEncode(bytes: seq<Byte>): (s: string)
    ensures |s| == 2 * |bytes|
    ensures IsLowerHex(s)
  {
    if bytes == [] then []
    else [HexDigits[bytes[0] / 16], HexDigits[bytes[0] % 16]] + HexEncode(bytes[1..])
  }

  /** The value of a lower-case hexadecimal digit. */
  function HexValue(c: char): (v: Option<nat>)
    ensures v.Some? ==> v.value < 16
  {
    if '0' <= c <= '9' then Some(c as int - '0' as int)
    else if 'a' <= c <= 'f' then Some(c as int - 'a' as int + 10)
    else None
  }

  /** Reads back the bytes of a lower-case hexadecimal string. */
  function HexDecode(s: string): Option<seq<Byte>>
  {
    if s == [] then Some([])
    else if |s| < 2 then None
    else
      var hi, lo, rest := HexValue(s[0]), HexValue(s[1]), HexDecode(s[2..]);
      if hi.Some? && lo.Some? && rest.Some? then Some([hi.value * 16 + lo.value] + rest.value)
      else None
  }

  lemma HexDigitValue(n: nat)
    requires n < 16
    ensures HexValue(HexDigits[n]) == Some(n)
  {
  }

  /** Decoding the hexadecimal rendering of bytes gives the bytes back. */
  lemma {:induction false} HexRoundTrip(bytes: seq<Byte>)
    ensures HexDecode(HexEncode(bytes)) == Some(bytes)
  {
    if bytes != [] {
      var b := bytes[0];
      var hi, lo := b / 16, b % 16;
      HexDigitValue(hi);
      HexDigitValue(lo);
      HexRoundTrip(bytes[1..]);
      var t := HexEncode(bytes[1..]);
      var s := [HexDigits[hi], HexDigits[lo]] + t;
      assert HexEncode(bytes) == s;
      assert s[0] == HexDigits[hi] && s[1] == HexDigits[lo] && s[2..] == t;
      assert HexDecode(s) == Some([hi * 16 + lo] + bytes[1..]);
      assert [b] + bytes[1..] == bytes;
    }
  }

  /** The password for a binding word: `sha1` stands for the SHA-1 hash
      (foreign code), applied to the word followed by the salt. */
  function GeneratePassword(sha1: string -> Digest, word: string, salt: string): (password: string)
    ensures |password| == 40
    ensures IsLowerHex(password)
    ensures HexDecode(password) == Some(sha1(word + salt))
  {
    HexRoundTrip(sha1(word + salt));
    HexEncode(sha1(word + salt))
  }

  /** Two passwords are equal exactly when the hash gave the same digest:
      the password is a deterministic function of the word and the salt, and
      the hexadecimal rendering loses nothing. */
  lemma PasswordDeterminedByDigest(sha1: string -> Digest, w1: string, s1: string, w2: string, s2: string)
    ensures GeneratePassword(sha1, w1, s1) == GeneratePassword(sha1, w2, s2)
        <==> sha1(w1 + s1) == sha1(w2 + s2)
  {
  }
}
