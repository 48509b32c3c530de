/** File names of the cache bucket: their shapes and their byte order. */
module CacheNames {
  import opened Sorting

  type Byte = b: nat | b < 256

  type Name = seq<Byte>

  predicate IsDigit(b: Byte) { 48 <= b <= 57 }

  predicate IsHex(b: Byte) { IsDigit(b) || 97 <= b <= 102 }

  predicate IsAlphanumeric(b: Byte) { IsDigit(b) || 65 <= b <= 90 || 97 <= b <= 122 }

  /** A published cache file. */
  predicate HexName(name: Name) {
    |name| == 8 && forall i :: 0 <= i < 8 ==> IsHex(name[i])
  }

  /** A producer's temporary file: a published name, a dot, six letters or digits. */
  predicate TemporaryName(name: Name) {
    |name| == 15 && HexName(name[..8]) && name[8] == 46 && forall i :: 9 <= i < 15 ==> IsAlphanumeric(name[i])
  }

  const HEX_DIGITS := "0123456789abcdef"

  /** Every byte is the code of a character of `alphabet`. */
  ghost predicate Spelled(name: Name, alphabet: string) {
    forall i :: 0 <= i < |name| ==> name[i] as char in alphabet
  }

  lemma HexDigits(b: Byte)
    ensures IsHex(b) <==> b as char in HEX_DIGITS
  {
    if IsHex(b) { assert HEX_DIGITS[if b < 58 then b - 48 else b - 87] == b as char; }
  }

  predicate LetterOrDigit(c: char) { '0' <= c <= '9' || 'a' <= c <= 'z' || 'A' <= c <= 'Z' }

  /** The names of published files, letter by letter. */
  lemma HexNameSpelled(name: Name)
    ensures HexName(name) <==> |name| == 8 && Spelled(name, HEX_DIGITS)
  {
    forall i | 0 <= i < |name| ensures IsHex(name[i]) <==> name[i] as char in HEX_DIGITS { HexDigits(name[i]); }
  }

  /** The names of temporary files, letter by letter. */
  lemma TemporaryNameSpelled(name: Name)
    ensures TemporaryName(name) <==>
      && |name| == 15 && Spelled(name[..8], HEX_DIGITS) && name[8] as char == '.'
      && forall i :: 9 <= i < 15 ==> LetterOrDigit(name[i] as char)
  {
    if |name| == 15 {
      HexNameSpelled(name[..8]);
    }
  }

  // ------------------------------------------------------------------ byte order

  predicate AtMost(a: Name, b: Name) {
    a == [] || (b != [] && (a[0] < b[0] || (a[0] == b[0] && AtMost(a[1..], b[1..]))))
  }

  lemma {:induction false} Total(a: Name, b: Name)
    ensures AtMost(a, b) || AtMost(b, a)
    ensures AtMost(a, b) && AtMost(b, a) ==> a == b
    decreases |a|
  {
    if a != [] && b != [] {
      Total(a[1..], b[1..]);
      assert a == [a[0]] + a[1..] && b == [b[0]] + b[1..];
    }
  }

  lemma {:induction false} Transitive(a: Name, b: Name, c: Name)
    requires AtMost(a, b) && AtMost(b, c)
    ensures AtMost(a, c)
    decreases |a|
  {
    if a != [] && a[0] == b[0] == c[0] { Transitive(a[1..], b[1..], c[1..]); }
  }

  lemma ByteOrder()
    ensures TotalOrder(AtMost)
  {
    forall a, b ensures AtMost(a, b) || AtMost(b, a) { Total(a, b); }
    forall a, b | AtMost(a, b) && AtMost(b, a) ensures a == b { Total(a, b); }
    forall a, b, c | AtMost(a, b) && AtMost(b, c) ensures AtMost(a, c) { Transitive(a, b, c); }
  }

  ghost predicate InByteOrder(names: seq<Name>) { Ordered(AtMost, names) }
}
