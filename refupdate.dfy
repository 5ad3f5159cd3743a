/**
 * The reference-update reporter `update_cb` (src/clone.c:283-295): the line
 * written for a reference that moved from object id `a` to object id `b`.
 *
 * An object id is 20 bytes; `git_oid_fmt` writes it as 40 lower-case hex
 * digits. A zero old id gives "[new]" and the first 20 digits of the new id;
 * otherwise "[updated]" and the first 10 digits of each.
 */
module RefUpdate {
  import opened Wrappers

  type byte = bv8

  /** `GIT_OID_RAWSZ` bytes. */
  type Oid = s: seq<byte> | |s| == 20 witness seq(20, _ => 0 as byte)

  const HexDigits: string := "0123456789abcdef"

  function HexDigit(n: nat): (c: char)
    requires n < 16
  {
    HexDigits[n]
  }

  /** `git_oid_fmt`: two lower-case hex digits per byte, high nibble first. */
  function Hex(s: seq<byte>): (t: string)
    ensures |t| == 2 * |s|
  {
    if s == [] then ""
    else [HexDigit(s[0] as int / 16), HexDigit(s[0] as int % 16)] + Hex(s[1..])
  }

  /** The value of a lower-case hex digit. */
  function DigitValue(c: char): (v: Option<nat>)
    ensures v.Some? ==> v.value < 16 && HexDigit(v.value) == c
  {
    if '0' <= c <= '9' then Some(c as int - '0' as int)
    else if 'a' <= c <= 'f' then Some(c as int - 'a' as int + 10)
    else None
  }

  /** Reads back a hex string written by Hex. */
  function Unhex(t: string): Option<seq<byte>>
    decreases |t|
  {
    if t == [] then Some([])
    else if |t| == 1 then None
    else
      match (DigitValue(t[0]), DigitValue(t[1]), Unhex(t[2..]))
      case (Some(hi), Some(lo), Some(rest)) => Some([(hi * 16 + lo) as byte] + rest)
      case _ => None
  }

  lemma DigitRoundTrip(n: nat)
    requires n < 16
    ensures DigitValue(HexDigit(n)) == Some(n)
  {
  }

  lemma NibblesRebuildByte(b: byte)
    ensures ((b as int / 16) * 16 + b as int % 16) as byte == b
  {
    var n := b as int;
    assert (n / 16) * 16 + n % 16 == n;
  }

  /** Unhex reads one byte off the front of a string. */
  lemma UnhexStep(t: string, hi: nat, lo: nat, rest: seq<byte>)
    requires |t| >= 2 && hi < 16 && lo < 16
    requires t[0] == HexDigit(hi) && t[1] == HexDigit(lo) && Unhex(t[2..]) == Some(rest)
    ensures Unhex(t) == Some([(hi * 16 + lo) as byte] + rest)
  {
    DigitRoundTrip(hi);
    DigitRoundTrip(lo);
  }

  lemma HexFront(s: seq<byte>)
    requires s != []
    ensures Hex(s)[0] == HexDigit(s[0] as int / 16) && Hex(s)[1] == HexDigit(s[0] as int % 16)
    ensures Hex(s)[2..] == Hex(s[1..])
  {
  }

  /** Hex loses nothing: the written id reads back to the bytes. */
  lemma {:induction false} HexRoundTrip(s: seq<byte>)
    ensures Unhex(Hex(s)) == Some(s)
  {
    if s != [] {
      var hi, lo := s[0] as int / 16, s[0] as int % 16;
      var t := Hex(s);
      HexFront(s);
      HexRoundTrip(s[1..]);
      UnhexStep(t, hi, lo, s[1..]);
      NibblesRebuildByte(s[0]);
      assert [s[0]] + s[1..] == s;
    }
  }

  /** The first 2k digits of an id are the hex of its first k bytes. */
  lemma {:induction false} HexPrefix(s: seq<byte>, k: nat)
    requires k <= |s|
    ensures Hex(s)[..2 * k] == Hex(s[..k])
  {
    if k > 0 {
      HexPrefix(s[1..], k - 1);
      assert s[..k][1..] == s[1..][..k - 1];
    }
  }

  /** The all-zero id libgit2 reports as the old id of a new reference. */
  const ZeroOid: Oid := [0, 0, 0, 0, 0, 0, 0, 0, 0, 0, 0, 0, 0, 0, 0, 0, 0, 0, 0, 0]

  /** `git_oid_iszero`: every byte is 0, that is, the id is the zero id. */
  function IsZero(a: Oid): (b: bool)
    ensures b <==> a == ZeroOid
  {
    forall i :: 0 <= i < |a| ==> a[i] == 0
  }

  /**
   * The line `update_cb` writes: a 10-character tag, the short id(s) (20 hex
   * digits for a new reference, 10 + ".." + 10 for an update), a space, the
   * reference name and a newline.
   */
  function UpdateLine(refname: string, a: Oid, b: Oid): (line: string)
    ensures |line| == 10 + (if IsZero(a) then 20 else 22) + 1 + |refname| + 1
    ensures line[..10] == (if IsZero(a) then "[new]     " else "[updated] ")
    ensures line[|line| - |refname| - 2..] == " " + refname + "\n"
  {
    var bStr := Hex(b);
    if IsZero(a) then "[new]     " + bStr[..20] + " " + refname + "\n"
    else "[updated] " + Hex(a)[..10] + ".." + bStr[..10] + " " + refname + "\n"
  }

  /**
   * A new reference shows the first 10 bytes of the new id; an updated one
   * the first 5 bytes of each id. The short ids read back to those bytes.
   */
  lemma UpdateLineShowsShortIds(refname: string, a: Oid, b: Oid)
    ensures IsZero(a) ==>
      UpdateLine(refname, a, b) == "[new]     " + Hex(b[..10]) + " " + refname + "\n"
    ensures !IsZero(a) ==>
      UpdateLine(refname, a, b) == "[updated] " + Hex(a[..5]) + ".." + Hex(b[..5]) + " " + refname + "\n"
    ensures Unhex(Hex(b)[..20]) == Some(b[..10])
    ensures Unhex(Hex(a)[..10]) == Some(a[..5])
  {
    HexPrefix(b, 10);
    HexPrefix(b, 5);
    HexPrefix(a, 5);
    HexRoundTrip(b[..10]);
    HexRoundTrip(a[..5]);
  }

  /** The tag tells the two cases apart. */
  lemma UpdateLineTag(refname: string, a: Oid, b: Oid)
    ensures UpdateLine(refname, a, b)[..5] == "[new]" <==> IsZero(a)
  {
    var l := UpdateLine(refname, a, b);
    if !IsZero(a) {
      assert l[1] == 'u';
    }
  }
}
