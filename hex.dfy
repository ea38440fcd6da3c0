/**
 * Event topics and the addresses inside them. A topic is a 32-byte word; the
 * monitor sees it through `HexBytes.hex()` (`0x` followed by two lower-case
 * hex digits per byte) and reads an address as its last 40 hex digits
 * (src/scripts/new_bridge_users_reward.py lines 37 and 58). The filter for mint
 * events builds the opposite direction: the zero address left-padded with `0`
 * to a full 64-digit topic (line 31).
 */
module Hex {
  import opened PyText

  newtype byte = x: int | 0 <= x < 256

  /** A log topic as the node returns it (32 bytes for every real log). */
  type Topic = seq<byte>

  const DIGITS: string := "0123456789abcdef"

  /** `web3.constants.ADDRESS_ZERO`: `0x` followed by forty `0` digits. */
  function AddressZero(): string {
    "0x" + seq(40, _ => '0')
  }

  predicate IsHexChar(c: char) {
    ('0' <= c <= '9') || ('a' <= c <= 'f') || ('A' <= c <= 'F')
  }

  predicate IsHexString(s: string) {
    forall i :: 0 <= i < |s| ==> IsHexChar(s[i])
  }

  function ByteHex(b: byte): (r: string)
    ensures |r| == 2 && IsHexString(r)
  {
    [DIGITS[b as int / 16], DIGITS[b as int % 16]]
  }

  /** Two hex digits per byte, most significant nibble first. */
  function Hex(bs: seq<byte>): (r: string)
    ensures |r| == 2 * |bs|
    ensures IsHexString(r)
  {
    if bs == [] then "" else ByteHex(bs[0]) + Hex(bs[1..])
  }

  /** `HexBytes.hex()` */
  function TopicHex(t: Topic): string {
    "0x" + Hex(t)
  }

  /** Line 31 with `ADDRESS_ZERO` replaced by any address: `add_0x_prefix(remove_0x_prefix(a).rjust(64, '0'))`. */
  function PaddedTopic(address: string): string {
    Add0x(RJust(Remove0x(address), 64, '0'))
  }

  /** The second topic of the mint filter: a transfer from the zero address. */
  function ZeroTopic(): string {
    PaddedTopic(AddressZero())
  }

  /** Lines 37 and 58 on the hex text of a topic: `add_0x_prefix(remove_0x_prefix(h)[-40:])`. */
  function TopicTextAddress(h: string): string {
    Add0x(TakeLast(Remove0x(h), 40))
  }

  /** The address a log topic carries. */
  function TopicAddress(t: Topic): string {
    TopicTextAddress(TopicHex(t))
  }

  lemma {:induction false} HexAppend(a: seq<byte>, b: seq<byte>)
    ensures Hex(a + b) == Hex(a) + Hex(b)
  {
    if a == [] {
      assert a + b == b;
    } else {
      assert (a + b)[1..] == a[1..] + b;
      HexAppend(a[1..], b);
    }
  }

  /** Byte `i` is written at positions `2*i` and `2*i + 1`. */
  lemma {:induction false} HexAt(bs: seq<byte>, i: nat)
    requires i < |bs|
    ensures Hex(bs)[2 * i .. 2 * i + 2] == ByteHex(bs[i])
  {
    if i > 0 {
      HexAt(bs[1..], i - 1);
      assert Hex(bs) == ByteHex(bs[0]) + Hex(bs[1..]);
      assert Hex(bs)[2 * i .. 2 * i + 2] == Hex(bs[1..])[2 * (i - 1) .. 2 * (i - 1) + 2];
    }
  }

  lemma {:induction false} HexOfZeros(n: nat)
    ensures Hex(seq(n, _ => 0 as byte)) == seq(2 * n, _ => '0')
  {
    if n > 0 {
      var z := seq(n, _ => 0 as byte);
      assert z[1..] == seq(n - 1, _ => 0 as byte);
      HexOfZeros(n - 1);
      assert ByteHex(0) == "00";
    }
  }

  /** A hex string of two or more characters does not look `0x`-prefixed. */
  lemma HexNotPrefixed(s: string)
    requires IsHexString(s) && |s| >= 2
    ensures !Is0xPrefixed(s)
  {
    assert IsHexChar(s[1]);
  }

  /** Topic extraction reads the low 20 bytes of a 32-byte word. */
  lemma TopicAddressOfWord(t: Topic)
    requires |t| == 32
    ensures TopicAddress(t) == "0x" + Hex(t[12..])
    ensures |TopicAddress(t)| == 42
  {
    var h := Hex(t);
    assert StartsWith(TopicHex(t), "0x");
    assert Remove0x(TopicHex(t)) == h;
    assert t == t[..12] + t[12..];
    HexAppend(t[..12], t[12..]);
    assert TakeLast(h, 40) == h[24..] == Hex(t[12..]);
    HexNotPrefixed(Hex(t[12..]));
  }

  /** Padding 40 hex digits to 64 and taking the last 40 gives them back. */
  lemma PadThenTake(body: string)
    requires |body| == 40
    ensures |RJust(body, 64, '0')| == 64
    ensures TakeLast(RJust(body, 64, '0'), 40) == body
  {
  }

  /** Round trip of lines 31 and 37 on the text of any address. */
  lemma {:induction false} AddressTopicRoundTrip(body: string)
    requires |body| == 40 && IsHexString(body)
    ensures |PaddedTopic("0x" + body)| == 66
    ensures StartsWith(PaddedTopic("0x" + body), "0x")
    ensures TopicTextAddress(PaddedTopic("0x" + body)) == "0x" + body
  {
    var a := "0x" + body;
    assert StartsWith(a, "0x");
    assert Remove0x(a) == body;
    var padded := RJust(body, 64, '0');
    PadThenTake(body);
    assert padded[0] == '0' && padded[1] == '0';
    assert !Is0xPrefixed(padded);
    assert PaddedTopic(a) == "0x" + padded;
    assert StartsWith(PaddedTopic(a), "0x");
    assert Remove0x(PaddedTopic(a)) == padded;
    HexNotPrefixed(body);
  }

  /** The mint filter's second topic is exactly the hex text of the all-zero word. */
  lemma ZeroTopicIsZeroWord()
    ensures ZeroTopic() == TopicHex(seq(32, _ => 0 as byte))
    ensures TopicAddress(seq(32, _ => 0 as byte)) == AddressZero()
  {
    var body := AddressZero()[2..];
    assert AddressZero()[..2] == "0x";
    assert body == seq(40, _ => '0');
    assert StartsWith(AddressZero(), "0x");
    assert Remove0x(AddressZero()) == body;
    assert RJust(body, 64, '0') == seq(64, _ => '0');
    HexOfZeros(32);
    var z := seq(32, _ => 0 as byte);
    assert RJust(body, 64, '0')[1] == '0';
    assert ZeroTopic() == "0x" + seq(64, _ => '0');
    TopicAddressOfWord(z);
    HexOfZeros(20);
    assert z[12..] == seq(20, _ => 0 as byte);
  }
}
