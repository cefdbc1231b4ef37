/** Bytes, the 64-bit header codec, the C integer conversions, and the two message payloads. */
module Wire {

  type byte = b: int | 0 <= b < 256

  const TWO_32 := 0x1_0000_0000
  const TWO_31 := 0x8000_0000
  const TWO_64 := 0x1_0000_0000_0000_0000

  /** sizeof(struct msg): one uint64_t. */
  const HEADER := 8

  datatype Option<+T> = None | Some(value: T)

  /** Result of a call that may never return. */
  datatype Wait<+T> = Never | Got(value: T) {
    predicate IsFailure() {
      Never?
    }

    function PropagateFailure<U>(): Wait<U>
      requires Never?
    {
      Never
    }

    function Extract(): T
      requires Got?
    {
      value
    }
  }

  /** Conversion to a 32-bit int: what C does to a long or ssize_t passed or assigned as int. */
  function ToInt32(x: int): (r: int)
    ensures -0x8000_0000 <= r < 0x8000_0000 && (x - r) % 0x1_0000_0000 == 0
  {
    var low := x % TWO_32;
    if low < TWO_31 then low else low - TWO_32
  }

  lemma ToInt32Identity(x: int)
    requires -TWO_31 <= x < TWO_31
    ensures ToInt32(x) == x
  {
    if x < 0 {
      assert x % TWO_32 == x + TWO_32;
    }
  }

  /** It is the only such number. */
  lemma ToInt32Unique(x: int, r: int)
    requires -0x8000_0000 <= r < 0x8000_0000 && (x - r) % 0x1_0000_0000 == 0
    ensures ToInt32(x) == r
  {
    SameResidue(x, r, ToInt32(x));
  }

  lemma SameResidue(x: int, r: int, q: int)
    requires (x - r) % 0x1_0000_0000 == 0 && (x - q) % 0x1_0000_0000 == 0
    ensures (r - q) % 0x1_0000_0000 == 0
  {
    var a, b := (x - r) / 0x1_0000_0000, (x - q) / 0x1_0000_0000;
    assert r - q == (b - a) * 0x1_0000_0000;
  }

  /** Little-endian digits, low byte first. */
  function Bytes(n: nat, width: nat): (bs: seq<byte>)
    ensures |bs| == width
  {
    if width == 0 then [] else [n % 256] + Bytes(n / 256, width - 1)
  }

  function Value(bs: seq<byte>): nat {
    if bs == [] then 0 else bs[0] + 256 * Value(bs[1..])
  }

  function Power256(k: nat): nat {
    if k == 0 then 1 else 256 * Power256(k - 1)
  }

  lemma {:induction false} BytesRoundTrip(n: nat, width: nat)
    requires n < Power256(width)
    ensures Value(Bytes(n, width)) == n
  {
    if width > 0 {
      BytesRoundTrip(n / 256, width - 1);
      assert Bytes(n, width)[1..] == Bytes(n / 256, width - 1);
    }
  }

  lemma {:induction false} ValueRoundTrip(bs: seq<byte>)
    ensures Value(bs) < Power256(|bs|)
    ensures Bytes(Value(bs), |bs|) == bs
  {
    if bs != [] {
      ValueRoundTrip(bs[1..]);
      var v := Value(bs[1..]);
      assert (bs[0] + 256 * v) / 256 == v && (bs[0] + 256 * v) % 256 == bs[0];
    }
  }

  lemma Power256Of8()
    ensures Power256(8) == TWO_64
  {
    assert Power256(2) == 0x1_0000;
    assert Power256(4) == 0x1_0000_0000;
    assert Power256(6) == 0x1_0000_0000_0000;
  }

  function Zeros(n: nat): (z: seq<byte>)
    ensures |z| == n
  {
    seq(n, _ => 0)
  }

  /** The bytes of a message: data_len, then the data that follows the struct. */
  function Frame(payload: seq<byte>): (f: seq<byte>)
    ensures |f| == HEADER + |payload|
  {
    Bytes(|payload|, HEADER) + payload
  }

  /** msg->data_len. */
  function DataLen(msg: seq<byte>): nat {
    if |msg| < HEADER then 0 else Value(msg[..HEADER])
  }

  /** Whether copying k bytes from msg + 1 stays inside the block. */
  predicate CopyInBounds(msg: seq<byte>, k: nat) {
    HEADER + k <= |msg|
  }

  /** memcpy(dst, msg + 1, k). */
  function CopyPayload(msg: seq<byte>, k: nat): (r: seq<byte>)
    requires CopyInBounds(msg, k)
    ensures |r| == k
  {
    msg[HEADER..HEADER + k]
  }

  /** A message is eight bytes of length, low byte first, and then the payload. */
  lemma FrameLayout(payload: seq<byte>)
    requires |payload| < 0x1_0000_0000_0000_0000
    ensures |Frame(payload)| == 8 + |payload|
    ensures Value(Frame(payload)[..8]) == |payload| && Frame(payload)[8..] == payload
    ensures DataLen(Frame(payload)) == |payload|
  {
    Power256Of8();
    BytesRoundTrip(|payload|, 8);
    assert Frame(payload)[..8] == Bytes(|payload|, 8);
  }

  /** Reading a frame back gives the payload it was made of, and a copy of k bytes stays inside
      the frame exactly when k is at most the payload length. */
  lemma FrameRoundTrip(payload: seq<byte>, k: nat)
    requires |payload| < TWO_64
    ensures DataLen(Frame(payload)) == |payload|
    ensures CopyInBounds(Frame(payload), k) <==> k <= |payload|
    ensures k <= |payload| ==> CopyPayload(Frame(payload), k) == payload[..k]
    ensures CopyPayload(Frame(payload), DataLen(Frame(payload))) == payload
  {
    Power256Of8();
    BytesRoundTrip(|payload|, HEADER);
    assert Frame(payload)[..HEADER] == Bytes(|payload|, HEADER);
    assert Frame(payload)[HEADER..HEADER + |payload|] == payload;
  }

  /** The letters A to Z, again and again. */
  function Letters(n: nat): (s: seq<byte>)
    ensures |s| == n
  {
    seq(n, i requires 0 <= i => 65 + i % 26)
  }

  /** The text the server promises for a string of length len: A..Z repeated, then a NUL. */
  function TestString(len: nat): (s: seq<byte>)
    ensures |s| == len
  {
    seq(len, i requires 0 <= i => if i < len - 1 then 65 + i % 26 else 0)
  }

  /** The payload area of the server's message. It is zeroed at its full long length, but the
      generator receives that length as an int, so only ToInt32(len) bytes are generated. */
  function ServerPayload(len: nat): (s: seq<byte>)
    requires 0 <= ToInt32(len)
    ensures |s| == len
  {
    seq(len, i requires 0 <= i => if i < ToInt32(len) - 1 then 65 + i % 26 else 0)
  }

  /** The text as the reader sees it: it starts with A, every letter is followed by the next one and Z by A,
      and one NUL ends it. */
  predicate ReadsAsText(s: seq<byte>) {
    && (|s| > 0 ==> s[|s| - 1] == 0)
    && (|s| > 1 ==> s[0] == 'A' as int)
    && forall i :: 0 <= i < |s| - 2 ==>
         if s[i] == 'Z' as int then s[i + 1] == 'A' as int else s[i + 1] as int == s[i] as int + 1
  }

  /** There is just one such text of each length. */
  lemma {:induction false} TextReads(s: seq<byte>)
    ensures ReadsAsText(s) <==> s == TestString(|s|)
  {
    if ReadsAsText(s) {
      forall i | 0 <= i < |s| - 1
        ensures s[i] == 65 + i % 26
      {
        LetterAt(s, i);
      }
    }
  }

  lemma {:induction false} LetterAt(s: seq<byte>, i: nat)
    requires ReadsAsText(s) && i < |s| - 1
    ensures s[i] == 65 + i % 26
  {
    if i > 0 {
      LetterAt(s, i - 1);
    }
  }

  /** What is sent is the text for the truncated length, and zeros for the rest of the full length. */
  lemma ServerPayloadIs(len: nat)
    requires 0 <= ToInt32(len)
    ensures ToInt32(len) <= len
    ensures ServerPayload(len) == TestString(ToInt32(len)) + Zeros(len - ToInt32(len))
  {
  }

  /** The letters that printf writes are those of the text without its NUL. */
  lemma LettersOf(n: nat)
    ensures TestString(n + 1) == Letters(n) + [0]
  {
  }

  /** The message carries the promised text exactly for the lengths that fit an int. */
  lemma ServerPayloadExact(len: nat)
    requires 0 <= ToInt32(len)
    ensures ServerPayload(len) == TestString(len) <==> len < TWO_31
  {
    if len < TWO_31 {
      ToInt32Identity(len);
    } else {
      var i := len - 2;
      assert ServerPayload(len)[i] == 0 && TestString(len)[i] >= 65;
    }
  }

  /** What printf("%s", s) does with a block: it writes the bytes before the first NUL, or, where the
      block holds none, reads on past its end. */
  datatype Print = Text(bytes: seq<byte>) | PastEnd

  function FirstNul(s: seq<byte>): (k: nat)
    ensures k <= |s| && (k < |s| ==> s[k] == 0)
    ensures forall j :: 0 <= j < k ==> s[j] != 0
  {
    if s == [] || s[0] == 0 then 0 else 1 + FirstNul(s[1..])
  }

  function Printf(s: seq<byte>): Print {
    if FirstNul(s) < |s| then Text(s[..FirstNul(s)]) else PastEnd
  }

  /** Printing the first k bytes of the payload stays inside them exactly when they hold the text's NUL,
      and then prints the letters. */
  lemma PrintPayload(len: nat, k: nat)
    requires 0 <= ToInt32(len) && k <= len
    ensures Printf(ServerPayload(len)[..k]).Text? <==> 0 < k && ToInt32(len) <= k
    ensures Printf(ServerPayload(len)[..k]).Text? ==>
              Printf(ServerPayload(len)[..k]) == Text(Letters(if ToInt32(len) == 0 then 0 else ToInt32(len) - 1))
  {
    var s, n := ServerPayload(len)[..k], FirstNul(ServerPayload(len)[..k]);
    var nul := if ToInt32(len) == 0 then 0 else ToInt32(len) - 1;
    assert forall i :: 0 <= i < k ==> (s[i] == 0 <==> nul <= i);
    if nul < k {
      assert n == nul by { assert s[nul] == 0; }
      assert s[..n] == Letters(nul);
    }
  }

  /** The whole payload prints the promised letters exactly for the lengths from 1 that fit an int. */
  lemma PrintPayloadExact(len: nat)
    requires 0 <= ToInt32(len)
    ensures Printf(ServerPayload(len)) == Text(Letters(if len == 0 then 0 else len - 1)) <==> 1 <= len < TWO_31
  {
    PrintPayload(len, len);
    assert ServerPayload(len)[..len] == ServerPayload(len);
    if len < TWO_31 {
      ToInt32Identity(len);
    }
  }

  /** A client that asks for 2 bytes of a text of 5 prints past its string. */
  lemma PrintShort()
    ensures Printf(ServerPayload(5)[..2]) == PastEnd
  {
    PrintPayload(5, 2);
  }
}
