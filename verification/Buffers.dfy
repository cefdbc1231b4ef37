/** The byte work on message buffers, in place on arrays: set_msg_data_len, generate_test_string, the
    building of the data message and the client's copy out of it. */
module Buffers {
  import opened Wire

  /** memcpy of src into dst at offset at. */
  method CopyBytes(dst: array<byte>, at: nat, src: seq<byte>)
    requires at + |src| <= dst.Length
    modifies dst
    ensures dst[..] == old(dst[..at]) + src + old(dst[at + |src|..])
  {
    for i := 0 to |src|
      invariant dst[..at] == old(dst[..at])
      invariant dst[at..at + i] == src[..i]
      invariant dst[at + i..] == old(dst[at + i..])
    {
      dst[at + i] := src[i];
      assert dst[at..at + i + 1] == src[..i + 1];
    }
    assert src[..|src|] == src;
    assert dst[..] == dst[..at] + dst[at..at + |src|] + dst[at + |src|..];
  }

  /** set_msg_data_len. */
  method SetMsgDataLen(msg: array<byte>, dataLen: nat)
    requires HEADER <= msg.Length && dataLen < TWO_64
    modifies msg
    ensures msg[..] == Bytes(dataLen, HEADER) + old(msg[HEADER..])
    ensures DataLen(msg[..]) == dataLen
  {
    CopyBytes(msg, 0, Bytes(dataLen, HEADER));
    Power256Of8();
    BytesRoundTrip(dataLen, HEADER);
    assert msg[..][..HEADER] == Bytes(dataLen, HEADER);
  }

  /** generate_test_string. A negative size makes calloc fail, as memory running out does, and leaves
      the destination alone. */
  method GenerateTestString(str: array<byte>, at: nat, size: int, memory: bool) returns (ret: int)
    requires at + size <= str.Length && at <= str.Length
    modifies str
    ensures ret == 0 || ret == -1
    ensures ret == 0 <==> memory && size >= 0
    ensures ret == 0 ==> str[..] == old(str[..at]) + TestString(size) + old(str[at + size..])
    ensures ret == 0 ==> ReadsAsText(str[at..at + size])
    ensures ret == -1 ==> str[..] == old(str[..])
  {
    hide ReadsAsText;
    if !memory || size < 0 {
      return -1;
    }
    var tmp := new byte[size](_ => 0);
    var i := 0;
    while i < size - 1
      modifies tmp
      invariant 0 <= i && (i <= size - 1 || i == 0)
      invariant forall k :: 0 <= k < i ==> tmp[k] == 65 + k % 26
      invariant forall k :: i <= k < size ==> tmp[k] == 0
    {
      tmp[i] := 65 + i % 26;
      i := i + 1;
    }
    assert tmp[..] == TestString(size);
    CopyBytes(str, at, tmp[..]);
    assert str[at..at + size] == TestString(size);
    TextReads(str[at..at + size]);
    return 0;
  }

  /** The server's data message, from its zeroed allocation to its text. The text generator gets the
      length as an int, so a long one leaves part of the payload zero, or fails. */
  method BuildDataMessage(len: nat, memory: bool) returns (ret: int, msg: array<byte>)
    requires len < TWO_64 / 2
    ensures fresh(msg) && msg.Length == HEADER + len && DataLen(msg[..]) == len
    ensures ret == 0 <==> memory && ToInt32(len) >= 0
    ensures ret == 0 ==> msg[..] == Frame(ServerPayload(len))
  {
    msg := new byte[HEADER + len](_ => 0);
    SetMsgDataLen(msg, len);
    ghost var zeroed := msg[..];
    ret := GenerateTestString(msg, HEADER, ToInt32(len), memory);
    if ret == 0 {
      assert msg[..] == Frame(ServerPayload(len));
      FrameRoundTrip(ServerPayload(len), len);
    } else {
      assert msg[..] == zeroed;
    }
  }

  /** The client's copy of k bytes from msg + 1, in bounds for any k up to the payload length. */
  method CopyString(msg: array<byte>, k: nat) returns (str: array<byte>)
    requires CopyInBounds(msg[..], k)
    ensures fresh(str) && str[..] == CopyPayload(msg[..], k)
  {
    str := new byte[k](_ => 0);
    CopyBytes(str, 0, msg[HEADER..HEADER + k]);
    assert msg[..][HEADER..HEADER + k] == msg[HEADER..HEADER + k];
  }

  /** Built by the server, copied by the client: equal lengths give the promised text, exactly for the
      lengths an int can hold. */
  method BuildAndCopy(len: nat, k: nat) returns (str: array<byte>)
    requires k <= len < TWO_64 / 2 && ToInt32(len) >= 0
    ensures str[..] == ServerPayload(len)[..k]
    ensures k == len ==> (str[..] == TestString(len) <==> len < TWO_31)
  {
    var ret, msg := BuildDataMessage(len, true);
    FrameRoundTrip(ServerPayload(len), k);
    str := CopyString(msg, k);
    ServerPayloadExact(len);
    assert ServerPayload(len)[..len] == ServerPayload(len);
  }
}
