/** How large the payload of a channel message may be. Sizes are those of the Protocol Buffers wire format, version 3:
    base-128 varints, one byte for each field tag, and no bytes for a scalar field that is zero or empty. */
module Payload {
  import opened Blocks
  import opened Packet

  const TWO_31: int := 0x8000_0000

  /** The size of the authentication tag of an encrypted message. */
  const TAG_SIZE := 16

  /** The largest encrypted message, by section 3 of the Noise Protocol Framework. */
  const MESSAGE_MAX_SIZE := 65535
  const SECURE_PAYLOAD_MAX_SIZE := MESSAGE_MAX_SIZE - TAG_SIZE

  function VarintSize(n: nat): nat {
    if n < 128 then 1 else 1 + VarintSize(n / 128)
  }

  /** A 32-bit integer is extended to 64 bits with its sign. */
  function Extended(n: int): nat
    requires -TWO_31 <= n < TWO_31
  {
    if n >= 0 then n else TWO_64 + n
  }

  function NumberField(n: nat): nat {
    if n == 0 then 0 else 1 + VarintSize(n)
  }

  function BytesField(length: nat): nat {
    if length == 0 then 0 else 1 + VarintSize(length) + length
  }

  /** The size of a data message for a channel, a message type and a payload length. */
  function DataSize(id: nat, kind: int, length: nat): nat
    requires -TWO_31 <= kind < TWO_31
  {
    NumberField(id) + NumberField(Extended(kind)) + BytesField(length)
  }

  /** The size of the message around it, whose content field is there even if the data message is empty. */
  function MessageSize(id: nat, kind: int, length: nat): nat
    requires -TWO_31 <= kind < TWO_31
  {
    1 + VarintSize(DataSize(id, kind, length)) + DataSize(id, kind, length)
  }

  /** The largest payload: what is left of the largest plaintext when all other fields are as large as they get. */
  function ComputePayloadMaxSize(): int {
    var tooMuch := MessageSize(TWO_64 - 1, TWO_31 - 1, SECURE_PAYLOAD_MAX_SIZE) - SECURE_PAYLOAD_MAX_SIZE;
    SECURE_PAYLOAD_MAX_SIZE - tooMuch
  }

  // ---- varint sizes ----

  function Power128(k: nat): nat {
    if k == 0 then 1 else 128 * Power128(k - 1)
  }

  /** A varint takes at most k bytes exactly if the number is below 128 to the k. */
  lemma {:induction false} VarintSizeIff(n: nat, k: nat)
    requires k > 0
    ensures VarintSize(n) <= k <==> n < Power128(k)
    decreases k
  {
    if k == 1 {
      assert Power128(1) == 128 * Power128(0);
    } else if n >= 128 {
      VarintSizeIff(n / 128, k - 1);
    } else {
      assert VarintSize(n) == 1;
      PowerGrows(k);
    }
  }

  lemma {:induction false} PowerGrows(k: nat)
    requires k > 0
    ensures Power128(k) >= 128
  {
    if k > 1 {
      PowerGrows(k - 1);
    }
  }

  lemma Powers()
    ensures Power128(1) == 128 && Power128(2) == 16384 && Power128(3) == 2097152 && Power128(4) == 268435456
    ensures Power128(5) == 34359738368 && Power128(9) == TWO_63 && Power128(10) == 128 * TWO_63
  {
    assert Power128(6) == 128 * Power128(5);
    assert Power128(8) == 128 * Power128(7);
  }

  lemma VarintBounds(n: nat)
    ensures VarintSize(n) >= 1
    ensures n < 0x10000000 <==> VarintSize(n) <= 4
    ensures n < TWO_31 ==> VarintSize(n) <= 5
    ensures n < TWO_63 <==> VarintSize(n) <= 9
    ensures n < TWO_64 ==> VarintSize(n) <= 10
  {
    Powers();
    VarintSizeIff(n, 4);
    VarintSizeIff(n, 5);
    VarintSizeIff(n, 9);
    VarintSizeIff(n, 10);
  }

  /** The sizes of lengths: three bytes from 16384 up to 2097151, fewer below. */
  lemma LengthSizes(n: nat)
    requires n < 2097152
    ensures VarintSize(n) == if n < 128 then 1 else if n < 16384 then 2 else 3
  {
    Powers();
    VarintSizeIff(n, 1);
    VarintSizeIff(n, 2);
    VarintSizeIff(n, 3);
  }

  // ---- the bound ----

  lemma PayloadMaxSizeIs()
    ensures ComputePayloadMaxSize() == 65494
  {
    VarintBounds(TWO_64 - 1);
    VarintBounds(TWO_31 - 1);
    LengthSizes(SECURE_PAYLOAD_MAX_SIZE);
    LengthSizes(DataSize(TWO_64 - 1, TWO_31 - 1, SECURE_PAYLOAD_MAX_SIZE));
  }

  /** Every payload that is admitted, for any channel and any message type that is not negative, gives a message
      that can be encrypted and then framed; the bound is met only by the largest payload with the largest fields. */
  lemma AdmittedFits(id: nat, kind: int, length: nat)
    requires id < TWO_64 && 0 <= kind < TWO_31 && length <= ComputePayloadMaxSize()
    ensures MessageSize(id, kind, length) + TAG_SIZE <= MESSAGE_MAX_SIZE == MAX_LENGTH
    ensures MessageSize(id, kind, length) == SECURE_PAYLOAD_MAX_SIZE <==>
              length == ComputePayloadMaxSize() && id >= TWO_63 && kind >= 0x10000000
  {
    PayloadMaxSizeIs();
    VarintBounds(id);
    VarintBounds(kind);
    LengthSizes(length);
    LengthSizes(DataSize(id, kind, length));
  }

  /** The bound cannot be raised: one more byte does not fit with the largest fields. */
  lemma BoundIsTight(length: nat)
    requires length == ComputePayloadMaxSize() + 1
    ensures MessageSize(TWO_64 - 1, TWO_31 - 1, length) > SECURE_PAYLOAD_MAX_SIZE
  {
    PayloadMaxSizeIs();
    VarintBounds(TWO_64 - 1);
    VarintBounds(TWO_31 - 1);
    LengthSizes(length);
    LengthSizes(DataSize(TWO_64 - 1, TWO_31 - 1, length));
  }

  /** A negative message type takes ten bytes, and then an admitted payload fits only up to a smaller length. */
  lemma NegativeTypeFitsIff(id: nat, kind: int, length: nat)
    requires id < TWO_64 && -TWO_31 <= kind < 0 && length <= ComputePayloadMaxSize()
    ensures MessageSize(id, kind, length) <= SECURE_PAYLOAD_MAX_SIZE <==> length + NumberField(id) <= 65500
  {
    PayloadMaxSizeIs();
    VarintBounds(id);
    VarintBounds(Extended(kind));
    LengthSizes(length);
    LengthSizes(DataSize(id, kind, length));
  }
}
