/** Removing block padding: _pkcs7_unpad of apps/agent-platform/agent_platform/chat_platform.py against section 6.3 of
    RFC 5652. */
module Pkcs7 {

  type Byte = x: int | 0 <= x < 256

  datatype Unpadded = Ok(message: seq<Byte>) | InvalidLength | InvalidPadding

  function Copies(b: Byte, n: nat): (r: seq<Byte>)
    ensures |r| == n && forall i :: 0 <= i < n ==> r[i] == b
  {
    seq(n, _ => b)
  }

  function Unpad(value: seq<Byte>, blockSize: int): Unpadded
    requires blockSize > 0
  {
    if value == [] || |value| % blockSize != 0 then InvalidLength
    else
      var padding := value[|value| - 1];
      if padding <= 0 || padding > blockSize || padding > |value| then InvalidPadding
      else if value[|value| - padding..] != Copies(padding, padding) then InvalidPadding
      else Ok(value[..|value| - padding])
  }

  /** Section 6.3 of RFC 5652: the input is padded at its end with blockSize - (length mod blockSize) octets of that
      value. */
  function Pad(message: seq<Byte>, blockSize: int): seq<Byte>
    requires 0 < blockSize < 256
  {
    var n := blockSize - |message| % blockSize;
    message + Copies(n, n)
  }

  lemma RemainderOfBlocks(m: int, n: int, blockSize: int)
    requires 0 < n <= blockSize && 0 <= m
    ensures (m + n) % blockSize == 0 <==> n == blockSize - m % blockSize
  {
    var q, r := m / blockSize, m % blockSize;
    assert m + n == q * blockSize + (r + n);
    if n == blockSize - r {
      assert m + n == (q + 1) * blockSize;
      MultipleOf(q + 1, 0, blockSize);
    } else if r + n < blockSize {
      MultipleOf(q, r + n, blockSize);
    } else {
      assert m + n == (q + 1) * blockSize + (r + n - blockSize);
      MultipleOf(q + 1, r + n - blockSize, blockSize);
    }
  }

  lemma {:induction false} MultipleOf(q: int, r: int, b: int)
    requires 0 <= r < b
    ensures (q * b + r) % b == r
  {
    var x := q * b + r;
    var d := x / b - q;
    assert x % b - r == -d * b;
    if d >= 1 {
      AtLeastOne(d, b);
      assert false;
    } else if d <= -1 {
      AtLeastOne(-d, b);
      assert false;
    }
  }

  lemma AtLeastOne(d: int, b: int)
    requires d >= 1 && b > 0
    ensures d * b >= b
  {
  }

  /** The inverse, exactly: a value unpads to m when it is m padded, and to nothing otherwise. */
  lemma UnpadIffPadded(value: seq<Byte>, message: seq<Byte>, blockSize: int)
    requires 0 < blockSize < 256
    ensures Unpad(value, blockSize) == Ok(message) <==> value == Pad(message, blockSize)
  {
    if value == Pad(message, blockSize) {
      var n := blockSize - |message| % blockSize;
      RemainderOfBlocks(|message|, n, blockSize);
      assert value[|value| - n..] == Copies(n, n);
      assert value[..|value| - n] == message;
    }
    if Unpad(value, blockSize) == Ok(message) {
      var padding := value[|value| - 1];
      RemainderOfBlocks(|message|, padding, blockSize);
      assert value == message + Copies(padding, padding);
    }
  }

  lemma RoundTrip(message: seq<Byte>)
    ensures Unpad(Pad(message, 16), 16) == Ok(message)
  {
    UnpadIffPadded(Pad(message, 16), message, 16);
  }

  /** No two messages pad to the same value. */
  lemma PadIsInjective(a: seq<Byte>, b: seq<Byte>, blockSize: int)
    requires 0 < blockSize < 256 && Pad(a, blockSize) == Pad(b, blockSize)
    ensures a == b
  {
    UnpadIffPadded(Pad(a, blockSize), a, blockSize);
    UnpadIffPadded(Pad(a, blockSize), b, blockSize);
  }
}
