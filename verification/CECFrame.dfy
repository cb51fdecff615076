/** The bounded frame buffer of ccec/src/CECFrame.cpp. */
module Frames {
  import opened Bytes

  const MAX_LENGTH: nat := 128

  function Min(a: nat, b: nat): nat { if a <= b then a else b }

  class CECFrame {
    const buf: array<Byte>
    var len: nat

    ghost predicate Valid()
      reads this
    {
      buf.Length == MAX_LENGTH && len <= MAX_LENGTH
    }

    ghost function Contents(): seq<Byte>
      requires Valid()
      reads this, buf
    {
      buf[..len]
    }

    constructor ()
      ensures Valid() && fresh(buf) && Contents() == []
    {
      buf := new Byte[MAX_LENGTH](_ => 0);
      len := 0;
    }

    method Reset()
      requires Valid()
      modifies this`len
      ensures Valid() && Contents() == []
    {
      len := 0;
    }

    /** Appends one octet; false is the out_of_range exception, which leaves the frame alone. */
    method Append(b: Byte) returns (ok: bool)
      requires Valid()
      modifies this`len, buf
      ensures Valid()
      ensures ok <==> |old(Contents())| < 128
      ensures Contents() == if ok then old(Contents()) + [b] else old(Contents())
      ensures buf[..old(len)] == old(buf[..len])
    {
      ok := len != MAX_LENGTH;
      if ok {
        buf[len] := b;
        len := len + 1;
      }
    }

    /**
      * Appends `n` octets of `src`.  An overflow is reported only when the next octet does not
      * fit, so the octets before it stay appended.  `src` may be this frame's own buffer, which
      * is how a frame is appended to itself.
      */
    method AppendBuffer(src: array<Byte>, n: nat) returns (ok: bool)
      requires Valid() && n <= src.Length
      requires src == buf ==> n <= len
      modifies this`len, buf
      ensures Valid()
      ensures ok <==> |old(Contents())| + n <= 128
      ensures Contents() == old(Contents()) + old(src[..Min(n, 128 - len)])
    {
      var i := 0;
      ok := true;
      while i < n && ok
        invariant 0 <= i <= n && Valid()
        invariant ok ==> len == old(len) + i
        invariant !ok ==> len == MAX_LENGTH == old(len) + i && i < n
        invariant src != buf ==> src[..n] == old(src[..n])
        invariant buf[..old(len)] == old(buf[..len])
        invariant Contents() == old(Contents()) + old(src[..n])[..i]
        decreases n - i, ok
      {
        assert src[i] == old(src[..n])[i] by {
          if src == buf {
            assert buf[i] == buf[..old(len)][i];
          } else {
            assert src[i] == src[..n][i];
          }
        }
        ok := Append(src[i]);
        if ok {
          assert old(src[..n])[..i + 1] == old(src[..n])[..i] + [old(src[..n])[i]];
          i := i + 1;
        }
      }
      assert old(src[..n])[..i] == old(src[..Min(n, MAX_LENGTH - len)]);
    }

    method AppendFrame(frame: CECFrame) returns (ok: bool)
      requires Valid() && frame.Valid()
      requires frame.buf == buf ==> frame == this
      modifies this`len, buf
      ensures Valid()
      ensures ok <==> |old(Contents())| + |old(frame.Contents())| <= 128
      ensures ok ==> Contents() == old(Contents()) + old(frame.Contents())
    {
      ok := AppendBuffer(frame.buf, frame.len);
      assert ok ==> old(frame.buf[..Min(frame.len, MAX_LENGTH - len)]) == old(frame.Contents());
    }

    /** Reads one octet; None is the out_of_range exception. */
    method At(i: nat) returns (r: Octet)
      requires Valid()
      ensures r == OctetAt(Contents(), i)
    {
      r := if i >= len then OutOfRange else Octet(buf[i]);
    }

    /** `frame[i] = b`: writes through the reference returned by the subscript operator. */
    method Put(i: nat, b: Byte) returns (ok: bool)
      requires Valid()
      modifies buf
      ensures Valid() && (ok <==> i < |old(Contents())|)
      ensures Contents() == if ok then old(Contents())[i := b] else old(Contents())
    {
      ok := i < len;
      if ok {
        buf[i] := b;
      }
    }

    /** The octets from `start` on, at most `n` of them; `n == 0` asks for all. */
    method SubFrame(start: nat, n: nat) returns (frame: CECFrame)
      requires Valid()
      ensures frame.Valid() && fresh(frame) && fresh(frame.buf)
      ensures frame.Contents() == Slice(Contents(), start, if n == 0 then 128 else n)
    {
      frame := new CECFrame();
      var left: nat := if n == 0 then MAX_LENGTH else n;
      var at := start;
      while at < len && left > 0
        invariant frame.Valid() && fresh(frame) && fresh(frame.buf)
        invariant start <= at && left == (if n == 0 then MAX_LENGTH else n) - (at - start)
        invariant at <= len || at == start
        invariant frame.Contents() == if at <= len then Contents()[start..at] else []
        decreases left
      {
        var _ := frame.Append(buf[at]);
        assert Contents()[start..at + 1] == Contents()[start..at] + [buf[at]];
        at, left := at + 1, left - 1;
      }
      assert start < len ==> at == Min(start + (if n == 0 then MAX_LENGTH else n), len);
    }
  }

  datatype Octet = Octet(value: Byte) | OutOfRange

  function OctetAt(bytes: seq<Byte>, i: nat): Octet
  {
    if i < |bytes| then Octet(bytes[i]) else OutOfRange
  }

  function Slice(bytes: seq<Byte>, start: nat, n: nat): seq<Byte>
  {
    if start >= |bytes| then [] else bytes[start..Min(start + n, |bytes|)]
  }
}
