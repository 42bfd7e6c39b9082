/**
 * The raw-sample path of the MPU9250 driver: the constructor's choice of axis
 * map and MPU9250::readRaw, which decodes a 14-byte register block into six
 * big-endian two's-complement 16-bit samples and remaps them per axis.
 * The I2C transaction that fills the block is a parameter of the model.
 */
module Mpu9250 {

  import opened Wrappers

  newtype uint8 = x: int | 0 <= x < 0x100
  newtype int8 = x: int | -0x80 <= x < 0x80
  newtype int16 = x: int | -0x8000 <= x < 0x8000

  const ESP_OK: int := 0

  /** Number of bytes readRaw asks for, starting at ACCEL_XOUT_H. */
  const BlockSize: nat := 14

  /** Output axis k takes raw axis `idx` multiplied by `sign`. */
  datatype AxisMap = AxisMap(idx: uint8, sign: int8)

  /** Accelerometer and gyroscope samples, each an int16 field. */
  datatype Raw = Raw(ax: int16, ay: int16, az: int16, gx: int16, gy: int16, gz: int16)

  /** The outcome of readRegs: an esp_err_t and the 14 bytes it filled. */
  datatype RegisterRead = RegisterRead(err: int, buf: seq<uint8>)

  /** DEF_ID: every output axis reads the raw axis of the same index, unsigned. */
  const IdentityMap: seq<AxisMap> := [AxisMap(0, 1), AxisMap(1, 1), AxisMap(2, 1)]

  /** Three entries whose indices stay inside the three-sample halves of tmp. */
  predicate ValidMap(m: seq<AxisMap>)
  {
    |m| == 3 && forall k :: 0 <= k < 3 ==> m[k].idx < 3
  }

  /**
   * Conversion of an int to int16_t, as an assignment or static_cast does it:
   * reduction modulo 2^16 into [-2^15, 2^15).
   */
  function ToInt16(v: int): (r: int16)
    ensures -0x8000 <= v < 0x8000 ==> r as int == v
    ensures (v - r as int) % 0x10000 == 0
  {
    var m := v % 0x10000;
    if m < 0x8000 then m as int16 else (m - 0x10000) as int16
  }

  /** static_cast<int16_t>((hi << 8) | lo); the two bytes occupy disjoint bits. */
  function DecodeWord(hi: uint8, lo: uint8): (r: int16)
    ensures r < 0 <==> hi >= 0x80
    ensures r as int % 0x100 == lo as int
  {
    ToInt16(hi as int * 0x100 + lo as int)
  }

  /** The byte that a big-endian sensor sends first for the sample v. */
  function HighByte(v: int16): uint8
  {
    ((v as int % 0x10000) / 0x100) as uint8
  }

  /** The byte that a big-endian sensor sends second for the sample v. */
  function LowByte(v: int16): uint8
  {
    (v as int % 0x100) as uint8
  }

  /** Decoding the two bytes of a sample gives the sample back. */
  lemma WordRoundTrip(v: int16)
    ensures DecodeWord(HighByte(v), LowByte(v)) == v
  {
    var u := v as int % 0x10000;
    assert HighByte(v) as int * 0x100 + LowByte(v) as int == u;
  }

  /** Splitting a decoded sample gives the two bytes back. */
  lemma BytesRoundTrip(hi: uint8, lo: uint8)
    ensures HighByte(DecodeWord(hi, lo)) == hi && LowByte(DecodeWord(hi, lo)) == lo
  {
    var u := hi as int * 0x100 + lo as int;
    var r := DecodeWord(hi, lo);
    assert r as int % 0x10000 == u;
  }

  /**
   * The six samples of a register block: accelerometer from bytes 0-5,
   * gyroscope from bytes 8-13; bytes 6-7 (the temperature) are skipped.
   */
  function Decode(buf: seq<uint8>): (tmp: seq<int16>)
    requires |buf| == BlockSize
    ensures |tmp| == 6
    ensures forall k :: 0 <= k < 3 ==>
      tmp[k] == DecodeWord(buf[2 * k], buf[2 * k + 1]) && tmp[3 + k] == DecodeWord(buf[8 + 2 * k], buf[9 + 2 * k])
  {
    [DecodeWord(buf[0], buf[1]), DecodeWord(buf[2], buf[3]), DecodeWord(buf[4], buf[5]),
     DecodeWord(buf[8], buf[9]), DecodeWord(buf[10], buf[11]), DecodeWord(buf[12], buf[13])]
  }

  /** The register block a sensor sends for six samples and two temperature bytes. */
  function Encode(tmp: seq<int16>, t0: uint8, t1: uint8): (buf: seq<uint8>)
    requires |tmp| == 6
    ensures |buf| == BlockSize
  {
    [HighByte(tmp[0]), LowByte(tmp[0]), HighByte(tmp[1]), LowByte(tmp[1]),
     HighByte(tmp[2]), LowByte(tmp[2]), t0, t1,
     HighByte(tmp[3]), LowByte(tmp[3]), HighByte(tmp[4]), LowByte(tmp[4]),
     HighByte(tmp[5]), LowByte(tmp[5])]
  }

  /** Decoding an encoded block recovers the six samples, whatever the temperature bytes. */
  lemma DecodeEncode(tmp: seq<int16>, t0: uint8, t1: uint8)
    requires |tmp| == 6
    ensures Decode(Encode(tmp, t0, t1)) == tmp
  {
    forall k | 0 <= k < 6 { WordRoundTrip(tmp[k]); }
  }

  /** Re-encoding a decoded block, with its own temperature bytes, recovers the block. */
  lemma EncodeDecode(buf: seq<uint8>)
    requires |buf| == BlockSize
    ensures Encode(Decode(buf), buf[6], buf[7]) == buf
  {
    BytesRoundTrip(buf[0], buf[1]);
    BytesRoundTrip(buf[2], buf[3]);
    BytesRoundTrip(buf[4], buf[5]);
    BytesRoundTrip(buf[8], buf[9]);
    BytesRoundTrip(buf[10], buf[11]);
    BytesRoundTrip(buf[12], buf[13]);
  }

  /** The temperature bytes 6 and 7 have no influence on the samples. */
  lemma DecodeSkipsTemperature(buf: seq<uint8>, t0: uint8, t1: uint8)
    requires |buf| == BlockSize
    ensures Decode(buf[6 := t0][7 := t1]) == Decode(buf)
  {
  }

  /** sign * sample, computed in int and stored into an int16 field. */
  function ApplySign(sign: int8, v: int16): (r: int16)
    ensures -0x8000 <= sign as int * v as int < 0x8000 ==> r as int == sign as int * v as int
    ensures (sign as int * v as int - r as int) % 0x10000 == 0
  {
    ToInt16(sign as int * v as int)
  }

  /** Accelerometer output k (0 = x, 1 = y, 2 = z) of a sample. */
  function Accel(r: Raw, k: nat): int16
    requires k < 3
  {
    if k == 0 then r.ax else if k == 1 then r.ay else r.az
  }

  /** Gyroscope output k (0 = x, 1 = y, 2 = z) of a sample. */
  function Gyro(r: Raw, k: nat): int16
    requires k < 3
  {
    if k == 0 then r.gx else if k == 1 then r.gy else r.gz
  }

  /** Accelerometer output k is sign_k * tmp[idx_k]; gyroscope output k is sign_k * tmp[3 + idx_k]. */
  function Remap(m: seq<AxisMap>, tmp: seq<int16>): (r: Raw)
    requires ValidMap(m) && |tmp| == 6
    ensures forall k :: 0 <= k < 3 ==>
      Accel(r, k) == ApplySign(m[k].sign, tmp[m[k].idx]) && Gyro(r, k) == ApplySign(m[k].sign, tmp[3 + m[k].idx])
  {
    Raw(ApplySign(m[0].sign, tmp[m[0].idx]),
        ApplySign(m[1].sign, tmp[m[1].idx]),
        ApplySign(m[2].sign, tmp[m[2].idx]),
        ApplySign(m[0].sign, tmp[3 + m[0].idx]),
        ApplySign(m[1].sign, tmp[3 + m[1].idx]),
        ApplySign(m[2].sign, tmp[3 + m[2].idx]))
  }

  /** The same sample with accelerometer and gyroscope triples exchanged. */
  function SwapSensors(r: Raw): Raw
  {
    Raw(r.gx, r.gy, r.gz, r.ax, r.ay, r.az)
  }

  /** With the identity map every output field is the decoded sample of the same axis. */
  lemma IdentityRemap(tmp: seq<int16>)
    requires |tmp| == 6
    ensures ValidMap(IdentityMap)
    ensures Remap(IdentityMap, tmp) == Raw(tmp[0], tmp[1], tmp[2], tmp[3], tmp[4], tmp[5])
  {
  }

  /**
   * Accelerometer and gyroscope go through the same permutation and signs:
   * exchanging the two halves of tmp exchanges the two output triples.
   */
  lemma SensorsShareMap(m: seq<AxisMap>, tmp: seq<int16>)
    requires ValidMap(m) && |tmp| == 6
    ensures Remap(m, tmp[3..] + tmp[..3]) == SwapSensors(Remap(m, tmp))
  {
    var sw := tmp[3..] + tmp[..3];
    forall k | 0 <= k < 3
      ensures sw[m[k].idx] == tmp[3 + m[k].idx] && sw[3 + m[k].idx] == tmp[m[k].idx]
    {
    }
  }

  /** A sign of +1 passes every sample; -1 negates every sample except -32768. */
  lemma SignSemantics(v: int16)
    ensures ApplySign(1, v) == v
    ensures v != -0x8000 ==> ApplySign(-1, v) as int == -(v as int)
  {
  }

  /**
   * Negating -32768 gives 32768, which an int16 field cannot hold: the stored
   * value wraps back to -32768, so a sign of -1 leaves this one sample unchanged.
   */
  lemma NegationOverflow()
    ensures ApplySign(-1, -0x8000) == -0x8000
    ensures -(-0x8000) >= 0x8000
  {
  }

  /** The driver object: its bus configuration and the axis map copied in by the constructor. */
  class MPU9250 {
    const port: int
    const sda: int
    const scl: int
    const clkHz: int
    const axisMap: seq<AxisMap>

    /**
     * A null axisMap installs DEF_ID; otherwise the caller's three entries are
     * copied, so later changes to the caller's array do not reach the driver.
     */
    constructor (port: int, sdaPin: int, sclPin: int, clkHz: int, axisMapArg: Option<seq<AxisMap>>)
      requires axisMapArg.Some? ==> |axisMapArg.value| == 3
      ensures this.port == port && sda == sdaPin && scl == sclPin && this.clkHz == clkHz
      ensures axisMap == if axisMapArg.None? then IdentityMap else axisMapArg.value
    {
      this.port := port;
      sda := sdaPin;
      scl := sclPin;
      this.clkHz := clkHz;
      if axisMapArg.Some? {
        axisMap := axisMapArg.value;
      } else {
        axisMap := IdentityMap;
      }
    }

    /**
     * readRaw: on a failed register read return its error and leave `out`
     * as it was; otherwise decode the block into tmp and remap it into `out`.
     */
    method ReadRaw(regs: RegisterRead, out0: Raw) returns (ret: int, out: Raw)
      requires ValidMap(axisMap)
      requires |regs.buf| == BlockSize
      ensures regs.err != ESP_OK ==> ret == regs.err && out == out0
      ensures regs.err == ESP_OK ==> ret == ESP_OK && out == Remap(axisMap, Decode(regs.buf))
    {
      if regs.err != ESP_OK {
        return regs.err, out0;
      }
      var buf := regs.buf;
      var tmp := new int16[6];
      tmp[0] := DecodeWord(buf[0], buf[1]);
      tmp[1] := DecodeWord(buf[2], buf[3]);
      tmp[2] := DecodeWord(buf[4], buf[5]);
      tmp[3] := DecodeWord(buf[8], buf[9]);
      tmp[4] := DecodeWord(buf[10], buf[11]);
      tmp[5] := DecodeWord(buf[12], buf[13]);
      assert tmp[..] == Decode(buf);
      out := Raw(ApplySign(axisMap[0].sign, tmp[axisMap[0].idx]),
                 ApplySign(axisMap[1].sign, tmp[axisMap[1].idx]),
                 ApplySign(axisMap[2].sign, tmp[axisMap[2].idx]),
                 ApplySign(axisMap[0].sign, tmp[3 + axisMap[0].idx]),
                 ApplySign(axisMap[1].sign, tmp[3 + axisMap[1].idx]),
                 ApplySign(axisMap[2].sign, tmp[3 + axisMap[2].idx]));
      ret := ESP_OK;
    }
  }
}
