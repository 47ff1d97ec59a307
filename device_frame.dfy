/**
 * The Raspberry Pi side of the legacy pipeline (`send.py`): the 26-byte
 * frame a multi-gas sensor answers on the serial line, its checksum, and
 * `parse_sensor_data`, which decodes the big-endian 16-bit fields, applies
 * the calibration table and builds the payload posted to `/data`.
 * Arithmetic is exact (reals), not IEEE doubles.
 */
module DeviceFrame {
  import opened Wrappers
  import opened PyValues

  /** `DEVICE_ID`, `SITE_NAME` and `FRAME_LEN`. */
  const DeviceId := "lab01"
  const SiteName := "AGI_Lab"
  const FrameLen := 26

  /** An element of a Python `bytes` object. */
  type Byte = x: int | 0 <= x < 256

  /** A 16-bit unsigned field of the frame. */
  type Word16 = x: int | 0 <= x < 65536

  /** `sum(...)` over bytes, folded from the end. */
  function Sum(s: seq<Byte>): (n: int)
    ensures 0 <= n <= 255 * |s|
  {
    if s == [] then 0 else Sum(s[..|s| - 1]) + s[|s| - 1]
  }

  function Min(a: int, b: int): int {
    if a <= b then a else b
  }

  /** The slice `data[1:25]`, which Python clips to the data it has. */
  function Window(data: seq<Byte>): (w: seq<Byte>)
    ensures |data| >= 25 ==> w == data[1..25]
  {
    data[Min(1, |data|)..Min(25, |data|)]
  }

  /** `calculate_checksum`: the two's complement of the window's sum, in one byte. */
  function Checksum(data: seq<Byte>): (c: Byte)
    ensures (Sum(Window(data)) + c) % 256 == 0
  {
    (-Sum(Window(data))) % 256
  }

  /** The checksum is the only byte that brings the window's sum to a multiple of 256. */
  lemma ChecksumUnique(data: seq<Byte>, b: Byte)
    ensures (Sum(Window(data)) + b) % 256 == 0 <==> b == Checksum(data)
  {
    var s := Sum(Window(data));
    var c := Checksum(data);
    if (s + b) % 256 == 0 {
      assert (s + c) % 256 == 0;
      assert (b - c) % 256 == 0 by {
        assert b - c == (s + b) - (s + c);
      }
      assert -256 < b - c < 256;
    }
  }

  /** `buf[i] << 8 | buf[i + 1]`: a big-endian 16-bit field; the low byte is below 256, so the or is an addition. */
  function Word(hi: Byte, lo: Byte): (w: Word16)
    ensures w / 256 == hi && w % 256 == lo
  {
    hi * 256 + lo
  }

  /** The fields of a frame before any scaling. */
  datatype RawFields = RawFields(
    pm1: Word16, pm25: Word16, pm10: Word16, co2: Word16,
    tvoc: Byte,
    temp: Word16, hum: Word16,
    ch2o: Word16, co: Word16, o3: Word16, no2: Word16)

  /** The byte positions: pairs 2-3 … 21-22, with the single tvoc byte at 10. */
  function RawOf(buf: seq<Byte>): (raw: RawFields)
    requires |buf| == FrameLen
    ensures raw.pm1 == Word(buf[2], buf[3]) && raw.pm25 == Word(buf[4], buf[5])
    ensures raw.pm10 == Word(buf[6], buf[7]) && raw.co2 == Word(buf[8], buf[9])
    ensures raw.tvoc == buf[10]
  {
    RawFields(
      Word(buf[2], buf[3]), Word(buf[4], buf[5]), Word(buf[6], buf[7]), Word(buf[8], buf[9]),
      buf[10],
      Word(buf[11], buf[12]), Word(buf[13], buf[14]),
      Word(buf[15], buf[16]), Word(buf[17], buf[18]), Word(buf[19], buf[20]), Word(buf[21], buf[22]))
  }

  /** The first 25 bytes of a frame carrying `raw`, with the unused bytes 0, 1, 23 and 24 given. */
  function Body(raw: RawFields, b0: Byte, b1: Byte, b23: Byte, b24: Byte): (body: seq<Byte>)
    ensures |body| == 25
  {
    [b0, b1,
     raw.pm1 / 256, raw.pm1 % 256, raw.pm25 / 256, raw.pm25 % 256,
     raw.pm10 / 256, raw.pm10 % 256, raw.co2 / 256, raw.co2 % 256,
     raw.tvoc,
     raw.temp / 256, raw.temp % 256, raw.hum / 256, raw.hum % 256,
     raw.ch2o / 256, raw.ch2o % 256, raw.co / 256, raw.co % 256,
     raw.o3 / 256, raw.o3 % 256, raw.no2 / 256, raw.no2 % 256,
     b23, b24]
  }

  /** The frame a sensor sends for `raw`: the body and its checksum. */
  function Frame(raw: RawFields, b0: Byte, b1: Byte, b23: Byte, b24: Byte): (buf: seq<Byte>)
    ensures |buf| == FrameLen
    ensures buf[25] == Checksum(buf)
  {
    var body := Body(raw, b0, b1, b23, b24);
    assert (body + [Checksum(body)])[1..25] == body[1..25];
    body + [Checksum(body)]
  }

  /** A calibration pair `(multiplier, offset)`. */
  datatype Cal = Cal(scale: real, offset: real)

  /** `CAL`: only CO2 is shifted, by -200 ppm. */
  const CalTable: map<string, Cal> := map[
    "pm1" := Cal(1.0, 0.0),
    "pm25" := Cal(1.0, 0.0),
    "pm10" := Cal(1.0, 0.0),
    "co2" := Cal(1.0, -200.0),
    "hum" := Cal(1.0, 0.0)]

  /** The keys of `raw_vals`, in the order the calibration loop visits them. */
  const CalOrder: seq<string> := ["pm1", "pm25", "pm10", "co2", "hum"]

  /** The five calibrated channels: four integer counts and the humidity. */
  datatype Channels = Channels(pm1: int, pm25: int, pm10: int, co2: int, hum: real)

  /** `int(v * s + o)` for a channel named in the table, the raw value otherwise. */
  function CalibrateInt(v: int, k: string, cal: map<string, Cal>): int {
    if k in cal then Truncate(v as real * cal[k].scale + cal[k].offset) else v
  }

  /** `v * s + o` for a channel named in the table, the raw value otherwise. */
  function CalibrateReal(v: real, k: string, cal: map<string, Cal>): real {
    if k in cal then v * cal[k].scale + cal[k].offset else v
  }

  /** The channels after the loop has visited the first `n` keys of `CalOrder`. */
  function CalibratedUpTo(raw: Channels, cal: map<string, Cal>, n: nat): Channels {
    Channels(
      if n > 0 then CalibrateInt(raw.pm1, "pm1", cal) else raw.pm1,
      if n > 1 then CalibrateInt(raw.pm25, "pm25", cal) else raw.pm25,
      if n > 2 then CalibrateInt(raw.pm10, "pm10", cal) else raw.pm10,
      if n > 3 then CalibrateInt(raw.co2, "co2", cal) else raw.co2,
      if n > 4 then CalibrateReal(raw.hum, "hum", cal) else raw.hum)
  }

  /** Every channel calibrated by its own entry of the table. */
  function Calibrated(raw: Channels, cal: map<string, Cal>): (c: Channels)
    ensures c.pm1 == CalibrateInt(raw.pm1, "pm1", cal) && c.pm25 == CalibrateInt(raw.pm25, "pm25", cal)
    ensures c.pm10 == CalibrateInt(raw.pm10, "pm10", cal) && c.co2 == CalibrateInt(raw.co2, "co2", cal)
    ensures c.hum == CalibrateReal(raw.hum, "hum", cal)
  {
    CalibratedUpTo(raw, cal, |CalOrder|)
  }

  /** The calibration loop of `parse_sensor_data`. */
  method Calibrate(raw: Channels, cal: map<string, Cal>) returns (c: Channels)
    ensures c == Calibrated(raw, cal)
  {
    var names := CalOrder;
    var vals := [raw.pm1 as real, raw.pm25 as real, raw.pm10 as real, raw.co2 as real, raw.hum];
    c := raw;
    var i := 0;
    while i < |names|
      invariant 0 <= i <= |names|
      invariant c == CalibratedUpTo(raw, cal, i)
    {
      var k := names[i];
      var v := vals[i];
      if k in cal {
        var s, o := cal[k].scale, cal[k].offset;
        if k == "hum" {
          c := c.(hum := v * s + o);
        } else if k == "co2" {
          c := c.(co2 := Truncate(v * s + o));
        } else if k == "pm1" {
          c := c.(pm1 := Truncate(v * s + o));
        } else if k == "pm25" {
          c := c.(pm25 := Truncate(v * s + o));
        } else if k == "pm10" {
          c := c.(pm10 := Truncate(v * s + o));
        }
      }
      i := i + 1;
    }
  }

  /** `int()` of an integer-valued real is that integer. */
  lemma TruncateInt(n: int)
    ensures Truncate(n as real) == n
  {
  }

  /** The shipped table leaves the particulate counts and the humidity alone and lowers CO2 by 200. */
  lemma CalTableEffect(raw: Channels)
    ensures Calibrated(raw, CalTable) == Channels(raw.pm1, raw.pm25, raw.pm10, raw.co2 - 200, raw.hum)
  {
    TruncateInt(raw.pm1);
    TruncateInt(raw.pm25);
    TruncateInt(raw.pm10);
    TruncateInt(raw.co2 - 200);
  }

  /** `10 ** digits` as a real. */
  function Scale(digits: nat): (p: real)
    ensures p >= 1.0
  {
    if digits == 0 then 1.0 else 10.0 * Scale(digits - 1)
  }

  /** Rounding to the nearest integer, ties to the even one, as Python's `round` does. */
  function RoundHalfEven(x: real): (n: int)
    ensures x - 0.5 <= n as real <= x + 0.5
  {
    var f := x.Floor;
    var d := x - f as real;
    if d < 0.5 then f
    else if d > 0.5 then f + 1
    else if f % 2 == 0 then f
    else f + 1
  }

  /** Rounding to a multiple of `1 / p`. */
  function RoundBy(x: real, p: real): real
    requires p >= 1.0
  {
    RoundHalfEven(x * p) as real / p
  }

  /** `round(x, digits)` on an exact real. */
  function Round(x: real, digits: nat): real {
    RoundBy(x, Scale(digits))
  }

  lemma RoundByUnfold(x: real, p: real)
    requires p >= 1.0
    ensures RoundBy(x, p) == RoundHalfEven(x * p) as real / p
  {
  }

  lemma DivideMonotone(a: real, b: real, p: real)
    requires a <= b && p > 0.0
    ensures a / p <= b / p
  {
  }

  lemma RoundByIsClose(x: real, p: real)
    requires p >= 1.0
    ensures x - 0.5 / p <= RoundBy(x, p) <= x + 0.5 / p
  {
    var n := RoundHalfEven(x * p);
    assert RoundBy(x, p) == n as real / p;
    assert (x * p - 0.5) / p == x - 0.5 / p;
    assert (x * p + 0.5) / p == x + 0.5 / p;
    DivideMonotone(x * p - 0.5, n as real, p);
    DivideMonotone(n as real, x * p + 0.5, p);
  }

  /** Rounding moves a value by at most half a unit in the last kept digit. */
  lemma RoundIsClose(x: real, digits: nat)
    ensures x - 0.5 / Scale(digits) <= Round(x, digits) <= x + 0.5 / Scale(digits)
  {
    RoundByIsClose(x, Scale(digits));
  }

  /** A value with no more than `digits` decimals is left as it is. */
  lemma RoundKeepsExact(n: int, digits: nat)
    ensures Round(n as real / Scale(digits), digits) == n as real / Scale(digits)
  {
    var p := Scale(digits);
    var x := n as real / p;
    assert x * p == n as real;
    assert RoundHalfEven(x * p) == n;
    RoundByUnfold(x, p);
  }

  /** The payload `parse_sensor_data` builds. */
  datatype Reading = Reading(
    deviceId: string, site: string,
    pm1: int, pm25: int, pm10: int, co2: int,
    voc: real, temp: real, hum: real,
    ch2o: real, co: real, o3: real, no2: real)

  /** The raw channels that enter the calibration loop. */
  function RawChannels(raw: RawFields): Channels {
    Channels(raw.pm1, raw.pm25, raw.pm10, raw.co2, (raw.hum - 10) as real * 1.0)
  }

  /** Scaling, calibration and rounding of a frame's fields. */
  function Decode(raw: RawFields): Reading {
    var c := Calibrated(RawChannels(raw), CalTable);
    Reading(
      DeviceId, SiteName,
      c.pm1, c.pm25, c.pm10, c.co2,
      Round(raw.tvoc as real, 2),
      Round((raw.temp - 435) as real * 0.1, 1),
      Round(c.hum, 1),
      Round(raw.ch2o as real * 0.001, 2),
      Round(raw.co as real * 0.1, 1),
      Round(raw.o3 as real * 0.01, 1),
      Round(raw.no2 as real * 0.01, 1))
  }

  /** `parse_sensor_data(buf)`: `None` for a frame of the wrong length or with a bad checksum. */
  function Parse(buf: seq<Byte>): (r: Option<Reading>)
    ensures r.Some? ==> |buf| == FrameLen && Checksum(buf) == buf[25]
  {
    if |buf| != FrameLen then None
    else if Checksum(buf) != buf[25] then None
    else Some(Decode(RawOf(buf)))
  }

  /** `parse_sensor_data` step by step, with the calibration loop. */
  method ParseSensorData(buf: seq<Byte>) returns (r: Option<Reading>)
    ensures r == Parse(buf)
  {
    if |buf| != FrameLen {
      return None;
    }
    if Checksum(buf) != buf[25] {
      return None;
    }
    var pm1 := Word(buf[2], buf[3]);
    var pm25 := Word(buf[4], buf[5]);
    var pm10 := Word(buf[6], buf[7]);
    var co2 := Word(buf[8], buf[9]);
    var tvoc := buf[10];
    var temp := (Word(buf[11], buf[12]) - 435) as real * 0.1;
    var hum := (Word(buf[13], buf[14]) - 10) as real * 1.0;
    var ch2o := Word(buf[15], buf[16]) as real * 0.001;
    var co := Word(buf[17], buf[18]) as real * 0.1;
    var o3 := Word(buf[19], buf[20]) as real * 0.01;
    var no2 := Word(buf[21], buf[22]) as real * 0.01;
    var c := Calibrate(Channels(pm1, pm25, pm10, co2, hum), CalTable);
    return Some(Reading(
      DeviceId, SiteName,
      c.pm1, c.pm25, c.pm10, c.co2,
      Round(tvoc as real, 2), Round(temp, 1), Round(c.hum, 1),
      Round(ch2o, 2), Round(co, 1), Round(o3, 1), Round(no2, 1)));
  }

  /** A frame is accepted exactly when it has 26 bytes whose bytes 1 to 25 sum to a multiple of 256. */
  lemma ParseAccepts(buf: seq<Byte>)
    ensures Parse(buf).Some? <==> |buf| == FrameLen && (Sum(buf[1..25]) + buf[25]) % 256 == 0
  {
    if |buf| == FrameLen {
      ChecksumUnique(buf, buf[25]);
    }
  }

  /** The decoded payload: the device constants, the counts as read, CO2 less 200 and the humidity less 10. */
  lemma DecodedFields(raw: RawFields)
    ensures Decode(raw).deviceId == "lab01" && Decode(raw).site == "AGI_Lab"
    ensures Decode(raw).pm1 == raw.pm1 && Decode(raw).pm25 == raw.pm25 && Decode(raw).pm10 == raw.pm10
    ensures Decode(raw).co2 == raw.co2 - 200
    ensures Decode(raw).voc == raw.tvoc as real
    ensures Decode(raw).hum == (raw.hum - 10) as real
  {
    var c := Calibrated(RawChannels(raw), CalTable);
    CalTableEffect(RawChannels(raw));
    assert c.hum == (raw.hum - 10) as real;
    RoundKeepsExact(raw.tvoc * 100, 2);
    assert (raw.tvoc * 100) as real / Scale(2) == raw.tvoc as real;
    RoundKeepsExact((raw.hum - 10) * 10, 1);
    assert ((raw.hum - 10) * 10) as real / Scale(1) == (raw.hum - 10) as real;
  }

  /** What an accepted frame decodes to: the device constants, the big-endian counts and the calibrated CO2 and humidity. */
  lemma ParsedFields(buf: seq<Byte>)
    requires Parse(buf).Some?
    ensures Parse(buf).value.deviceId == "lab01" && Parse(buf).value.site == "AGI_Lab"
    ensures Parse(buf).value.pm1 == Word(buf[2], buf[3])
    ensures Parse(buf).value.pm25 == Word(buf[4], buf[5])
    ensures Parse(buf).value.pm10 == Word(buf[6], buf[7])
    ensures Parse(buf).value.co2 == Word(buf[8], buf[9]) - 200
    ensures Parse(buf).value.voc == buf[10] as real
    ensures Parse(buf).value.hum == (Word(buf[13], buf[14]) - 10) as real
  {
    var raw := RawOf(buf);
    assert Parse(buf) == Some(Decode(raw));
    DecodedFields(raw);
  }

  /** Decoding the frame built for some fields gives back those fields, and the frame is accepted. */
  lemma RawOfFrame(raw: RawFields, b0: Byte, b1: Byte, b23: Byte, b24: Byte)
    ensures RawOf(Frame(raw, b0, b1, b23, b24)) == raw
    ensures Parse(Frame(raw, b0, b1, b23, b24)) == Some(Decode(raw))
  {
  }

  /** An accepted frame is the frame of its own fields and unused bytes. */
  lemma FrameOfParsed(buf: seq<Byte>)
    requires Parse(buf).Some?
    ensures buf == Frame(RawOf(buf), buf[0], buf[1], buf[23], buf[24])
  {
    var f := Frame(RawOf(buf), buf[0], buf[1], buf[23], buf[24]);
    assert f[..25] == buf[..25];
    assert f[1..25] == buf[1..25];
    assert f[25] == buf[25];
  }

  /** Changing one element of a sequence changes its sum by the difference. */
  lemma {:induction false} SumUpdate(s: seq<Byte>, j: nat, b: Byte)
    requires j < |s|
    ensures Sum(s[j := b]) == Sum(s) - s[j] + b
    decreases |s|
  {
    var t := s[j := b];
    if j < |s| - 1 {
      assert t[..|t| - 1] == s[..|s| - 1][j := b];
      SumUpdate(s[..|s| - 1], j, b);
    } else {
      assert t[..|t| - 1] == s[..|s| - 1];
    }
  }

  /** The sum the receiver checks moves by exactly the change of one byte among 1 to 25. */
  lemma CheckedSumUpdate(buf: seq<Byte>, j: nat, b: Byte)
    requires |buf| == FrameLen && 1 <= j <= 25
    ensures Sum(buf[j := b][1..25]) + buf[j := b][25] == Sum(buf[1..25]) + buf[25] - buf[j] + b
  {
    var bad := buf[j := b];
    if j < 25 {
      assert bad[1..25] == buf[1..25][j - 1 := b];
      SumUpdate(buf[1..25], j - 1, b);
    } else {
      assert bad[1..25] == buf[1..25];
    }
  }

  /** A nonzero change smaller than 256 moves a multiple of 256 off it. */
  lemma OffMultiple(s: int, d: int)
    requires s % 256 == 0 && -256 < d < 256 && d != 0
    ensures (s + d) % 256 != 0
  {
  }

  /** A frame with any single byte among 1 to 25 altered is rejected. */
  lemma SingleByteCorruptionDetected(buf: seq<Byte>, j: nat, b: Byte)
    requires Parse(buf).Some?
    requires 1 <= j <= 25 && b != buf[j]
    ensures Parse(buf[j := b]) == None
  {
    ParseAccepts(buf);
    ParseAccepts(buf[j := b]);
    CheckedSumUpdate(buf, j, b);
    OffMultiple(Sum(buf[1..25]) + buf[25], b - buf[j]);
  }
}
