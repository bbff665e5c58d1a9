/**
 * The data-layout logic of the BNO055 IMU driver (class IMU in Romi-Files/imu.py).
 * An I2C transfer is modelled by its bytes: a read returns the bytes of consecutive
 * registers, a write is a RegWrite (start register and bytes). The sensor's register
 * space is a 256-byte sequence where a write's effect has to be tracked.
 */
module Bno055 {
  import opened Results

  /** A byte as the driver sees it: an integer in [0, 255]. */
  type byte = x: int | 0 <= x < 256

  /** Register addresses and operating-mode values of the BNO055. */
  const OPR_MODE_REG: int := 0x3D
  const CALIB_STAT_REG: int := 0x35
  const CONFIG_MODE: byte := 0x00
  const IMU_MODE: byte := 0x08
  const COMPASS_MODE: byte := 0x09
  const M4G_MODE: byte := 0x0A
  const NDOF_FMC_OFF_MODE: byte := 0x0B
  const NDOF_MODE: byte := 0x0C
  const ACCEL_OFFSET_X_LSB: int := 0x55
  const MAG_OFFSET_X_LSB: int := 0x5B
  const GYRO_OFFSET_X_LSB: int := 0x61
  const ACCEL_RADIUS_LSB: int := 0x67
  const MAG_RADIUS_LSB: int := 0x69
  const EULER_H_LSB: int := 0x1A
  const GYRO_X_LSB: int := 0x14
  const GYRO_Z_LSB: int := 0x18

  /** The exceptions the driver raises. */
  datatype ImuError =
    | InvalidMode          // ValueError("Invalid Mode")
    | InvalidLength        // ValueError("Calibration data must be 22 bytes.")
    | MissingSetMode       // AttributeError: the IMU class has no set_mode

  /** One I2C memory write: bytes stored from register `reg` upward. */
  datatype RegWrite = RegWrite(reg: int, data: seq<byte>)

  // ---------------------------------------------------------------- calibration status

  /** cal_status: the four 2-bit calibration levels packed in CALIB_STAT. */
  datatype CalibStatus = CalibStatus(system: int, gyroscope: int, accelerometer: int, magnetometer: int)

  predicate LevelsInRange(c: CalibStatus) {
    0 <= c.system <= 3 && 0 <= c.gyroscope <= 3 && 0 <= c.accelerometer <= 3 && 0 <= c.magnetometer <= 3
  }

  /** The inverse of the parse: sys << 6 | gyro << 4 | accel << 2 | mag (the fields do not overlap). */
  function PackCalibStatus(c: CalibStatus): byte
    requires LevelsInRange(c)
  {
    c.system * 64 + c.gyroscope * 16 + c.accelerometer * 4 + c.magnetometer
  }

  /** The four fields (stat >> 6) & 3, (stat >> 4) & 3, (stat >> 2) & 3 and stat & 3. */
  function ParseCalibStatus(stat: byte): (c: CalibStatus)
    ensures LevelsInRange(c)
    ensures PackCalibStatus(c) == stat
  {
    assert stat / 64 == (stat / 16) / 4 && stat / 16 == (stat / 4) / 4;
    assert stat / 16 == (stat / 64) * 4 + (stat / 16) % 4;
    assert stat / 4 == (stat / 16) * 4 + (stat / 4) % 4;
    assert stat == (stat / 4) * 4 + stat % 4;
    CalibStatus((stat / 64) % 4, (stat / 16) % 4, (stat / 4) % 4, stat % 4)
  }

  /** Packing any four levels and parsing the byte gives the same levels back. */
  lemma ParsePackRoundTrip(c: CalibStatus)
    requires LevelsInRange(c)
    ensures ParseCalibStatus(PackCalibStatus(c)) == c
  {
    var b := PackCalibStatus(c);
    assert b / 64 == c.system;
    assert b / 16 == c.system * 4 + c.gyroscope;
    assert b / 4 == c.system * 16 + c.gyroscope * 4 + c.accelerometer;
  }

  /** Fully calibrated, as calibrate_2 waits for: all four levels are 3. */
  lemma FullyCalibratedByte(stat: byte)
    ensures (var c := ParseCalibStatus(stat);
             c.system == 3 && c.gyroscope == 3 && c.accelerometer == 3 && c.magnetometer == 3) <==> stat == 0xFF
  {
    var c := ParseCalibStatus(stat);
    if c.system == 3 && c.gyroscope == 3 && c.accelerometer == 3 && c.magnetometer == 3 {
      assert c == CalibStatus(3, 3, 3, 3);
      assert PackCalibStatus(CalibStatus(3, 3, 3, 3)) == 0xFF;
    } else {
      ParsePackRoundTrip(CalibStatus(3, 3, 3, 3));
    }
  }

  // ---------------------------------------------------------------- signed 16-bit words

  /** struct.unpack('<h'): a little-endian two's-complement 16-bit word. */
  function Int16LE(lo: byte, hi: byte): (v: int)
    ensures -32768 <= v <= 32767
    ensures (v - (lo as int + 256 * (hi as int))) % 65536 == 0
    ensures v < 0 <==> hi >= 0x80
  {
    var u := lo as int + 256 * (hi as int);
    if u >= 32768 then u - 65536 else u
  }

  /** struct.pack('<h'): the two bytes of a 16-bit signed value, low byte first. */
  function EncodeInt16LE(v: int): (b: seq<byte>)
    requires -32768 <= v <= 32767
    ensures |b| == 2
  {
    var u := if v < 0 then v + 65536 else v;
    [u % 256, u / 256]
  }

  lemma DecodeEncodeInt16(v: int)
    requires -32768 <= v <= 32767
    ensures Int16LE(EncodeInt16LE(v)[0], EncodeInt16LE(v)[1]) == v
  {
    var u := if v < 0 then v + 65536 else v;
    var b := EncodeInt16LE(v);
    assert b[0] == u % 256 && b[1] == u / 256;
    assert b[0] as int + 256 * (b[1] as int) == u;
  }

  lemma EncodeDecodeInt16(lo: byte, hi: byte)
    ensures EncodeInt16LE(Int16LE(lo, hi)) == [lo, hi]
  {
    var u := lo as int + 256 * (hi as int);
    assert u % 256 == lo && u / 256 == hi;
    var b := EncodeInt16LE(Int16LE(lo, hi));
    assert b[0] == lo && b[1] == hi;
  }

  /** read_heading: the heading word read from EULER_H_LSB, in 1/16 degree. */
  function ReadHeading(data: seq<byte>): (h: int)
    requires |data| == 2
    ensures -32768 <= h <= 32767
    ensures EncodeInt16LE(h) == data
  {
    EncodeDecodeInt16(data[0], data[1]);
    Int16LE(data[0], data[1])
  }

  /** read_yaw_rate: the Z gyro word read from GYRO_Z_LSB, divided by 16 (degrees per second). */
  function ReadYawRate(data: seq<byte>): (w: real)
    requires |data| == 2
    ensures w * 16.0 == Int16LE(data[0], data[1]) as real
    ensures -2048.0 <= w < 2048.0
  {
    Int16LE(data[0], data[1]) as real / 16.0
  }

  /** Three consecutive words, as unpacked with '<hhh'. */
  datatype Triple = Triple(first: int, second: int, third: int)

  function Words3(data: seq<byte>): (t: Triple)
    requires |data| == 6
    ensures -32768 <= t.first <= 32767 && -32768 <= t.second <= 32767 && -32768 <= t.third <= 32767
    ensures EncodeInt16LE(t.first) + EncodeInt16LE(t.second) + EncodeInt16LE(t.third) == data
  {
    EncodeDecodeInt16(data[0], data[1]);
    EncodeDecodeInt16(data[2], data[3]);
    EncodeDecodeInt16(data[4], data[5]);
    assert data == [data[0], data[1]] + [data[2], data[3]] + [data[4], data[5]];
    Triple(Int16LE(data[0], data[1]), Int16LE(data[2], data[3]), Int16LE(data[4], data[5]))
  }

  /** read_euler_angles: heading (bytes 0-1), roll (2-3), pitch (4-5), from EULER_H_LSB. */
  function ReadEulerAngles(data: seq<byte>): (t: Triple)
    requires |data| == 6
    ensures t.first == Int16LE(data[0], data[1])
    ensures t.second == Int16LE(data[2], data[3]) && t.third == Int16LE(data[4], data[5])
  {
    Words3(data)
  }

  /** read_angular_velocity: x, y, z gyro words from GYRO_X_LSB; z is the word read_yaw_rate scales. */
  function ReadAngularVelocity(data: seq<byte>): (t: Triple)
    requires |data| == 6
    ensures t.third as real == ReadYawRate(data[4..6]) * 16.0
    ensures t.first == Int16LE(data[0], data[1]) && t.second == Int16LE(data[2], data[3])
  {
    Words3(data)
  }

  // ---------------------------------------------------------------- operating modes

  function LowerChar(c: char): char {
    if 'A' <= c <= 'Z' then (c as int + 32) as char else c
  }

  /** str.lower on ASCII letters: capitals move up by 32 to their small letters, nothing else changes. */
  function Lower(s: string): (r: string)
    ensures |r| == |s|
    ensures forall i :: 0 <= i < |r| ==> !('A' <= r[i] <= 'Z')
    ensures forall i :: 0 <= i < |s| && !('A' <= s[i] <= 'Z') ==> r[i] == s[i]
    ensures forall i :: 0 <= i < |s| && 'A' <= s[i] <= 'Z' ==> r[i] as int == s[i] as int + 32
  {
    seq(|s|, i requires 0 <= i < |s| => LowerChar(s[i]))
  }

  /** The register value of a (lower-case) mode name, if it is one of the five. */
  function ModeValue(name: string): Option<byte> {
    if name == "imu" then Some(IMU_MODE)
    else if name == "compass" then Some(COMPASS_MODE)
    else if name == "m4g" then Some(M4G_MODE)
    else if name == "ndof_fmc" then Some(NDOF_FMC_OFF_MODE)
    else if name == "ndof" then Some(NDOF_MODE)
    else None
  }

  /** The name op_mode accepts for a register value, if any. */
  function ModeName(value: byte): Option<string> {
    if value == IMU_MODE then Some("imu")
    else if value == COMPASS_MODE then Some("compass")
    else if value == M4G_MODE then Some("m4g")
    else if value == NDOF_FMC_OFF_MODE then Some("ndof_fmc")
    else if value == NDOF_MODE then Some("ndof")
    else None
  }

  /**
   * op_mode: the name, in any letter case, selects the value written to OPR_MODE;
   * any other name raises ValueError and writes nothing.
   */
  function OpMode(mode: string): (r: Result<RegWrite, ImuError>)
    ensures r.Ok? <==> ModeValue(Lower(mode)).Some?
    ensures r.Ok? ==> r.value == RegWrite(OPR_MODE_REG, [ModeValue(Lower(mode)).value])
    ensures r.Err? ==> r.error == InvalidMode
  {
    match ModeValue(Lower(mode))
    case Some(v) => Ok(RegWrite(OPR_MODE_REG, [v]))
    case None => Err(InvalidMode)
  }

  lemma LowerIdempotent(s: string)
    ensures Lower(Lower(s)) == Lower(s)
  {
  }

  /** Letter case never matters: a name and its lower-case form select the same mode. */
  lemma OpModeCaseInsensitive(mode: string)
    ensures OpMode(mode) == OpMode(Lower(mode))
  {
    LowerIdempotent(mode);
  }

  /** The five names and the five register values are in one-to-one correspondence. */
  lemma OpModeNamesRoundTrip(mode: string, value: byte)
    ensures OpMode(mode).Ok? ==> ModeName(OpMode(mode).value.data[0]) == Some(Lower(mode))
    ensures ModeName(value).Some? ==> OpMode(ModeName(value).value) == Ok(RegWrite(OPR_MODE_REG, [value]))
  {
    if ModeName(value).Some? {
      var n := ModeName(value).value;
      assert Lower(n) == n;
    }
  }

  lemma OpModeExamples()
    ensures OpMode("NDOF") == Ok(RegWrite(OPR_MODE_REG, [0x0C]))
    ensures OpMode("imu") == Ok(RegWrite(OPR_MODE_REG, [0x08]))
    ensures OpMode("config") == Err(InvalidMode)
  {
    assert Lower("NDOF") == "ndof";
    assert Lower("imu") == "imu";
    assert Lower("config") == "config";
  }

  // ---------------------------------------------------------------- calibration blob

  /** The sensor's register space. */
  predicate IsRegisterFile(regs: seq<byte>) {
    |regs| == 256
  }

  function ApplyWrite(regs: seq<byte>, w: RegWrite): (r: seq<byte>)
    requires 0 <= w.reg && w.reg + |w.data| <= |regs|
    ensures |r| == |regs|
    ensures r[w.reg..w.reg + |w.data|] == w.data
    ensures forall i :: 0 <= i < |regs| && !(w.reg <= i < w.reg + |w.data|) ==> r[i] == regs[i]
  {
    regs[..w.reg] + w.data + regs[w.reg + |w.data|..]
  }

  predicate WritesFit(regs: seq<byte>, ws: seq<RegWrite>) {
    forall i :: 0 <= i < |ws| ==> 0 <= ws[i].reg && ws[i].reg + |ws[i].data| <= |regs|
  }

  /** The effect of a sequence of memory writes, in order. */
  function ApplyWrites(regs: seq<byte>, ws: seq<RegWrite>): (r: seq<byte>)
    requires WritesFit(regs, ws)
    ensures |r| == |regs|
    decreases |ws|
  {
    if ws == [] then regs else ApplyWrites(ApplyWrite(regs, ws[0]), ws[1..])
  }

  /** mem_read(n, addr, reg): n bytes from register reg upward. */
  function MemRead(regs: seq<byte>, reg: int, n: nat): (r: seq<byte>)
    requires 0 <= reg && reg + n <= |regs|
    ensures |r| == n
    ensures forall i :: 0 <= i < n ==> r[i] == regs[reg + i]
  {
    regs[reg..reg + n]
  }

  /**
   * read_calibration_data: accel offsets (6), mag offsets (6), gyro offsets (6),
   * accel radius (2) and mag radius (2), concatenated in that order. The five blocks
   * are adjacent, so the blob is the 22 registers from ACCEL_OFFSET_X_LSB up.
   */
  function ReadCalibrationData(regs: seq<byte>): (blob: seq<byte>)
    requires IsRegisterFile(regs)
    ensures |blob| == 22
    ensures blob == regs[ACCEL_OFFSET_X_LSB..ACCEL_OFFSET_X_LSB + 22]
  {
    MemRead(regs, ACCEL_OFFSET_X_LSB, 6) + MemRead(regs, MAG_OFFSET_X_LSB, 6)
      + MemRead(regs, GYRO_OFFSET_X_LSB, 6) + MemRead(regs, ACCEL_RADIUS_LSB, 2)
      + MemRead(regs, MAG_RADIUS_LSB, 2)
  }

  /** The five register writes of a 22-byte blob: slices [0:6], [6:12], [12:18], [18:20], [20:22]. */
  function CalibrationSegments(blob: seq<byte>): (ws: seq<RegWrite>)
    requires |blob| == 22
    ensures |ws| == 5
    ensures ws[0].data + ws[1].data + ws[2].data + ws[3].data + ws[4].data == blob
    ensures ws[0].reg == ACCEL_OFFSET_X_LSB && ws[1].reg == MAG_OFFSET_X_LSB && ws[2].reg == GYRO_OFFSET_X_LSB
    ensures ws[3].reg == ACCEL_RADIUS_LSB && ws[4].reg == MAG_RADIUS_LSB
    ensures ws[0].data == blob[0..6] && ws[1].data == blob[6..12] && ws[2].data == blob[12..18]
    ensures ws[3].data == blob[18..20] && ws[4].data == blob[20..22]
  {
    assert blob[0..6] + blob[6..12] + blob[12..18] + blob[18..20] + blob[20..22] == blob;
    [RegWrite(ACCEL_OFFSET_X_LSB, blob[0..6]), RegWrite(MAG_OFFSET_X_LSB, blob[6..12]),
     RegWrite(GYRO_OFFSET_X_LSB, blob[12..18]), RegWrite(ACCEL_RADIUS_LSB, blob[18..20]),
     RegWrite(MAG_RADIUS_LSB, blob[20..22])]
  }

  /**
   * write_calibration_data as the source has it: the length check passes only 22-byte
   * blobs, and the very next statement calls self.set_mode, which the IMU class does not
   * define, so no blob is ever written.
   */
  function WriteCalibrationDataAsWritten(blob: seq<byte>): (r: Result<seq<RegWrite>, ImuError>)
    ensures |blob| != 22 ==> r == Err(InvalidLength)
  {
    if |blob| != 22 then Err(InvalidLength) else Err(MissingSetMode)
  }

  /** Every blob, of the right length or not, fails: the calibration is never written. */
  lemma AsWrittenNeverWrites(blob: seq<byte>)
    ensures WriteCalibrationDataAsWritten(blob).Err?
    ensures |blob| == 22 ==> WriteCalibrationDataAsWritten(blob) == Err(MissingSetMode)
  {
  }

  /**
   * write_calibration_data as evidently intended: reject blobs that are not 22 bytes; otherwise
   * switch to CONFIG mode, write the five segments, and return to NDOF mode.
   */
  function WriteCalibrationData(blob: seq<byte>): (r: Result<seq<RegWrite>, ImuError>)
    ensures r.Err? <==> |blob| != 22
    ensures r.Err? ==> r.error == InvalidLength
    ensures r.Ok? ==> |r.value| == 7 && r.value[0] == RegWrite(OPR_MODE_REG, [CONFIG_MODE])
                      && r.value[6] == RegWrite(OPR_MODE_REG, [NDOF_MODE])
    ensures r.Ok? ==> r.value[1..6] == CalibrationSegments(blob)
  {
    if |blob| != 22 then Err(InvalidLength)
    else Ok([RegWrite(OPR_MODE_REG, [CONFIG_MODE])] + CalibrationSegments(blob)
            + [RegWrite(OPR_MODE_REG, [NDOF_MODE])])
  }

  /**
   * Writing a 22-byte blob and reading the calibration back returns the same blob,
   * and the sensor is left in NDOF mode.
   */
  lemma CalibrationRoundTrip(regs: seq<byte>, blob: seq<byte>)
    requires IsRegisterFile(regs) && |blob| == 22
    ensures WritesFit(regs, WriteCalibrationData(blob).value)
    ensures ReadCalibrationData(ApplyWrites(regs, WriteCalibrationData(blob).value)) == blob
    ensures ApplyWrites(regs, WriteCalibrationData(blob).value)[OPR_MODE_REG] == NDOF_MODE
  {
    var ws := WriteCalibrationData(blob).value;
    assert WritesFit(regs, ws);
    var r0 := ApplyWrite(regs, ws[0]);
    var r1 := ApplyWrite(r0, ws[1]);
    var r2 := ApplyWrite(r1, ws[2]);
    var r3 := ApplyWrite(r2, ws[3]);
    var r4 := ApplyWrite(r3, ws[4]);
    var r5 := ApplyWrite(r4, ws[5]);
    var r6 := ApplyWrite(r5, ws[6]);
    assert ApplyWrites(r6, ws[7..]) == r6;
    assert ApplyWrites(r5, ws[6..]) == r6;
    assert ApplyWrites(r4, ws[5..]) == r6;
    assert ApplyWrites(r3, ws[4..]) == r6;
    assert ApplyWrites(r2, ws[3..]) == r6;
    assert ApplyWrites(r1, ws[2..]) == r6;
    assert ApplyWrites(r0, ws[1..]) == r6;
    assert ApplyWrites(regs, ws) == r6;
    forall i | 0 <= i < 22
      ensures r6[ACCEL_OFFSET_X_LSB + i] == blob[i]
    {
      assert r6[ACCEL_OFFSET_X_LSB + i] == r5[ACCEL_OFFSET_X_LSB + i];
      if i < 6 {
        assert r1[ACCEL_OFFSET_X_LSB + i] == blob[i];
      } else if i < 12 {
        assert r2[ACCEL_OFFSET_X_LSB + i] == blob[i];
      } else if i < 18 {
        assert r3[ACCEL_OFFSET_X_LSB + i] == blob[i];
      } else if i < 20 {
        assert r4[ACCEL_OFFSET_X_LSB + i] == blob[i];
      } else {
        assert r5[ACCEL_OFFSET_X_LSB + i] == blob[i];
      }
    }
    assert r6[ACCEL_OFFSET_X_LSB..ACCEL_OFFSET_X_LSB + 22] == blob;
  }
}
