/**
 * Register-word decoding of the INA260 power monitor. The bus transfer is
 * left out: each property receives the bytes the block read returned.
 * Quantities are kept as integer sensor counts (voltage 1.25 mV, current
 * 1.25 mA, power 10 mW per count) instead of the source's float products.
 */
module Ina260 {
  import opened Wrappers
  import opened Python

  newtype byte = x: int | 0 <= x < 256

  /** Register addresses by name. */
  const Registers: map<string, int> := map[
    "VOLTAGE" := 0x02,
    "CURRENT" := 0x01,
    "POWER" := 0x03,
    "MANUFACTURER_ID" := 0xFE,
    "DIE_ID" := 0xFF
  ]

  /** `read_i2c_block_data(device, register, length)` */
  datatype BlockRead = BlockRead(device: int, register: int, length: nat)

  /** The transfer `_read` asks the bus for when a register is read by name. */
  function ReadRequest(device: int, name: string): (q: Result<BlockRead, PyError>)
    ensures name in Registers <==> q.Success?
    ensures q.Success? ==> q.value.length == 2 && q.value.register == Registers[name] && q.value.device == device
    ensures q.Failure? ==> q.error == KeyError
  {
    if name in Registers then Success(BlockRead(device, Registers[name], 2)) else Failure(KeyError)
  }

  /** The register map lists five distinct addresses, each a single byte. */
  lemma RegisterMapShape()
    ensures Registers.Keys == {"VOLTAGE", "CURRENT", "POWER", "MANUFACTURER_ID", "DIE_ID"}
    ensures forall a, b :: a in Registers && b in Registers && a != b ==> Registers[a] != Registers[b]
    ensures forall a :: a in Registers ==> 0 <= Registers[a] < 256
  {
  }

  /** `struct.unpack('>H', data)[0]`: an unsigned 16-bit big-endian word. */
  function UnpackWord(data: seq<byte>): (r: Result<int, PyError>)
    ensures r.Success? <==> |data| == 2
    ensures r.Success? ==> 0 <= r.value < 0x1_0000
    ensures r.Failure? ==> r.error == StructError
  {
    if |data| == 2 then Success(data[0] as int * 256 + data[1] as int) else Failure(StructError)
  }

  /** The two bytes a device sends for a word, most significant first. */
  function PackWord(w: int): (data: seq<byte>)
    requires 0 <= w < 0x1_0000
    ensures |data| == 2
  {
    [(w / 256) as byte, (w % 256) as byte]
  }

  /** Decoding undoes the device's encoding of every 16-bit word. */
  lemma UnpackPack(w: int)
    requires 0 <= w < 0x1_0000
    ensures UnpackWord(PackWord(w)) == Success(w)
  {
  }

  /** Every 2-byte reply is the encoding of the word it decodes to, so decoding is one-to-one. */
  lemma PackUnpack(data: seq<byte>)
    requires |data| == 2
    ensures PackWord(UnpackWord(data).value) == data
  {
    var w := UnpackWord(data).value;
    assert w / 256 == data[0] as int && w % 256 == data[1] as int;
  }

  /** `w & (1 << 15) != 0`: bit 15 of a non-negative word, read arithmetically. */
  predicate SignBitSet(w: int)
    requires 0 <= w < 0x1_0000
  {
    (w / 0x8000) % 2 == 1
  }

  lemma SignBitIsHighHalf(w: int)
    requires 0 <= w < 0x1_0000
    ensures SignBitSet(w) <==> w >= 0x8000
  {
  }

  /** The source's "fix 2's complement" step: a word with bit 15 set loses 65535. */
  function SignFixAsWritten(w: int): (c: int)
    requires 0 <= w < 0x1_0000
    ensures w < 0x8000 ==> c == w
    ensures w >= 0x8000 ==> -32767 <= c <= 0
  {
    SignBitIsHighHalf(w);
    if SignBitSet(w) then w - 65535 else w
  }

  /** Two's complement of a 16-bit word, as the INA260 current register is coded. */
  function SignFix(w: int): (c: int)
    requires 0 <= w < 0x1_0000
    ensures -0x8000 <= c < 0x8000
    ensures (c - w) % 0x1_0000 == 0
  {
    SignBitIsHighHalf(w);
    if SignBitSet(w) then w - 0x1_0000 else w
  }

  /** The 16-bit word a device holds for a signed count. */
  function TwosComplementWord(c: int): (w: int)
    requires -0x8000 <= c < 0x8000
    ensures 0 <= w < 0x1_0000
  {
    if c < 0 then c + 0x1_0000 else c
  }

  /** SignFix and the device's encoding are inverse bijections. */
  lemma SignFixRoundTrip(c: int, w: int)
    requires -0x8000 <= c < 0x8000 && 0 <= w < 0x1_0000
    ensures SignFix(TwosComplementWord(c)) == c
    ensures TwosComplementWord(SignFix(w)) == w
  {
    SignBitIsHighHalf(TwosComplementWord(c));
    SignBitIsHighHalf(w);
  }

  /** As written, every negative word decodes one count too high, and 0xFFFF decodes to 0 rather than -1. */
  lemma SignFixAsWrittenOffByOne(w: int)
    requires 0 <= w < 0x1_0000
    ensures w >= 0x8000 ==> SignFixAsWritten(w) == SignFix(w) + 1
    ensures w < 0x8000 ==> SignFixAsWritten(w) == SignFix(w)
    ensures SignFixAsWritten(0xFFFF) == 0 == SignFixAsWritten(0) && SignFix(0xFFFF) == -1
  {
    SignBitIsHighHalf(w);
    SignBitIsHighHalf(0xFFFF);
    SignBitIsHighHalf(0);
  }

  /** The `voltage` property, in 1.25 mV counts. */
  function Voltage(data: seq<byte>): (r: Result<int, PyError>)
    ensures r.Success? <==> |data| == 2
    ensures r.Success? ==> 0 <= r.value < 0x1_0000 && PackWord(r.value) == data
  {
    var r := UnpackWord(data);
    if r.Success? then PackUnpack(data); r else r
  }

  /** The `power` property, in 10 mW counts. */
  function Power(data: seq<byte>): (r: Result<int, PyError>)
    ensures r.Success? <==> |data| == 2
    ensures r.Success? ==> 0 <= r.value < 0x1_0000 && PackWord(r.value) == data
  {
    var r := UnpackWord(data);
    if r.Success? then PackUnpack(data); r else r
  }

  /** The `current` property as the source computes it, in 1.25 mA counts. */
  function CurrentAsWritten(data: seq<byte>): (r: Result<int, PyError>)
    ensures r.Success? <==> |data| == 2
    ensures r.Success? ==> -32767 <= r.value < 0x8000
    ensures r.Success? ==> r.value == Current(data).value + (if data[0] >= 128 then 1 else 0)
  {
    match UnpackWord(data)
    case Success(w) =>
      SignFixAsWrittenOffByOne(w);
      Success(SignFixAsWritten(w))
    case Failure(e) => Failure(e)
  }

  /** The `current` property with two's complement decoding, in 1.25 mA counts. */
  function Current(data: seq<byte>): (r: Result<int, PyError>)
    ensures r.Success? <==> |data| == 2
    ensures r.Success? ==> -0x8000 <= r.value < 0x8000 && PackWord(TwosComplementWord(r.value)) == data
  {
    match UnpackWord(data)
    case Success(w) =>
      SignFixRoundTrip(0, w);
      PackUnpack(data);
      Success(SignFix(w))
    case Failure(e) => Failure(e)
  }

  /** `manufacturer_id()`: the raw word (0x5449 on a genuine part, not checked). */
  function ManufacturerId(data: seq<byte>): (r: Result<int, PyError>)
    ensures r.Success? <==> |data| == 2
    ensures r.Success? ==> 0 <= r.value < 0x1_0000 && PackWord(r.value) == data
  {
    var r := UnpackWord(data);
    if r.Success? then PackUnpack(data); r else r
  }

  /**
   * `die_id()`: the word split into its upper twelve bits (`w >> 4`) and its
   * low nibble (`w & 0xF`); on a non-negative word these are `w / 16` and `w % 16`.
   */
  function DieId(data: seq<byte>): (r: Result<(int, int), PyError>)
    ensures r.Success? <==> |data| == 2
    ensures r.Success? ==>
      var (id, revision) := r.value;
      0 <= id < 0x1000 && 0 <= revision < 0x10 && UnpackWord(data) == Success(id * 16 + revision)
  {
    match UnpackWord(data)
    case Success(w) => Success((w / 16, w % 16))
    case Failure(e) => Failure(e)
  }
}
