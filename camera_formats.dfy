/**
 * The strings a camera derives from raw data: its model name, cut from the
 * camera id, and its firmware and FPGA version texts, formatted from the
 * bytes the driver writes into a buffer.
 */
module CameraFormats {
  import opened Sdk
  import opened Wrappers
  import opened Text

  /** The model of the camera named `id`: the id up to, not including, its last dash. */
  function ModelName(id: string): (model: string)
  {
    Left(id, LastIndexOf(id, '-'))
  }

  /**
   * When the id has a dash, the model is everything before the last one and
   * what follows it has no dash; without a dash the model is empty, because
   * the prefix length is then -1.
   */
  lemma ModelNameBeforeLastDash(id: string)
    ensures '-' in id ==>
      var model := ModelName(id);
      && |model| < |id|
      && id == model + ['-'] + id[|model| + 1..]
      && '-' !in id[|model| + 1..]
    ensures '-' !in id ==> ModelName(id) == []
  {
    if '-' in id {
      var k := LastIndexOf(id, '-');
      var rest := id[k + 1..];
      assert id == id[..k] + ['-'] + rest;
      forall c | c in rest ensures c != '-' {
        var j :| 0 <= j < |rest| && rest[j] == c;
        assert id[k + 1 + j] == c;
      }
    }
  }

  /**
   * The year the high nibble of the first firmware byte stands for, less
   * 2000: nibbles 0 to 9 are 2016 to 2025, nibbles 10 to 15 are 2010 to 2015.
   */
  function FirmwareYear(b0: u8): (year: nat)
    ensures 10 <= year <= 25
    ensures year % 16 == b0 as nat / 16
    ensures year < 16 <==> b0 as nat / 16 >= 10
  {
    var nibble := b0 as nat / 16;
    if nibble < 10 then nibble + 16 else nibble
  }

  /** The month the low nibble of the first firmware byte stands for. */
  function FirmwareMonth(b0: u8): (month: nat)
    ensures month < 16
    ensures 16 * (b0 as nat / 16) + month == b0 as nat
  {
    b0 as nat % 16
  }

  /** `"20<year>-<month>-<day>"`, with the day taken from the second byte. */
  function FirmwareText(b0: u8, b1: u8): string
  {
    "20" + Join([Decimal(FirmwareYear(b0)), Decimal(FirmwareMonth(b0)), Decimal(b1 as nat)], '-')
  }

  /** The four bytes of an FPGA version. */
  datatype FpgaVersion = FpgaVersion(a: u8, b: u8, c: u8, d: u8)

  /** `"<a>-<b>-<c>-<d>"`, the four bytes in decimal. */
  function FpgaText(v: FpgaVersion): string
  {
    Join([Decimal(v.a as nat), Decimal(v.b as nat), Decimal(v.c as nat), Decimal(v.d as nat)], '-')
  }

  /** A firmware date as the text shows it. */
  datatype FirmwareDate = FirmwareDate(year: nat, month: nat, day: nat)

  /** Reads a decimal field that must denote a byte. */
  function ParseByte(s: string): (r: Option<u8>)
    ensures r.Some? ==> ParseNat(s) == Some(r.value as nat)
  {
    match ParseNat(s)
    case Some(n) => if n < 0x100 then Some(n as u8) else None
    case None => None
  }

  /** Reads an FPGA version text back into its four bytes. */
  function ParseFpgaText(s: string): Option<FpgaVersion>
  {
    var fields := Split(s, '-');
    if |fields| != 4 then None
    else
      match (ParseByte(fields[0]), ParseByte(fields[1]), ParseByte(fields[2]), ParseByte(fields[3]))
      case (Some(a), Some(b), Some(c), Some(d)) => Some(FpgaVersion(a, b, c, d))
      case _ => None
  }

  /** Reads a firmware text back into the year (less 2000), month and day it shows. */
  function ParseFirmwareText(s: string): Option<FirmwareDate>
  {
    if |s| < 2 || s[..2] != "20" then None
    else
      var fields := Split(s[2..], '-');
      if |fields| != 3 then None
      else
        match (ParseNat(fields[0]), ParseNat(fields[1]), ParseNat(fields[2]))
        case (Some(y), Some(m), Some(d)) => Some(FirmwareDate(y, m, d))
        case _ => None
  }

  /** Decimal numbers joined by dashes split back into the numbers' texts. */
  lemma SplitDecimals(ns: seq<nat>)
    requires |ns| >= 1
    ensures Split(Join(seq(|ns|, k requires 0 <= k < |ns| => Decimal(ns[k])), '-'), '-')
         == seq(|ns|, k requires 0 <= k < |ns| => Decimal(ns[k]))
  {
    var fields := seq(|ns|, k requires 0 <= k < |ns| => Decimal(ns[k]));
    forall k | 0 <= k < |fields| ensures '-' !in fields[k] {
      DecimalHasNoDash(ns[k]);
    }
    SplitJoin(fields, '-');
  }

  /** The FPGA text holds exactly the four bytes, so no two versions share a text. */
  lemma FpgaTextRoundTrip(v: FpgaVersion)
    ensures ParseFpgaText(FpgaText(v)) == Some(v)
  {
    var ns: seq<nat> := [v.a as nat, v.b as nat, v.c as nat, v.d as nat];
    SplitDecimals(ns);
    assert seq(|ns|, k requires 0 <= k < |ns| => Decimal(ns[k]))
        == [Decimal(v.a as nat), Decimal(v.b as nat), Decimal(v.c as nat), Decimal(v.d as nat)];
    DecimalRoundTrip(v.a as nat);
    DecimalRoundTrip(v.b as nat);
    DecimalRoundTrip(v.c as nat);
    DecimalRoundTrip(v.d as nat);
  }

  /** The digits of the year, month and day come out of the firmware text as its three fields. */
  lemma FirmwareTextFields(b0: u8, b1: u8)
    ensures var s := FirmwareText(b0, b1);
      && |s| >= 2 && s[..2] == "20"
      && Split(s[2..], '-') == [Decimal(FirmwareYear(b0)), Decimal(FirmwareMonth(b0)), Decimal(b1 as nat)]
  {
    var y, m, d := FirmwareYear(b0), FirmwareMonth(b0), b1 as nat;
    var body := Join([Decimal(y), Decimal(m), Decimal(d)], '-');
    var s := FirmwareText(b0, b1);
    assert s == "20" + body;
    assert s[..2] == "20";
    assert s[2..] == body;
    var ns: seq<nat> := [y, m, d];
    SplitDecimals(ns);
    assert seq(|ns|, k requires 0 <= k < |ns| => Decimal(ns[k])) == [Decimal(y), Decimal(m), Decimal(d)];
  }

  /**
   * The firmware text shows the year from the high nibble, the month from the
   * low nibble and the day from the second byte, and nothing else.
   */
  lemma FirmwareTextRoundTrip(b0: u8, b1: u8)
    ensures ParseFirmwareText(FirmwareText(b0, b1))
         == Some(FirmwareDate(FirmwareYear(b0), FirmwareMonth(b0), b1 as nat))
  {
    FirmwareTextFields(b0, b1);
    DecimalRoundTrip(FirmwareYear(b0));
    DecimalRoundTrip(FirmwareMonth(b0));
    DecimalRoundTrip(b1 as nat);
  }
}
