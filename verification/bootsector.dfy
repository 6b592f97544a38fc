/** The three on-disk structures: the boot sector (BPB) template and its
    patching, the FSInfo sector and the initial FAT. Layouts follow the
    Microsoft FAT32 File System Specification (fatgen103), sections "Boot
    Sector and BPB" and "FAT32 FSInfo Sector Structure and Backup Boot
    Sector". */
module BootSector {
  import opened Bytes
  import Geometry

  const SectorSize: nat := 512

  /** Byte offsets of the fields the formatter patches. */
  const SecPerClusOffset: nat := 13
  const TotSec32Offset: nat := 32
  const FatSz32Offset: nat := 36
  const VolLabOffset: nat := 71
  const VolLabLength: nat := 11

  function Zeros(n: nat): (r: seq<byte>)
    ensures |r| == n && forall i :: 0 <= i < n ==> r[i] == 0
  {
    seq(n, _ => 0)
  }

  /** Bytes 0-10: jump instruction (to nothing) and OEM name "RUFUSL". */
  const BootJumpAndOem: seq<byte> := [
    0xEB, 0x00, 0x90,                                // 0  BS_jmpBoot
    0x52, 0x55, 0x46, 0x55, 0x53, 0x4c, 0x00, 0x00   // 3  BS_OEMName
  ]

  /** Bytes 11-35: the BPB fields common to all FAT types. */
  const BpbCommon: seq<byte> := [
    0x00, 0x02,                                      // 11 BPB_BytsPerSec = 512
    0x00,                                            // 13 BPB_SecPerClus (patched)
    0x20, 0x00,                                      // 14 BPB_RsvdSecCnt = 32
    0x02,                                            // 16 BPB_NumFATs = 2
    0x00, 0x00,                                      // 17 BPB_RootEntCnt
    0x00, 0x00,                                      // 19 BPB_TotSec16
    0xF8,                                            // 21 BPB_Media
    0x00, 0x00,                                      // 22 BPB_FATSz16
    0xFF, 0xFF,                                      // 24 BPB_SecPerTrk
    0xFF, 0xFF,                                      // 26 BPB_NumHeads
    0x00, 0x00, 0x00, 0x00,                          // 28 BPB_HiddSec
    0x00, 0x00, 0x00, 0x00                           // 32 BPB_TotSec32 (patched)
  ]

  /** Bytes 36-63: the FAT32 extension of the BPB. */
  const BpbFat32: seq<byte> := [
    0x00, 0x00, 0x00, 0x00,                          // 36 BPB_FATSz32 (patched)
    0x00, 0x00,                                      // 40 BPB_ExtFlags
    0x00, 0x00,                                      // 42 BPB_FSVer
    0x02, 0x00, 0x00, 0x00,                          // 44 BPB_RootClus = 2
    0x01, 0x00,                                      // 48 BPB_FSInfo = 1
    0x06, 0x00,                                      // 50 BPB_BkBootSec = 6
    0x00, 0x00, 0x00, 0x00, 0x00, 0x00,              // 52 BPB_Reserved
    0x00, 0x00, 0x00, 0x00, 0x00, 0x00
  ]

  /** Bytes 64-89: drive number, boot signature, volume id, volume label
      "NO NAME    " (patched) and file system type "FAT32   ". */
  const BootRecord: seq<byte> := [
    0x80,                                            // 64 BS_DrvNum
    0x00,                                            // 65 BS_Reserved1
    0x29,                                            // 66 BS_BootSig
    0xBE, 0xBA, 0xFE, 0xCA,                          // 67 BS_VolID
    0x4E, 0x4F, 0x20, 0x4E, 0x41, 0x4D,              // 71 BS_VolLab (patched)
    0x45, 0x20, 0x20, 0x20, 0x20,
    0x46, 0x41, 0x54, 0x33, 0x32, 0x20, 0x20, 0x20   // 82 BS_FilSysType
  ]

  /** Bytes 0-89 of the boot sector template. */
  const BpbHead: seq<byte> := BootJumpAndOem + BpbCommon + BpbFat32 + BootRecord

  /** The 512-byte boot sector template: no boot code, signature 0x55 0xAA. */
  const BpbTemplate: seq<byte> := BpbHead + Zeros(420) + [0x55, 0xAA]

  /** The 512-byte FSInfo sector: lead signature, structure signature,
      free count and next free both "unknown", trail signature. */
  const FsInfoTemplate: seq<byte> :=
    [0x52, 0x52, 0x61, 0x41] + Zeros(480) +
    [0x72, 0x72, 0x41, 0x61, 0xFF, 0xFF, 0xFF, 0xFF, 0xFF, 0xFF, 0xFF, 0xFF] +
    Zeros(14) + [0x55, 0xAA]

  /** The first three FAT entries: media entry and two end-of-chain marks. */
  const FatTemplate: seq<byte> := [
    0xF8, 0xFF, 0xFF, 0x0F,
    0xFF, 0xFF, 0xFF, 0x0F,
    0xFF, 0xFF, 0xFF, 0x0F
  ]

  /** The geometry fields of the template are those of a FAT32 volume with
      512-byte sectors, 32 reserved sectors and two FATs, the constants the
      FAT-size formula and the write plan use. */
  lemma BpbTemplateGeometry()
    ensures |BpbTemplate| == SectorSize
    ensures Le16(BpbTemplate, 11) == SectorSize
    ensures Le16(BpbTemplate, 14) == Geometry.ReservedSectors
    ensures BpbTemplate[16] == Geometry.NumFats
    ensures BpbTemplate[21] == 0xF8
  {
    TemplateParts();
    assert BpbTemplate[11..17] == BpbCommon[..6];
    assert BpbTemplate[21] == BpbCommon[10];
  }

  /** The FAT32 fields of the template: root directory at cluster 2, FSInfo
      in sector 1, backup boot sector in sector 6 (the sectors the write
      plan puts the FSInfo and the backup boot sector in). */
  lemma BpbTemplateFat32Fields()
    ensures DecodeLe32(BpbTemplate[44..48]) == 2
    ensures Le16(BpbTemplate, 48) == 1 && Le16(BpbTemplate, 50) == 6
  {
    TemplateParts();
    assert BpbTemplate[44..48] == BpbFat32[8..12];
    assert BpbTemplate[48] == BpbFat32[12] && BpbTemplate[49] == BpbFat32[13];
    assert BpbTemplate[50] == BpbFat32[14] && BpbTemplate[51] == BpbFat32[15];
  }

  /** The signatures of the template: extended boot signature 0x29, type
      string "FAT32   ", and 0x55 0xAA at the end of the sector. */
  lemma BpbTemplateSignatures()
    ensures BpbTemplate[66] == 0x29
    ensures BpbTemplate[82..90] == [0x46, 0x41, 0x54, 0x33, 0x32, 0x20, 0x20, 0x20]
    ensures BpbTemplate[510] == 0x55 && BpbTemplate[511] == 0xAA
  {
    TemplateParts();
    assert BpbTemplate[66] == BootRecord[2];
    assert BpbTemplate[82..90] == BootRecord[18..26];
  }

  /** Where the four groups of fields lie in the template. */
  lemma TemplateParts()
    ensures |BpbTemplate| == SectorSize
    ensures BpbTemplate[..11] == BootJumpAndOem
    ensures BpbTemplate[11..36] == BpbCommon
    ensures BpbTemplate[36..64] == BpbFat32
    ensures BpbTemplate[64..90] == BootRecord
    ensures BpbTemplate[510..] == [0x55, 0xAA]
  {
  }

  /** The FSInfo template carries the signatures of fatgen103 and the
      "unknown" value 0xFFFFFFFF for the free count and the next-free hint. */
  lemma FsInfoTemplateFields()
    ensures |FsInfoTemplate| == SectorSize
    ensures DecodeLe32(FsInfoTemplate[0..4]) == 0x4161_5252
    ensures DecodeLe32(FsInfoTemplate[484..488]) == 0x6141_7272
    ensures DecodeLe32(FsInfoTemplate[488..492]) == 0xFFFF_FFFF
    ensures DecodeLe32(FsInfoTemplate[492..496]) == 0xFFFF_FFFF
    ensures DecodeLe32(FsInfoTemplate[508..512]) == 0xAA55_0000
  {
  }

  /** The FAT template holds entry 0 with the media byte of the boot sector
      in its low byte, and end-of-chain marks in entries 1 and 2. */
  lemma FatTemplateFields()
    ensures |FatTemplate| == 12
    ensures DecodeLe32(FatTemplate[0..4]) == 0x0FFF_FFF8
    ensures FatTemplate[0] == BpbTemplate[21]
    ensures DecodeLe32(FatTemplate[4..8]) == 0x0FFF_FFFF
    ensures DecodeLe32(FatTemplate[8..12]) == 0x0FFF_FFFF
  {
    TemplateParts();
    assert BpbTemplate[21] == BpbCommon[10];
  }

  // ---------------------------------------------------------------------
  // The volume label

  /** Byte `i` of the caller's label read as a C string: past the end of
      the given bytes lies the terminating NUL. */
  function LabelByte(name: seq<byte>, i: nat): byte {
    if i < |name| then name[i] else 0
  }

  /** The first position at or after `i` (and below 11) holding a NUL, or 11. */
  function NulFrom(name: seq<byte>, i: nat): (k: nat)
    requires i <= VolLabLength
    ensures i <= k <= VolLabLength
    ensures forall j :: i <= j < k ==> LabelByte(name, j) != 0
    ensures k < VolLabLength ==> LabelByte(name, k) == 0
    decreases VolLabLength - i
  {
    if i == VolLabLength || LabelByte(name, i) == 0 then i else NulFrom(name, i + 1)
  }

  /** The position of the first NUL among the label's first 11 bytes, or 11. */
  function NulIndex(name: seq<byte>): (k: nat)
    ensures k <= VolLabLength
  {
    NulFrom(name, 0)
  }

  /** The 11 bytes BS_VolLab receives: the label up to its first NUL, then
      zeros. */
  function LabelField(name: seq<byte>): (r: seq<byte>)
    ensures |r| == VolLabLength
    ensures forall i :: 0 <= i < NulIndex(name) ==> i < |name| && r[i] == name[i] != 0
    ensures forall i :: NulIndex(name) <= i < VolLabLength ==> r[i] == 0
  {
    var k := NulFrom(name, 0);
    var r := seq(VolLabLength, i requires 0 <= i < VolLabLength =>
      if i < k then LabelByte(name, i) else 0);
    assert forall i :: 0 <= i < k ==> r[i] == LabelByte(name, i) != 0;
    r
  }

  /** `strlen` of the label: the position of its first NUL. */
  function CStrLen(name: seq<byte>): (n: nat)
    ensures n <= |name|
    ensures forall j :: 0 <= j < n ==> name[j] != 0
    ensures n < |name| ==> name[n] == 0
    decreases |name|
  {
    if name == [] || name[0] == 0 then 0 else 1 + CStrLen(name[1..])
  }

  /** The source warns when the label is longer than 11 characters, that
      is, when none of its first 12 bytes is the terminator. */
  predicate LabelTruncated(name: seq<byte>)
    ensures LabelTruncated(name) <==>
      |name| > VolLabLength && forall j :: 0 <= j <= VolLabLength ==> name[j] != 0
  {
    CStrLen(name) > VolLabLength
  }

  /** The label field in terms of the string's length: a label of at most
      11 characters is copied and padded with NULs; a longer one contributes
      exactly its first 11 bytes. */
  lemma {:induction false} LabelFieldByLength(name: seq<byte>)
    ensures CStrLen(name) <= VolLabLength ==>
      LabelField(name) == name[..CStrLen(name)] + Zeros(VolLabLength - CStrLen(name))
    ensures LabelTruncated(name) ==> LabelField(name) == name[..VolLabLength]
  {
    var n := CStrLen(name);
    var k := NulIndex(name);
    if n <= VolLabLength {
      assert k == n;
      assert LabelField(name) == name[..n] + Zeros(VolLabLength - n);
    } else {
      assert k == VolLabLength;
      assert LabelField(name) == name[..VolLabLength];
    }
  }

  /** The label "MYUSB" lands on disk as M Y U S B and six NULs. */
  lemma ShortLabelExample()
    ensures LabelField([0x4D, 0x59, 0x55, 0x53, 0x42]) ==
      [0x4D, 0x59, 0x55, 0x53, 0x42, 0, 0, 0, 0, 0, 0]
    ensures !LabelTruncated([0x4D, 0x59, 0x55, 0x53, 0x42])
  {
    var name: seq<byte> := [0x4D, 0x59, 0x55, 0x53, 0x42];
    LabelFieldByLength(name);
    assert CStrLen(name) == 5;
  }

  // ---------------------------------------------------------------------
  // Patching the boot sector

  /** The positions the formatter writes: SecPerClus, TotSec32, FATSz32 and
      BS_VolLab. */
  predicate IsPatched(i: nat) {
    i == SecPerClusOffset || TotSec32Offset <= i < FatSz32Offset + 4
    || VolLabOffset <= i < VolLabOffset + VolLabLength
  }

  /** `s` with `field` written over it from position `at` on. */
  function Splice(s: seq<byte>, at: nat, field: seq<byte>): (r: seq<byte>)
    requires at + |field| <= |s|
    ensures |r| == |s|
    ensures forall i :: 0 <= i < |s| ==> r[i] == if at <= i < at + |field| then field[i - at] else s[i]
  {
    s[..at] + field + s[at + |field|..]
  }

  /** The boot sector `t` with its geometry and label fields filled in. */
  function PatchedBpb(t: seq<byte>, spc: byte, totSec: uint32, fatSz: uint32, name: seq<byte>): (r: seq<byte>)
    requires |t| == SectorSize
    ensures |r| == SectorSize
    ensures r[SecPerClusOffset] == spc
    ensures DecodeLe32(r[TotSec32Offset..TotSec32Offset + 4]) == totSec
    ensures DecodeLe32(r[FatSz32Offset..FatSz32Offset + 4]) == fatSz
    ensures r[VolLabOffset..VolLabOffset + VolLabLength] == LabelField(name)
    ensures forall i :: 0 <= i < SectorSize && !IsPatched(i) ==> r[i] == t[i]
  {
    var r := Splice(Splice(Splice(t[SecPerClusOffset := spc], TotSec32Offset, Le32(totSec)),
                           FatSz32Offset, Le32(fatSz)),
                    VolLabOffset, LabelField(name));
    assert r[TotSec32Offset..TotSec32Offset + 4] == Le32(totSec);
    assert r[FatSz32Offset..FatSz32Offset + 4] == Le32(fatSz);
    assert r[VolLabOffset..VolLabOffset + VolLabLength] == LabelField(name);
    DecodeEncode(totSec);
    DecodeEncode(fatSz);
    r
  }

  /** The patched template keeps every constant field of the template:
      e.g. RootClus stays 2 and the signature stays 0x55 0xAA. */
  lemma PatchedKeepsTemplate(spc: byte, totSec: uint32, fatSz: uint32, name: seq<byte>)
    ensures var b := PatchedBpb(BpbTemplate, spc, totSec, fatSz, name);
      && b[..13] == BpbTemplate[..13]
      && b[14..32] == BpbTemplate[14..32]
      && b[40..71] == BpbTemplate[40..71]
      && b[82..] == BpbTemplate[82..]
      && DecodeLe32(b[44..48]) == 2
      && b[510] == 0x55 && b[511] == 0xAA
  {
    var b := PatchedBpb(BpbTemplate, spc, totSec, fatSz, name);
    BpbTemplateFat32Fields();
    BpbTemplateSignatures();
    assert b[44..48] == BpbTemplate[44..48];
  }

  /** Writes the label into BS_VolLab as the source's loop does: copy bytes
      until a NUL is met, then fill the rest of the field with zeros. */
  method WriteLabel(bpb: array<byte>, name: seq<byte>)
    requires bpb.Length == SectorSize
    modifies bpb
    ensures bpb[..] == Splice(old(bpb[..]), VolLabOffset, LabelField(name))
  {
    ghost var before := bpb[..];
    var i := 0;
    while i < 11
      invariant 0 <= i <= 12
      invariant i <= 11 ==> NulIndex(name) >= i
      invariant forall j :: 0 <= j < 11 && j < i ==> bpb[71 + j] == LabelField(name)[j]
      invariant forall j :: 0 <= j < 512 && !(71 <= j < 82 && j - 71 < i) ==> bpb[j] == before[j]
    {
      bpb[71 + i] := LabelByte(name, i);
      if LabelByte(name, i) == 0 {
        while i < 11
          invariant NulIndex(name) <= i <= 11
          invariant forall j :: 0 <= j < 11 && j < i ==> bpb[71 + j] == LabelField(name)[j]
          invariant forall j :: 0 <= j < 512 && !(71 <= j < 82 && j - 71 <= i) ==> bpb[j] == before[j]
        {
          bpb[71 + i] := 0;
          i := i + 1;
        }
      }
      i := i + 1;
    }
    ghost var after := Splice(before, VolLabOffset, LabelField(name));
    assert forall j :: 0 <= j < 512 ==> bpb[j] == after[j];
    assert bpb[..] == after;
  }

  /** Writes `x` in little-endian order at `at`, most significant byte
      first, as the source's four assignments do. */
  method WriteLe32(bpb: array<byte>, at: nat, x: uint32)
    requires at + 4 <= bpb.Length
    modifies bpb
    ensures bpb[..] == Splice(old(bpb[..]), at, Le32(x))
  {
    bpb[at + 3] := ByteOf(x, 3);
    bpb[at + 2] := ByteOf(x, 2);
    bpb[at + 1] := ByteOf(x, 1);
    bpb[at] := ByteOf(x, 0);
    ghost var after := Splice(old(bpb[..]), at, Le32(x));
    assert forall j :: 0 <= j < bpb.Length ==> bpb[j] == after[j];
    assert bpb[..] == after;
  }

  /** Patches the boot sector in place: SecPerClus, then TotSec32 and
      FATSz32 in little-endian order, then the volume label. */
  method PatchBpb(bpb: array<byte>, spc: byte, totSec: uint32, fatSz: uint32, name: seq<byte>)
    requires bpb.Length == SectorSize
    modifies bpb
    ensures bpb[..] == PatchedBpb(old(bpb[..]), spc, totSec, fatSz, name)
  {
    bpb[SecPerClusOffset] := spc;
    WriteLe32(bpb, TotSec32Offset, totSec);
    WriteLe32(bpb, FatSz32Offset, fatSz);
    WriteLabel(bpb, name);
  }
}
