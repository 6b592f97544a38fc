/** `format_fat32`: from the device size, the cluster-size request and the
    label to the six writes that lay out an empty FAT32 volume. */
module Formatter {
  import opened Bytes
  import opened Results
  import opened Geometry
  import opened BootSector
  import opened Device

  /** What formatting returns: `Formatted` is the source's 0, every
      `Failed` its -1, with the stage that failed. */
  datatype Status = Formatted | Failed(error: Error)

  /** The computed volume: geometry and the patched boot sector. */
  datatype Volume = Volume(spc: byte, totSec: uint32, fatSz: uint32, bpb: seq<byte>)

  /** Byte offsets of the six writes. */
  const BpbOffset: nat := 0
  const FsInfoOffset: nat := 512
  const BackupBpbOffset: nat := 3072
  const BackupFsInfoOffset: nat := 3584
  const FirstFatOffset: nat := ReservedSectors * SectorSize

  /** Offset of the second FAT, `(BPB_ResvdSecCnt + BPB_FATSz32) * 512`
      evaluated in unsigned 32-bit arithmetic, as the source does. */
  function SecondFatOffset(fatSz: uint32): (r: uint32)
    ensures r % SectorSize == 0
    ensures (ReservedSectors + fatSz) * SectorSize < Two32 ==> r == FirstFatOffset + fatSz * SectorSize
  {
    var x := (ReservedSectors + fatSz) * SectorSize;
    var q := x / Two32;
    assert x == q * Two32 + x % Two32;
    assert x % Two32 == SectorSize * ((ReservedSectors + fatSz) - q * 0x80_0000);
    x % Two32
  }

  /** The second FAT's offset without the wrap-around (see Findings): it
      lies exactly the FAT size after the first FAT, and agrees with the
      source wherever the source's product fits in 32 bits. */
  function SecondFatByteOffset(fatSz: uint32): (r: nat)
    ensures r % SectorSize == 0
    ensures fatSz >= 1 ==> r >= FirstFatOffset + SectorSize
    ensures r < Two32 <==> r == SecondFatOffset(fatSz)
  {
    (ReservedSectors + fatSz) * SectorSize
  }

  /** Everything the formatter computes before its first write, or the
      reason it stops before writing. The FAT size is the source's 32-bit
      result (`FatSizeAsWritten` states when it is the ceiling). */
  function Layout(capacity: Option<uint64>, code: ClusterCode, name: seq<byte>): (r: Result<Volume>)
    ensures capacity.None? ==> r == Err(CapacityQueryFailed)
    ensures capacity.Some? ==>
      (r.Err? <==> SectorsPerCluster(capacity.value, code).Err?)
    ensures capacity.Some? && r.Err? ==> r.error == SectorsPerCluster(capacity.value, code).error
    ensures r.Ok? ==>
      && capacity.Some? && capacity.value <= MaxSectors
      && r.value.totSec == capacity.value
      && r.value.spc == SectorsPerCluster(capacity.value, code).value
      && r.value.fatSz == FatSizeAsWritten(r.value.totSec, r.value.spc)
      && r.value.bpb == PatchedBpb(BpbTemplate, r.value.spc, r.value.totSec, r.value.fatSz, name)
      && |r.value.bpb| == SectorSize
      && r.value.bpb[SecPerClusOffset] == r.value.spc
      && DecodeLe32(r.value.bpb[TotSec32Offset..TotSec32Offset + 4]) == capacity.value
      && DecodeLe32(r.value.bpb[FatSz32Offset..FatSz32Offset + 4]) == r.value.fatSz
      && r.value.bpb[VolLabOffset..VolLabOffset + VolLabLength] == LabelField(name)
  {
    if capacity.None? then Err(CapacityQueryFailed)
    else
      match SectorsPerCluster(capacity.value, code)
      case Err(e) => Err(e)
      case Ok(spc) =>
        var totSec: uint32 := capacity.value;
        var fatSz := FatSizeAsWritten(totSec, spc);
        Ok(Volume(spc, totSec, fatSz, PatchedBpb(BpbTemplate, spc, totSec, fatSz, name)))
  }

  /** The six writes, in the order the source issues them: the backups are
      the primary structures again, and the second FAT goes where the
      source's 32-bit offset puts it. */
  function WritePlan(v: Volume): (plan: seq<Write>)
    ensures |plan| == 6
    ensures plan[0].data == plan[2].data == v.bpb
    ensures plan[1].data == plan[3].data == FsInfoTemplate
    ensures plan[4].data == plan[5].data == FatTemplate
    ensures plan[5].offset == SecondFatOffset(v.fatSz)
  {
    [ Write(BpbOffset, v.bpb),
      Write(FsInfoOffset, FsInfoTemplate),
      Write(BackupBpbOffset, v.bpb),
      Write(BackupFsInfoOffset, FsInfoTemplate),
      Write(FirstFatOffset, FatTemplate),
      Write(SecondFatOffset(v.fatSz), FatTemplate) ]
  }

  /** How many of the six writes a device that completes `capacityForWrites`
      writes in all lets through after `done` earlier writes. */
  function WritesLetThrough(capacityForWrites: Option<nat>, done: nat): (n: nat)
    ensures n <= 6
  {
    if capacityForWrites.None? || capacityForWrites.value >= done + 6 then 6
    else if capacityForWrites.value <= done then 0
    else capacityForWrites.value - done
  }

  /** One `SEEKNWRITE` step: issues write `k` of `plan` once the first `k`
      are on the device; on failure the device is left as it was. */
  method SeekNWrite(dev: BlockDevice, ghost before: seq<Write>, plan: seq<Write>, k: nat) returns (ok: bool)
    requires k < |plan| && dev.log == before + plan[..k]
    modifies dev`log, dev`synced
    ensures ok <==> dev.capacityForWrites.None? || |before| + k < dev.capacityForWrites.value
    ensures dev.log == before + plan[..if ok then k + 1 else k]
    ensures dev.synced == (old(dev.synced) && !ok)
  {
    ok := dev.SeekAndWrite(plan[k].offset, plan[k].data);
    if ok {
      assert plan[..k + 1] == plan[..k] + [plan[k]];
    }
  }

  /** The six seek-then-write steps of the source, in order; the first
      failure ends the sequence. */
  method WriteVolume(dev: BlockDevice, v: Volume) returns (ok: bool)
    modifies dev`log, dev`synced
    ensures dev.log == old(dev.log) + WritePlan(v)[..WritesLetThrough(dev.capacityForWrites, |old(dev.log)|)]
    ensures ok <==> WritesLetThrough(dev.capacityForWrites, |old(dev.log)|) == 6
    ensures dev.synced == (old(dev.synced) && WritesLetThrough(dev.capacityForWrites, |old(dev.log)|) == 0)
  {
    var plan := WritePlan(v);
    ghost var before := dev.log;
    ghost var n := WritesLetThrough(dev.capacityForWrites, |dev.log|);
    assert dev.log == before + plan[..0];
    ok := SeekNWrite(dev, before, plan, 0);
    if !ok {
      assert n == 0;
      return;
    }
    ok := SeekNWrite(dev, before, plan, 1);
    if !ok {
      assert n == 1;
      return;
    }
    ok := SeekNWrite(dev, before, plan, 2);
    if !ok {
      assert n == 2;
      return;
    }
    ok := SeekNWrite(dev, before, plan, 3);
    if !ok {
      assert n == 3;
      return;
    }
    ok := SeekNWrite(dev, before, plan, 4);
    if !ok {
      assert n == 4;
      return;
    }
    ok := SeekNWrite(dev, before, plan, 5);
    if !ok {
      assert n == 5;
      return;
    }
    assert n == 6;
  }

  /** The core of `format_fat32`: guard and geometry, FAT size, patching of
      the boot sector, then the six writes and the flush. Returns the status
      and whether the "label too long" warning was issued. */
  method FormatFat32(dev: BlockDevice, capacity: Option<uint64>, code: ClusterCode, name: seq<byte>)
    returns (status: Status, labelTruncated: bool)
    modifies dev
    ensures Layout(capacity, code, name).Err? ==>
      && status == Failed(Layout(capacity, code, name).error)
      && dev.log == old(dev.log) && dev.synced == old(dev.synced) && !labelTruncated
    ensures Layout(capacity, code, name).Ok? ==>
      var n := WritesLetThrough(dev.capacityForWrites, |old(dev.log)|);
      && dev.log == old(dev.log) + WritePlan(Layout(capacity, code, name).value)[..n]
      && (status == Formatted <==> n == 6)
      && (status != Formatted ==> status == Failed(WriteFailed) && dev.synced == (old(dev.synced) && n == 0))
      && (status == Formatted ==> dev.synced)
      && labelTruncated == LabelTruncated(name)
  {
    labelTruncated := false;
    if capacity.None? {
      return Failed(CapacityQueryFailed), labelTruncated;
    }
    var dskSize := capacity.value;
    var geometry := SectorsPerCluster(dskSize, code);
    if geometry.Err? {
      return Failed(geometry.error), labelTruncated;
    }
    var spc := geometry.value;
    var totSec: uint32 := dskSize;
    var fatSz := FatSizeAsWritten(totSec, spc);

    var bpb := new byte[SectorSize](i => if 0 <= i < |BpbTemplate| then BpbTemplate[i] else 0);
    assert bpb[..] == BpbTemplate;
    labelTruncated := LabelTruncated(name);
    PatchBpb(bpb, spc, totSec, fatSz, name);
    var v := Volume(spc, totSec, fatSz, bpb[..]);
    assert Layout(capacity, code, name) == Ok(v);

    var ok := WriteVolume(dev, v);
    if !ok {
      return Failed(WriteFailed), labelTruncated;
    }
    dev.Sync();
    return Formatted, labelTruncated;
  }

  /** Each structure lies in the sector the boot sector itself declares for
      it: the boot sector in sector 0, FSInfo in sector BPB_FSInfo, the
      backup boot sector in sector BPB_BkBootSec with its FSInfo the same
      distance behind it, the first FAT after BPB_RsvdSecCnt sectors; every
      write starts on a sector boundary. */
  lemma PlanFollowsBootSector(v: Volume)
    ensures forall k :: 0 <= k < 6 ==> WritePlan(v)[k].offset % SectorSize == 0
    ensures var plan := WritePlan(v);
      && plan[0].offset == 0
      && plan[1].offset == Le16(BpbTemplate, 48) * SectorSize
      && plan[2].offset == Le16(BpbTemplate, 50) * SectorSize
      && plan[3].offset == plan[2].offset + plan[1].offset
      && plan[4].offset == Le16(BpbTemplate, 14) * SectorSize
  {
    BpbTemplateGeometry();
    BpbTemplateFat32Fields();
  }

  /** After the writes of `log`, the device holds `data` from `offset` on. */
  ghost predicate Holds(log: seq<Write>, offset: int, data: seq<byte>) {
    forall i :: 0 <= i < |data| ==> ReadByte(log, offset + i) == Some(data[i])
  }

  /** Two writes that store no byte at a common position. */
  predicate Disjoint(w1: Write, w2: Write) {
    w1.offset + |w1.data| <= w2.offset || w2.offset + |w2.data| <= w1.offset
  }

  /** A write of a sequence is read back whole when no later write of the
      sequence overlaps it. */
  lemma ReadBackOne(before: seq<Write>, p: seq<Write>, k: nat)
    requires k < |p|
    requires forall j :: k < j < |p| ==> Disjoint(p[k], p[j])
    ensures Holds(before + p, p[k].offset, p[k].data)
  {
    var pre := before + p[..k];
    var later := p[k + 1..];
    assert before + p == pre + [p[k]] + later;
    forall i | 0 <= i < |p[k].data|
      ensures ReadByte(before + p, p[k].offset + i) == Some(p[k].data[i])
    {
      forall j | 0 <= j < |later|
        ensures !Covers(later[j], p[k].offset + i)
      {
        assert later[j] == p[k + 1 + j];
        assert Disjoint(p[k], later[j]);
      }
      ReadAfterWrite(pre, p[k], later, i);
    }
  }

  /** Six writes shaped like the plan, with the second FAT at `p[5]`, are
      read back whole when the second FAT starts past the first. */
  lemma ReadBackSix(before: seq<Write>, v: Volume, p: seq<Write>)
    requires |v.bpb| == SectorSize
    requires |p| == 6 && p[..5] == WritePlan(v)[..5] && p[5].data == FatTemplate
    requires p[5].offset >= FirstFatOffset + |FatTemplate|
    ensures var log := before + p;
      && Holds(log, BpbOffset, v.bpb)
      && Holds(log, FsInfoOffset, FsInfoTemplate)
      && Holds(log, BackupBpbOffset, v.bpb)
      && Holds(log, BackupFsInfoOffset, FsInfoTemplate)
      && Holds(log, FirstFatOffset, FatTemplate)
      && Holds(log, p[5].offset, FatTemplate)
  {
    var w := WritePlan(v);
    assert |FsInfoTemplate| == SectorSize && |FatTemplate| == 12;
    assert p[0] == w[0] && p[1] == w[1] && p[2] == w[2] && p[3] == w[3] && p[4] == w[4];
    ReadBackOne(before, p, 0);
    ReadBackOne(before, p, 1);
    ReadBackOne(before, p, 2);
    ReadBackOne(before, p, 3);
    ReadBackOne(before, p, 4);
    ReadBackOne(before, p, 5);
  }

  /** As the source computes the offsets: when the second FAT starts past
      the first, every structure the formatter writes is read back as
      written, and the backup boot sector and FSInfo are byte-for-byte the
      primary ones. */
  lemma ReadBackPlan(before: seq<Write>, v: Volume)
    requires |v.bpb| == SectorSize
    requires SecondFatOffset(v.fatSz) >= FirstFatOffset + |FatTemplate|
    ensures var log := before + WritePlan(v);
      && Holds(log, BpbOffset, v.bpb)
      && Holds(log, FsInfoOffset, FsInfoTemplate)
      && Holds(log, BackupBpbOffset, v.bpb)
      && Holds(log, BackupFsInfoOffset, FsInfoTemplate)
      && Holds(log, FirstFatOffset, FatTemplate)
      && Holds(log, SecondFatOffset(v.fatSz), FatTemplate)
  {
    ReadBackSix(before, v, WritePlan(v));
  }

  /** With the second FAT at its unwrapped offset, every structure is read
      back for every FAT size of at least one sector. */
  lemma ExactOffsetReadBack(before: seq<Write>, v: Volume)
    requires |v.bpb| == SectorSize && v.fatSz >= 1
    ensures var log := before + WritePlan(v)[5 := Write(SecondFatByteOffset(v.fatSz), FatTemplate)];
      && Holds(log, BpbOffset, v.bpb)
      && Holds(log, FsInfoOffset, FsInfoTemplate)
      && Holds(log, BackupBpbOffset, v.bpb)
      && Holds(log, BackupFsInfoOffset, FsInfoTemplate)
      && Holds(log, FirstFatOffset, FatTemplate)
      && Holds(log, SecondFatByteOffset(v.fatSz), FatTemplate)
  {
    var p := WritePlan(v)[5 := Write(SecondFatByteOffset(v.fatSz), FatTemplate)];
    assert p[..5] == WritePlan(v)[..5];
    ReadBackSix(before, v, p);
  }

  /** The source's second-FAT offset wraps: with 512-byte clusters on a
      device of 1082126208 sectors the FAT has 8388576 sectors, the product
      is exactly 2^32, and the second FAT is written at byte 0, over the
      boot sector's jump instruction. Such a volume already has more clusters
      than FAT32 allows; only an explicit code lets it through. */
  lemma SecondFatOverwritesBootSector()
    ensures var r := Layout(Some(1082126208), Bs512, []);
      && r.Ok? && r.value.fatSz == 8388576
      && WritePlan(r.value)[5].offset == 0
      && r.value.bpb[0] == 0xEB
      && ReadByte(WritePlan(r.value), 0) == Some(0xF8)
      && SecondFatByteOffset(8388576) == Two32
      && CountOfClusters(1082126208, 1, 8388576) > 0x0FFF_FFF5
  {
    assert FatDivisor(1) == 129 && Wrap32(1082126208 - ReservedSectors) == 1082126176;
    var f := FatSizeAsWritten(1082126208, 1);
    assert f * 129 >= 1082126176 && (f - 1) * 129 < 1082126176;
    assert f == 8388576;
    assert SecondFatOffset(f) == 0;
    var r := Layout(Some(1082126208), Bs512, []);
    TemplateParts();
    assert BpbTemplate[0] == BootJumpAndOem[0];
  }

  /** Under automatic sizing below `FatSizeWrapSectors` the source's FAT size
      is the ceiling, the 32-bit product of the second FAT's offset never
      wraps, and the second FAT starts after the first one. */
  lemma {:induction false} AutoSecondFatExact(capacity: uint32)
    requires MinAutoSectors <= capacity < FatSizeWrapSectors
    ensures var f := FatSizeAsWritten(capacity, AutoSectors(capacity).value);
      && f == FatSize(capacity, AutoSectors(capacity).value)
      && (ReservedSectors + f) * SectorSize < Two32
      && SecondFatOffset(f) == FirstFatOffset + f * SectorSize
      && SecondFatOffset(f) >= FirstFatOffset + SectorSize
  {
    var spc := AutoSectors(capacity).value;
    AutoFatSizeExact(capacity);
    var f := FatSize(capacity, spc);
    assert (f - 1) * FatDivisor(spc) < capacity - ReservedSectors;
    assert f * FatDivisor(spc) >= capacity - ReservedSectors;
    if capacity < 532480 {
      assert spc == 1;
    } else if capacity < 16777216 {
      assert spc == 8;
    } else if capacity < 33554432 {
      assert spc == 16;
    } else if capacity < 67108864 {
      assert spc == 32;
    } else {
      assert spc == 64;
    }
    assert 1 <= f <= 524288;
  }

  /** Formatting with automatic sizing below `FatSizeWrapSectors` always
      computes a layout, and once all six writes complete the device holds
      both boot sectors, both FSInfo sectors and both FATs as computed. */
  lemma AutoReadBack(before: seq<Write>, capacity: uint32, name: seq<byte>)
    requires MinAutoSectors <= capacity < FatSizeWrapSectors
    ensures Layout(Some(capacity), Auto, name).Ok?
    ensures var v := Layout(Some(capacity), Auto, name).value;
      var log := before + WritePlan(v);
      && Holds(log, BpbOffset, v.bpb)
      && Holds(log, FsInfoOffset, FsInfoTemplate)
      && Holds(log, BackupBpbOffset, v.bpb)
      && Holds(log, BackupFsInfoOffset, FsInfoTemplate)
      && Holds(log, FirstFatOffset, FatTemplate)
      && Holds(log, (ReservedSectors + v.fatSz) * SectorSize, FatTemplate)
  {
    var v := Layout(Some(capacity), Auto, name).value;
    AutoSecondFatExact(capacity);
    ReadBackPlan(before, v);
  }

  /** From `FatSizeWrapSectors` up, automatic sizing makes the source store
      a FAT size of 0 in the boot sector, although the ceiling is positive,
      and write the second FAT over the first. */
  lemma AutoTopRangeCollapses(capacity: uint32, name: seq<byte>)
    requires FatSizeWrapSectors <= capacity <= MaxSectors
    ensures Layout(Some(capacity), Auto, name).Ok?
    ensures var v := Layout(Some(capacity), Auto, name).value;
      && v.fatSz == 0
      && DecodeLe32(v.bpb[FatSz32Offset..FatSz32Offset + 4]) == 0
      && FatSize(capacity, v.spc) > 0
      && WritePlan(v)[5].offset == WritePlan(v)[4].offset == FirstFatOffset
  {
    var v := Layout(Some(capacity), Auto, name).value;
    AutoFatSizeExact(capacity);
    assert v.spc == 64;
  }

  /** A device of 100000 sectors with automatic sizing and the label "TEST":
      one sector per cluster, a FAT of 775 sectors, the second FAT at byte
      413184. */
  lemma SmallDeviceExample()
    ensures var r := Layout(Some(100000), Auto, [0x54, 0x45, 0x53, 0x54]);
      && r.Ok? && r.value.spc == 1 && r.value.fatSz == 775
      && WritePlan(r.value)[5].offset == 413184
  {
    assert FatDivisor(1) == 129 && Wrap32(100000 - ReservedSectors) == 99968;
    var f := FatSizeAsWritten(100000, 1);
    assert f * 129 >= 99968 && (f - 1) * 129 < 99968;
    assert f == 775;
  }

  /** The guard: more than 0xFFFFFFFE sectors is refused before any write,
      as is a device below 66600 sectors with automatic sizing. */
  lemma RefusedExamples()
    ensures Layout(Some(5000000000), Bs4096, []) == Err(VolumeTooLarge)
    ensures Layout(Some(0xFFFF_FFFF), Auto, []) == Err(VolumeTooLarge)
    ensures Layout(Some(50000), Auto, []) == Err(VolumeTooSmall)
    ensures Layout(Some(50000), Bs512, []).Ok?
    ensures Layout(None, Auto, []) == Err(CapacityQueryFailed)
  {
  }
}
