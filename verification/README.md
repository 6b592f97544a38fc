# FAT32 formatter of Rufusl, modelled in Dafny

This project models `format_fat32` from Rufusl's `linux/fat32.c`. The
function formats a block device as an empty FAT32 volume in four stages:

1. It refuses devices of more than 0xFFFFFFFE sectors.
2. It picks the sectors per cluster. An explicit cluster-size code maps
   directly to a value. Otherwise the value comes from the capacity thresholds
   of automatic sizing.
3. It computes the size of one FAT with the formula from Microsoft's FAT32
   specification (fatgen103), in unsigned 32-bit arithmetic.
4. It patches four fields into a constant 512-byte boot-sector template:
   sectors per cluster, total sectors, FAT size and volume label. It then
   issues six seek-then-write steps and flushes the device:
   - the boot sector and FSInfo at bytes 0 and 512;
   - their backups at 3072 and 3584;
   - the first 12 bytes of each FAT copy.

The project has six modules:

- `Results`: the `Option` and `Result` wrappers and the reasons formatting
  stops.
- `Bytes`: the machine integer types, 32-bit wrap-around and the
  little-endian encoding of 32-bit fields, proved to be a bijection.
- `Geometry`: the cluster-size decision and the FAT-size formula. It has
  two versions of the formula: the one the source computes, which the
  formatter uses, and a corrected one beside it (see Findings).
- `BootSector`: the three constant templates (boot sector, FSInfo and the
  first FAT entries) and the label rule. It also holds the in-place
  patching of the boot-sector array. The patching is a method, proved
  against a function that describes the patched sector.
- `Device`: the block device as a class. Every completed seek-then-write is
  appended to a log, and a write can fail. A function reads the resulting
  contents back from the log.
- `Formatter`: the whole of `format_fat32` as a method on that device. It
  is specified by `Layout`, everything computed before the first write, and
  by `WritePlan`, the six writes in order. Both keep the source's 32-bit
  arithmetic. Lemmas show that what was written reads back as computed,
  and where the wrap-around makes it fail. The second FAT's offset also has
  a corrected version (see Findings).

## Model

| member | source | states |
|---|---|---|
| Bytes.Wrap32 | linux/fat32.c:273 | the result is the operand reduced mod 2^32, as unsigned 32-bit subtraction and addition wrap |
| Bytes.Le32 | linux/fat32.c:299-309 | the four bytes the shift-and-mask assignments store (`ByteOf`) are, in order, the value mod 256 and its quotients by 2^8, 2^16 and 2^24, each mod 256 |
| Bytes.DecodeEncode | linux/fat32.c:299-309 | the four bytes stored by the shift-and-mask assignments decode, little-endian, to the original 32-bit value |
| Bytes.EncodeDecode | linux/fat32.c:299-309 | every four-byte field is the encoding of exactly one 32-bit value (the encoding is a bijection) |
| Geometry.ExplicitSectors | linux/fat32.c:225-246 | each explicit code maps to the sectors per cluster whose product with 512 is the requested cluster size in bytes |
| Geometry.AutoSectors | linux/fat32.c:247-264 | automatic sizing fails with VolumeTooSmall exactly below 66600 sectors and otherwise yields one of 1, 8, 16, 32, 64 |
| Geometry.SectorsPerCluster | linux/fat32.c:220-266 | the call fails exactly when the count exceeds 0xFFFFFFFE (VolumeTooLarge, whatever the code) or when automatic sizing sees fewer than 66600 sectors (VolumeTooSmall); an explicit code yields its own value whatever the size |
| Geometry.AutoMonotone | linux/fat32.c:251-264 | a larger device never gets smaller clusters under automatic sizing |
| Geometry.FatDivisor | linux/fat32.c:274-275 | the divisor `(256*spc + 2)/2` equals `128*spc + 1` |
| Geometry.FatSizeAsWritten | linux/fat32.c:273-276 | the source's 32-bit computation: the result covers the usable sectors, and is the least count that does, exactly when the numerator's addition does not wrap; when it wraps (below 32 sectors, or at the top of the range with any cluster size) the result is 0 |
| Geometry.FatSize | linux/fat32.c:273-276 | corrected half of the first Finding: the FAT size is the least count of sectors whose entries cover the sectors after the reserved region (the ceiling of the quotient) |
| Geometry.FatSizeAgreement | linux/fat32.c:273-276 | the source's 32-bit computation and the ceiling agree if and only if the addition in the numerator does not wrap |
| Geometry.AutoFatSizeExact | linux/fat32.c:249-276 | under automatic sizing the source's FAT size equals the ceiling exactly below 4294959136 sectors, and is 0 from there up to 0xFFFFFFFE |
| Geometry.FatSizeOverflowWitness | linux/fat32.c:262-276 | at 0xFFFFFFFE sectors with automatic sizing, the source computes a FAT of 0 sectors where 524225 are needed |
| Geometry.FatCoversClusters | linux/fat32.c:271-276 | whenever the FAT is larger than one cluster, it has an entry for every data cluster plus the two reserved entries |
| Geometry.AutoGeometryIsFat32 | linux/fat32.c:249-276 | corrected half of the first Finding: with the ceiling FAT size, automatic sizing yields a valid FAT32 geometry: both FATs fit in the volume, there are at least 65525 data clusters, cluster numbers stay below 0x0FFFFFF7, and the FAT covers every cluster |
| BootSector.BpbTemplateGeometry | linux/fat32.c:84-94 | the template declares 512-byte sectors, 32 reserved sectors, 2 FATs and media byte 0xF8 |
| BootSector.BpbTemplateFat32Fields | linux/fat32.c:101-107 | the template declares root cluster 2, FSInfo in sector 1 and the backup boot sector in sector 6 |
| BootSector.BpbTemplateSignatures | linux/fat32.c:108-145 | the template has the extended boot signature 0x29, the type string "FAT32   " and the 55 AA signature |
| BootSector.FsInfoTemplateFields | linux/fat32.c:150-196 | FSInfo carries the lead signature 0x41615252, the structure signature 0x61417272 at 484, unknown (all-ones) free count and next-free hint, and 0xAA550000 at 508 |
| BootSector.FatTemplateFields | linux/fat32.c:198-206 | the three FAT entries are 0x0FFFFFF8, 0x0FFFFFFF and 0x0FFFFFFF, and entry 0 repeats the media byte of the boot sector |
| BootSector.LabelField | linux/fat32.c:317-324 | the 11-byte label field holds the label's bytes up to its first NUL, all of them non-zero, and zeros after it |
| BootSector.CStrLen | linux/fat32.c:313 | `strlen`: the result is the position of the label's first NUL (or its whole length), and every byte before it is non-zero |
| BootSector.LabelTruncated | linux/fat32.c:313-315 | the warning is issued exactly when the label has more than 11 bytes and none of its first 12 is the terminator |
| BootSector.LabelFieldByLength | linux/fat32.c:313-324 | a label of at most 11 characters is copied and padded with NULs; a longer one contributes exactly its first 11 bytes, the case the warning reports |
| BootSector.ShortLabelExample | linux/fat32.c:313-324 | "MYUSB" is stored as M Y U S B followed by six NULs, with no warning |
| BootSector.PatchedBpb | linux/fat32.c:289-324 | the patched sector holds the cluster size at 13, total sectors and FAT size little-endian at 32 and 36, and the label field at 71; every other byte is the template's |
| BootSector.PatchedKeepsTemplate | linux/fat32.c:289-324 | patching the template leaves every byte outside the four patched fields as declared, so the root cluster stays 2 and the sector keeps its 55 AA signature |
| BootSector.WriteLe32 | linux/fat32.c:297-309 | the four byte assignments leave the array equal to its old contents with the little-endian encoding of the value spliced in, and nothing else changed |
| BootSector.WriteLabel | linux/fat32.c:317-324 | the nested copy-then-zero-fill loop leaves the array equal to its old contents with the label field spliced in at 71 |
| BootSector.PatchBpb | linux/fat32.c:289-324 | the four patch steps turn the array into the patched sector of the function above |
| Device.BlockDevice.SeekAndWrite | linux/fat32.c:330-335 | a seek-then-write either appends its write to the log, leaves the device unsynced and reports success, or changes nothing and reports failure |
| Device.BlockDevice.Sync | linux/fat32.c:337 | after the flush the device is synced and its contents are unchanged |
| Device.ReadByte | linux/fat32.c:330-335 | a position reads as unwritten exactly when no write of the log covers it (which write wins is stated by the read-back lemma below) |
| Device.ReadAfterWrite | linux/fat32.c:330-335 | a write is read back byte for byte wherever no later write overlaps it |
| Formatter.SecondFatOffset | linux/fat32.c:335 | the source's 32-bit offset of the second FAT: it is sector-aligned, and when the product does not wrap it lies exactly the FAT size in sectors after the first FAT |
| Formatter.SecondFatByteOffset | linux/fat32.c:335 | corrected half of the second Finding: the unwrapped offset is sector-aligned, lies at least one sector after the first FAT for any non-empty FAT, and equals the source's offset exactly when it is below 2^32 |
| Formatter.Layout | linux/fat32.c:215-324 | a failed size query gives CapacityQueryFailed; otherwise the geometry's error is passed on; on success the volume holds the device size, the chosen cluster size, the source's 32-bit FAT size and the template patched with them, whose fields decode to those values and hold the label field |
| Formatter.WritePlan | linux/fat32.c:330-335 | six writes: the patched boot sector, FSInfo, both again as backups, then the 12 FAT bytes twice, the second copy at the source's 32-bit offset |
| Formatter.PlanFollowsBootSector | linux/fat32.c:330-334 | every write starts on a sector, and the boot sector, FSInfo, backup boot sector and first FAT go to the sectors the template declares in BPB_FSInfo, BPB_BkBootSec and BPB_RsvdSecCnt (linux/fat32.c:90 and 104-105) |
| Formatter.SeekNWrite | linux/fat32.c:330-335 | one `SEEKNWRITE` step: once the first k planned writes are on the device it issues write k; it succeeds exactly when the device accepts another write, then leaves k + 1 writes issued and the device unsynced, and otherwise leaves the device as it was |
| Formatter.WriteVolume | linux/fat32.c:330-335 | the device log grows by the six planned writes in order, cut short at the first failure; success means all six completed, and the device stays synced only if nothing was written |
| Formatter.FormatFat32 | linux/fat32.c:215-339 | an error before writing leaves the device untouched; otherwise the log grows by the plan's prefix up to the first failed write; success is returned only if all six writes completed, and then the device has been flushed after the last of them; a failed write returns at once, without a flush; when a layout is computed, the warning flag is set exactly for labels longer than 11 characters, and on an earlier error it is never set |
| Formatter.ReadBackPlan | linux/fat32.c:330-335 | with the source's offsets, when the second FAT starts after the first, all six structures read back as written, and the backup boot sector and FSInfo equal the primary ones |
| Formatter.ExactOffsetReadBack | linux/fat32.c:330-335 | corrected half of the second Finding: with the second FAT at its unwrapped offset, all six structures read back as written for every FAT of at least one sector |
| Formatter.SecondFatOverwritesBootSector | linux/fat32.c:225-335 | as-written half of the second Finding: 1082126208 sectors with 512-byte clusters give a FAT of 8388576 sectors, the 32-bit offset of the second FAT wraps to 0, and byte 0 of the device reads 0xF8 instead of the jump opcode 0xEB; that volume already has more than 0x0FFFFFF5 clusters |
| Formatter.AutoSecondFatExact | linux/fat32.c:249-335 | under automatic sizing below 4294959136 sectors, the source's FAT size is the ceiling, the 32-bit offset of the second FAT never wraps, and it starts at least one sector after the first FAT |
| Formatter.AutoReadBack | linux/fat32.c:249-335 | with automatic sizing below 4294959136 sectors, every device gets a layout whose six structures read back from offsets 0, 512, 3072, 3584, 16384 and (32 + FAT size) * 512 |
| Formatter.AutoTopRangeCollapses | linux/fat32.c:262-335 | with automatic sizing from 4294959136 sectors up to 0xFFFFFFFE, the source stores a FAT size of 0 although the ceiling is positive, and writes the second FAT over the first at byte 16384 |
| Formatter.SmallDeviceExample | linux/fat32.c:249-335 | 100000 sectors with automatic sizing and label "TEST" give 1 sector per cluster and a FAT of 775 sectors, with the second FAT at byte 413184 |
| Formatter.RefusedExamples | linux/fat32.c:215-253 | 5000000000 and 0xFFFFFFFF sectors are refused as too large, 50000 sectors with automatic sizing as too small, and a failed size query as such; an explicit code accepts 50000 sectors |

## Left out

- The `ioctl(BLKGETSIZE)` device-size query is not modelled. The sector
  count is an input, and `None` stands for a query that failed.
- Diagnostics (`perror`, `r_printf`) are not modelled, and `ui/log.cpp` is
  not part of this model. Of the diagnostics, only the truncation warning
  (line 314) is issued on a successful run and depends on the label alone.
  The error messages accompany a return of -1, and the progress lines at
  249, 280-287 and 326 echo the inputs, the computed geometry or constant
  sizes. So the
  warning alone is returned, as a flag.
- The `SEEKNWRITE` macro is defined in a header that is not part of this
  model. Each seek-then-write is modelled as one step that completes whole
  or fails whole. On failure, `format_fat32` returns -1 at once. Short
  writes are not modelled.
- Device.BlockDevice.Sync: `sync()` returns nothing in the source, so the
  model never lets the flush fail.
- The device fails from a fixed write onward. The sequence stops at the
  first failure, so this covers a failure at any of the six steps.
- Geometry.FatSize: the ceiling property is stated only for devices of at
  least 32 sectors. For fewer sectors, which only an explicit code lets
  through, the subtraction wraps as in the source and nothing is promised.
- Formatter.ReadBackPlan: read-back is proved only when the second FAT
  starts after the first. Where the source's offset wraps, the second FAT
  lands elsewhere, as `SecondFatOverwritesBootSector` and
  `AutoTopRangeCollapses` show.
- AutoSecondFatExact: stated only below 4294959136 sectors. From there up
  the source's FAT size is 0 and the second FAT lands on the first, which
  `AutoTopRangeCollapses` states instead.
- AutoReadBack: stated only below 4294959136 sectors, for the same reason.
  Above it, the second FAT's write overwrites the first at byte 16384 with
  the same 12 bytes.
- The label is a C string. The model reads it as a byte sequence, and a
  position past the end of the sequence reads as the terminating NUL.
  Reading unterminated memory is not modelled.
- At exactly 0xFFFFFFFF sectors the automatic-sizing chain assigns
  nothing. The earlier size guard makes that case unreachable, so it is
  not modelled.

## Findings

| source | as written | input that shows it | evidently intended | confidence | as-written member | corrected member |
|---|---|---|---|---|---|---|
| linux/fat32.c:276 | the numerator `TmpVal1 + (TmpVal2 - 1)` of the FAT-size ceiling is a 32-bit unsigned sum, so it wraps for large devices | 0xFFFFFFFE sectors, automatic sizing (64 sectors per cluster): the sum wraps to 8158 and FATSz32 becomes 0; every device of at least 4294959136 sectors is affected | the ceiling of (sectors - 32) / 8193, that is 524225 sectors per FAT | high; not executed | Geometry.FatSizeAsWritten, Geometry.FatSizeOverflowWitness | Geometry.FatSize, Geometry.AutoGeometryIsFat32 |
| linux/fat32.c:335 | the second FAT's offset `(BPB_ResvdSecCnt + BPB_FATSz32) * 512` is computed in 32-bit unsigned arithmetic, so it wraps once it reaches 2^32 | 1082126208 sectors with 512-byte clusters: the FAT has 8388576 sectors, the product is exactly 2^32 and wraps to 0, so the second FAT's 12 bytes overwrite bytes 0-11 of the boot sector (byte 0 becomes 0xF8 instead of the jump opcode 0xEB). Only an explicit 512-byte code (from 1082126208 sectors) or 1024-byte code (from 2155863808 sectors) reaches the wrap, on volumes that already exceed FAT32's 0x0FFFFFF5 clusters, because explicit codes are not checked against the capacity | the offset (32 + FATSz32) * 512 without the wrap, here 2^32, just after the first FAT | high; not executed | Formatter.SecondFatOffset, Formatter.SecondFatOverwritesBootSector | Formatter.SecondFatByteOffset, Formatter.ExactOffsetReadBack |
