/** Geometry of the volume: sectors per cluster from the device size and the
    requested cluster size, and the size of one FAT in sectors. */
module Geometry {
  import opened Bytes
  import opened Results

  /** Reserved sectors before the first FAT (BPB_RsvdSecCnt). */
  const ReservedSectors: nat := 32
  /** Number of FAT copies (BPB_NumFATs). */
  const NumFats: nat := 2
  /** Largest device size, in 512-byte sectors, the formatter accepts:
      `UINT32_MAX - 1`. */
  const MaxSectors: nat := 0xFFFF_FFFE
  /** Smallest device size accepted by automatic cluster sizing. */
  const MinAutoSectors: nat := 66600

  /** The cluster-size request. `Auto` stands for every code that is not one
      of the seven explicit sizes: the `default` branch of the switch. */
  datatype ClusterCode =
    | Bs512 | Bs1024 | Bs2048 | Bs4096 | Bs8192 | Bs16384 | Bs32768
    | Auto

  /** The values BPB_SecPerClus can take. */
  predicate IsClusterSectors(spc: nat) {
    spc == 1 || spc == 2 || spc == 4 || spc == 8 || spc == 16 || spc == 32 || spc == 64
  }

  /** Sectors per cluster for an explicit code, whatever the device size. */
  function ExplicitSectors(code: ClusterCode): (spc: nat)
    requires code != Auto
    ensures IsClusterSectors(spc)
    ensures spc * 512 == match code
      case Bs512 => 512 case Bs1024 => 1024 case Bs2048 => 2048
      case Bs4096 => 4096 case Bs8192 => 8192 case Bs16384 => 16384
      case Bs32768 => 32768
  {
    match code
    case Bs512 => 1
    case Bs1024 => 2
    case Bs2048 => 4
    case Bs4096 => 8
    case Bs8192 => 16
    case Bs16384 => 32
    case Bs32768 => 64
  }

  /** The ascending capacity-threshold table of automatic sizing. The
      source's last bracket ends at 0xFFFFFFFF; a capacity that the guard
      lets through never reaches that bound. */
  function AutoSectors(capacity: nat): (r: Result<nat>)
    requires capacity <= MaxSectors
    ensures r.Err? <==> capacity < MinAutoSectors
    ensures r.Err? ==> r.error == VolumeTooSmall
    ensures r.Ok? ==> r.value in {1, 8, 16, 32, 64}
  {
    if capacity < 66600 then Err(VolumeTooSmall)
    else if capacity < 532480 then Ok(1)
    else if capacity < 16777216 then Ok(8)
    else if capacity < 33554432 then Ok(16)
    else if capacity < 67108864 then Ok(32)
    else Ok(64)
  }

  /** Sectors per cluster: the size guard, then the switch on the code. */
  function SectorsPerCluster(capacity: uint64, code: ClusterCode): (r: Result<nat>)
    ensures r.Err? <==> capacity > MaxSectors || (code == Auto && capacity < MinAutoSectors)
    ensures r.Err? ==> r.error == (if capacity > MaxSectors then VolumeTooLarge else VolumeTooSmall)
    ensures r.Ok? ==> IsClusterSectors(r.value)
    ensures r.Ok? && code != Auto ==> r.value == ExplicitSectors(code)
  {
    if capacity > MaxSectors then Err(VolumeTooLarge)
    else if code != Auto then Ok(ExplicitSectors(code))
    else AutoSectors(capacity)
  }

  /** Automatic sizing never picks smaller clusters for a larger device. */
  lemma AutoMonotone(c1: nat, c2: nat)
    requires MinAutoSectors <= c1 <= c2 <= MaxSectors
    ensures AutoSectors(c1).Ok? && AutoSectors(c2).Ok?
    ensures AutoSectors(c1).value <= AutoSectors(c2).value
  {
  }

  /** The divisor of the FAT-size formula: `(256 * SecPerClus + NumFATs) / 2`,
      the number of data sectors one sector of each FAT copy accounts for. */
  function FatDivisor(spc: byte): (d: nat)
    ensures d == 128 * spc + 1
  {
    (256 * spc + NumFats) / 2
  }

  /** The FAT size exactly as the source computes it, every step in unsigned
      32-bit arithmetic: the addition `TmpVal1 + (TmpVal2 - 1)` wraps. The
      result covers the (wrapped) count of usable sectors, and is then the
      least that does, exactly when that addition does not wrap; when it
      wraps, the result is 0. */
  function FatSizeAsWritten(totSec: uint32, spc: byte): (r: uint32)
    ensures var usable := Wrap32(totSec - ReservedSectors);
      && (r * FatDivisor(spc) >= usable <==> usable + FatDivisor(spc) - 1 < Two32)
      && (usable + FatDivisor(spc) - 1 < Two32 ==> (r - 1) * FatDivisor(spc) < usable)
      && (usable + FatDivisor(spc) - 1 >= Two32 ==> r == 0)
  {
    var tmp1 := Wrap32(totSec - ReservedSectors);
    var tmp2 := FatDivisor(spc);
    var sum := Wrap32(tmp1 + (tmp2 - 1));
    DivBound(sum, tmp2);
    DivMod(sum, tmp2);
    CeilDiv(tmp1, tmp2);
    SmallQuotient(sum, tmp2);
    UDiv(sum, tmp2)
  }

  /** The FAT size with the addition carried out without wrapping (see
      Findings): the ceiling of the usable sectors over the divisor. */
  function FatSize(totSec: uint32, spc: byte): (r: uint32)
    ensures totSec >= ReservedSectors ==>
      r * FatDivisor(spc) >= totSec - ReservedSectors && (r - 1) * FatDivisor(spc) < totSec - ReservedSectors
  {
    var tmp1 := Wrap32(totSec - ReservedSectors);
    var tmp2 := FatDivisor(spc);
    CeilDiv(tmp1, tmp2);
    UDiv(tmp1 + (tmp2 - 1), tmp2)
  }

  /** `(n + d - 1) / d` is the least multiple count covering `n`. */
  lemma CeilDiv(n: nat, d: nat)
    requires d > 0
    ensures var q := UDiv(n + d - 1, d); q * d >= n && (q - 1) * d < n
    ensures UDiv(n + d - 1, d) <= n
  {
    var m := n + d - 1;
    var q := UDiv(m, d);
    var rem := m % d;
    DivMod(m, d);
    var qd := q * d;
    assert qd == m - rem;
    assert n <= qd <= m;
    MulPred(q, d);
    assert (q - 1) * d == qd - d;
    if q > n {
      MulMono(n + 1, q, d);
      MulPred(n + 1, d);
      MulMono(1, d, n);
      assert false;
    }
  }

  lemma DivMod(m: nat, d: nat)
    requires d > 0
    ensures UDiv(m, d) * d + m % d == m && 0 <= m % d < d
  {
  }

  lemma SmallQuotient(m: nat, d: nat)
    requires d > 0
    ensures m < d ==> UDiv(m, d) == 0
  {
    if m < d && UDiv(m, d) > 0 {
      DivMod(m, d);
      MulMono(1, UDiv(m, d), d);
    }
  }

  lemma DivBound(m: nat, d: nat)
    requires d > 0
    ensures UDiv(m, d) <= m
  {
    DivMod(m, d);
    MulMono(1, d, UDiv(m, d));
  }

  lemma MulPred(q: int, d: int)
    ensures (q - 1) * d == q * d - d
  {
  }

  lemma MulMono(a: int, b: int, d: nat)
    requires a <= b
    ensures a * d <= b * d
  {
  }

  /** The two computations agree exactly when the source's addition does not
      wrap. */
  lemma FatSizeAgreement(totSec: uint32, spc: byte)
    ensures FatSizeAsWritten(totSec, spc) == FatSize(totSec, spc)
      <==> Wrap32(totSec - ReservedSectors) + FatDivisor(spc) - 1 < Two32
  {
  }

  /** Smallest device size at which automatic sizing makes the source's
      FAT-size addition wrap: with 64 sectors per cluster the numerator is
      `totSec - 32 + 8192`, which reaches 2^32 here. */
  const FatSizeWrapSectors: nat := 4294959136

  /** Over the whole range of automatic sizing, the source's FAT size is the
      ceiling exactly below `FatSizeWrapSectors`; from there up to the
      largest accepted device it is 0. */
  lemma AutoFatSizeExact(capacity: uint32)
    requires MinAutoSectors <= capacity <= MaxSectors
    ensures var spc := AutoSectors(capacity).value;
      FatSizeAsWritten(capacity, spc) == FatSize(capacity, spc) <==> capacity < FatSizeWrapSectors
    ensures capacity >= FatSizeWrapSectors ==> FatSizeAsWritten(capacity, AutoSectors(capacity).value) == 0
  {
    var spc := AutoSectors(capacity).value;
    FatSizeAgreement(capacity, spc);
    if capacity < 67108864 {
      assert spc <= 32;
    } else {
      assert spc == 64;
      if capacity >= FatSizeWrapSectors {
        var sum := Wrap32(Wrap32(capacity - ReservedSectors) + (FatDivisor(spc) - 1));
        assert sum < FatDivisor(spc);
        DivMod(sum, FatDivisor(spc));
        assert FatSizeAsWritten(capacity, spc) == UDiv(sum, FatDivisor(spc));
      }
    }
  }

  /** The wrapped addition of the source: at the largest device the guard
      accepts, automatic sizing gives 64 sectors per cluster and the source
      computes a FAT of 0 sectors, where 524225 are needed. */
  lemma FatSizeOverflowWitness()
    ensures SectorsPerCluster(0xFFFF_FFFE, Auto) == Ok(64)
    ensures FatSizeAsWritten(0xFFFF_FFFE, 64) == 0
    ensures FatSize(0xFFFF_FFFE, 64) == 524225
  {
  }

  /** The number of data clusters of the volume (fatgen103, "FAT Type
      Determination"): sectors after the reserved region and both FATs,
      divided into clusters. */
  function CountOfClusters(totSec: nat, spc: nat, fatSz: nat): int
    requires spc > 0
  {
    (totSec - ReservedSectors - NumFats * fatSz) / spc
  }

  /** One FAT has an entry for every data cluster and for the two reserved
      entries whenever the FAT is larger than a cluster: the formula never
      yields a FAT that is too small. */
  lemma {:induction false} FatCoversClusters(totSec: uint32, spc: byte)
    requires totSec >= ReservedSectors && spc > 0
    requires FatSize(totSec, spc) > spc
    ensures CountOfClusters(totSec, spc, FatSize(totSec, spc)) + 2 <= 128 * FatSize(totSec, spc)
  {
    var f := FatSize(totSec, spc);
    var c := CountOfClusters(totSec, spc, f);
    var num := totSec - ReservedSectors - NumFats * f;
    var p := f * spc;
    FloorMul(num, spc);
    assert c * spc <= num;
    Distrib(f, spc);
    assert 128 * p + f >= totSec - ReservedSectors;
    if c + 2 > 128 * f {
      MulMono(128 * f - 1, c, spc);
      Distrib2(f, spc);
    }
  }

  lemma Distrib(f: int, spc: int)
    ensures f * (128 * spc + 1) == 128 * (f * spc) + f
  {
  }

  lemma Distrib2(f: int, spc: int)
    ensures (128 * f - 1) * spc == 128 * (f * spc) - spc
  {
  }

  lemma FloorMul(num: int, d: nat)
    requires d > 0
    ensures (num / d) * d <= num
  {
  }

  /** Automatic sizing always yields a FAT32 volume in the sense of
      fatgen103 ("FAT Type Determination"): at least 65525 data clusters,
      cluster numbers below the bad-cluster mark 0x0FFFFFF7, both FAT copies
      inside the volume, and FATs large enough for every cluster. */
  lemma AutoGeometryIsFat32(capacity: uint32)
    requires MinAutoSectors <= capacity <= MaxSectors
    ensures var spc := AutoSectors(capacity).value;
            var f := FatSize(capacity, spc);
            && ReservedSectors + NumFats * f < capacity
            && 65525 <= CountOfClusters(capacity, spc, f)
            && CountOfClusters(capacity, spc, f) + 1 < 0x0FFF_FFF7
            && CountOfClusters(capacity, spc, f) + 2 <= 128 * f
  {
    var spc := AutoSectors(capacity).value;
    var f := FatSize(capacity, spc);
    if capacity < 532480 {
      assert spc == 1;
    } else if capacity < 16777216 {
      assert spc == 8;
    } else if capacity < 33554432 {
      assert spc == 16;
    } else if capacity < 67108864 {
      assert spc == 32;
    } else {
      assert spc == 64;
    }
    FatCoversClusters(capacity, spc);
  }
}
