/** The block device as the formatter sees it: a sequence of seek-then-write
    operations, each of which may fail, and a final flush. What the device
    holds afterwards is read back from the log of writes. */
module Device {
  import opened Bytes
  import opened Results

  /** One seek-then-write: `data` stored from byte `offset` of the device. */
  datatype Write = Write(offset: int, data: seq<byte>)

  /** Whether write `w` stores a byte at position `pos`. */
  predicate Covers(w: Write, pos: int) {
    w.offset <= pos < w.offset + |w.data|
  }

  class BlockDevice {
    /** The writes that completed, oldest first. */
    var log: seq<Write>
    /** Whether every completed write has been forced to stable storage:
        set by a flush, cleared by the next completed write. */
    var synced: bool
    /** How many writes, counted from the device's first, complete before
        the device starts failing them; `None`: none ever fails. */
    const capacityForWrites: Option<nat>

    constructor (capacityForWrites: Option<nat>)
      ensures log == [] && !synced && this.capacityForWrites == capacityForWrites
    {
      log := [];
      synced := false;
      this.capacityForWrites := capacityForWrites;
    }

    /** Whether the next write completes. */
    predicate Accepts()
      reads this
    {
      capacityForWrites.None? || |log| < capacityForWrites.value
    }

    /** Seeks to `offset` and writes `data`; on failure nothing is stored.
        A completed write is pending until the next flush. */
    method SeekAndWrite(offset: int, data: seq<byte>) returns (ok: bool)
      modifies this`log, this`synced
      ensures ok == old(Accepts())
      ensures log == if ok then old(log) + [Write(offset, data)] else old(log)
      ensures synced == (old(synced) && !ok)
    {
      ok := Accepts();
      if ok {
        log := log + [Write(offset, data)];
        synced := false;
      }
    }

    /** Forces every completed write to stable storage (`sync()`). */
    method Sync()
      modifies this`synced
      ensures synced && log == old(log)
    {
      synced := true;
    }
  }

  /** The byte at `pos` after the writes of `log`: the one stored by the
      last write covering `pos`, or `None` when no write covers it. */
  function ReadByte(log: seq<Write>, pos: int): (r: Option<byte>)
    ensures r.None? <==> forall k :: 0 <= k < |log| ==> !Covers(log[k], pos)
    decreases |log|
  {
    if log == [] then None
    else
      var w := log[|log| - 1];
      if Covers(w, pos) then Some(w.data[pos - w.offset])
      else
        var r := ReadByte(log[..|log| - 1], pos);
        assert forall k :: 0 <= k < |log| - 1 ==> log[..|log| - 1][k] == log[k];
        r
  }

  /** Reading after one more write: the new write wins where it covers. */
  lemma ReadAppend(log: seq<Write>, w: Write, pos: int)
    ensures ReadByte(log + [w], pos) ==
      if Covers(w, pos) then Some(w.data[pos - w.offset]) else ReadByte(log, pos)
  {
    assert (log + [w])[..|log|] == log;
  }

  /** A write is read back unchanged at every position that no later write
      covers. */
  lemma {:induction false} ReadAfterWrite(before: seq<Write>, w: Write, later: seq<Write>, i: nat)
    requires i < |w.data|
    requires forall k :: 0 <= k < |later| ==> !Covers(later[k], w.offset + i)
    ensures ReadByte(before + [w] + later, w.offset + i) == Some(w.data[i])
    decreases |later|
  {
    if later == [] {
      assert before + [w] + later == before + [w];
      ReadAppend(before, w, w.offset + i);
    } else {
      var last := later[|later| - 1];
      var rest := later[..|later| - 1];
      assert before + [w] + later == (before + [w] + rest) + [last];
      ReadAppend(before + [w] + rest, last, w.offset + i);
      assert forall k :: 0 <= k < |rest| ==> rest[k] == later[k];
      ReadAfterWrite(before, w, rest, i);
    }
  }
}
