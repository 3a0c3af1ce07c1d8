/** The calls that `part_file.rs` makes on the part file and its target. Every
    call may fail; a failed write may have written a prefix. */
module Device {
  import opened Bytes
  import opened Basics
  import opened Disk
  import opened Protocol

  /** What a crash finds. */
  datatype Snapshot = Snapshot(part: Option<File>, target: Option<File>, entry: Entry)

  class Drive {
    var part: Option<File>
    var target: Option<File>
    var entry: Entry
    /** The position in the part file, which is the only file ever accessed. */
    var cursor: nat
    /** Every state the files have been in since the program started. */
    ghost var trace: seq<Snapshot>
    /** How many calls failed that the files allowed: the errors from outside. */
    ghost var faults: nat

    ghost function Now(): Snapshot
      reads this
    {
      Snapshot(part, target, entry)
    }

    ghost predicate Valid()
      reads this
    {
      |trace| > 0 && trace[|trace| - 1] == Now()
    }

    /** The files as a program that starts now finds them. */
    constructor (found: Snapshot)
      ensures Valid() && trace == [found] && faults == 0
    {
      part, target, entry := found.part, found.target, found.entry;
      cursor := 0;
      trace := [found];
      faults := 0;
    }

    method CreateNew() returns (ok: bool)
      requires Valid()
      modifies this
      ensures Valid()
      ensures ok ==> old(part) == None && Now() == old(Now()).(part := Some(File([], [])), entry := JustCreated)
      ensures ok ==> trace == old(trace) + [Now()]
      ensures !ok ==> Now() == old(Now()) && trace == old(trace)
      ensures faults == old(faults) + if !ok && old(part).None? then 1 else 0
    {
      ok := *;
      if part.None? && !ok {
        faults := faults + 1;
      }
      ok := ok && part.None?;
      if ok {
        part, entry, cursor := Some(File([], [])), JustCreated, 0;
        trace := trace + [Now()];
      }
    }

    method SetLen(len: nat) returns (ok: bool)
      requires Valid() && part.Some?
      modifies this
      ensures Valid()
      ensures ok ==>
                Now() == old(Now()).(part := Some(Submit(old(part.value), Resize(len))))
                && trace == old(trace) + [Now()]
      ensures !ok ==> Now() == old(Now()) && trace == old(trace)
      ensures faults == old(faults) + if ok then 0 else 1
    {
      ok := *;
      if ok {
        part := Some(Submit(part.value, Resize(len)));
        trace := trace + [Now()];
      } else {
        faults := faults + 1;
      }
    }

    method Seek(position: nat) returns (ok: bool)
      requires Valid()
      modifies this`cursor, this`faults
      ensures ok ==> cursor == position
      ensures faults == old(faults) + if ok then 0 else 1
    {
      ok := *;
      if ok {
        cursor := position;
      } else {
        faults := faults + 1;
      }
    }

    /** Writes at the cursor; on failure only the first `count` bytes. */
    method WriteAll(bytes: seq<byte>) returns (ok: bool, ghost count: nat)
      requires Valid() && part.Some?
      modifies this
      ensures Valid()
      ensures count <= |bytes| && (ok ==> count == |bytes|)
      ensures Now() == old(Now()).(part := Some(Submit(old(part.value), Write(old(cursor), bytes[..count]))))
      ensures trace == old(trace) + [Now()]
      ensures faults == old(faults) + if ok then 0 else 1
    {
      var n: nat :| n <= |bytes|;
      count, ok := n, n == |bytes|;
      part := Some(Submit(part.value, Write(cursor, bytes[..n])));
      cursor := cursor + n;
      trace := trace + [Now()];
      faults := faults + if ok then 0 else 1;
    }

    /** `sync_data` and `sync_all`: all pending bytes become durable, and so
        does the directory entry of a new file. */
    method Sync() returns (ok: bool)
      requires Valid() && part.Some?
      modifies this
      ensures Valid()
      ensures ok ==>
                Now() == Snapshot(Some(Synced(old(part.value))), old(target),
                                  if old(entry) == JustCreated then Settled else old(entry))
      ensures ok ==> trace == old(trace) + [Now()]
      ensures !ok ==> Now() == old(Now()) && trace == old(trace)
      ensures faults == old(faults) + if ok then 0 else 1
    {
      ok := *;
      if ok {
        part := Some(Synced(part.value));
        entry := if entry == JustCreated then Settled else entry;
        trace := trace + [Now()];
      } else {
        faults := faults + 1;
      }
    }

    /** Reads `len` bytes at the cursor; running into the end of the file fails. */
    method ReadExact(len: nat) returns (r: Result<seq<byte>>)
      requires Valid() && part.Some?
      modifies this`cursor, this`faults
      ensures r.Success? ==> old(cursor) + len <= |View(part.value)| && cursor == old(cursor) + len
                             && r.value == View(part.value)[old(cursor)..cursor]
      ensures r.Failure? ==> r == Failure(Io)
      ensures faults == old(faults) + if r.Failure? && old(cursor) + len <= |View(part.value)| then 1 else 0
    {
      if cursor + len > |View(part.value)| {
        return Failure(Io);
      }
      var ok: bool := *;
      if !ok {
        faults := faults + 1;
        return Failure(Io);
      }
      r := Success(View(part.value)[cursor..cursor + len]);
      cursor := cursor + len;
    }

    method RenameToTarget() returns (ok: bool)
      requires Valid() && part.Some?
      modifies this
      ensures Valid()
      ensures ok ==> Now() == Snapshot(None, old(part), JustRenamed) && trace == old(trace) + [Now()]
      ensures !ok ==> Now() == old(Now()) && trace == old(trace)
      ensures faults == old(faults) + if ok then 0 else 1
    {
      ok := *;
      if ok {
        part, target, entry := None, part, JustRenamed;
        trace := trace + [Now()];
      } else {
        faults := faults + 1;
      }
    }
  }
}
