/** The history's directory: the rows of a segment, the files, and every state the
    directory was ever in, so that a crash may stop anything at any file step. */
module Disk {
  import opened Codec
  import opened IdSets

  const COPIED: byte := 1
  const PASTED: byte := 2

  datatype Event = Event(id: u64, at: i64, kind: byte)

  /** A row of a time table. */
  datatype Stamp = Stamp(at: i64, id: u64)

  /** A row of the dedup table. */
  datatype Hashed = Hashed(hash: u64, id: u64)

  function EventLe(a: Event, b: Event): bool {
    a.id < b.id || (a.id == b.id && (a.at < b.at || (a.at == b.at && a.kind <= b.kind)))
  }

  function StampLe(a: Stamp, b: Stamp): bool {
    a.at < b.at || (a.at == b.at && a.id <= b.id)
  }

  function HashedLe(a: Hashed, b: Hashed): bool {
    a.hash < b.hash || (a.hash == b.hash && a.id <= b.id)
  }

  function IdLe(a: u64, b: u64): bool {
    a <= b
  }

  function TimeLe(a: i64, b: i64): bool {
    a <= b
  }

  /** A sealed segment's file: its header's counts and its nine sections, the tables as
      rows, the FST as the map it is. */
  datatype Segment = Segment(
    number: nat,
    entries: nat,
    minId: u64,
    maxId: u64,
    records: bytes,
    locs: seq<Loc>,
    postings: bytes,
    fst: map<u64, nat>,
    copied: seq<Stamp>,
    pasted: seq<Stamp>,
    events: seq<Event>,
    dedup: seq<Hashed>,
    tombs: seq<u64>,
    size: nat)

  datatype Name =
    | ManifestName
    | ManifestTmp
    | SegName(number: nat)
    | SegTmp(number: nat)
    | LogName(number: nat)

  /** A file's contents; Partial is a file being written anew. */
  datatype File = Partial | LogFile(data: bytes) | SegFile(segment: Segment) | ManifestFile(data: bytes)

  type Files = map<Name, File>

  /** The states a log goes through while `extra` is written at its end. */
  function Writing(files: Files, name: Name, data: bytes, extra: bytes): seq<Files> {
    seq(|extra|, k requires 0 <= k < |extra| => files[name := LogFile(data + extra[..k + 1])])
  }

  class Dir {
    var files: Files
    /** Every state the files were in. */
    var trace: seq<Files>

    constructor (files: Files)
      ensures this.files == files && trace == [files]
    {
      this.files := files;
      trace := [files];
    }

    /** A whole file written under a name; half-way it is neither old nor new. */
    method Write(name: Name, file: File)
      modifies this
      ensures files == old(files)[name := file]
      ensures trace == old(trace) + [old(files)[name := Partial], files]
    {
      trace := trace + [files[name := Partial], files[name := file]];
      files := files[name := file];
    }

    method Append(name: Name, extra: bytes)
      requires name in files && files[name].LogFile?
      modifies this
      ensures files == old(files)[name := LogFile(old(files)[name].data + extra)]
      ensures trace == old(trace) + Writing(old(files), name, old(files)[name].data, extra)
    {
      trace := trace + Writing(files, name, files[name].data, extra);
      files := files[name := LogFile(files[name].data + extra)];
    }

    method Truncate(name: Name, len: nat)
      requires name in files && files[name].LogFile? && len <= |files[name].data|
      modifies this
      ensures files == old(files)[name := LogFile(old(files)[name].data[..len])]
      ensures trace == old(trace) + [files]
    {
      files := files[name := LogFile(files[name].data[..len])];
      trace := trace + [files];
    }

    method Rename(from: Name, onto: Name)
      requires from in files && from != onto
      modifies this
      ensures files == (old(files) - {from})[onto := old(files)[from]]
      ensures trace == old(trace) + [files]
    {
      files := (files - {from})[onto := files[from]];
      trace := trace + [files];
    }

    method Remove(name: Name)
      modifies this
      ensures files == old(files) - {name}
      ensures trace == old(trace) + [files]
    {
      files := files - {name};
      trace := trace + [files];
    }
  }
}
