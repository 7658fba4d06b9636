/** Overwriting a file with zeros, block by block, before it is removed, and doing so for all
    files below a path (rinser/scrubfile.go:10-40). */
module Scrubbing {
  import opened Basics

  datatype Failure = OpenFailed | WriteFailed | CloseFailed | RemoveFailed

  const BLOCK := 4096

  function Zeros(n: nat): (z: seq<Byte>)
    ensures |z| == n && forall i :: 0 <= i < n ==> z[i] == 0
  {
    seq(n, _ => 0)
  }

  /** A file whose first n bytes have been replaced by zeros. A shorter file has grown. */
  function Zeroed(bytes: seq<Byte>, n: nat): (z: seq<Byte>)
    ensures |z| == Max(|bytes|, n)
    ensures forall i :: 0 <= i < |z| ==> z[i] == if i < n then 0 else bytes[i]
  {
    Zeros(n) + if n <= |bytes| then bytes[n..] else []
  }

  class Inode {
    var bytes: seq<Byte>

    constructor (bytes: seq<Byte>)
      ensures this.bytes == bytes
    {
      this.bytes := bytes;
    }
  }

  /** An open file, and where its next write goes. Two handles may be open on one file. */
  class Handle {
    const file: Inode
    var offset: nat

    constructor (file: Inode)
      ensures this.file == file && offset == 0
    {
      this.file, offset := file, 0;
    }

    /** Writes the chunk, or an initial part of it and reports failure. Past its end the file
        grows, a gap being filled with zeros. */
    method Write(chunk: seq<Byte>, short: Option<nat>) returns (n: nat, err: Option<Failure>)
      modifies this, file
      ensures err.None? <==> !Fails(short, |chunk|)
      ensures n <= |chunk| && (err.None? ==> n == |chunk|)
      ensures offset == old(offset) + n
      ensures |file.bytes| == Max(|old(file.bytes)|, offset)
      ensures forall i :: 0 <= i < |file.bytes| ==>
                file.bytes[i] == if old(offset) <= i < offset then chunk[i - old(offset)]
                                 else if i < |old(file.bytes)| then old(file.bytes)[i] else 0
    {
      n, err := |chunk|, None;
      if short.Some? && short.value < |chunk| {
        n, err := short.value, Some(WriteFailed);
      }
      var padded := file.bytes + if |file.bytes| < offset then Zeros(offset - |file.bytes|) else [];
      var rest := if offset + n <= |padded| then padded[offset + n..] else [];
      file.bytes := padded[..offset] + chunk[..n] + rest;
      offset := offset + n;
    }
  }

  /** The loop over one file. `size` is what the directory walk reported; the file may be longer
      or shorter by now. `shorts` says which writes fail, and after how many bytes. */
  method Overwrite(f: Handle, size: nat, shorts: nat -> Option<nat>) returns (err: Option<Failure>)
    requires f.offset == 0
    modifies f, f.file
    ensures f.offset <= size && f.file.bytes == Zeroed(old(f.file.bytes), f.offset)
    ensures err.None? ==> f.offset == size
    ensures err.None? <==> forall k :: 0 <= k < Blocks(size) ==> !Fails(shorts(k), BlockSize(size, k))
  {
    hide Remaining, Blocks, BlockSize, Zeroed, Fails;
    err := None;
    var writes := 0;
    var fourk := Zeros(BLOCK);
    var remain := size;
    ghost var start := f.file.bytes;
    NoZerosYet(start);
    BlocksBegin(size);
    while err.None? && remain > 0
      invariant remain <= size && (err.None? ==> f.offset == size - remain)
      invariant f.offset <= size && f.file.bytes == Zeroed(start, f.offset)
      invariant err.None? ==> remain == Remaining(size, writes) && writes <= Blocks(size)
      invariant err.None? ==> forall k :: 0 <= k < writes ==> !Fails(shorts(k), BlockSize(size, k))
      invariant err.Some? ==> exists k :: 0 <= k < Blocks(size) && Fails(shorts(k), BlockSize(size, k))
      decreases err.None?, remain
    {
      var n := BLOCK;
      if remain < n {
        n := remain;
      }
      OneBlock(size, writes);
      ghost var before, from := f.file.bytes, f.offset;
      n, err := f.Write(fourk[..n], shorts(writes));
      MoreZeros(start, before, f.file.bytes, from, f.offset);
      if err.None? {
        remain := remain - n;
        writes := writes + 1;
      }
    }
    BlocksEnd(size, writes);
  }

  lemma NoZerosYet(start: seq<Byte>)
    ensures Zeroed(start, 0) == start
  {
  }

  lemma BlocksBegin(size: nat)
    ensures Remaining(size, 0) == size
  {
  }

  lemma OneBlock(size: nat, k: nat)
    ensures Remaining(size, k) > 0 ==>
              && k < Blocks(size)
              && BlockSize(size, k) == (if Remaining(size, k) < BLOCK then Remaining(size, k) else BLOCK)
              && Remaining(size, k + 1) == Remaining(size, k) - BlockSize(size, k)
  {
  }

  lemma BlocksEnd(size: nat, k: nat)
    ensures Remaining(size, k) == 0 ==> k >= Blocks(size)
  {
  }

  lemma MoreZeros(start: seq<Byte>, before: seq<Byte>, after: seq<Byte>, from: nat, upto: nat)
    requires before == Zeroed(start, from) && from <= upto && |after| == Max(|before|, upto)
    requires forall i :: 0 <= i < |after| ==>
               after[i] == if i < upto && from <= i then 0 else if i < |before| then before[i] else 0
    ensures after == Zeroed(start, upto)
  {
  }

  function Remaining(size: nat, k: nat): nat {
    if size < k * BLOCK then 0 else size - k * BLOCK
  }

  function Blocks(size: nat): nat {
    (size + BLOCK - 1) / BLOCK
  }

  function BlockSize(size: nat, k: nat): nat {
    if Remaining(size, k) < BLOCK then Remaining(size, k) else BLOCK
  }

  predicate Fails(short: Option<nat>, len: nat) {
    short.Some? && short.value < len
  }

  // ---------------------------------------------------------------- everything below a path

  /** What the walk meets, and how opening, writing and closing each file goes. Two entries may be
      names of the same file. */
  datatype Entry =
    | Unreadable
    | Folder
    | File(file: Inode, size: nat, opens: bool, shorts: nat -> Option<nat>, closes: bool)

  predicate WritesFail(e: Entry)
    requires e.File?
  {
    exists k :: 0 <= k < Blocks(e.size) && Fails(e.shorts(k), BlockSize(e.size, k))
  }

  /** A file is done when it was opened, overwritten and closed without an error. */
  ghost predicate Clean(e: Entry) {
    e.File? ==> e.opens && e.closes && !WritesFail(e)
  }

  /** The file was opened and every block of it written. */
  ghost predicate Blanked(e: Entry) {
    e.File? && e.opens && !WritesFail(e)
  }

  /** The first n bytes are there and zero. */
  ghost predicate Blank(bytes: seq<Byte>, n: nat) {
    n <= |bytes| && forall i :: 0 <= i < n ==> bytes[i] == 0
  }

  /** All that has changed is that some first bytes are zero, no more than an entry's size. */
  ghost predicate OnlyZeroed(was: seq<Byte>, bytes: seq<Byte>, entries: seq<Entry>) {
    exists m: nat :: bytes == Zeroed(was, m) && (m == 0 || exists e :: e in entries && e.File? && m <= e.size)
  }

  lemma ZeroedAgain(was: seq<Byte>, before: seq<Byte>, n: nat, e: Entry, entries: seq<Entry>)
    requires OnlyZeroed(was, before, entries) && e in entries && e.File? && n <= e.size
    ensures OnlyZeroed(was, Zeroed(before, n), entries)
    ensures forall k: nat :: Blank(before, k) ==> Blank(Zeroed(before, n), k)
    ensures Blank(Zeroed(before, n), n)
  {
    hide Zeroed;
    var m: nat :| before == Zeroed(was, m) && (m == 0 || exists x :: x in entries && x.File? && m <= x.size);
    ZeroedTwice(was, m, n);
    StaysBlank(before, n);
  }

  lemma ZeroedTwice(was: seq<Byte>, m: nat, n: nat)
    ensures Zeroed(Zeroed(was, m), n) == Zeroed(was, Max(m, n))
  {
  }

  lemma StaysBlank(before: seq<Byte>, n: nat)
    ensures forall k: nat :: Blank(before, k) ==> Blank(Zeroed(before, n), k)
    ensures Blank(Zeroed(before, n), n)
  {
  }

  lemma NotZeroed(was: seq<Byte>, entries: seq<Entry>)
    ensures OnlyZeroed(was, was, entries)
  {
    assert was == Zeroed(was, 0);
  }

  /** What the walk does with one entry. */
  method ScrubEntry(e: Entry) returns (errs: seq<Failure>)
    modifies if e.File? then {e.file} else {}
    ensures errs == [] <==> Clean(e)
    ensures e.File? ==> exists n: nat :: n <= e.size && e.file.bytes == Zeroed(old(e.file.bytes), n)
    ensures Blanked(e) ==> Blank(e.file.bytes, e.size)
  {
    errs := [];
    if e.File? {
      hide Zeroed, Blocks, BlockSize, Fails, Blank;
      ghost var before := e.file.bytes;
      NoZerosYet(before);
      assert 0 <= e.size && e.file.bytes == Zeroed(before, 0);
      var err := Some(OpenFailed);
      if e.opens {
        var f := new Handle(e.file);
        err := Overwrite(f, e.size, e.shorts);
        StaysBlank(before, e.size);
        if !e.closes {
          errs := errs + [CloseFailed];
        }
      }
      if err.Some? {
        errs := errs + [err.value];
      }
    }
  }

  /** Errors are collected, not raised: no file is passed over because of another. */
  method Scrub(entries: seq<Entry>, removeErr: Option<Failure>) returns (errs: seq<Failure>)
    modifies set e | e in entries && e.File? :: e.file
    ensures errs == [] <==> removeErr.None? && forall i :: 0 <= i < |entries| ==> Clean(entries[i])
    ensures forall i :: 0 <= i < |entries| && Blanked(entries[i]) ==> Blank(entries[i].file.bytes, entries[i].size)
    ensures forall i :: 0 <= i < |entries| && entries[i].File? ==>
              OnlyZeroed(old(entries[i].file.bytes), entries[i].file.bytes, entries)
  {
    hide Zeroed, OnlyZeroed, Blank, WritesFail;
    errs := [];
    forall i | 0 <= i < |entries| && entries[i].File?
      ensures OnlyZeroed(old(entries[i].file.bytes), entries[i].file.bytes, entries)
    {
      NotZeroed(entries[i].file.bytes, entries);
    }
    for i := 0 to |entries|
      invariant errs == [] <==> forall k :: 0 <= k < i ==> Clean(entries[k])
      invariant forall k :: 0 <= k < i && Blanked(entries[k]) ==> Blank(entries[k].file.bytes, entries[k].size)
      invariant forall k :: 0 <= k < |entries| && entries[k].File? ==>
        OnlyZeroed(old(entries[k].file.bytes), entries[k].file.bytes, entries)
    {
      var e := entries[i];
      ghost var before := if e.File? then e.file.bytes else [];
      var more := ScrubEntry(e);
      if e.File? {
        ghost var n: nat :| n <= e.size && e.file.bytes == Zeroed(before, n);
        ZeroedAgain(old(e.file.bytes), before, n, e, entries);
      }
      errs := errs + more;
    }
    if removeErr.Some? {
      errs := errs + [removeErr.value];
    }
  }
}
