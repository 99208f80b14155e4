/** Reading a whole file into transient storage, as the renderer does with
    its two shader sources. The file system is a parameter: a file either
    opens or not, and has some bytes. */
module FileIo {
  import opened Common
  import opened BumpArena

  datatype FileOnDisk = FileOnDisk(opens: bool, bytes: seq<bv8>)

  /** `GetFileSize`: the length reported by `tellg`, or 0 when the file does not open. */
  function GetFileSize(f: FileOnDisk): (r: nat)
    ensures r == 0 <==> !f.opens || |f.bytes| == 0
    ensures f.opens ==> r == |f.bytes|
  {
    if f.opens then |f.bytes| else 0
  }

  /** The arena bytes after copying `bytes` and a terminating zero to `offset`. */
  function Written(contents: seq<bv8>, offset: nat, bytes: seq<bv8>): (r: seq<bv8>)
    requires offset + |bytes| < |contents|
    ensures |r| == |contents|
    ensures r[offset..offset + |bytes|] == bytes && r[offset + |bytes|] == 0
    ensures forall k :: 0 <= k < |r| && !(offset <= k <= offset + |bytes|) ==> r[k] == contents[k]
  {
    contents[..offset] + bytes + [0] + contents[offset + |bytes| + 1..]
  }

  /** A file is read into the arena when it is non-empty and its bytes plus a
      terminator fit after `used`. */
  predicate ReadFits(used: nat, capacity: nat, f: FileOnDisk)
  {
    GetFileSize(f) != 0 && AllocOffset(used, capacity, |f.bytes| + 1).Some?
  }

  /** The arena's `used` after reading `f`: a non-empty file asks for its
      length plus one, whether or not that fits. */
  function UsedAfterRead(used: nat, capacity: nat, f: FileOnDisk): nat
  {
    if GetFileSize(f) == 0 then used else UsedAfter(used, capacity, |f.bytes| + 1)
  }

  /** `ReadFile(filePath, ba, outSize)`: a file of n > 0 bytes gets an arena
      piece of n + 1 bytes holding the file and a zero terminator; an empty or
      unopenable file yields null and leaves the arena and `*outSize` alone. */
  method ReadFile(f: FileOnDisk, ba: BumpAllocator, outSize: int) returns (data: Handle, newSize: int)
    requires ba.Valid()
    requires |f.bytes| < 0x7FFF_FFFF
    modifies ba`used, ba`contents
    ensures ba.Valid()
    ensures data != NULL <==> ReadFits(old(ba.used), ba.capacity, f)
    ensures data == (if ReadFits(old(ba.used), ba.capacity, f) then ba.memory + old(ba.used) else NULL)
    ensures ba.used == UsedAfterRead(old(ba.used), ba.capacity, f)
    ensures ba.contents ==
      (if ReadFits(old(ba.used), ba.capacity, f) then Written(old(ba.contents), old(ba.used), f.bytes) else old(ba.contents))
    ensures newSize == (if GetFileSize(f) == 0 then outSize else if ReadFits(old(ba.used), ba.capacity, f) then |f.bytes| else 0)
  {
    data := NULL;
    newSize := outSize;
    var fileSize := GetFileSize(f);
    if fileSize != 0 {
      var buffer := ba.BumpAlloc(fileSize + 1);
      newSize := 0;
      if buffer != NULL {
        var offset := buffer - ba.memory;
        ba.contents := Written(ba.contents, offset, f.bytes);
        newSize := fileSize;
        data := buffer;
      }
    }
  }
}
