/** Blocks and files of the simple file system, as in ucore/kern/fs/sfs/sfs_io.c and sfs_inode.c. */
module SfsFiles {
  import opened Bitmaps
  import opened SfsLayout
  import opened SfsMarks

  const MAX_FILE_SIZE: nat := 1024 * 1024 * 128

  /** `Panicked`: an assertion failed. */
  datatype Outcome = Done | NoMem | Inval | Panicked

  class SimpleFs {
    const freemap: Bitmap
    var disk: Disk
    var unused: nat
    var superDirty: bool
    var buffer: seq<Byte>
    var files: map<nat, DiskInode>
    var dirty: set<nat>
    var saved: map<nat, DiskInode>   // the inodes as they were last written to their blocks
    ghost var savedFree: set<nat>    // the free map as it was last written
    ghost var owner: seq<Slot>

    ghost function Now(): World
      reads this`disk, this`owner, this`files
    {
      World(disk, owner, files)
    }

    /** The free map and the counter agree with who owns which block, and a change of them is marked. */
    ghost predicate Books()
      reads this`disk, this`owner, this`unused, this`superDirty, this`savedFree, this`buffer, freemap, freemap.words
    {
      && (superDirty || savedFree == FreeBlocks(owner))
      && freemap.Valid() && |owner| == |disk| <= freemap.nbits && |disk| <= 0x1_0000_0000
      && |buffer| == BLKSIZE && (forall b: nat {:trigger Get(disk, b)} :: b < |disk| ==> |Get(disk, b)| == BLKSIZE)
      && freemap.Free() == FreeBlocks(owner) && unused == |FreeBlocks(owner)| && 0 !in FreeBlocks(owner)
    }

    ghost predicate Valid()
      reads this`disk, this`owner, this`files, this`unused, this`superDirty, this`savedFree, this`buffer
      reads freemap, freemap.words
    {
      Books() && Sound(Now())
    }

    /** Every inode that differs from what is on the disk is marked. */
    predicate Marked()
      reads this`files, this`saved, this`dirty
    {
      AllMarked(saved, files, dirty)
    }

    /** A mounted disk, whose free map and superblock agree with who owns which block. */
    constructor (d: Disk, fm: Bitmap, nunused: nat, inodes: map<nat, DiskInode>, ghost own: seq<Slot>)
      requires Sound(World(d, own, inodes)) && fm.Valid() && |d| <= fm.nbits
      requires fm.Free() == FreeBlocks(own) && nunused == |fm.Free()|
      ensures Valid() && disk == d && freemap == fm && unused == nunused && files == inodes && owner == own
      ensures Marked() && dirty == {}
    {
      freemap, disk, unused, superDirty, buffer := fm, d, nunused, false, Zeros(BLKSIZE);
      files, dirty, owner, saved, savedFree := inodes, {}, own, inodes, fm.Free();
      new;
      assert 0 < |owner| ==> Held(Now(), 0);
    }

    // ---------- sfs_io.c ----------

    method Rblock(blkno: nat) returns (data: seq<Byte>)
      requires Books() && 0 < blkno < |disk|
      ensures data == Get(disk, blkno) && |data| == BLKSIZE
    {
      assert |Get(disk, blkno)| == BLKSIZE;
      return disk[blkno];
    }

    method Wblock(data: seq<Byte>, blkno: nat)
      requires Books() && 0 < blkno < |disk| && |data| == BLKSIZE
      modifies this`disk
      ensures Books() && disk == Put(old(disk), blkno, data)
    {
      hide FreeBits, IsMap, Capped;
      StillSized(disk, blkno, data);
      disk := disk[blkno := data];
      assert disk == Put(old(disk), blkno, data);
      assert FreeBlocks(owner) == FreeBlocks(old(owner));
    }

    method Rbuf(len: nat, blkno: nat, offset: nat) returns (data: seq<Byte>)
      requires Books() && 0 < blkno < |disk| && offset + len <= BLKSIZE
      modifies this`buffer
      ensures Books() && data == Get(disk, blkno)[offset..offset + len]
    {
      buffer := Rblock(blkno);
      return buffer[offset..offset + len];
    }

    method Wbuf(data: seq<Byte>, blkno: nat, offset: nat)
      requires Books() && 0 < blkno < |disk| && offset + |data| <= BLKSIZE
      modifies this`buffer, this`disk
      ensures Books() && |Get(old(disk), blkno)| == BLKSIZE
      ensures disk == Put(old(disk), blkno, Splice(Get(old(disk), blkno), offset, data))
    {
      buffer := Rblock(blkno);
      buffer := Splice(buffer, offset, data);
      Wblock(buffer, blkno);
    }

    method ClearBlock(blkno: nat)
      requires Books() && 0 < blkno < |disk|
      modifies this`buffer, this`disk
      ensures Books() && disk == Put(old(disk), blkno, Zeros(BLKSIZE))
    {
      buffer := Zeros(BLKSIZE);
      Wblock(buffer, blkno);
    }

    // ---------- blocks ----------

    method BlockInuse(ino: nat) returns (inuse: bool)
      requires Books() && 0 < ino < |disk|
      ensures inuse <==> owner[ino] != Free
    {
      var free := freemap.Test(ino);
      return !free;
    }

    /** Any free block, filled with zeros, for the owner named. */
    method BlockAlloc(ghost s: Slot) returns (ok: bool, ino: nat)
      requires Books() && s != Free
      modifies this`disk, this`unused, this`superDirty, this`buffer, this`owner, freemap.words
      ensures Books() && ok == (|FreeBlocks(old(owner))| > 0)
      ensures ok ==> Owns(old(Now()), ino, Free)
      ensures ok ==> Now() == World(Put(old(disk), ino, Zeros(BLKSIZE)), old(owner)[ino := s], files)
      ensures ok ==> |FreeBlocks(owner)| == |FreeBlocks(old(owner))| - 1
      ensures !ok ==> Now() == old(Now())
    {
      ghost var w := Now();
      hide FreeBits, IsMap, Capped;
      ok, ino := freemap.Alloc();
      if !ok {
        return;
      }
      assert unused > 0;
      assert ino in FreeBlocks(w.owner);
      unused := unused - 1;
      superDirty := true;
      owner := owner[ino := s];
      assert FreeBlocks(owner) == FreeBlocks(w.owner) - {ino};
      ClearBlock(ino);
    }

    method BlockFree(ino: nat)
      requires Books() && 0 < ino < |disk| && owner[ino] != Free
      modifies this`unused, this`superDirty, this`owner, freemap.words
      ensures Books() && Now() == old(Now()).(owner := old(owner)[ino := Free])
      ensures FreeBlocks(owner) == FreeBlocks(old(owner)) + {ino} && ino !in FreeBlocks(old(owner))
    {
      ghost var w := Now();
      hide FreeBits, IsMap, Capped;
      var inuse := BlockInuse(ino);
      assert inuse;
      freemap.Release(ino);
      unused := unused + 1;
      superDirty := true;
      owner := owner[ino := Free];
      assert FreeBlocks(owner) == FreeBlocks(w.owner) + {ino};
    }

    // ---------- the block map ----------

    /** The world once the block just found is counted as the next one of the file. */
    ghost function Counted(f: nat, e: nat): World
      requires f in files
      reads this`disk, this`owner, this`files
    {
      Now().(files := files[f := files[f].(indirect := e, blocks := files[f].blocks + 1)])
    }

    method BmapGetSub(f: nat, entp: nat, index: nat, create: bool) returns (ok: bool, ent: nat, ino: nat)
      requires Valid() && f in files && index < NENTRY && entp == files[f].indirect
      requires create ==> NDIRECT + index == files[f].blocks
      modifies this`disk, this`unused, this`superDirty, this`buffer, this`owner, freemap.words
      ensures Books()
      ensures !create ==> ok && Now() == old(Now()) && ent == entp && ino == At(disk, files[f], NDIRECT + index)
      ensures create ==> ok == (|FreeBlocks(old(owner))| >= if entp == 0 then 2 else 1)
      ensures create && !ok ==> Refused(old(Now()), Now(), f)
      ensures create && ok ==> ent != 0 && (entp != 0 ==> ent == entp) && ino != 0
      ensures create && ok ==> Grows(old(Now()), Counted(f, ent), f, ino)
      ensures create && ok ==> |FreeBlocks(owner)| == |FreeBlocks(old(owner))| - if entp == 0 then 2 else 1
    {
      ghost var w := Now();
      assert FileOk(w, f);
      var offset := index * 4;
      ent, ino := entp, 0;
      if ent != 0 {
        var word := Rbuf(4, ent, offset);
        ino := Value(word);
        assert ino == At(disk, files[f], NDIRECT + index);
        if ino != 0 || !create {
          return true, ent, ino;
        }
      } else if !create {
        return true, ent, ino;
      }
      ok, ent, ino := BmapCreate(f, entp, index);
    }

    lemma DiskSize()
      requires Books()
      ensures |owner| == |disk| <= 0x1_0000_0000
    {
    }

    /** `BmapGetSub` where a block is wanted and there is none. */
    method BmapCreate(f: nat, entp: nat, index: nat) returns (ok: bool, ent: nat, ino: nat)
      requires Valid() && f in files && index < NENTRY && entp == files[f].indirect
      requires NDIRECT + index == files[f].blocks
      modifies this`disk, this`unused, this`superDirty, this`buffer, this`owner, freemap.words
      ensures Books() && ok == (|FreeBlocks(old(owner))| >= if entp == 0 then 2 else 1)
      ensures !ok ==> Refused(old(Now()), Now(), f)
      ensures ok ==> ent != 0 && (entp != 0 ==> ent == entp) && ino != 0
      ensures ok ==> Grows(old(Now()), Counted(f, ent), f, ino)
      ensures ok ==> |FreeBlocks(owner)| == |FreeBlocks(old(owner))| - if entp == 0 then 2 else 1
    {
      ghost var w := Now();
      assert FileOk(w, f);
      hide Books, Sound, FileOk, Blocks, OthersKept, At, FreeBlocks;
      ent := entp;
      if ent == 0 {
        ok, ent := BlockAlloc(Index(f));
        if !ok {
          RefusedAtOnce(w, f);
          return false, ent, 0;
        }
      }
      ok, ino := BmapFill(f, entp, ent, index, w);
    }

    /** `BmapCreate` once there is an index block. */
    method BmapFill(f: nat, entp: nat, ent: nat, index: nat, ghost w: World) returns (ok: bool, ino: nat)
      requires Books() && Sound(w) && f in w.files && index < NENTRY && NDIRECT + index == w.files[f].blocks
      requires Now() == Indexed(w, f, ent) && entp == w.files[f].indirect && (entp == 0 ==> index == 0)
      requires if entp == 0 then Owns(w, ent, Free) else ent == entp && Owns(w, ent, Index(f))
      modifies this`disk, this`unused, this`superDirty, this`buffer, this`owner, freemap.words
      ensures Books() && ok == (|FreeBlocks(old(owner))| >= 1)
      ensures !ok ==> Refused(w, Now(), f)
      ensures ok ==> ino != 0 && Grows(w, Counted(f, ent), f, ino)
      ensures ok ==> |FreeBlocks(owner)| == |FreeBlocks(old(owner))| - 1
    {
      hide Books, Sound, FileOk, Blocks, OthersKept, At, FreeBlocks, Refused, Grows;
      DiskSize();
      ok, ino := BlockAlloc(Data(f, NDIRECT + index));
      if !ok {
        GiveBack(f, entp, ent, w);
        return false, ino;
      }
      Wbuf(Word(ino), ent, index * 4);
      MapGrown(w, f, ent, ino, Counted(f, ent));
    }

    /** `BmapCreate` where there is no block left: an index block that is new goes back. */
    method GiveBack(f: nat, entp: nat, ent: nat, ghost w: World)
      requires Books() && Sound(w) && f in w.files && Now() == Indexed(w, f, ent) && entp == w.files[f].indirect
      requires if entp == 0 then Owns(w, ent, Free) else ent == entp
      modifies this`unused, this`superDirty, this`owner, freemap.words
      ensures Books() && Refused(w, Now(), f)
    {
      hide Books, Sound, FileOk, Blocks, OthersKept, At, FreeBlocks, Refused;
      DiskSize();
      if ent != entp {
        BlockFree(ent);
        Untouched(w, f, ent, Now());
      } else {
        RefusedAtOnce(w, f);
      }
    }

    /** The number of block `index`, which is allocated if it is the next one and `create` says so. */
    method BmapGet(f: nat, index: nat, create: bool) returns (ok: bool, ino: nat)
      requires Valid() && f in files && index < NBLOCKS && (create ==> index == files[f].blocks)
      modifies this`disk, this`unused, this`superDirty, this`buffer, this`owner, this`files, this`dirty, freemap.words
      ensures Books() && f in files && files[f].size == old(files[f].size) && files[f].blocks == old(files[f].blocks)
      ensures !create ==> ok && Now() == old(Now()) && ino == At(disk, files[f], index)
      ensures create ==> ok == (|FreeBlocks(old(owner))| >= Need(old(files[f])))
      ensures create && !ok ==> Refused(old(Now()), Now(), f)
      ensures create && ok ==> ino != 0 && Grows(old(Now()), Counted(f, files[f].indirect), f, ino)
      ensures create && ok ==> |FreeBlocks(owner)| == |FreeBlocks(old(owner))| - Need(old(files[f]))
      ensures index < NDIRECT ==> files[f].indirect == old(files[f].indirect)
      ensures Filled(old(files[f]), files[f]) && Marks(old(files[f]), files[f], old(dirty), dirty, f)
      ensures files[f] == old(files[f]) <==> !(create && ok) || Unnoticed(old(files[f]))
    {
      hide Books, Sound, Refused, Grows, At, FreeBlocks, Marks, Filled;
      if index < NDIRECT {
        ok, ino := BmapGetDirect(f, index, create);
      } else {
        ok, ino := BmapGetIndirect(f, index, create);
      }
    }

    /** `BmapGet` for the blocks that the index block names. */
    method BmapGetIndirect(f: nat, index: nat, create: bool) returns (ok: bool, ino: nat)
      requires Valid() && f in files && NDIRECT <= index < NBLOCKS && (create ==> index == files[f].blocks)
      modifies this`disk, this`unused, this`superDirty, this`buffer, this`owner, this`files, this`dirty, freemap.words
      ensures Books() && f in files && files[f].size == old(files[f].size) && files[f].blocks == old(files[f].blocks)
      ensures !create ==> ok && Now() == old(Now()) && ino == At(disk, files[f], index)
      ensures create ==> ok == (|FreeBlocks(old(owner))| >= Need(old(files[f])))
      ensures create && !ok ==> Refused(old(Now()), Now(), f)
      ensures create && ok ==> ino != 0 && Grows(old(Now()), Counted(f, files[f].indirect), f, ino)
      ensures create && ok ==> |FreeBlocks(owner)| == |FreeBlocks(old(owner))| - Need(old(files[f]))
      ensures Filled(old(files[f]), files[f]) && Marks(old(files[f]), files[f], old(dirty), dirty, f)
      ensures files[f] == old(files[f]) <==> !(create && ok) || Unnoticed(old(files[f]))
    {
      hide Books, Sound, FileOk, Blocks, OthersKept, FreeBlocks, Refused, Grows, At;
      ghost var w := Now();
      IndexFirst(w, f);
      var ent := files[f].indirect;
      ok, ent, ino := BmapGetSub(f, ent, index - NDIRECT, create);
      if ok && ent != files[f].indirect {
        assert files[f].indirect == 0;
        files := files[f := files[f].(indirect := ent)];
        dirty := dirty + {f};
      }
      ghost var din := w.files[f].(indirect := ent, blocks := w.files[f].blocks + 1);
      assert create && ok ==> Counted(f, files[f].indirect) == Now().(files := w.files[f := din]);
    }

    /** `BmapGet` for the blocks that the inode names itself. */
    method BmapGetDirect(f: nat, index: nat, create: bool) returns (ok: bool, ino: nat)
      requires Valid() && f in files && index < NDIRECT && (create ==> index == files[f].blocks)
      modifies this`disk, this`unused, this`superDirty, this`buffer, this`owner, this`files, this`dirty, freemap.words
      ensures Books() && f in files && files[f].size == old(files[f].size) && files[f].blocks == old(files[f].blocks)
      ensures !create ==> ok && Now() == old(Now()) && ino == At(disk, files[f], index)
      ensures create ==> ok == (|FreeBlocks(old(owner))| >= 1)
      ensures create && !ok ==> Refused(old(Now()), Now(), f)
      ensures create && ok ==> ino != 0 && Grows(old(Now()), Counted(f, files[f].indirect), f, ino)
      ensures create && ok ==> |FreeBlocks(owner)| == |FreeBlocks(old(owner))| - 1
      ensures files[f].indirect == old(files[f].indirect)
      ensures Filled(old(files[f]), files[f]) && Marks(old(files[f]), files[f], old(dirty), dirty, f)
      ensures files[f] == old(files[f]) <==> !(create && ok)
    {
      ghost var w := Now();
      assert FileOk(w, f);
      assert At(w.disk, w.files[f], index) == w.files[f].direct[index];
      assert create ==> w.files[f].direct[index] == 0;
      hide Books, Sound, FileOk, Blocks, OthersKept, FreeBlocks, Refused, Grows, At;
      ok, ino := true, files[f].direct[index];
      if ino == 0 && create {
        ok, ino := BlockAlloc(Data(f, index));
        if !ok {
          RefusedAtOnce(w, f);
          return;
        }
        files := files[f := files[f].(direct := files[f].direct[index := ino])];
        dirty := dirty + {f};
        DirectGrown(w, f, ino, Counted(f, files[f].indirect));
      }
    }

    method BmapLoad(f: nat, index: nat) returns (ret: Outcome, ino: nat)
      requires Valid() && f in files && index < NBLOCKS
      modifies this`disk, this`unused, this`superDirty, this`buffer, this`owner, this`files, this`dirty, freemap.words
      ensures ret != Inval && (ret == Panicked <==> index > old(files[f]).blocks)
      ensures ret == NoMem <==> index == old(files[f]).blocks && |FreeBlocks(old(owner))| < Need(old(files[f]))
      ensures Valid() && f in files && files[f].size == old(files[f].size)
      ensures Appended(old(files[f]), files[f]) && Marks(old(files[f]), files[f], old(dirty), dirty, f)
      ensures old(Marked()) ==>
        (Marked() <==> !(ret == Done && index == old(files[f].blocks) && Unnoticed(old(files[f])) && f !in old(dirty)))
      ensures ret == Done && index == old(files[f].blocks) ==> Grows(old(Now()), Now(), f, ino)
      ensures ret == Done && index == old(files[f].blocks) ==> |FreeBlocks(owner)| == |FreeBlocks(old(owner))| - Need(old(files[f]))
      ensures index < NDIRECT ==> files[f].indirect == old(files[f].indirect)
      ensures ret == Done ==> index < files[f].blocks && ino == At(disk, files[f], index)
      ensures ret == NoMem ==> Refused(old(Now()), Now(), f)
      ensures ret == Panicked || index < old(files[f].blocks) ==> Now() == old(Now())
    {
      if index > files[f].blocks {
        return Panicked, 0;
      }
      var create := index == files[f].blocks;
      var ok;
      ok, ino := BmapGet(f, index, create);
      if !ok {
        MarksStay(old(Now()), Now(), saved, old(dirty), dirty, f);
        return NoMem, ino;
      }
      assert FileOk(old(Now()), f);
      if create {
        files := files[f := files[f].(blocks := files[f].blocks + 1)];
      }
      MarksStay(old(Now()), Now(), saved, old(dirty), dirty, f);
      return Done, ino;
    }

    /** Entry `index` of an index block is emptied, and its block is free. */
    method BmapFreeSub(ent: nat, index: nat)
      requires Books() && 0 < ent < |disk| && index < NENTRY && owner[ent] != Free
      requires var b := Entry(Get(disk, ent), index); 0 < b < |disk| && owner[b] != Free
      modifies this`disk, this`unused, this`superDirty, this`buffer, this`owner, freemap.words
      ensures Books() && |Get(old(disk), ent)| == BLKSIZE
      ensures var b := Entry(Get(old(disk), ent), index);
        && b < |old(owner)| && owner == old(owner)[b := Free] && files == old(files)
        && disk == Put(old(disk), ent, Splice(Get(old(disk), ent), 4 * index, Word(0)))
    {
      var inuse := BlockInuse(ent);
      assert inuse;
      hide Books, FreeBlocks;
      var offset := index * 4;
      var word := Rbuf(4, ent, offset);
      var ino := Value(word);
      if ino != 0 {
        Wbuf(Word(0), ent, offset);
        BlockFree(ino);
      }
    }

    method BmapFree(f: nat, index: nat)
      requires Valid() && f in files && index + 1 == files[f].blocks
      modifies this`disk, this`unused, this`superDirty, this`buffer, this`owner, this`files, this`dirty, freemap.words
      ensures Books() && f in files && files[f].blocks == index + 1 && files == old(files)[f := files[f]]
      ensures old(dirty) <= dirty <= old(dirty) + {f}
      ensures Now().(files := files[f := files[f].(blocks := index)]) == WithoutLast(old(Now()), f)
    {
      if index < NDIRECT {
        assert FileOk(Now(), f);
        assert At(disk, files[f], index) == files[f].direct[index];
        hide Books, FreeBlocks, FileOk, Sound;
        var ino := files[f].direct[index];
        if ino != 0 {
          BlockFree(ino);
          files := files[f := files[f].(direct := files[f].direct[index := 0])];
          dirty := dirty + {f};
        }
      } else {
        BmapFreeIndirect(f, index);
      }
    }

    method BmapFreeIndirect(f: nat, index: nat)
      requires Valid() && f in files && index + 1 == files[f].blocks && index >= NDIRECT
      modifies this`disk, this`unused, this`superDirty, this`buffer, this`owner, freemap.words
      ensures Books()
      ensures Now().(files := files[f := files[f].(blocks := index)]) == WithoutLast(old(Now()), f)
    {
      assert FileOk(Now(), f);
      assert Owns(Now(), At(disk, files[f], index), Data(f, index)) && |owner| == |disk|;
      hide Books, FreeBlocks, FileOk, Sound;
      var ent := files[f].indirect;
      if ent != 0 {
        BmapFreeSub(ent, index - NDIRECT);
      }
    }

    /** The last block of a file is given up. */
    method BmapTruncate(f: nat)
      requires Valid() && f in files && files[f].blocks != 0
      modifies this`disk, this`unused, this`superDirty, this`buffer, this`owner, this`files, this`dirty, freemap.words
      ensures Valid() && f in files && files[f].size == old(files[f].size) && dirty == old(dirty) + {f}
      ensures old(Marked()) ==> Marked()
      ensures OthersKept(old(Now()), Now(), f) && Blocks(Now(), f) == Blocks(old(Now()), f)[..old(files[f].blocks) - 1]
      ensures |FreeBlocks(owner)| == |FreeBlocks(old(owner))| + 1 && KeepsReserved(old(owner), owner)
      ensures files[f].indirect == old(files[f].indirect)
    {
      ghost var w := Now();
      hide Sound, WithoutLast, OthersKept, Blocks, FreeBlocks, FreeBits, IsMap, Capped;
      BmapFree(f, files[f].blocks - 1);
      files := files[f := files[f].(blocks := files[f].blocks - 1)];
      dirty := dirty + {f};
      Shrunk(w, f, Now());
    }

    // ---------- reading and writing ----------

    /** One block of `IoNolock`: whole, or through the buffer. */
    method BlockIo(f: nat, blkno: nat, blkoff: nat, size: nat, data: seq<Byte>, write: bool)
      returns (ret: Outcome, got: seq<Byte>)
      requires Valid() && f in files && blkno < NBLOCKS && 0 < size && blkoff + size <= BLKSIZE
      requires write ==> |data| == size
      modifies this`disk, this`unused, this`superDirty, this`buffer, this`owner, this`files, this`dirty, freemap.words
      ensures Valid() && ret != Inval && (ret == Panicked <==> blkno > old(files[f].blocks))
      ensures ret == NoMem <==> blkno == old(files[f].blocks) && |FreeBlocks(old(owner))| < Need(old(files[f]))
      ensures ret == NoMem ==> Refused(old(Now()), Now(), f)
      ensures ret == Panicked ==> Now() == old(Now())
      ensures ret == Done ==> Transferred(old(Now()), Now(), f, BLKSIZE * blkno + blkoff, size, data, write, got)
      ensures !write && blkno < old(files[f].blocks) ==> Now() == old(Now())
      ensures f in files && Appended(old(files[f]), files[f]) && Marks(old(files[f]), files[f], old(dirty), dirty, f)
    {
      hide Sound, OthersKept, Bytes, FreeBlocks, FreeBits, IsMap, Capped, At, Transferred, Grows, Appended, Marks, Refused;
      ghost var w := Now();
      var ino;
      ret, ino := BmapLoad(f, blkno);
      if ret != Done {
        return ret, [];
      }
      ghost var u := Now();
      LoadedBytes(w, u, f, blkno, ino);
      ReadHere(u, f, blkno, blkoff, size);
      got := [];
      if size == BLKSIZE {
        if write {
          assert Splice(Get(disk, ino), 0, data) == data;
          Wblock(data, ino);
        } else {
          got := Rblock(ino);
        }
      } else {
        if write {
          Wbuf(data, ino, blkoff);
        } else {
          got := Rbuf(size, ino, blkoff);
        }
      }
      if write {
        WroteHere(u, f, blkno, blkoff, data, Now());
      }
      BlockDone(w, u, Now(), f, blkno, blkoff, size, data, write, got);
    }

    /** The blocks of `IoNolock`. */
    method Transfer(f: nat, data: seq<Byte>, offset: nat, endpos: nat, write: bool)
      returns (ret: Outcome, alen: nat, got: seq<Byte>)
      requires Valid() && f in files && offset < endpos <= BLKSIZE * NBLOCKS
      requires write ==> endpos - offset <= |data|
      modifies this`disk, this`unused, this`superDirty, this`buffer, this`owner, this`files, this`dirty, freemap.words
      ensures Valid() && f in files && ret != Inval
      ensures Appended(old(files[f]), files[f]) && Marks(old(files[f]), files[f], old(dirty), dirty, f)
      ensures Moved(old(Now()), Now(), f, offset, alen, data, write, got) && alen <= endpos - offset
      ensures files[f].size == old(files[f].size)
      ensures ret == Panicked <==> offset / BLKSIZE > old(files[f].blocks)
      ensures ret == Panicked ==> Now() == old(Now())
      ensures ret == Done ==> alen == endpos - offset
      ensures ret == NoMem ==> alen < endpos - offset && StoppedAt(old(Now()), Now(), f, offset, alen)
      ensures ret == Done <==> ret != Panicked && |FreeBlocks(old(owner))| >= Cost(old(files[f]), BlocksFor(endpos))
      ensures !write && endpos <= BLKSIZE * old(files[f].blocks) ==> Now() == old(Now())
    {
      ghost var w := Now();
      hide Books, Sound, StoppedAt, Cost, FreeBlocks;
      MovedNothing(w, f, offset, data, write);
      ret, alen, got := Pieces(f, w, data, offset, endpos, write);
      Accounted(w, Now(), f, offset, endpos, alen, data, write, got, ret);
    }

    /** What is left of the first block, whole blocks, and the start of the last one. */
    method Pieces(f: nat, ghost w: World, data: seq<Byte>, offset: nat, endpos: nat, write: bool)
      returns (ret: Outcome, alen: nat, got: seq<Byte>)
      requires Valid() && Now() == w && f in w.files && offset < endpos <= BLKSIZE * NBLOCKS
      requires Moved(w, w, f, offset, 0, data, write, [])
      requires write ==> endpos - offset <= |data|
      modifies this`disk, this`unused, this`superDirty, this`buffer, this`owner, this`files, this`dirty, freemap.words
      ensures Valid() && Moved(w, Now(), f, offset, alen, data, write, got) && ret != Inval
      ensures f in files && Appended(old(files[f]), files[f]) && Marks(old(files[f]), files[f], old(dirty), dirty, f)
      ensures alen <= endpos - offset
      ensures ret == Panicked <==> offset / BLKSIZE > w.files[f].blocks
      ensures ret == Panicked ==> Now() == w
      ensures ret == Done ==> alen == endpos - offset
      ensures ret == NoMem ==> alen < endpos - offset && StoppedAt(w, Now(), f, offset, alen)
      ensures !write && endpos <= BLKSIZE * w.files[f].blocks ==> Now() == w
    {
      hide Moved, StoppedAt, Books, Sound, Appended, Marks;
      ghost var din, marked := files[f], dirty;
      NothingAppended(din, dirty, f);
      var blkno := offset / BLKSIZE;
      var nblks := endpos / BLKSIZE - blkno;
      var blkoff := offset % BLKSIZE;
      ret, alen, got := Done, 0, [];
      if blkoff != 0 {
        var size := if nblks != 0 then BLKSIZE - blkoff else endpos - offset;
        ret, alen, got := NextBlock(f, w, data, offset, alen, got, blkno, blkoff, size, write);
        if ret != Done || nblks == 0 {
          return;
        }
        blkno, nblks := blkno + 1, nblks - 1;
        din, marked := files[f], dirty;
      }
      ret, alen, got, blkno := WholeBlocks(f, w, data, offset, endpos, alen, got, blkno, nblks, write);
      MarksTwice(old(files[f]), din, files[f], old(dirty), marked, dirty, f);
      din, marked := files[f], dirty;
      if ret != Done {
        return;
      }
      var size := endpos % BLKSIZE;
      if size != 0 {
        ret, alen, got := NextBlock(f, w, data, offset, alen, got, blkno, 0, size, write);
        MarksTwice(old(files[f]), din, files[f], old(dirty), marked, dirty, f);
      }
    }

    /** The loop of `IoNolock`. */
    method WholeBlocks(f: nat, ghost w: World, data: seq<Byte>, offset: nat, ghost endpos: nat, alen0: nat,
                       got0: seq<Byte>, blkno0: nat, nblks0: nat, write: bool)
      returns (ret: Outcome, alen: nat, got: seq<Byte>, blkno: nat)
      requires Valid() && Sound(w) && Moved(w, Now(), f, offset, alen0, data, write, got0)
      requires f in w.files && f in files && offset < endpos <= BLKSIZE * NBLOCKS && (write ==> endpos - offset <= |data|)
      requires BLKSIZE * blkno0 == offset + alen0 && nblks0 + blkno0 == endpos / BLKSIZE && offset / BLKSIZE <= blkno0
      requires alen0 == 0 ==> Now() == w && blkno0 == offset / BLKSIZE
      requires alen0 != 0 ==> offset / BLKSIZE <= w.files[f].blocks
      requires !write && endpos <= BLKSIZE * w.files[f].blocks ==> Now() == w
      modifies this`disk, this`unused, this`superDirty, this`buffer, this`owner, this`files, this`dirty, freemap.words
      ensures Valid() && Moved(w, Now(), f, offset, alen, data, write, got) && ret != Inval
      ensures f in files && Appended(old(files[f]), files[f]) && Marks(old(files[f]), files[f], old(dirty), dirty, f)
      ensures BLKSIZE * blkno == offset + alen && blkno <= endpos / BLKSIZE
      ensures ret == Done ==> blkno == endpos / BLKSIZE && (alen != 0 ==> offset / BLKSIZE <= w.files[f].blocks)
      ensures ret == Done && alen == 0 ==> Now() == w && blkno == offset / BLKSIZE
      ensures ret == Panicked ==> Now() == w && offset / BLKSIZE > w.files[f].blocks
      ensures ret == NoMem ==> blkno < endpos / BLKSIZE && StoppedAt(w, Now(), f, offset, alen)
      ensures ret == NoMem ==> offset / BLKSIZE <= w.files[f].blocks
      ensures !write && endpos <= BLKSIZE * w.files[f].blocks ==> Now() == w
    {
      hide Moved, StoppedAt, Books, Sound, Appended, Marks;
      NothingAppended(files[f], dirty, f);
      ret, alen, got, blkno := Done, alen0, got0, blkno0;
      var nblks: nat := nblks0;
      while nblks != 0
        invariant Valid() && Moved(w, Now(), f, offset, alen, data, write, got)
        invariant BLKSIZE * blkno == offset + alen && nblks + blkno == endpos / BLKSIZE
        invariant (alen != 0 ==> offset / BLKSIZE <= w.files[f].blocks) && f in w.files
        invariant f in files && Appended(old(files[f]), files[f]) && Marks(old(files[f]), files[f], old(dirty), dirty, f)
        invariant alen == 0 ==> Now() == w && blkno == offset / BLKSIZE
        invariant !write && endpos <= BLKSIZE * w.files[f].blocks ==> Now() == w
      {
        ghost var din, marked := files[f], dirty;
        ret, alen, got := NextBlock(f, w, data, offset, alen, got, blkno, 0, BLKSIZE, write);
        MarksTwice(old(files[f]), din, files[f], old(dirty), marked, dirty, f);
        if ret != Done {
          return;
        }
        blkno, nblks := blkno + 1, nblks - 1;
      }
      ret := Done;
    }

    /** A step of `Transfer`. */
    method NextBlock(f: nat, ghost w: World, data: seq<Byte>, offset: nat, alen: nat, got: seq<Byte>,
                     blkno: nat, blkoff: nat, size: nat, write: bool)
      returns (ret: Outcome, alen': nat, got': seq<Byte>)
      requires Valid() && Sound(w) && Moved(w, Now(), f, offset, alen, data, write, got)
      requires blkno < NBLOCKS && BLKSIZE * blkno + blkoff == offset + alen && (alen != 0 ==> blkoff == 0)
      requires 0 < size && blkoff + size <= BLKSIZE && (write ==> alen + size <= |data|)
      requires f in files && (alen == 0 ==> Now() == w)
      modifies this`disk, this`unused, this`superDirty, this`buffer, this`owner, this`files, this`dirty, freemap.words
      ensures Valid() && Moved(w, Now(), f, offset, alen', data, write, got') && ret != Inval
      ensures ret == Done ==> alen' == alen + size && (alen == 0 ==> blkno <= w.files[f].blocks)
      ensures ret != Done ==> alen' == alen
      ensures ret == Panicked <==> alen == 0 && blkno > w.files[f].blocks
      ensures ret == Panicked ==> Now() == old(Now())
      ensures ret == NoMem ==> StoppedAt(w, Now(), f, offset, alen)
      ensures !write && blkno < w.files[f].blocks && old(Now()) == w ==> Now() == w
      ensures f in files && Appended(old(files[f]), files[f]) && Marks(old(files[f]), files[f], old(dirty), dirty, f)
    {
      ghost var u := Now();
      hide Appended, Marks, Moved, StoppedAt, Sound, Transferred, Books, Refused, OthersKept, FreeBlocks, Need, Grows;
      Reaches(w, u, f, offset, alen, data, write, got, blkno, blkoff);
      var piece;
      ret, piece := BlockIo(f, blkno, blkoff, size, if write then data[alen..alen + size] else [], write);
      alen', got' := if ret == Done then alen + size else alen, if ret == Done then got + piece else got;
      Stepped(w, u, Now(), f, offset, alen, data, write, got, size, piece, ret);
    }

    method IoNolock(f: nat, data: seq<Byte>, offset: int, len: nat, write: bool)
      returns (ret: Outcome, alen: nat, got: seq<Byte>)
      requires Valid() && f in files && -0x8000_0000 <= offset < 0x8000_0000 && len < 0x1_0000_0000
      requires write ==> |data| == len && (!Rejected(offset, len) ==> EndOf(0, offset, len, true) <= BLKSIZE * NBLOCKS)
      modifies this`disk, this`unused, this`superDirty, this`buffer, this`owner, this`files, this`dirty, freemap.words
      ensures Valid() && f in files && (ret == Inval <==> Rejected(offset, len))
      ensures Idle(old(files[f]), offset, len, write) ==> ret in {Inval, Done} && alen == 0 && got == []
      ensures Idle(old(files[f]), offset, len, write) || ret == Panicked ==> Now() == old(Now())
      ensures !Idle(old(files[f]), offset, len, write) ==>
        (ret == Panicked <==> offset / BLKSIZE > old(files[f].blocks))
      ensures ret == Done && !Idle(old(files[f]), offset, len, write) ==>
        offset + alen == EndOf(old(files[f].size), offset, len, write)
      ensures ret in {Done, NoMem} && !Idle(old(files[f]), offset, len, write) ==>
        && Completed(old(Now()), Now(), f, offset, alen, data, write, got)
        && (ret == Done <==> Cost(old(files[f]), BlocksFor(EndOf(old(files[f].size), offset, len, write)))
                             <= |FreeBlocks(old(owner))|)
      ensures ret == NoMem ==> StoppedAt(old(Now()), WithSize(Now(), f, old(files[f].size)), f, offset, alen)
      ensures !write && Covered(old(files[f])) ==> Now() == old(Now())
      ensures old(Marked()) ==>
        (Marked() <==> !(Unnoticed(old(files[f])) && f !in old(dirty) && offset + alen <= old(files[f].size)
                         && old(files[f].blocks) < files[f].blocks))
      ensures old(Marked()) && Covered(old(files[f])) ==> Marked()
    {
      hide Sound, Books, Completed, StoppedAt, Appended, Marks, AllMarked, Cost, FreeBlocks, OnlyCount;
      ghost var w := Now();
      SizeBound(w, f);
      var endpos := Signed(offset + len);
      ret, alen, got := Done, 0, [];
      if offset < 0 || offset >= MAX_FILE_SIZE || offset > endpos {
        return Inval, 0, [];
      }
      if offset == endpos {
        return;
      }
      if endpos > MAX_FILE_SIZE {
        endpos := MAX_FILE_SIZE;
      }
      if !write {
        if offset >= files[f].size {
          return;
        }
        if endpos > files[f].size {
          endpos := files[f].size;
        }
      }
      ret, alen, got := TransferAndSize(f, data, offset, endpos, write);
      MarkedAfter(w, Now(), f, offset, alen, data, write, got, ret, saved, old(dirty), dirty);
    }

    /** `Transfer`, and the size of the file after it. */
    method TransferAndSize(f: nat, data: seq<Byte>, offset: nat, endpos: nat, write: bool)
      returns (ret: Outcome, alen: nat, got: seq<Byte>)
      requires Valid() && f in files && offset < endpos <= BLKSIZE * NBLOCKS
      requires if write then endpos - offset <= |data| else endpos <= files[f].size
      modifies this`disk, this`unused, this`superDirty, this`buffer, this`owner, this`files, this`dirty, freemap.words
      ensures Valid() && f in files && ret != Inval
      ensures ret == Panicked <==> offset / BLKSIZE > old(files[f].blocks)
      ensures ret == Panicked ==> Now() == old(Now())
      ensures ret == Done ==> offset + alen == endpos
      ensures ret != Panicked ==> Completed(old(Now()), Now(), f, offset, alen, data, write, got)
      ensures ret == Done <==> ret != Panicked && Cost(old(files[f]), BlocksFor(endpos)) <= |FreeBlocks(old(owner))|
      ensures ret == NoMem ==> offset + alen < endpos
      ensures ret == NoMem ==> StoppedAt(old(Now()), WithSize(Now(), f, old(files[f].size)), f, offset, alen)
      ensures Marks(old(files[f]), files[f], old(dirty), dirty, f)
      ensures Appended(old(files[f]), files[f].(size := old(files[f].size)))
      ensures !write && endpos <= BLKSIZE * old(files[f].blocks) ==> Now() == old(Now())
    {
      ghost var w := Now();
      hide Sound, Moved, Cost, StoppedAt, FreeBlocks, FreeBits, IsMap, Capped;
      ret, alen, got := Transfer(f, data, offset, endpos, write);
      if ret == Panicked {
        return;
      }
      ghost var u := Now();
      if offset + alen > files[f].size {
        files := files[f := files[f].(size := offset + alen)];
        dirty := dirty + {f};
        Resized(u, f, offset + alen, Now());
      }
      assert WithSize(Now(), f, w.files[f].size) == u;
    }

    /** Set the length of a file. */
    method Truncfile(f: nat, len: int) returns (ret: Outcome)
      requires Valid() && f in files && (0 <= len <= MAX_FILE_SIZE ==> len <= BLKSIZE * NBLOCKS)
      modifies this`disk, this`unused, this`superDirty, this`buffer, this`owner, this`files, this`dirty, freemap.words
      ensures Valid() && f in files
      ensures ret == Inval <==> len < 0 || len > MAX_FILE_SIZE
      ensures ret == Panicked <==> len == old(files[f].size) && !Tight(old(files[f]))
      ensures ret == Inval || ret == Panicked || len == old(files[f].size) ==> Now() == old(Now())
      ensures ret == Done && len != old(files[f].size) ==> files[f].size == len && f in dirty
      ensures ret == Done ==> Relength(old(Now()), Now(), f, BlocksFor(len)) && files[f].size == len
      ensures ret == NoMem ==> Relength(old(Now()), Now(), f, files[f].blocks) && files[f].size == old(files[f].size)
      ensures ret == NoMem ==> old(files[f].blocks) <= files[f].blocks < BlocksFor(len)
      ensures ret == Done || ret == NoMem ==>
        (ret == Done <==> Cost(old(files[f]), BlocksFor(len)) <= |FreeBlocks(old(owner))|)
      ensures ret == Done && BlocksFor(len) <= old(files[f].blocks) ==> KeepsReserved(old(owner), owner)
      ensures old(dirty) <= dirty <= old(dirty) + {f}
      ensures ret == NoMem ==> Appended(old(files[f]), files[f]) && Marks(old(files[f]), files[f], old(dirty), dirty, f)
      ensures old(Marked()) ==>
        (Marked() <==> !(ret == NoMem && Unnoticed(old(files[f])) && f !in old(dirty) && FreeBlocks(old(owner)) != {}))
    {
      hide Sound, Relength, Cost, FreeBlocks, FreeBits, IsMap, Capped, Books, Appended, AllMarked, KeepsReserved;
      ghost var w := Now();
      SizeBound(w, f);
      if len < 0 || len > MAX_FILE_SIZE {
        return Inval;
      }
      var tblks := BlocksFor(len);
      RelengthNot(w, f);
      if files[f].size == len {
        NoCost(files[f]);
        KeepsAll(owner);
        return if tblks == files[f].blocks then Done else Panicked;
      }
      if files[f].blocks < tblks {
        ret := GrowTo(f, tblks);
        if ret != Done {
          StoppedMarks(w, Now(), f, tblks, saved, old(dirty), dirty);
          return;
        }
      } else {
        ret := ShrinkTo(f, tblks);
      }
      SetSize(f, len, w);
      NowMarked(w, Now(), saved, old(dirty), dirty, f, tblks);
    }

    /** After one that stopped for lack of blocks, setting the length that the file has fails exactly if it got a block. */
    method TruncfileAgain(f: nat, len: int) returns (ret: Outcome, again: Outcome)
      requires Valid() && f in files && Tight(files[f]) && (0 <= len <= MAX_FILE_SIZE ==> len <= BLKSIZE * NBLOCKS)
      modifies this`disk, this`unused, this`superDirty, this`buffer, this`owner, this`files, this`dirty, freemap.words
      ensures Valid() && f in files && ret != Panicked
      ensures ret == NoMem ==> files[f].size == old(files[f].size)
      ensures ret == NoMem ==> again == if files[f].blocks == old(files[f].blocks) then Done else Panicked
    {
      ret := Truncfile(f, len);
      again := Done;
      if ret == NoMem {
        assert FileOk(Now(), f);
        again := Truncfile(f, files[f].size);
      }
    }

    /** sfs_fsync: the inode goes to its block if it is marked. */
    method Fsync(f: nat)
      requires f in files
      modifies this`saved, this`dirty
      ensures dirty == old(dirty) - {f} && saved == if f in old(dirty) then old(saved)[f := files[f]] else old(saved)
      ensures old(Marked()) ==> Marked() && f in saved && saved[f] == files[f]
    {
      if f in dirty {
        dirty := dirty - {f};
        saved := saved[f := files[f]];
      }
    }

    /** sfs_sync: every inode that is marked, and the superblock and the free map if a change of them is marked. */
    method Sync()
      requires Books()
      modifies this`saved, this`dirty, this`superDirty, this`savedFree
      ensures Books() && !superDirty && savedFree == FreeBlocks(owner) && dirty == old(dirty) - files.Keys
      ensures old(Marked()) ==> forall f :: f in files ==> f in saved && saved[f] == files[f]
    {
      var todo := files.Keys;
      while todo != {}
        invariant Books() && todo <= files.Keys && dirty == old(dirty) - (files.Keys - todo) && (old(Marked()) ==> Marked())
        decreases todo
      {
        var f :| f in todo;
        Fsync(f);
        todo := todo - {f};
      }
      if superDirty {
        superDirty := false;
        savedFree := freemap.Free();
      }
    }

    /**
     * Making a file longer that has an index block and is not marked: if it stops after some blocks were added, writing the
     * inode does nothing, and what is on the disk knows fewer blocks.
     */
    method StoppedUnmarked(f: nat, len: int) returns (ret: Outcome)
      requires Valid() && Marked() && f in files && f !in dirty && Unnoticed(files[f]) && FreeBlocks(owner) != {}
      requires 0 <= len <= BLKSIZE * NBLOCKS && len != files[f].size && Cost(files[f], BlocksFor(len)) > |FreeBlocks(owner)|
      modifies this`disk, this`unused, this`superDirty, this`buffer, this`owner, this`files, this`dirty, freemap.words
      modifies this`saved
      ensures Valid() && f in files && f in saved && ret == NoMem
      ensures saved[f].blocks < files[f].blocks && saved[f] == files[f].(blocks := saved[f].blocks)
    {
      hide Sound, FreeBlocks, Books;
      ghost var din := files[f];
      assert saved[f] == din;
      ret := Truncfile(f, len);
      MarksStay(old(Now()), Now(), saved, old(dirty), dirty, f);
      Fsync(f);
    }

    method SetSize(f: nat, len: nat, ghost w: World)
      requires Valid() && f in files && len <= BLKSIZE * NBLOCKS && Relength(w, Now(), f, files[f].blocks)
      modifies this`files, this`dirty
      ensures Valid() && f in files && files[f].size == len && dirty == old(dirty) + {f} && owner == old(owner)
      ensures Relength(w, Now(), f, old(files[f].blocks)) && files[f].blocks == old(files[f].blocks)
    {
      ghost var u := Now();
      hide Sound, Relength, FreeBlocks, FreeBits, IsMap, Capped;
      files := files[f := files[f].(size := len)];
      dirty := dirty + {f};
      Resized(u, f, len, Now());
      RelengthSized(w, u, f, len, Now());
    }

    /** The last reference to a file without links is gone: its blocks and its inode are free again. */
    method Reclaim(f: nat) returns (ret: Outcome)
      requires Valid() && f in files && Owns(Now(), f, Reserved)
      modifies this`disk, this`unused, this`superDirty, this`buffer, this`owner, this`files, this`dirty, freemap.words
      modifies this`saved
      ensures Valid() && ret == if old(files[f]).size == 0 && old(files[f]).blocks != 0 then Panicked else Done
      ensures ret == Panicked ==> Now() == old(Now())
      ensures ret == Done ==> AllBack(old(Now()), Now(), f)
      ensures (old(Marked()) ==> Marked()) && (ret == Done ==> dirty == old(dirty) - {f})
    {
      ghost var w := Now();
      ret := Truncfile(f, 0);
      if ret != Done {
        return;
      }
      Fsync(f);
      ghost var u := Now();
      hide Sound, OthersKept, Blocks, Bytes, FreeBlocks, Books, Relength, AllBack;
      GiveUp(f);
      GoneBack(w, u, f, Now());
    }

    /** `Reclaim` of a file without data. */
    method GiveUp(f: nat)
      requires Valid() && f in files && files[f].blocks == 0 && Owns(Now(), f, Reserved)
      modifies this`unused, this`superDirty, this`owner, this`files, freemap.words
      ensures Valid() && files == old(files) - {f}
      ensures forall g :: g in files ==> g in old(files) && Blocks(Now(), g) == Blocks(old(Now()), g)
      ensures |FreeBlocks(owner)| == |FreeBlocks(old(owner))| + if old(files[f]).indirect == 0 then 1 else 2
    {
      hide Sound, FileOk, Held, At, Blocks, Bytes, Books, FreeBlocks;
      ghost var u := Now();
      IndexOwned(u, f);
      BlockFree(f);
      var ent := files[f].indirect;
      if ent != 0 {
        BlockFree(ent);
      }
      files := files - {f};
      Removed(u, f, Now());
    }

    method GrowTo(f: nat, tblks: nat) returns (ret: Outcome)
      requires Valid() && f in files && files[f].blocks < tblks <= NBLOCKS
      modifies this`disk, this`unused, this`superDirty, this`buffer, this`owner, this`files, this`dirty, freemap.words
      ensures Valid() && f in files && Relength(old(Now()), Now(), f, files[f].blocks)
      ensures files[f].size == old(files[f].size) && old(files[f].blocks) <= files[f].blocks <= tblks
      ensures ret in {Done, NoMem} && (ret == Done <==> files[f].blocks == tblks)
      ensures ret == Done <==> Cost(old(files[f]), tblks) <= |FreeBlocks(old(owner))|
      ensures ret == NoMem ==> |FreeBlocks(owner)| < Need(files[f])
      ensures Appended(old(files[f]), files[f]) && Marks(old(files[f]), files[f], old(dirty), dirty, f)
    {
      hide Sound, Relength, Cost, FreeBlocks, Books, OthersKept, Grows, Refused, Appended, Marks;
      ghost var w := Now();
      RelengthNot(w, f);
      NothingAppended(files[f], dirty, f);
      var nblks := files[f].blocks;
      while nblks != tblks
        invariant Valid() && f in files && files[f].blocks == nblks <= tblks && w.files[f].blocks <= nblks
        invariant Relength(w, Now(), f, nblks) && files[f].size == w.files[f].size
        invariant Appended(w.files[f], files[f]) && Marks(w.files[f], files[f], old(dirty), dirty, f)
        decreases tblks - nblks
      {
        ghost var u, marked := Now(), dirty;
        var ino;
        ret, ino := BmapLoad(f, nblks);
        MarksTwice(w.files[f], u.files[f], files[f], old(dirty), marked, dirty, f);
        if ret != Done {
          RelengthRefused(w, u, Now(), f, tblks);
          return;
        }
        RelengthMore(w, u, Now(), f, ino);
        nblks := nblks + 1;
      }
      ret := Done;
      RelengthPaid(w, Now(), f);
    }

    method ShrinkTo(f: nat, tblks: nat) returns (ret: Outcome)
      requires Valid() && f in files && tblks <= files[f].blocks
      modifies this`disk, this`unused, this`superDirty, this`buffer, this`owner, this`files, this`dirty, freemap.words
      ensures Valid() && f in files && Relength(old(Now()), Now(), f, tblks) && ret == Done
      ensures files[f].size == old(files[f].size) && Cost(old(files[f]), tblks) == 0
      ensures KeepsReserved(old(owner), owner) && old(dirty) <= dirty <= old(dirty) + {f} && files[f].blocks == tblks
    {
      ghost var w := Now();
      RelengthNot(w, f);
      hide Sound, Relength, FreeBlocks, Books, OthersKept;
      var nblks := files[f].blocks;
      while tblks != nblks
        invariant Valid() && f in files && files[f].blocks == nblks && tblks <= nblks <= w.files[f].blocks
        invariant Relength(w, Now(), f, nblks) && files[f].size == w.files[f].size
        invariant KeepsReserved(w.owner, owner) && old(dirty) <= dirty <= old(dirty) + {f}
        decreases nblks
      {
        ghost var u := Now();
        BmapTruncate(f);
        RelengthLess(w, u, Now(), f);
        nblks := nblks - 1;
      }
      ret := Done;
    }
  }

  /** Whether all changes are marked after one file has changed. */
  lemma MarksStay(w: World, v: World, saved: map<nat, DiskInode>, dirty: set<nat>, dirty': set<nat>, f: nat)
    requires f in w.files && OthersKept(w, v, f) && Marks(w.files[f], v.files[f], dirty, dirty', f)
    ensures AllMarked(saved, w.files, dirty) ==>
      (AllMarked(saved, v.files, dirty')
       <==> f in dirty || v.files[f].blocks == w.files[f].blocks || !OnlyCount(w.files[f], v.files[f]))
  {
    if AllMarked(saved, w.files, dirty) {
      assert forall g :: g in w.files && g != f ==> Blocks(v, g) == Blocks(w, g);
      MarkedIff(saved, w.files, v.files, dirty, dirty', f);
    }
  }

  lemma SizeBound(w: World, f: nat)
    requires Sound(w) && f in w.files
    ensures w.files[f].size <= BLKSIZE * NBLOCKS && w.files[f].blocks <= NBLOCKS
  {
    assert FileOk(w, f);
  }

  /** A change of one file that is marked. */
  lemma NowMarked(w: World, v: World, saved: map<nat, DiskInode>, dirty: set<nat>, dirty': set<nat>, f: nat, m: nat)
    requires Relength(w, v, f, m) && dirty <= dirty' && f in dirty'
    ensures AllMarked(saved, w.files, dirty) ==> AllMarked(saved, v.files, dirty')
  {
    assert forall g :: g in w.files && g != f ==> Blocks(v, g) == Blocks(w, g);
  }

  /** A transfer leaves a change unmarked exactly if blocks went into the index block and the size was not raised. */
  lemma MarkedAfter(w: World, v: World, f: nat, at: nat, n: nat, data: seq<Byte>, write: bool, got: seq<Byte>, ret: Outcome,
                    saved: map<nat, DiskInode>, dirty: set<nat>, dirty': set<nat>)
    requires f in w.files && f in v.files && if ret == Panicked then v == w else Completed(w, v, f, at, n, data, write, got)
    requires Marks(w.files[f], v.files[f], dirty, dirty', f)
    requires Appended(w.files[f], v.files[f].(size := w.files[f].size))
    ensures AllMarked(saved, w.files, dirty) ==>
      (AllMarked(saved, v.files, dirty') <==>
       !(Unnoticed(w.files[f]) && f !in dirty && at + n <= w.files[f].size && w.files[f].blocks < v.files[f].blocks))
    ensures AllMarked(saved, w.files, dirty) && Covered(w.files[f]) ==> AllMarked(saved, v.files, dirty')
  {
    assert forall g :: g in w.files && g != f ==> Blocks(v, g) == Blocks(WithSize(v, f, w.files[f].size), g);
    MarksStay(w, v, saved, dirty, dirty', f);
  }

  lemma NoCost(din: DiskInode)
    ensures Cost(din, din.blocks) == 0
  {
  }

  lemma KeepsAll(owner: seq<Slot>)
    ensures KeepsReserved(owner, owner)
  {
  }

  /** Where a file could not be made longer, the blocks it got are unmarked exactly if there were any and an index block. */
  lemma StoppedMarks(w: World, v: World, f: nat, m: nat, saved: map<nat, DiskInode>, dirty: set<nat>, dirty': set<nat>)
    requires f in w.files && f in v.files && Relength(w, v, f, v.files[f].blocks)
    requires |FreeBlocks(v.owner)| < Need(v.files[f])
    requires Appended(w.files[f], v.files[f]) && Marks(w.files[f], v.files[f], dirty, dirty', f)
    ensures AllMarked(saved, w.files, dirty) ==>
      (AllMarked(saved, v.files, dirty') <==> !(Unnoticed(w.files[f]) && f !in dirty && FreeBlocks(w.owner) != {}))
  {
    MarksStay(w, v, saved, dirty, dirty', f);
    if v.files[f].blocks == w.files[f].blocks && Unnoticed(w.files[f]) {
      assert |FreeBlocks(w.owner)| == 0;
    }
  }

  /** A file is gone, the others are as they were, and all its blocks are free. */
  ghost predicate AllBack(w: World, v: World, f: nat) {
    && f in w.files && v.files.Keys == w.files.Keys - {f}
    && (forall g: nat {:trigger Blocks(v, g)} :: g in v.files ==>
         g in w.files && v.files[g] == w.files[g] && Blocks(v, g) == Blocks(w, g))
    && |FreeBlocks(v.owner)| == |FreeBlocks(w.owner)| + w.files[f].blocks + 1
                                + (if w.files[f].indirect == 0 then 0 else 1)
  }

  lemma IndexOwned(w: World, f: nat)
    requires Sound(w) && f in w.files
    ensures |w.disk| == |w.owner| && (w.files[f].indirect != 0 ==> Owns(w, w.files[f].indirect, Index(f)))
  {
    assert FileOk(w, f);
  }

  lemma GoneBack(w: World, u: World, f: nat, v: World)
    requires Relength(w, u, f, 0) && v.files == u.files - {f}
    requires forall g :: g in v.files ==> Blocks(v, g) == Blocks(u, g)
    requires |FreeBlocks(v.owner)| == |FreeBlocks(u.owner)| + if u.files[f].indirect == 0 then 1 else 2
    ensures AllBack(w, v, f)
  {
    forall g: nat | g in v.files ensures g in w.files && v.files[g] == w.files[g] && Blocks(v, g) == Blocks(w, g) {
      assert Blocks(u, g) == Blocks(w, g);
    }
  }

  /** As many blocks as the size takes. */
  predicate Tight(din: DiskInode) {
    din.blocks == BlocksFor(din.size)
  }

  /** The file has `m` blocks: those it had, as far as they go, and then blocks of zeros. */
  ghost predicate Relength(w: World, v: World, f: nat, m: nat) {
    && OthersKept(w, v, f) && f in w.files && f in v.files && v.files[f].blocks == m
    && Bytes(v, f) == (var s := Bytes(w, f);
         if BLKSIZE * m <= |s| then s[..BLKSIZE * m] else s + Zeros(BLKSIZE * m - |s|))
    && |FreeBlocks(v.owner)| == |FreeBlocks(w.owner)| - Cost(w.files[f], m)
                                + (if m < w.files[f].blocks then w.files[f].blocks - m else 0)
    && (m <= NDIRECT || m <= w.files[f].blocks ==> v.files[f].indirect == w.files[f].indirect)
  }

  lemma RelengthNot(w: World, f: nat)
    requires Sound(w) && f in w.files
    ensures Relength(w, w, f, w.files[f].blocks)
  {
    BytesSized(w, f);
  }

  lemma RelengthSized(w: World, u: World, f: nat, len: nat, v: World)
    requires Sound(u) && f in u.files && len <= BLKSIZE * NBLOCKS
    requires Relength(w, u, f, u.files[f].blocks) && v == u.(files := u.files[f := u.files[f].(size := len)])
    ensures Relength(w, v, f, u.files[f].blocks)
  {
    Resized(u, f, len, v);
    OthersTwice(w, u, v, f);
  }

  lemma RelengthMore(w: World, u: World, v: World, f: nat, b: nat)
    requires Sound(w) && Sound(u) && Sound(v) && f in u.files && Relength(w, u, f, u.files[f].blocks)
    requires Grows(u, v, f, b) && w.files[f].blocks <= u.files[f].blocks
    requires |FreeBlocks(v.owner)| == |FreeBlocks(u.owner)| - Need(u.files[f])
    requires u.files[f].blocks < NDIRECT ==> v.files[f].indirect == u.files[f].indirect
    ensures v.files[f].blocks == u.files[f].blocks + 1 && Relength(w, v, f, v.files[f].blocks)
  {
    hide Sound, OthersKept, Blocks, FreeBlocks, Bytes, Zeros;
    BytesSized(w, f);
    BytesSized(u, f);
    GrownBytes(u, v, f, b);
    OthersTwice(w, u, v, f);
    MoreZeros(Bytes(w, f), BLKSIZE * u.files[f].blocks);
  }

  lemma GrownBytes(u: World, v: World, f: nat, b: nat)
    requires Sound(u) && Sound(v) && f in u.files && Grows(u, v, f, b)
    ensures Bytes(v, f) == Bytes(u, f) + Zeros(BLKSIZE) && v.files[f].blocks == u.files[f].blocks + 1
  {
    hide Sound, OthersKept, FreeBlocks, Zeros, Flat;
    BytesSized(u, f);
    FlatAppend(Blocks(u, f), Zeros(BLKSIZE));
  }

  lemma MoreZeros(s: seq<Byte>, n: nat)
    requires |s| <= n
    ensures s + Zeros(n - |s|) + Zeros(BLKSIZE) == s + Zeros(n + BLKSIZE - |s|)
    ensures n == |s| ==> s[..n] == s && s + Zeros(n - |s|) == s
  {
  }

  lemma RelengthLess(w: World, u: World, v: World, f: nat)
    requires Sound(w) && Sound(u) && f in u.files && 0 < u.files[f].blocks && Relength(w, u, f, u.files[f].blocks)
    requires OthersKept(u, v, f) && f in v.files && Blocks(v, f) == Blocks(u, f)[..u.files[f].blocks - 1]
    requires |FreeBlocks(v.owner)| == |FreeBlocks(u.owner)| + 1 && u.files[f].blocks <= w.files[f].blocks
    requires v.files[f].indirect == u.files[f].indirect
    ensures Relength(w, v, f, u.files[f].blocks - 1)
  {
    BytesSized(w, f);
    BytesSized(u, f);
    OthersTwice(w, u, v, f);
    FlatPrefix(Blocks(u, f), u.files[f].blocks - 1);
  }

  lemma RelengthRefused(w: World, u: World, v: World, f: nat, m: nat)
    requires Sound(w) && Sound(u) && f in u.files && Relength(w, u, f, u.files[f].blocks) && Refused(u, v, f)
    requires w.files[f].blocks <= u.files[f].blocks < m && |FreeBlocks(u.owner)| < Need(u.files[f])
    ensures Relength(w, v, f, v.files[f].blocks) && |FreeBlocks(w.owner)| < Cost(w.files[f], m)
  {
    assert FileOk(w, f) && FileOk(u, f);
    OthersTwice(w, u, v, f);
  }

  lemma RelengthPaid(w: World, v: World, f: nat)
    requires f in w.files && f in v.files && Relength(w, v, f, v.files[f].blocks)
    requires w.files[f].blocks <= v.files[f].blocks
    ensures Cost(w.files[f], v.files[f].blocks) <= |FreeBlocks(w.owner)|
  {
  }

  function Signed(x: int): int
    requires -0x8000_0000 <= x < 0x1_8000_0000
  {
    if x < 0x8000_0000 then x else x - 0x1_0000_0000
  }

  /** Requests out of range, or past the largest 32-bit position. */
  predicate Rejected(offset: int, len: nat) {
    offset < 0 || offset >= MAX_FILE_SIZE || offset + len >= 0x8000_0000
  }

  /** Where a transfer ends that goes through. */
  function EndOf(size: nat, offset: nat, len: nat, write: bool): nat {
    var e := if offset + len < MAX_FILE_SIZE then offset + len else MAX_FILE_SIZE;
    if write || e <= size then e else size
  }

  predicate Idle(din: DiskInode, offset: int, len: nat, write: bool) {
    Rejected(offset, len) || EndOf(din.size, offset, len, write) <= offset
  }

  /** All bytes up to the size are in blocks. */
  predicate Covered(din: DiskInode) {
    din.size <= BLKSIZE * din.blocks
  }

  /** The world with the size of a file as it was. */
  function WithSize(w: World, f: nat, size: nat): World
    requires f in w.files
  {
    w.(files := w.files[f := w.files[f].(size := size)])
  }

  /** `n` bytes have been moved, and the size of the file has been brought up to date. */
  ghost predicate Completed(w: World, v: World, f: nat, at: nat, n: nat, data: seq<Byte>, write: bool, got: seq<Byte>) {
    && f in w.files && f in v.files
    && Moved(w, WithSize(v, f, w.files[f].size), f, at, n, data, write, got)
    && v.files[f].size == if at + n > w.files[f].size then at + n else w.files[f].size
  }

  /** Bytes `pos..pos + size` of a file, within one block, have been read or written. */
  ghost predicate Transferred(w: World, v: World, f: nat, pos: nat, size: nat, data: seq<Byte>, write: bool,
                              got: seq<Byte>)
  {
    && OthersKept(w, v, f) && f in w.files && f in v.files && v.files[f].size == w.files[f].size
    && var u := Loaded(Bytes(w, f), pos / BLKSIZE);
    && pos + size <= |u| && (write ==> |data| == size)
    && Bytes(v, f) == (if write then Splice(u, pos, data) else u)
    && got == (if write then [] else u[pos..pos + size])
    && LoadedOne(w, v, f, pos / BLKSIZE)
  }

  /** The number of free blocks it takes to give a file `m` blocks. */
  function Cost(din: DiskInode, m: nat): nat {
    if m <= din.blocks then 0
    else m - din.blocks + if din.indirect == 0 && din.blocks <= NDIRECT < m then 1 else 0
  }

  /** `n` bytes of a file from `at` on have been read or written. */
  ghost predicate Moved(w: World, v: World, f: nat, at: nat, n: nat, data: seq<Byte>, write: bool, got: seq<Byte>) {
    && OthersKept(w, v, f) && f in w.files && f in v.files && v.files[f].size == w.files[f].size
    && (write ==> n <= |data|)
    && Bytes(v, f) == (if write then Written(Bytes(w, f), at, data[..n]) else Touched(Bytes(w, f), at, n))
    && (if write || n == 0 then got == [] else at + n <= |Bytes(v, f)| && got == Bytes(v, f)[at..at + n])
    && v.files[f].blocks == (if n == 0 || BlocksFor(at + n) <= w.files[f].blocks then w.files[f].blocks
                             else BlocksFor(at + n))
    && |FreeBlocks(v.owner)| == |FreeBlocks(w.owner)| - Cost(w.files[f], v.files[f].blocks)
    && (v.files[f].blocks <= NDIRECT ==> v.files[f].indirect == w.files[f].indirect)
    && (NDIRECT < v.files[f].blocks ==> v.files[f].indirect != 0)
  }

  /** There was no room for the block at `at + n`, the next one of the file. */
  ghost predicate StoppedAt(w: World, v: World, f: nat, at: nat, n: nat) {
    && f in v.files && (n == 0 ==> v.files == w.files) && (n != 0 ==> (at + n) % BLKSIZE == 0)
    && (at + n) / BLKSIZE == v.files[f].blocks && |FreeBlocks(v.owner)| < Need(v.files[f])
  }

  /** What became of the free blocks and of the index block when block `k` was loaded. */
  ghost predicate LoadedOne(w: World, v: World, f: nat, k: nat) {
    && f in w.files && f in v.files
    && v.files[f].blocks == (if k == w.files[f].blocks then k + 1 else w.files[f].blocks)
    && |FreeBlocks(v.owner)| == |FreeBlocks(w.owner)| - (if k == w.files[f].blocks then Need(w.files[f]) else 0)
    && (k < NDIRECT || k < w.files[f].blocks ==> v.files[f].indirect == w.files[f].indirect)
    && (NDIRECT < v.files[f].blocks ==> v.files[f].indirect != 0)
  }

  lemma LoadedBytes(w: World, u: World, f: nat, k: nat, b: nat)
    requires Sound(w) && Sound(u) && f in w.files && f in u.files
    requires if k == w.files[f].blocks then Grows(w, u, f, b) else k < w.files[f].blocks && u == w
    ensures Bytes(u, f) == Loaded(Bytes(w, f), k) && OthersKept(w, u, f)
    ensures u.files[f].blocks == if k == w.files[f].blocks then k + 1 else w.files[f].blocks
    ensures NDIRECT < u.files[f].blocks ==> u.files[f].indirect != 0
  {
    BytesSized(w, f);
    BytesSized(u, f);
    assert FileOk(u, f);
    if k == w.files[f].blocks {
      FlatAppend(Blocks(w, f), Zeros(BLKSIZE));
    }
  }

  lemma MovedNothing(w: World, f: nat, at: nat, data: seq<Byte>, write: bool)
    requires Sound(w) && f in w.files
    ensures Moved(w, w, f, at, 0, data, write, [])
  {
    assert FileOk(w, f);
  }

  /** The blocks of the file reach as far as its bytes have been moved. */
  lemma Reaches(w: World, u: World, f: nat, at: nat, n: nat, data: seq<Byte>, write: bool, got: seq<Byte>,
                blkno: nat, blkoff: nat)
    requires Moved(w, u, f, at, n, data, write, got) && BLKSIZE * blkno + blkoff == at + n && blkoff < BLKSIZE
    requires n != 0 ==> blkoff == 0
    ensures blkno == (at + n) / BLKSIZE && blkoff == (at + n) % BLKSIZE && f in u.files && f in w.files
    ensures n != 0 ==> blkno <= u.files[f].blocks
  {
    assert n != 0 ==> BlocksFor(at + n) == blkno;
  }

  /** `MovedMore` and `MovedRefused`, by what came of the block. */
  lemma Stepped(w: World, u: World, v: World, f: nat, at: nat, n: nat, data: seq<Byte>, write: bool, got: seq<Byte>,
                m: nat, more: seq<Byte>, ret: Outcome)
    requires Sound(w) && Sound(u) && Moved(w, u, f, at, n, data, write, got) && 0 < m && f in u.files
    requires n != 0 ==> (at + n) % BLKSIZE == 0
    requires n == 0 ==> u == w
    requires (at + n) % BLKSIZE + m <= BLKSIZE && (write ==> n + m <= |data|)
    requires ret == Done || ret == NoMem ==> (at + n) / BLKSIZE <= u.files[f].blocks
    requires ret == Done ==> Transferred(u, v, f, at + n, m, if write then data[n..n + m] else [], write, more)
    requires ret == NoMem ==> Refused(u, v, f) && (at + n) / BLKSIZE == u.files[f].blocks
    requires ret == NoMem ==> |FreeBlocks(u.owner)| < Need(u.files[f])
    requires ret == Panicked || ret == Inval ==> v == u
    ensures Moved(w, v, f, at, if ret == Done then n + m else n, data, write, if ret == Done then got + more else got)
    ensures ret == NoMem ==> StoppedAt(w, v, f, at, n)
  {
    hide *;
    if ret == Done {
      MovedMore(w, u, v, f, at, n, data, write, got, m, more);
    } else if ret == NoMem {
      MovedRefused(w, u, v, f, at, n, data, write, got);
    }
  }

  lemma MovedRefused(w: World, u: World, v: World, f: nat, at: nat, n: nat, data: seq<Byte>, write: bool,
                     got: seq<Byte>)
    requires Sound(u) && Moved(w, u, f, at, n, data, write, got) && Refused(u, v, f)
    requires n == 0 ==> u == w
    requires n != 0 ==> (at + n) % BLKSIZE == 0
    requires (at + n) / BLKSIZE == u.files[f].blocks && |FreeBlocks(u.owner)| < Need(u.files[f])
    ensures Moved(w, v, f, at, n, data, write, got) && StoppedAt(w, v, f, at, n)
  {
    OthersTwice(w, u, v, f);
  }

  /** One more block after the bytes already moved. */
  lemma MovedMore(w: World, u: World, v: World, f: nat, at: nat, n: nat, data: seq<Byte>, write: bool,
                  got: seq<Byte>, m: nat, more: seq<Byte>)
    requires Sound(w) && Sound(u) && Moved(w, u, f, at, n, data, write, got) && 0 < m
    requires n != 0 ==> (at + n) % BLKSIZE == 0
    requires (at + n) % BLKSIZE + m <= BLKSIZE && (write ==> n + m <= |data|)
    requires (at + n) / BLKSIZE <= u.files[f].blocks
    requires Transferred(u, v, f, at + n, m, if write then data[n..n + m] else [], write, more)
    ensures Moved(w, v, f, at, n + m, data, write, got + more)
  {
    hide Sound, OthersKept, Bytes, Written, Touched, Loaded, Splice, FreeBlocks, Cost, LoadedOne;
    BytesSized(w, f);
    BytesSized(u, f);
    OthersTwice(w, u, v, f);
    MovedBlocks(w, u, v, f, at, n, m, data, write, got);
    MovedBytes(w, u, v, f, at, n, data, write, got, m, more);
  }

  lemma MovedBytes(w: World, u: World, v: World, f: nat, at: nat, n: nat, data: seq<Byte>, write: bool,
                   got: seq<Byte>, m: nat, more: seq<Byte>)
    requires Moved(w, u, f, at, n, data, write, got) && 0 < m
    requires |Bytes(w, f)| % BLKSIZE == 0 && |Bytes(u, f)| == BLKSIZE * u.files[f].blocks
    requires n != 0 ==> (at + n) % BLKSIZE == 0
    requires (at + n) % BLKSIZE + m <= BLKSIZE && (write ==> n + m <= |data|)
    requires (at + n) / BLKSIZE <= u.files[f].blocks
    requires Transferred(u, v, f, at + n, m, if write then data[n..n + m] else [], write, more)
    ensures Bytes(v, f) == if write then Written(Bytes(w, f), at, data[..n + m]) else Touched(Bytes(w, f), at, n + m)
    ensures if write then got + more == []
            else at + n + m <= |Bytes(v, f)| && got + more == Bytes(v, f)[at..at + n + m]
  {
    hide LoadedOne, OthersKept, Cost, FreeBlocks, Bytes, Blocks, Written, Loaded, Touched, Padded, Splice;
    var s := Bytes(w, f);
    if write {
      NextPiece(s, at, data[..n], data[n..n + m]);
      assert data[..n] + data[n..n + m] == data[..n + m];
    } else {
      NextTouch(s, at, n, m);
      ReadOn(Bytes(u, f), Bytes(v, f), at, n, m);
    }
  }

  lemma ReadOn(s: seq<Byte>, t: seq<Byte>, at: nat, n: nat, m: nat)
    requires s <= t && at + n + m <= |t|
    ensures n != 0 && at + n <= |s| ==> s[at..at + n] + t[at + n..at + n + m] == t[at..at + n + m]
    ensures n == 0 ==> t[at + n..at + n + m] == t[at..at + n + m]
  {
  }

  lemma MovedBlocks(w: World, u: World, v: World, f: nat, at: nat, n: nat, m: nat, data: seq<Byte>, write: bool,
                    got: seq<Byte>)
    requires Sound(w) && Moved(w, u, f, at, n, data, write, got) && 0 < m
    requires n != 0 ==> (at + n) % BLKSIZE == 0
    requires (at + n) % BLKSIZE + m <= BLKSIZE && (at + n) / BLKSIZE <= u.files[f].blocks
    requires LoadedOne(u, v, f, (at + n) / BLKSIZE)
    ensures v.files[f].blocks == if BlocksFor(at + n + m) <= w.files[f].blocks then w.files[f].blocks
                                 else BlocksFor(at + n + m)
    ensures |FreeBlocks(v.owner)| == |FreeBlocks(w.owner)| - Cost(w.files[f], v.files[f].blocks)
    ensures v.files[f].blocks <= NDIRECT ==> v.files[f].indirect == w.files[f].indirect
    ensures NDIRECT < v.files[f].blocks ==> v.files[f].indirect != 0
  {
    assert FileOk(w, f);
    assert BlocksFor(at + n + m) == (at + n) / BLKSIZE + 1;
    assert n != 0 ==> BlocksFor(at + n) == (at + n) / BLKSIZE;
  }

  /** The transfer has gone through exactly if there were blocks enough. */
  lemma Accounted(w: World, v: World, f: nat, at: nat, endpos: nat, n: nat, data: seq<Byte>, write: bool,
                  got: seq<Byte>, ret: Outcome)
    requires Sound(w) && Moved(w, v, f, at, n, data, write, got) && at < endpos && at + n <= endpos
    requires ret == Done ==> at + n == endpos
    requires ret == NoMem ==> at + n < endpos && StoppedAt(w, v, f, at, n)
    requires ret != Inval
    ensures ret == Done <==> ret != Panicked && |FreeBlocks(w.owner)| >= Cost(w.files[f], BlocksFor(endpos))
  {
    assert FileOk(w, f);
    if ret == NoMem {
      assert BlocksFor(endpos) >= v.files[f].blocks + 1;
    }
  }

  lemma BlockDone(w: World, u: World, v: World, f: nat, k: nat, off: nat, size: nat, data: seq<Byte>, write: bool,
                  got: seq<Byte>)
    requires f in w.files && f in u.files && off + size <= BLKSIZE && 0 < size
    requires OthersKept(w, u, f) && Bytes(u, f) == Loaded(Bytes(w, f), k) && LoadedOne(w, u, f, k)
    requires BLKSIZE * k + off + size <= |Bytes(u, f)| && (write ==> |data| == size)
    requires u.files[f].size == w.files[f].size && v.files == u.files && v.owner == u.owner
    requires if write then OthersKept(u, v, f) && got == [] && Bytes(v, f) == Splice(Bytes(u, f), BLKSIZE * k + off, data)
             else v == u && got == Bytes(u, f)[BLKSIZE * k + off..BLKSIZE * k + off + size]
    ensures Transferred(w, v, f, BLKSIZE * k + off, size, data, write, got)
  {
    assert (BLKSIZE * k + off) / BLKSIZE == k;
    if write {
      OthersTwice(w, u, v, f);
    }
  }

  /** How many free blocks it takes to make a file longer by one block. */
  function Need(din: DiskInode): nat {
    if din.blocks == NDIRECT && din.indirect == 0 then 2 else 1
  }

  /** The world where the file has, or is about to have, the index block `e`. */
  function Indexed(w: World, f: nat, e: nat): World
    requires f in w.files
  {
    if w.files[f].indirect != 0 || e >= |w.owner| then w
    else World(Put(w.disk, e, Zeros(BLKSIZE)), w.owner[e := Index(f)], w.files)
  }

  /** Without an index block there are no blocks behind the direct ones. */
  lemma IndexFirst(w: World, f: nat)
    requires Sound(w) && f in w.files
    ensures w.files[f].indirect == 0 ==> w.files[f].blocks <= NDIRECT
  {
    assert FileOk(w, f);
  }

  /** No block was given; all files and all free blocks are as before. */
  ghost predicate Refused(w: World, v: World, f: nat) {
    && Sound(v) && v.files == w.files && OthersKept(w, v, f) && f in w.files && Blocks(v, f) == Blocks(w, f)
    && FreeBlocks(v.owner) == FreeBlocks(w.owner)
  }

  lemma RefusedAtOnce(w: World, f: nat)
    requires Sound(w) && f in w.files
    ensures Refused(w, w, f)
  {
  }

  /** An index block was allocated in vain, and is free again. */
  lemma Untouched(w: World, f: nat, e: nat, v: World)
    requires Sound(w) && f in w.files && Owns(w, e, Free)
    requires v == World(Put(w.disk, e, Zeros(BLKSIZE)), w.owner[e := Index(f)][e := Free], w.files)
    ensures Refused(w, v, f)
  {
    assert v.owner == w.owner;
    StoreElsewhere(w, e, Zeros(BLKSIZE), v);
  }

  /** A file has one more block, filled with zeros, in the place `b`. */
  ghost predicate Grows(w: World, v: World, f: nat, b: nat) {
    && Sound(v) && OthersKept(w, v, f) && f in w.files && f in v.files
    && Blocks(v, f) == Blocks(w, f) + [Zeros(BLKSIZE)] && At(v.disk, v.files[f], w.files[f].blocks) == b
  }

  /** `BmapCreate` has put a block into the map of the file. */
  lemma MapGrown(w: World, f: nat, e: nat, b: nat, v: World)
    requires Sound(w) && f in w.files && NDIRECT <= w.files[f].blocks < NBLOCKS
    requires Owns(w, b, Free) && e != b
    requires if w.files[f].indirect == 0 then Owns(w, e, Free) && w.files[f].blocks == NDIRECT
             else w.files[f].indirect == e
    requires var (n, din, i) := (w.files[f].blocks, w.files[f].(indirect := e), Indexed(w, f, e));
      v == World(Listed(Put(i.disk, b, Zeros(BLKSIZE)), din, n, b), i.owner[b := Data(f, n)],
                 w.files[f := din.(blocks := n + 1)])
    ensures Grows(w, v, f, b)
  {
    var n := w.files[f].blocks;
    hide Sound, Blocks, OthersKept, At, Listed;
    if w.files[f].indirect == 0 {
      GrowFirst(w, f, e, b, v);
    } else {
      assert w.files[f].(indirect := e) == w.files[f];
      GrowIndirect(w, f, b, v);
    }
  }

  lemma DirectGrown(w: World, f: nat, b: nat, v: World)
    requires Sound(w) && f in w.files && w.files[f].blocks < NDIRECT && Owns(w, b, Free)
    requires |w.files[f].direct| == NDIRECT
    requires v == World(Put(w.disk, b, Zeros(BLKSIZE)), w.owner[b := Data(f, w.files[f].blocks)],
                        w.files[f := Longer(w.files[f], b)])
    ensures Grows(w, v, f, b)
  {
    GrowDirect(w, f, b, v);
  }

  lemma StillSized(disk: Disk, blkno: nat, data: seq<Byte>)
    requires |data| == BLKSIZE && forall b: nat {:trigger Get(disk, b)} :: b < |disk| ==> |Get(disk, b)| == BLKSIZE
    ensures forall b: nat {:trigger Get(Put(disk, blkno, data), b)} :: b < |disk| ==>
      |Get(Put(disk, blkno, data), b)| == BLKSIZE
  {
    forall b: nat | b < |disk| ensures |Get(Put(disk, blkno, data), b)| == BLKSIZE {
      assert |Get(disk, b)| == BLKSIZE;
    }
  }
}
