/** How files lie on the disk: ucore/kern/fs/sfs/sfs.h and the block map of sfs_inode.c. */
module SfsLayout {

  const BLKSIZE: nat := 4096
  const NDIRECT: nat := 12
  const NENTRY: nat := 1024
  const NBLOCKS: nat := NDIRECT + NENTRY

  type Byte = x: nat | x < 256

  function Zeros(n: nat): (r: seq<Byte>)
    ensures |r| == n
  {
    seq(n, _ => 0)
  }

  /** `d` copied over `s` from position `at` on. */
  function Splice(s: seq<Byte>, at: nat, d: seq<Byte>): (r: seq<Byte>)
    requires at + |d| <= |s|
    ensures |r| == |s|
  {
    s[..at] + d + s[at + |d|..]
  }

  // ---------- words in blocks ----------

  function Word(v: nat): (r: seq<Byte>)
    requires v < 0x1_0000_0000
    ensures |r| == 4
  {
    [v % 256, v / 256 % 256, v / 65536 % 256, v / 16777216]
  }

  function Value(s: seq<Byte>): nat
    requires |s| == 4
  {
    s[0] as nat + 256 * s[1] as nat + 65536 * s[2] as nat + 16777216 * s[3] as nat
  }

  /** The block number in entry `k` of an index block. */
  function Entry(b: seq<Byte>, k: nat): nat {
    if 4 * k + 4 <= |b| then Value(b[4 * k..4 * k + 4]) else 0
  }

  lemma WordValue(v: nat)
    requires v < 0x1_0000_0000
    ensures Value(Word(v)) == v
  {
  }

  lemma SetEntry(b: seq<Byte>, k: nat, v: nat)
    requires 4 * k + 4 <= |b| && v < 0x1_0000_0000
    ensures forall j: nat :: Entry(Splice(b, 4 * k, Word(v)), j) == if j == k then v else Entry(b, j)
  {
    WordValue(v);
    hide Word, Value;
    var c := Splice(b, 4 * k, Word(v));
    forall j: nat ensures Entry(c, j) == if j == k then v else Entry(b, j) {
      if 4 * j + 4 <= |b| {
        if j == k {
          assert c[4 * j..4 * j + 4] == Word(v);
        } else {
          assert c[4 * j..4 * j + 4] == b[4 * j..4 * j + 4];
        }
      }
    }
  }

  lemma NoEntries()
    ensures forall j: nat :: Entry(Zeros(BLKSIZE), j) == 0
  {
    forall j: nat ensures Entry(Zeros(BLKSIZE), j) == 0 {
    }
  }

  // ---------- who owns which block ----------

  /** `Reserved` blocks hold the superblock, the free map and the inodes. */
  datatype Slot = Free | Reserved | Data(file: nat, index: nat) | Index(file: nat)

  datatype DiskInode = DiskInode(size: nat, blocks: nat, direct: seq<nat>, indirect: nat)

  type Disk = seq<seq<Byte>>

  datatype World = World(disk: Disk, owner: seq<Slot>, files: map<nat, DiskInode>)

  function Get(disk: Disk, b: nat): seq<Byte> {
    if b < |disk| then disk[b] else []
  }

  function Put(disk: Disk, b: nat, blk: seq<Byte>): Disk {
    if b < |disk| then disk[b := blk] else disk
  }

  /** The number of block `i` of a file, 0 if it has none. */
  function At(disk: Disk, din: DiskInode, i: nat): nat {
    if i < NDIRECT then if i < |din.direct| then din.direct[i] else 0
    else if din.indirect == 0 then 0 else Entry(Get(disk, din.indirect), i - NDIRECT)
  }

  predicate Owns(w: World, b: nat, s: Slot) {
    0 < b < |w.owner| && w.owner[b] == s
  }

  ghost predicate FileOk(w: World, f: nat)
    requires f in w.files
  {
    var din := w.files[f];
    && |din.direct| == NDIRECT && din.blocks <= NBLOCKS && din.size <= BLKSIZE * NBLOCKS
    && (forall i: nat {:trigger At(w.disk, din, i)} :: i < din.blocks ==> Owns(w, At(w.disk, din, i), Data(f, i)))
    && (forall i: nat {:trigger At(w.disk, din, i)} :: din.blocks <= i < NBLOCKS ==> At(w.disk, din, i) == 0)
    && (din.indirect != 0 ==> Owns(w, din.indirect, Index(f)))
    && (din.indirect == 0 ==> din.blocks <= NDIRECT)
  }

  /** What a block belongs to knows about it. */
  predicate Held(w: World, b: nat)
    requires b < |w.owner|
  {
    match w.owner[b]
    case Free => b != 0
    case Reserved => true
    case Data(f, i) => f in w.files && i < w.files[f].blocks && At(w.disk, w.files[f], i) == b
    case Index(f) => b != 0 && f in w.files && w.files[f].indirect == b
  }

  /** Every block is free, reserved, or part of exactly one file, which finds it in one way. */
  ghost predicate Sound(w: World) {
    && |w.owner| == |w.disk| <= 0x1_0000_0000
    && (forall b: nat {:trigger Get(w.disk, b)} :: b < |w.disk| ==> |Get(w.disk, b)| == BLKSIZE)
    && (forall f: nat {:trigger FileOk(w, f)} :: f in w.files ==> FileOk(w, f))
    && (forall b: nat {:trigger Held(w, b)} :: b < |w.owner| ==> Held(w, b))
  }

  ghost function FreeBlocks(owner: seq<Slot>): set<nat> {
    set b: nat | b < |owner| && owner[b] == Free
  }

  // ---------- the blocks of a file ----------

  function Blocks(w: World, f: nat): (r: seq<seq<Byte>>)
    requires f in w.files
    ensures |r| == w.files[f].blocks
  {
    seq(w.files[f].blocks, i requires 0 <= i => Get(w.disk, At(w.disk, w.files[f], i)))
  }

  /** All files but `f` have the blocks that they had. */
  ghost predicate OthersKept(w: World, v: World, f: nat) {
    && v.files.Keys == w.files.Keys
    && forall g: nat {:trigger Blocks(v, g)} :: g in w.files && g != f ==>
      g in v.files && v.files[g] == w.files[g] && Blocks(v, g) == Blocks(w, g)
  }

  /** A store to a block of the file changes this block of it and nothing else. */
  lemma StoreData(w: World, f: nat, i: nat, blk: seq<Byte>, v: World)
    requires Sound(w) && f in w.files && i < w.files[f].blocks && |blk| == BLKSIZE
    requires v == w.(disk := Put(w.disk, At(w.disk, w.files[f], i), blk))
    ensures Sound(v) && Blocks(v, f) == Blocks(w, f)[i := blk] && OthersKept(w, v, f)
  {
    var b := At(w.disk, w.files[f], i);
    assert FileOk(w, f);
    StoreElsewhere(w, b, blk, v);
    forall j: nat | j < w.files[f].blocks ensures Blocks(v, f)[j] == Blocks(w, f)[i := blk][j] {
      assert At(v.disk, v.files[f], j) == At(w.disk, w.files[f], j);
    }
  }

  /** A store to a block that is not an index block moves no block of any file. */
  lemma StoreElsewhere(w: World, b: nat, blk: seq<Byte>, v: World)
    requires Sound(w) && 0 < b < |w.disk| && |blk| == BLKSIZE && !w.owner[b].Index?
    requires v == w.(disk := Put(w.disk, b, blk))
    ensures Sound(v)
    ensures forall f: nat, i: nat {:trigger At(v.disk, v.files[f], i)} :: f in w.files && i < NBLOCKS ==>
      At(v.disk, v.files[f], i) == At(w.disk, w.files[f], i)
    ensures forall f: nat {:trigger Blocks(v, f)} :: f in w.files && (w.owner[b].Data? ==> w.owner[b].file != f) ==>
      Blocks(v, f) == Blocks(w, f)
  {
    forall f: nat, i: nat | f in w.files && i < NBLOCKS
      ensures At(v.disk, v.files[f], i) == At(w.disk, w.files[f], i)
    {
      assert FileOk(w, f);
      if w.files[f].indirect != 0 {
        assert w.files[f].indirect != b;
      }
    }
    forall f: nat | f in w.files ensures FileOk(v, f) {
      assert FileOk(w, f);
    }
    forall c: nat | c < |v.owner| ensures Held(v, c) {
      assert Held(w, c);
      if w.owner[c].Data? {
        assert FileOk(w, w.owner[c].file);
      }
    }
    forall c: nat | c < |v.disk| ensures |Get(v.disk, c)| == BLKSIZE {
      assert |Get(w.disk, c)| == BLKSIZE;
    }
    forall f: nat | f in w.files && (w.owner[b].Data? ==> w.owner[b].file != f)
      ensures Blocks(v, f) == Blocks(w, f)
    {
      assert FileOk(w, f);
      forall i: nat | i < w.files[f].blocks ensures Blocks(v, f)[i] == Blocks(w, f)[i] {
        assert At(v.disk, v.files[f], i) == At(w.disk, w.files[f], i) != b;
      }
    }
  }

  // ---------- growing and shrinking ----------

  /** An index block for a file without one: all its entries are empty. */
  lemma AddIndex(w: World, f: nat, e: nat, v: World)
    requires Sound(w) && f in w.files && w.files[f].indirect == 0 && Owns(w, e, Free)
    requires v == World(Put(w.disk, e, Zeros(BLKSIZE)), w.owner[e := Index(f)],
                        w.files[f := w.files[f].(indirect := e)])
    ensures Sound(v) && OthersKept(w, v, f) && Blocks(v, f) == Blocks(w, f)
  {
    var u := w.(disk := v.disk);
    StoreElsewhere(w, e, Zeros(BLKSIZE), u);
    NoEntries();
    assert FileOk(w, f) && FileOk(u, f);
    forall i: nat | i < NBLOCKS ensures At(v.disk, v.files[f], i) == At(w.disk, w.files[f], i) {
    }
    forall g: nat | g in v.files ensures FileOk(v, g) {
      assert FileOk(u, g);
    }
    forall c: nat | c < |v.owner| ensures Held(v, c) {
      assert Held(u, c);
    }
  }

  /** The file after a block is put behind its last one. */
  function Longer(din: DiskInode, b: nat): DiskInode
    requires |din.direct| == NDIRECT
  {
    if din.blocks < NDIRECT then din.(blocks := din.blocks + 1, direct := din.direct[din.blocks := b])
    else din.(blocks := din.blocks + 1)
  }

  /** A free block becomes, filled with zeros, the next block of a file. */
  lemma GrowDirect(w: World, f: nat, b: nat, v: World)
    requires Sound(w) && f in w.files && w.files[f].blocks < NDIRECT && Owns(w, b, Free)
    requires |w.files[f].direct| == NDIRECT
    requires v == World(Put(w.disk, b, Zeros(BLKSIZE)), w.owner[b := Data(f, w.files[f].blocks)],
                        w.files[f := Longer(w.files[f], b)])
    ensures Sound(v) && OthersKept(w, v, f) && Blocks(v, f) == Blocks(w, f) + [Zeros(BLKSIZE)]
    ensures At(v.disk, v.files[f], w.files[f].blocks) == b
  {
    var u := w.(disk := v.disk);
    StoreElsewhere(w, b, Zeros(BLKSIZE), u);
    Grown(u, f, b, v);
  }

  /** The same through the index block. */
  lemma GrowIndirect(w: World, f: nat, b: nat, v: World)
    requires Sound(w) && f in w.files && NDIRECT <= w.files[f].blocks < NBLOCKS && Owns(w, b, Free)
    requires w.files[f].indirect != 0
    requires v == World(Listed(Put(w.disk, b, Zeros(BLKSIZE)), w.files[f], w.files[f].blocks, b),
                        w.owner[b := Data(f, w.files[f].blocks)],
                        w.files[f := w.files[f].(blocks := w.files[f].blocks + 1)])
    ensures Sound(v) && OthersKept(w, v, f) && Blocks(v, f) == Blocks(w, f) + [Zeros(BLKSIZE)]
    ensures At(v.disk, v.files[f], w.files[f].blocks) == b
  {
    var u := w.(disk := Put(w.disk, b, Zeros(BLKSIZE)));
    StoreElsewhere(w, b, Zeros(BLKSIZE), u);
    assert FileOk(u, f);
    Grown(u, f, b, v);
  }

  /** The same with a new index block. */
  lemma GrowFirst(w: World, f: nat, e: nat, b: nat, v: World)
    requires Sound(w) && f in w.files && w.files[f].blocks == NDIRECT && w.files[f].indirect == 0
    requires Owns(w, e, Free) && Owns(w, b, Free) && e != b
    requires var din := w.files[f].(indirect := e);
      v == World(Listed(Put(Put(w.disk, e, Zeros(BLKSIZE)), b, Zeros(BLKSIZE)), din, NDIRECT, b),
                 w.owner[e := Index(f)][b := Data(f, NDIRECT)], w.files[f := din.(blocks := NDIRECT + 1)])
    ensures Sound(v) && OthersKept(w, v, f) && Blocks(v, f) == Blocks(w, f) + [Zeros(BLKSIZE)]
    ensures At(v.disk, v.files[f], NDIRECT) == b
  {
    var u := World(Put(w.disk, e, Zeros(BLKSIZE)), w.owner[e := Index(f)], w.files[f := w.files[f].(indirect := e)]);
    AddIndex(w, f, e, u);
    GrowIndirect(u, f, b, v);
    OthersTwice(w, u, v, f);
  }

  lemma OthersTwice(w: World, u: World, v: World, f: nat)
    requires OthersKept(w, u, f) && OthersKept(u, v, f)
    ensures OthersKept(w, v, f)
  {
    forall g: nat | g in w.files && g != f
      ensures g in v.files && v.files[g] == w.files[g] && Blocks(v, g) == Blocks(w, g)
    {
      assert Blocks(u, g) == Blocks(w, g) && Blocks(v, g) == Blocks(u, g);
    }
  }

  /** The disk after entry `i` of the block map of a file, behind the direct ones, is set. */
  function Listed(disk: Disk, din: DiskInode, i: nat, b: nat): Disk {
    var blk := Get(disk, din.indirect);
    if NDIRECT <= i < NBLOCKS && |blk| == BLKSIZE && b < 0x1_0000_0000
    then Put(disk, din.indirect, Splice(blk, 4 * (i - NDIRECT), Word(b))) else disk
  }

  /** Setting an entry of a block map changes this entry of this file only. */
  lemma ListedAt(w: World, f: nat, i: nat, b: nat)
    requires Sound(w) && f in w.files && NDIRECT <= i < NBLOCKS && b < 0x1_0000_0000
    requires w.files[f].indirect != 0
    ensures var d := Listed(w.disk, w.files[f], i, b);
      && |d| == |w.disk|
      && (forall c: nat {:trigger Get(d, c)} :: c < |d| ==>
           |Get(d, c)| == BLKSIZE && (c != w.files[f].indirect ==> Get(d, c) == Get(w.disk, c)))
      && forall g: nat, j: nat {:trigger At(d, w.files[g], j)} :: g in w.files && j < NBLOCKS ==>
           At(d, w.files[g], j) == if g == f && j == i then b else At(w.disk, w.files[g], j)
  {
    var d := Listed(w.disk, w.files[f], i, b);
    var e := w.files[f].indirect;
    assert FileOk(w, f);
    assert |Get(w.disk, e)| == BLKSIZE;
    SetEntry(Get(w.disk, e), i - NDIRECT, b);
    forall c: nat | c < |d|
      ensures |Get(d, c)| == BLKSIZE && (c != e ==> Get(d, c) == Get(w.disk, c))
    {
      assert |Get(w.disk, c)| == BLKSIZE;
    }
    forall g: nat, j: nat | g in w.files && j < NBLOCKS
      ensures At(d, w.files[g], j) == if g == f && j == i then b else At(w.disk, w.files[g], j)
    {
      assert FileOk(w, g);
    }
  }

  /** `GrowDirect` and `GrowIndirect` after the block is cleared. */
  lemma Grown(u: World, f: nat, b: nat, v: World)
    requires Sound(u) && f in u.files && u.files[f].blocks < NBLOCKS && Owns(u, b, Free)
    requires |u.files[f].direct| == NDIRECT && (u.files[f].blocks >= NDIRECT ==> u.files[f].indirect != 0)
    requires Get(u.disk, b) == Zeros(BLKSIZE)
    requires v == World(Listed(u.disk, u.files[f], u.files[f].blocks, b),
                        u.owner[b := Data(f, u.files[f].blocks)],
                        u.files[f := Longer(u.files[f], b)])
    ensures Sound(v) && OthersKept(u, v, f) && Blocks(v, f) == Blocks(u, f) + [Zeros(BLKSIZE)]
    ensures At(v.disk, v.files[f], u.files[f].blocks) == b
  {
    var n := u.files[f].blocks;
    assert FileOk(u, f);
    if n >= NDIRECT {
      ListedAt(u, f, n, b);
    }
    forall g: nat, j: nat | g in u.files && j < NBLOCKS
      ensures At(v.disk, v.files[g], j) == if g == f && j == n then b else At(u.disk, u.files[g], j)
    {
      assert n >= NDIRECT ==> At(v.disk, v.files[g], j) == At(v.disk, u.files[g], j);
    }
    GrownSound(u, f, b, v);
    forall g: nat, j: nat | g in u.files && j < u.files[g].blocks
      ensures Get(v.disk, At(v.disk, v.files[g], j)) == Get(u.disk, At(u.disk, u.files[g], j))
    {
      assert FileOk(u, g);
    }
    assert At(v.disk, v.files[f], n) == b;
  }

  lemma GrownSound(u: World, f: nat, b: nat, v: World)
    requires Sound(u) && f in u.files && u.files[f].blocks < NBLOCKS && Owns(u, b, Free)
    requires |u.files[f].direct| == NDIRECT && (u.files[f].blocks >= NDIRECT ==> u.files[f].indirect != 0)
    requires |v.disk| == |u.disk| && v.owner == u.owner[b := Data(f, u.files[f].blocks)]
    requires v.files == u.files[f := Longer(u.files[f], b)]
    requires forall c: nat {:trigger Get(v.disk, c)} :: c < |v.disk| ==> |Get(v.disk, c)| == BLKSIZE
    requires forall g: nat, j: nat {:trigger At(v.disk, v.files[g], j)} :: g in u.files && j < NBLOCKS ==>
      At(v.disk, v.files[g], j) == if g == f && j == u.files[f].blocks then b else At(u.disk, u.files[g], j)
    ensures Sound(v)
  {
    forall g: nat | g in v.files ensures FileOk(v, g) {
      assert FileOk(u, g);
    }
    forall c: nat | c < |v.owner| ensures Held(v, c) {
      assert Held(u, c);
      if c != b && v.owner[c].Data? {
        assert FileOk(u, v.owner[c].file);
      }
    }
  }

  /** The last block of a file becomes free. */
  function Shorter(din: DiskInode): DiskInode
    requires din.blocks > 0 && |din.direct| == NDIRECT
  {
    var n := din.blocks - 1;
    if n < NDIRECT then din.(blocks := n, direct := din.direct[n := 0]) else din.(blocks := n)
  }

  /** The last block of a file leaves its map and becomes free. */
  function WithoutLast(w: World, f: nat): World
    requires f in w.files
  {
    var din := w.files[f];
    var b := if din.blocks == 0 then 0 else At(w.disk, din, din.blocks - 1);
    if din.blocks == 0 || |din.direct| != NDIRECT || b >= |w.owner| then w
    else World(Listed(w.disk, din, din.blocks - 1, 0), w.owner[b := Free], w.files[f := Shorter(din)])
  }

  /** Reserved blocks stay so. */
  predicate KeepsReserved(o: seq<Slot>, p: seq<Slot>) {
    |p| == |o| && forall b :: 0 <= b < |o| && o[b] == Reserved ==> p[b] == Reserved
  }

  lemma Shrunk(w: World, f: nat, v: World)
    requires Sound(w) && f in w.files && w.files[f].blocks > 0
    requires v == WithoutLast(w, f)
    ensures Sound(v) && OthersKept(w, v, f) && Blocks(v, f) == Blocks(w, f)[..w.files[f].blocks - 1]
    ensures v.files[f].blocks == w.files[f].blocks - 1 && v.files[f].size == w.files[f].size
    ensures v.files[f].indirect == w.files[f].indirect
    ensures |FreeBlocks(v.owner)| == |FreeBlocks(w.owner)| + 1 && KeepsReserved(w.owner, v.owner)
  {
    var n := w.files[f].blocks - 1;
    assert FileOk(w, f);
    var b := At(w.disk, w.files[f], n);
    if n >= NDIRECT {
      ListedAt(w, f, n, 0);
    }
    forall g: nat, j: nat | g in w.files && j < NBLOCKS
      ensures At(v.disk, v.files[g], j) == if g == f && j == n then 0 else At(w.disk, w.files[g], j)
    {
      assert n >= NDIRECT ==> At(v.disk, v.files[g], j) == At(v.disk, w.files[g], j);
    }
    ShrunkSound(w, f, b, v);
    assert FreeBlocks(v.owner) == FreeBlocks(w.owner) + {b};
    hide Listed;
    forall g: nat, j: nat | g in v.files && j < v.files[g].blocks
      ensures Get(v.disk, At(v.disk, v.files[g], j)) == Get(w.disk, At(w.disk, w.files[g], j))
    {
      assert FileOk(w, g);
    }
  }

  lemma ShrunkSound(w: World, f: nat, b: nat, v: World)
    requires Sound(w) && f in w.files && w.files[f].blocks > 0 && |w.files[f].direct| == NDIRECT
    requires b < |w.owner| && b == At(w.disk, w.files[f], w.files[f].blocks - 1)
    requires |v.disk| == |w.disk| && v.owner == w.owner[b := Free] && v.files == w.files[f := Shorter(w.files[f])]
    requires forall c: nat {:trigger Get(v.disk, c)} :: c < |v.disk| ==> |Get(v.disk, c)| == BLKSIZE
    requires forall g: nat, j: nat {:trigger At(v.disk, v.files[g], j)} :: g in w.files && j < NBLOCKS ==>
      At(v.disk, v.files[g], j) == if g == f && j == w.files[f].blocks - 1 then 0 else At(w.disk, w.files[g], j)
    ensures Sound(v)
  {
    assert FileOk(w, f);
    forall g: nat | g in v.files ensures FileOk(v, g) {
      assert FileOk(w, g);
    }
    forall c: nat | c < |v.owner| ensures Held(v, c) {
      assert Held(w, c);
      if c != b && v.owner[c].Data? {
        assert FileOk(w, v.owner[c].file);
      }
    }
  }

  /** A file without data goes, with its inode and its index block. */
  lemma Removed(w: World, f: nat, v: World)
    requires Sound(w) && f in w.files && w.files[f].blocks == 0 && Owns(w, f, Reserved)
    requires var e := w.files[f].indirect;
      && e < |w.owner| && v.disk == w.disk && v.files == w.files - {f}
      && v.owner == if e == 0 then w.owner[f := Free] else w.owner[f := Free][e := Free]
    ensures Sound(v)
    ensures forall g :: g in v.files ==> g in w.files && v.files[g] == w.files[g] && Blocks(v, g) == Blocks(w, g)
    ensures |FreeBlocks(v.owner)| == |FreeBlocks(w.owner)| + if w.files[f].indirect == 0 then 1 else 2
  {
    var e := w.files[f].indirect;
    assert FileOk(w, f);
    assert e != 0 ==> Owns(w, e, Index(f));
    hide Sound, FileOk, Held, At, Get, FreeBlocks;
    RemovedSound(w, f, v);
    if e != 0 {
      FreedOne(w.owner[f := Free], e);
    }
    FreedOne(w.owner, f);
  }

  lemma FreedOne(o: seq<Slot>, b: nat)
    requires b < |o| && o[b] != Free
    ensures |FreeBlocks(o[b := Free])| == |FreeBlocks(o)| + 1
  {
    assert FreeBlocks(o[b := Free]) == FreeBlocks(o) + {b};
  }

  lemma RemovedSound(w: World, f: nat, v: World)
    requires Sound(w) && f in w.files && w.files[f].blocks == 0 && Owns(w, f, Reserved)
    requires v.disk == w.disk && v.files == w.files - {f} && |v.owner| == |w.owner|
    requires forall c: nat {:trigger Held(w, c)} :: c < |w.owner| ==>
      v.owner[c] == if c == f || (c != 0 && c == w.files[f].indirect) then Free else w.owner[c]
    ensures Sound(v)
  {
    assert FileOk(w, f);
    forall c: nat | c < |v.owner| ensures Held(v, c) {
      assert Held(w, c);
    }
    forall g: nat | g in v.files ensures FileOk(v, g) {
      assert FileOk(w, g);
      forall c: nat, s: Slot | Owns(w, c, s) && (s == Index(g) || s.Data?) ensures Owns(v, c, s) {
        assert Held(w, c);
      }
    }
  }

  lemma Resized(w: World, f: nat, size: nat, v: World)
    requires Sound(w) && f in w.files && size <= BLKSIZE * NBLOCKS
    requires v == w.(files := w.files[f := w.files[f].(size := size)])
    ensures Sound(v) && OthersKept(w, v, f) && Blocks(v, f) == Blocks(w, f)
  {
    forall g: nat, j: nat | g in w.files ensures At(v.disk, v.files[g], j) == At(w.disk, w.files[g], j) {
    }
    forall g: nat | g in v.files ensures FileOk(v, g) {
      assert FileOk(w, g);
    }
    forall c: nat | c < |v.owner| ensures Held(v, c) {
      assert Held(w, c);
    }
  }

  // ---------- files as arrays of bytes ----------

  ghost predicate Sized(bs: seq<seq<Byte>>) {
    forall i :: 0 <= i < |bs| ==> |bs[i]| == BLKSIZE
  }

  function Flat(bs: seq<seq<Byte>>): seq<Byte> {
    if bs == [] then [] else Flat(bs[..|bs| - 1]) + bs[|bs| - 1]
  }

  lemma {:induction false} FlatLength(bs: seq<seq<Byte>>)
    requires Sized(bs)
    ensures |Flat(bs)| == BLKSIZE * |bs|
  {
    if bs != [] {
      FlatLength(bs[..|bs| - 1]);
    }
  }

  /** Bytes `at..at + n` of block `i` are bytes of the file. */
  lemma {:induction false} FlatPart(bs: seq<seq<Byte>>, i: nat, at: nat, n: nat)
    requires Sized(bs) && i < |bs| && at + n <= BLKSIZE
    ensures |Flat(bs)| == BLKSIZE * |bs|
    ensures Flat(bs)[BLKSIZE * i + at..BLKSIZE * i + at + n] == bs[i][at..at + n]
  {
    FlatLength(bs);
    FlatLength(bs[..|bs| - 1]);
    if i < |bs| - 1 {
      FlatPart(bs[..|bs| - 1], i, at, n);
    }
  }

  lemma {:induction false} FlatStore(bs: seq<seq<Byte>>, i: nat, at: nat, d: seq<Byte>)
    requires Sized(bs) && i < |bs| && at + |d| <= BLKSIZE
    ensures |Flat(bs)| == BLKSIZE * |bs|
    ensures Flat(bs[i := Splice(bs[i], at, d)]) == Splice(Flat(bs), BLKSIZE * i + at, d)
  {
    var n := |bs| - 1;
    var cs := bs[i := Splice(bs[i], at, d)];
    FlatLength(bs);
    FlatLength(bs[..n]);
    if i < n {
      FlatStore(bs[..n], i, at, d);
      assert cs[..n] == bs[..n][i := Splice(bs[i], at, d)];
    } else {
      assert cs[..n] == bs[..n];
    }
  }

  lemma FlatAppend(bs: seq<seq<Byte>>, b: seq<Byte>)
    ensures Flat(bs + [b]) == Flat(bs) + b
  {
    assert (bs + [b])[..|bs|] == bs;
  }

  lemma FlatPrefix(bs: seq<seq<Byte>>, n: nat)
    requires Sized(bs) && n <= |bs|
    ensures |Flat(bs)| == BLKSIZE * |bs|
    ensures Flat(bs[..n]) == Flat(bs)[..BLKSIZE * n]
    decreases |bs|
  {
    FlatLength(bs);
    if n < |bs| {
      var m := |bs| - 1;
      FlatPrefix(bs[..m], n);
      FlatLength(bs[..m]);
      assert bs[..m][..n] == bs[..n];
    } else {
      assert bs[..n] == bs;
    }
  }

  /** All bytes in the blocks of a file, those behind its end included. */
  function Bytes(w: World, f: nat): seq<Byte>
    requires f in w.files
  {
    Flat(Blocks(w, f))
  }

  lemma BytesSized(w: World, f: nat)
    requires Sound(w) && f in w.files
    ensures Sized(Blocks(w, f)) && |Bytes(w, f)| == BLKSIZE * w.files[f].blocks
  {
    var bs := Blocks(w, f);
    assert FileOk(w, f);
    forall i: nat | i < |bs| ensures |bs[i]| == BLKSIZE {
      assert Owns(w, At(w.disk, w.files[f], i), Data(f, i));
      assert |Get(w.disk, At(w.disk, w.files[f], i))| == BLKSIZE;
    }
    FlatLength(bs);
  }

  /** Part of a block, read from the disk, is part of the file. */
  lemma ReadHere(w: World, f: nat, i: nat, at: nat, n: nat)
    requires Sound(w) && f in w.files && i < w.files[f].blocks && at + n <= BLKSIZE
    ensures var b := At(w.disk, w.files[f], i);
      && 0 < b < |w.disk| && !w.owner[b].Free? && |Get(w.disk, b)| == BLKSIZE
      && BLKSIZE * i + at + n <= |Bytes(w, f)|
      && Bytes(w, f)[BLKSIZE * i + at..BLKSIZE * i + at + n] == Get(w.disk, b)[at..at + n]
  {
    BytesSized(w, f);
    assert FileOk(w, f);
    assert Owns(w, At(w.disk, w.files[f], i), Data(f, i));
    FlatPart(Blocks(w, f), i, at, n);
    assert Blocks(w, f)[i] == Get(w.disk, At(w.disk, w.files[f], i));
  }

  /** Part of a block, written to the disk, is written to the file. */
  lemma WroteHere(w: World, f: nat, i: nat, at: nat, d: seq<Byte>, v: World)
    requires Sound(w) && f in w.files && i < w.files[f].blocks && at + |d| <= BLKSIZE
    requires |Get(w.disk, At(w.disk, w.files[f], i))| == BLKSIZE
    requires var b := At(w.disk, w.files[f], i); v == w.(disk := Put(w.disk, b, Splice(Get(w.disk, b), at, d)))
    ensures Sound(v) && OthersKept(w, v, f) && BLKSIZE * i + at + |d| <= |Bytes(w, f)|
    ensures Bytes(v, f) == Splice(Bytes(w, f), BLKSIZE * i + at, d)
  {
    BytesSized(w, f);
    assert Blocks(w, f)[i] == Get(w.disk, At(w.disk, w.files[f], i));
    StoreData(w, f, i, Splice(Blocks(w, f)[i], at, d), v);
    FlatStore(Blocks(w, f), i, at, d);
  }

  // ---------- writes ----------

  function BlocksFor(n: nat): nat {
    (n + BLKSIZE - 1) / BLKSIZE
  }

  /** `s`, filled up with zeros to whole blocks for `end` bytes. */
  function Padded(s: seq<Byte>, end: nat): (r: seq<Byte>)
    ensures |r| >= end
  {
    var n := BLKSIZE * BlocksFor(end);
    if n <= |s| then s else s + Zeros(n - |s|)
  }

  /** What a write of `d` at `at` makes of the bytes of a file. */
  function Written(s: seq<Byte>, at: nat, d: seq<Byte>): seq<Byte> {
    if d == [] then s else Splice(Padded(s, at + |d|), at, d)
  }

  lemma SpliceTwice(s: seq<Byte>, at: nat, d: seq<Byte>, p: seq<Byte>)
    requires at + |d| + |p| <= |s|
    ensures Splice(Splice(s, at, d), at + |d|, p) == Splice(s, at, d + p)
  {
    assert Splice(s, at, d)[..at + |d|] == s[..at] + d;
    assert Splice(s, at, d)[at + |d| + |p|..] == s[at + |d| + |p|..];
  }

  lemma SpliceThenAppend(s: seq<Byte>, z: seq<Byte>, at: nat, d: seq<Byte>)
    requires at + |d| <= |s|
    ensures Splice(s, at, d) + z == Splice(s + z, at, d)
  {
  }

  lemma PaddedTo(s: seq<Byte>, at: nat, n: nat)
    requires |s| % BLKSIZE == 0 && n > 0 && at % BLKSIZE + n <= BLKSIZE
    ensures Padded(s, at + n) == s + Zeros(if BLKSIZE * (at / BLKSIZE + 1) <= |s| then 0
                                           else BLKSIZE * (at / BLKSIZE + 1) - |s|)
  {
    assert BlocksFor(at + n) == at / BLKSIZE + 1;
  }

  /** The bytes of a file with block `k` there, if it was there or is the next. */
  function Loaded(t: seq<Byte>, k: nat): seq<Byte> {
    if k == |t| / BLKSIZE then t + Zeros(BLKSIZE) else t
  }

  /** Writing piece by piece, one block after the other, is writing at once. */
  lemma NextPiece(s: seq<Byte>, at: nat, d: seq<Byte>, p: seq<Byte>)
    requires |s| % BLKSIZE == 0 && p != []
    requires d != [] ==> (at + |d|) % BLKSIZE == 0
    requires (at + |d|) % BLKSIZE + |p| <= BLKSIZE
    requires (at + |d|) / BLKSIZE <= |Written(s, at, d)| / BLKSIZE
    ensures var u := Loaded(Written(s, at, d), (at + |d|) / BLKSIZE);
      |u| % BLKSIZE == 0 && at + |d| + |p| <= |u| && Splice(u, at + |d|, p) == Written(s, at, d + p)
  {
    if d == [] {
      FirstPiece(s, at, p);
      assert d + p == p;
    } else {
      LaterPiece(s, at, d, p);
    }
  }

  lemma FirstPiece(s: seq<Byte>, at: nat, p: seq<Byte>)
    requires |s| % BLKSIZE == 0 && p != [] && at % BLKSIZE + |p| <= BLKSIZE && at / BLKSIZE <= |s| / BLKSIZE
    ensures Padded(s, at + |p|) == Loaded(s, at / BLKSIZE) && |Loaded(s, at / BLKSIZE)| % BLKSIZE == 0
  {
    PaddedTo(s, at, |p|);
  }

  lemma LaterPiece(s: seq<Byte>, at: nat, d: seq<Byte>, p: seq<Byte>)
    requires |s| % BLKSIZE == 0 && p != [] && d != [] && (at + |d|) % BLKSIZE == 0 && |p| <= BLKSIZE
    ensures var u := Loaded(Written(s, at, d), (at + |d|) / BLKSIZE);
      |u| % BLKSIZE == 0 && at + |d| + |p| <= |u| && Splice(u, at + |d|, p) == Written(s, at, d + p)
  {
    var q, z, e := Padded(s, at + |d|), Zeros(BLKSIZE), at + |d|;
    assert BlocksFor(e) == e / BLKSIZE;
    assert |q| % BLKSIZE == 0 && |q| >= e;
    PaddedTo(s, e, |p|);
    var r := Padded(s, e + |p|);
    assert r == if |q| == e then q + z else q;
    SpliceThenAppend(q, z, at, d);
    SpliceTwice(r, at, d, p);
    var u := Loaded(Splice(q, at, d), e / BLKSIZE);
    assert u == Splice(r, at, d);
    assert at + |d + p| == e + |p| && d + p != [];
  }

  /** The bytes of a file once `n` of them from `at` on have been looked at. */
  function Touched(s: seq<Byte>, at: nat, n: nat): seq<Byte> {
    if n == 0 then s else Padded(s, at + n)
  }

  lemma NextTouch(s: seq<Byte>, at: nat, n: nat, m: nat)
    requires |s| % BLKSIZE == 0 && m > 0
    requires n != 0 ==> (at + n) % BLKSIZE == 0
    requires (at + n) % BLKSIZE + m <= BLKSIZE
    requires (at + n) / BLKSIZE <= |Touched(s, at, n)| / BLKSIZE
    ensures Loaded(Touched(s, at, n), (at + n) / BLKSIZE) == Touched(s, at, n + m)
    ensures at + n + m <= |Touched(s, at, n + m)| && |Touched(s, at, n + m)| % BLKSIZE == 0
    ensures Touched(s, at, n) <= Touched(s, at, n + m)
  {
    if n == 0 {
      FirstPiece(s, at, Zeros(m));
    } else {
      assert BlocksFor(at + n) == (at + n) / BLKSIZE;
      PaddedTo(s, at + n, m);
    }
  }

  // ---------- what a caller sees ----------

  /** The contents of a file: its bytes up to its size. */
  function Contents(w: World, f: nat): seq<Byte>
    requires f in w.files
  {
    var s := Bytes(w, f);
    if w.files[f].size <= |s| then s[..w.files[f].size] else s
  }

  /** An array of bytes after `d` is stored at `at`. */
  function Stored(c: seq<Byte>, at: nat, d: seq<Byte>): seq<Byte> {
    if at > |c| then c else c[..at] + d + if at + |d| <= |c| then c[at + |d|..] else []
  }

  /** A write that starts inside the contents is a store to an array of bytes. */
  lemma WriteStores(s: seq<Byte>, size: nat, at: nat, d: seq<Byte>)
    requires at <= size <= |s|
    ensures var n := if at + |d| > size then at + |d| else size;
      n <= |Written(s, at, d)| && Written(s, at, d)[..n] == Stored(s[..size], at, d)
  {
  }

  /** A read of what was written gives it back. */
  lemma ReadBack(s: seq<Byte>, at: nat, d: seq<Byte>)
    requires d != []
    ensures at + |d| <= |Written(s, at, d)| && Written(s, at, d)[at..at + |d|] == d
  {
  }
}
