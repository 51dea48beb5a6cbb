/** Which changes of inodes ucore/kern/fs/sfs/sfs_inode.c marks for writing, and which it does not. */
module SfsMarks {
  import opened SfsLayout

  /** The inode differs in nothing but the number of its blocks. */
  predicate OnlyCount(d: DiskInode, e: DiskInode) {
    e == d.(blocks := e.blocks)
  }

  /** Entries are filled in, and none is changed. */
  predicate Filled(d: DiskInode, e: DiskInode) {
    && e.size == d.size && d.blocks <= e.blocks && |e.direct| == |d.direct|
    && (forall i :: 0 <= i < |d.direct| && d.direct[i] != 0 ==> e.direct[i] == d.direct[i])
    && (d.indirect != 0 ==> e.indirect == d.indirect)
  }

  /** The next block goes into an index block that is there: the inode gets it without being marked. */
  predicate Unnoticed(d: DiskInode) {
    d.blocks >= NDIRECT && d.indirect != 0
  }

  /** Blocks are added, which changes an entry of the inode unless all of them go into its index block. */
  predicate Appended(d: DiskInode, e: DiskInode) {
    Filled(d, e) && (OnlyCount(d, e) <==> e.blocks == d.blocks || Unnoticed(d))
  }

  lemma AppendedTwice(d: DiskInode, e: DiskInode, g: DiskInode)
    requires Appended(d, e) && Appended(e, g)
    ensures Appended(d, g) && (OnlyCount(d, g) <==> OnlyCount(d, e) && OnlyCount(e, g))
  {
    if OnlyCount(d, g) {
      forall i | 0 <= i < |d.direct| ensures e.direct[i] == d.direct[i] {
        assert e.direct[i] != 0 ==> g.direct[i] == e.direct[i];
      }
      assert e.direct == d.direct;
    }
  }

  /** Of all changes to the inode of `f`, exactly those of more than its block count mark it. */
  predicate Marks(d: DiskInode, e: DiskInode, before: set<nat>, after: set<nat>, f: nat) {
    after == before + if OnlyCount(d, e) then {} else {f}
  }

  lemma MarksTwice(d: DiskInode, e: DiskInode, g: DiskInode, s: set<nat>, t: set<nat>, u: set<nat>, f: nat)
    requires Appended(d, e) && Appended(e, g) && Marks(d, e, s, t, f) && Marks(e, g, t, u, f)
    ensures Appended(d, g) && Marks(d, g, s, u, f)
  {
    AppendedTwice(d, e, g);
  }

  lemma NothingAppended(d: DiskInode, s: set<nat>, f: nat)
    ensures Appended(d, d) && Marks(d, d, s, s, f)
  {
  }

  /** Every file whose inode is not what was last written is marked. */
  predicate AllMarked(saved: map<nat, DiskInode>, files: map<nat, DiskInode>, dirty: set<nat>) {
    forall f :: f in files && f !in dirty ==> f in saved && saved[f] == files[f]
  }

  /** After a change of one file all are marked, unless its block count alone has changed and it was not marked before. */
  lemma MarkedIff(saved: map<nat, DiskInode>, files: map<nat, DiskInode>, files': map<nat, DiskInode>, dirty: set<nat>,
                  dirty': set<nat>, f: nat)
    requires AllMarked(saved, files, dirty) && f in files && files'.Keys == files.Keys
    requires forall g :: g in files && g != f ==> files'[g] == files[g]
    requires Marks(files[f], files'[f], dirty, dirty', f)
    ensures AllMarked(saved, files', dirty')
       <==> f in dirty || files'[f].blocks == files[f].blocks || !OnlyCount(files[f], files'[f])
  {
    if AllMarked(saved, files', dirty') && f !in dirty' {
      assert saved[f] == files'[f];
    }
  }

  /** A file of 13 blocks gets a fourteenth: its inode is no longer what is on the disk, and not marked. */
  lemma FourteenthBlock()
    ensures var d := DiskInode(13 * BLKSIZE, 13, seq(NDIRECT, i => i + 2), 20); var e := d.(blocks := 14);
      && Unnoticed(d) && Appended(d, e) && Marks(d, e, {}, {}, 1)
      && AllMarked(map[1 := d], map[1 := d], {}) && !AllMarked(map[1 := d], map[1 := e], {})
  {
    var d := DiskInode(13 * BLKSIZE, 13, seq(NDIRECT, i => i + 2), 20);
    assert map[1 := d][1] == d;
  }
}
