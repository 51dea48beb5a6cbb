/** Files as arrays of bytes: what a caller sees of ucore/kern/fs/sfs/sfs_inode.c. */
module SfsContents {
  import opened SfsLayout
  import opened SfsFiles

  /** A write that starts inside a file is a store to an array of bytes, also if it was cut short. */
  lemma WriteIsStore(w: World, v: World, f: nat, at: nat, n: nat, data: seq<Byte>)
    requires Sound(w) && Sound(v) && Completed(w, v, f, at, n, data, true, [])
    requires Covered(w.files[f]) && at <= w.files[f].size
    ensures Covered(v.files[f]) && |Contents(w, f)| == w.files[f].size && Contents(v, f) == Stored(Contents(w, f), at, data[..n])
    ensures Tight(w.files[f]) ==> Tight(v.files[f])
  {
    assert FileOk(w, f);
    SizeAside(v, f, w.files[f].size);
    BytesSized(w, f);
    BytesSized(v, f);
    hide Sound, Bytes, Written;
    WriteStores(Bytes(w, f), w.files[f].size, at, data[..n]);
  }

  lemma SizeAside(w: World, f: nat, size: nat)
    requires Sound(w) && f in w.files && size <= BLKSIZE * NBLOCKS
    ensures Bytes(WithSize(w, f, size), f) == Bytes(w, f)
  {
    Resized(w, f, size, WithSize(w, f, size));
  }

  /** A read returns a slice of the file. */
  lemma ReadIsSlice(w: World, v: World, f: nat, at: nat, n: nat, got: seq<Byte>)
    requires Sound(w) && Sound(v) && Completed(w, v, f, at, n, [], false, got)
    requires Covered(w.files[f]) && at + n <= w.files[f].size
    ensures |Contents(w, f)| == w.files[f].size && got == Contents(w, f)[at..at + n]
  {
    BytesSized(w, f);
    hide Sound, Bytes;
  }

  /** The block that `at` falls into is the next one of the file, and cannot be had. */
  ghost predicate NoRoomAt(w: World, f: nat, at: nat)
    requires f in w.files
  {
    at / BLKSIZE == w.files[f].blocks && |FreeBlocks(w.owner)| < Need(w.files[f])
  }

  /** A write takes the size past the last block exactly if it starts inside a block that it cannot get. */
  lemma CoverLost(w: World, v: World, f: nat, at: nat, n: nat, data: seq<Byte>)
    requires Sound(w) && Sound(v) && Completed(w, v, f, at, n, data, true, []) && Covered(w.files[f])
    requires n == 0 ==> StoppedAt(w, WithSize(v, f, w.files[f].size), f, at, n)
    ensures Covered(v.files[f]) <==> !(NoRoomAt(w, f, at) && at % BLKSIZE != 0)
  {
    var u := WithSize(v, f, w.files[f].size);
    assert FileOk(w, f);
    assert u.owner == v.owner && u.files[f].blocks == v.files[f].blocks;
    assert n == 0 <==> NoRoomAt(w, f, at);
  }

  /** Writing past the end exposes whatever the last block holds behind it. */
  lemma GapIsSlack(w: World, v: World, f: nat, at: nat, n: nat, data: seq<Byte>)
    requires Sound(w) && Sound(v) && Completed(w, v, f, at, n, data, true, []) && n > 0
    requires Covered(w.files[f]) && w.files[f].size <= at
    ensures Contents(v, f) == Contents(w, f) + Gap(w, f, at) + data[..n]
  {
    assert FileOk(w, f);
    hide Sound, Bytes, Written, GapAfter;
    SizeAside(v, f, w.files[f].size);
    BytesSized(w, f);
    BytesSized(v, f);
    WrittenBehind(Bytes(w, f), w.files[f].size, at, data[..n]);
  }

  lemma WrittenBehind(s: seq<Byte>, size: nat, at: nat, d: seq<Byte>)
    requires size <= |s| && size <= at && d != []
    ensures |Written(s, at, d)| >= at + |d|
    ensures Written(s, at, d)[..at + |d|] == s[..size] + GapAfter(s, size, at) + d
  {
    var p := Padded(s, at + |d|);
    assert p[..at] == s[..size] + GapAfter(s, size, at);
  }

  /** The bytes of the last block behind the end of a file, and then zeros, up to `at`. */
  function Gap(w: World, f: nat, at: nat): seq<Byte>
    requires f in w.files
  {
    GapAfter(Bytes(w, f), w.files[f].size, at)
  }

  function GapAfter(s: seq<Byte>, size: nat, at: nat): seq<Byte> {
    if at <= size || size > |s| then []
    else if at <= |s| then s[size..at] else s[size..] + Zeros(at - |s|)
  }

  /** A file made shorter loses its tail; one made longer gets the slack of its last block and zeros. */
  lemma TruncateContents(w: World, v: World, f: nat, len: nat)
    requires Sound(w) && Sound(v) && f in w.files && f in v.files && Covered(w.files[f])
    requires Relength(w, v, f, BlocksFor(len)) && v.files[f].size == len
    ensures Tight(v.files[f]) && |Contents(w, f)| == w.files[f].size
    ensures Contents(v, f) == if len <= w.files[f].size then Contents(w, f)[..len]
                              else Contents(w, f) + Gap(w, f, len)
  {
    hide Sound, Bytes, GapAfter;
    BytesSized(w, f);
    BytesSized(v, f);
    CutOrPad(Bytes(w, f), w.files[f].size, len);
  }

  lemma CutOrPad(s: seq<Byte>, size: nat, len: nat)
    requires size <= |s|
    ensures var n := BLKSIZE * BlocksFor(len);
      var t := if n <= |s| then s[..n] else s + Zeros(n - |s|);
      && len <= |t| && t[..len] == if len <= size then s[..size][..len] else s[..size] + GapAfter(s, size, len)
  {
  }

  /** What truncation cuts off within the last block comes back when the file is made longer again. */
  lemma CutComesBack(w: World, u: World, v: World, f: nat, short: nat, long: nat)
    requires Sound(w) && Sound(u) && Sound(v) && f in w.files && f in u.files && f in v.files
    requires Covered(w.files[f]) && 0 < short < long <= w.files[f].size && BlocksFor(short) == BlocksFor(long)
    requires Relength(w, u, f, BlocksFor(short)) && u.files[f].size == short
    requires Relength(u, v, f, BlocksFor(long)) && v.files[f].size == long
    ensures |Contents(w, f)| == w.files[f].size && Contents(v, f) == Contents(w, f)[..long]
  {
    BytesSized(w, f);
    BytesSized(u, f);
    BytesSized(v, f);
    hide Sound, Bytes;
  }

  // ---------- zeros behind the end ----------

  ghost predicate ZeroFrom(s: seq<Byte>, n: nat) {
    forall p :: n <= p < |s| ==> s[p] == 0
  }

  /** The blocks of the file hold only zeros behind its end. */
  ghost predicate ZeroBehind(w: World, f: nat)
    requires f in w.files
  {
    ZeroFrom(Bytes(w, f), w.files[f].size)
  }

  /** The contents from `len` on, as far as the block of the last byte before `len` reaches, are zeros. */
  predicate CleanCut(c: seq<Byte>, len: nat) {
    forall p :: len <= p < |c| && p < BLKSIZE * BlocksFor(len) ==> c[p] == 0
  }

  /** A truncation leaves zeros behind the end exactly if what it cuts off within the last block that stays was zeros. */
  lemma CutLeavesZeros(w: World, v: World, f: nat, len: nat)
    requires Sound(w) && Sound(v) && f in w.files && f in v.files && Covered(w.files[f])
    requires ZeroBehind(w, f) && len <= w.files[f].size
    requires Relength(w, v, f, BlocksFor(len)) && v.files[f].size == len
    ensures ZeroBehind(v, f) <==> CleanCut(Contents(w, f), len)
  {
    hide Sound, Bytes;
    BytesSized(w, f);
    BytesSized(v, f);
    CutZeros(Bytes(w, f), w.files[f].size, len);
  }

  lemma CutZeros(s: seq<Byte>, size: nat, len: nat)
    requires len <= size <= |s| && |s| % BLKSIZE == 0
    ensures BLKSIZE * BlocksFor(len) <= |s|
    ensures var t := s[..BLKSIZE * BlocksFor(len)];
      && (ZeroFrom(s, size) ==> (ZeroFrom(t, len) <==> CleanCut(s[..size], len)))
      && (BLKSIZE * BlocksFor(len) <= size ==> (ZeroFrom(t, len) <==> CleanCut(s[..size], len)))
  {
    var t, c := s[..BLKSIZE * BlocksFor(len)], s[..size];
    if ZeroFrom(t, len) {
      forall p | len <= p < |c| && p < |t| ensures c[p] == 0 {
        assert t[p] == 0;
      }
    }
    if CleanCut(c, len) && (ZeroFrom(s, size) || |t| <= size) {
      forall p | len <= p < |t| ensures t[p] == 0 {
        assert p < size ==> c[p] == 0;
      }
    }
  }

  /** Zeros up to `at`, and then `d`. */
  function StoredAt(c: seq<Byte>, at: nat, d: seq<Byte>): seq<Byte> {
    if at <= |c| then Stored(c, at, d) else c + Zeros(at - |c|) + d
  }

  lemma WrittenZeros(s: seq<Byte>, size: nat, at: nat, d: seq<Byte>)
    requires size <= |s| && ZeroFrom(s, size) && d != []
    ensures var n := if at + |d| > size then at + |d| else size;
      n <= |Written(s, at, d)| && ZeroFrom(Written(s, at, d), n) && Written(s, at, d)[..n] == StoredAt(s[..size], at, d)
  {
    hide ZeroFrom, Written, GapAfter, Stored;
    WrittenTail(s, size, at, d);
    if at <= size {
      WriteStores(s, size, at, d);
    } else {
      WrittenBehind(s, size, at, d);
      ZeroGap(s, size, at);
    }
  }

  lemma WrittenTail(s: seq<Byte>, size: nat, at: nat, d: seq<Byte>)
    requires size <= |s| && ZeroFrom(s, size) && d != []
    ensures var n := if at + |d| > size then at + |d| else size;
      n <= |Written(s, at, d)| && ZeroFrom(Written(s, at, d), n)
  {
    var n, t := if at + |d| > size then at + |d| else size, Written(s, at, d);
    forall p | n <= p < |t| ensures t[p] == 0 {
      assert t[p] == Padded(s, at + |d|)[p];
    }
  }

  lemma ZeroGap(s: seq<Byte>, size: nat, at: nat)
    requires size <= |s| && ZeroFrom(s, size) && size < at
    ensures GapAfter(s, size, at) == Zeros(at - size)
  {
    assert forall p :: size <= p < |s| ==> s[p] == 0;
  }

  /** A write at any position keeps zeros behind the end, and fills with zeros what it leaves out. */
  lemma WriteKeepsZeros(w: World, v: World, f: nat, at: nat, n: nat, data: seq<Byte>)
    requires Sound(w) && Sound(v) && Completed(w, v, f, at, n, data, true, []) && n > 0
    requires Covered(w.files[f]) && ZeroBehind(w, f)
    ensures Covered(v.files[f]) && ZeroBehind(v, f) && Contents(v, f) == StoredAt(Contents(w, f), at, data[..n])
    ensures Tight(w.files[f]) ==> Tight(v.files[f])
  {
    assert FileOk(w, f);
    hide Sound, FileOk, Bytes, Written, ZeroFrom;
    SizeAside(v, f, w.files[f].size);
    BytesSized(w, f);
    BytesSized(v, f);
    WrittenZeros(Bytes(w, f), w.files[f].size, at, data[..n]);
  }

  /** A file made longer keeps them, and gets zeros. */
  lemma LengthenKeepsZeros(w: World, v: World, f: nat, len: nat)
    requires Sound(w) && Sound(v) && f in w.files && f in v.files && Covered(w.files[f]) && ZeroBehind(w, f)
    requires w.files[f].size <= len && Relength(w, v, f, BlocksFor(len)) && v.files[f].size == len
    ensures ZeroBehind(v, f) && |Contents(w, f)| == w.files[f].size
    ensures Contents(v, f) == Contents(w, f) + Zeros(len - w.files[f].size)
  {
    hide Sound, Bytes;
    BytesSized(w, f);
    BytesSized(v, f);
  }

  /** Lengthening that stops for lack of blocks: `v` has the blocks it got, and the size it had. */
  ghost predicate Stopped(w: World, v: World, f: nat, len: nat) {
    && f in w.files && f in v.files && Relength(w, v, f, v.files[f].blocks) && v.files[f].size == w.files[f].size
    && w.files[f].blocks <= v.files[f].blocks < BlocksFor(len)
  }

  /** It leaves the contents as they are, and zeros behind them; size and blocks disagree if it got any block. */
  lemma StoppedLeaves(w: World, v: World, f: nat, len: nat)
    requires Sound(w) && Sound(v) && Stopped(w, v, f, len) && Covered(w.files[f])
    ensures Covered(v.files[f]) && Contents(v, f) == Contents(w, f)
    ensures ZeroBehind(v, f) <==> ZeroBehind(w, f)
    ensures Tight(w.files[f]) ==> (Tight(v.files[f]) <==> v.files[f].blocks == w.files[f].blocks)
  {
    hide Sound, Bytes;
    BytesSized(w, f);
    BytesSized(v, f);
    var (s, t, size) := (Bytes(w, f), Bytes(v, f), w.files[f].size);
    assert t == s + Zeros(|t| - |s|);
    assert t[..size] == s[..size];
    assert forall p :: 0 <= p < |s| ==> t[p] == s[p];
  }

  // ---------- runs ----------

  datatype Op = Write(file: nat, at: nat, n: nat, data: seq<Byte>) | SetLength(file: nat, len: nat, done: bool)

  /** A file as an array of bytes; `clean` says that nothing but zeros can be behind its end. */
  datatype Image = Image(bytes: seq<Byte>, clean: bool)

  /** A write of the first `n` bytes of `data`, as many as there was room for, or a change of length, done or stopped. */
  ghost predicate Called(w: World, v: World, op: Op) {
    && Sound(w) && Sound(v) && op.file in w.files && op.file in v.files
    && match op
       case Write(f, at, n, data) => Completed(w, v, f, at, n, data, true, [])
       case SetLength(f, len, done) =>
         if done then Relength(w, v, f, BlocksFor(len)) && v.files[f].size == len else Stopped(w, v, f, len)
  }

  /** Inside a file everything goes; going past its end takes a clean one, and at least one byte. */
  predicate Fits(c: Image, op: Op) {
    match op
    case Write(_, at, n, data) => n <= |data| && (at <= |c.bytes| || (c.clean && n > 0))
    case SetLength(_, len, done) => !done || len <= |c.bytes| || c.clean
  }

  /** The same call on an array of bytes. */
  function Applied(c: Image, op: Op): Image {
    match op
    case Write(_, at, n, data) =>
      var s := if n <= |data| then StoredAt(c.bytes, at, data[..n]) else c.bytes;
      Image(s, c.clean || |s| % BLKSIZE == 0)
    case SetLength(_, len, done) =>
      if !done then c
      else if len <= |c.bytes|
      then Image(c.bytes[..len], CleanCut(c.bytes, len) && (c.clean || BLKSIZE * BlocksFor(len) <= |c.bytes|))
      else Image(c.bytes + Zeros(len - |c.bytes|), c.clean)
  }

  function AllApplied(c: map<nat, Image>, ops: seq<Op>): map<nat, Image> {
    if ops == [] then c else
    var d, op := AllApplied(c, ops[..|ops| - 1]), ops[|ops| - 1];
    if op.file in d then d[op.file := Applied(d[op.file], op)] else d
  }

  /** Every file is its image. */
  ghost predicate Pictures(c: map<nat, Image>, w: World) {
    c.Keys == w.files.Keys && forall f :: f in w.files ==> Picture(c[f], w, f)
  }

  ghost predicate Picture(c: Image, w: World, f: nat)
    requires f in w.files
  {
    && Covered(w.files[f]) && Contents(w, f) == c.bytes && (c.clean ==> ZeroBehind(w, f))
    && ZeroFrom(Bytes(w, f), BLKSIZE * BlocksFor(w.files[f].size))
  }

  lemma CallPictured(c: Image, w: World, v: World, op: Op)
    requires Called(w, v, op) && op.file in w.files && op.file in v.files
    requires Picture(c, w, op.file) && Fits(c, op)
    ensures Picture(Applied(c, op), v, op.file)
  {
    match op {
      case Write(f, at, n, data) => WritePictured(c, w, v, f, at, n, data);
      case SetLength(f, len, done) =>
        if done { LengthPictured(c, w, v, f, len); } else { StopPictured(c, w, v, f, len); }
    }
  }

  lemma WritePictured(c: Image, w: World, v: World, f: nat, at: nat, n: nat, data: seq<Byte>)
    requires Called(w, v, Write(f, at, n, data)) && f in w.files && f in v.files
    requires Picture(c, w, f) && Fits(c, Write(f, at, n, data))
    ensures Picture(Applied(c, Write(f, at, n, data)), v, f)
  {
    hide Sound, Completed, Bytes, ZeroFrom, BlocksFor, Contents, Stored;
    SizesAgree(w, f);
    WrittenContents(c, w, v, f, at, n, data);
    SizesAgree(v, f);
    ExtraZeros(w, v, f, at, n, data);
    if v.files[f].size % BLKSIZE == 0 {
      WholeBlocksOnly(v.files[f].size);
    }
  }

  lemma SizesAgree(w: World, f: nat)
    requires Sound(w) && f in w.files && Covered(w.files[f])
    ensures |Contents(w, f)| == w.files[f].size
  {
    hide Sound, Bytes;
    BytesSized(w, f);
  }

  lemma WholeBlocksOnly(size: nat)
    requires size % BLKSIZE == 0
    ensures BLKSIZE * BlocksFor(size) == size
  {
  }

  lemma WrittenContents(c: Image, w: World, v: World, f: nat, at: nat, n: nat, data: seq<Byte>)
    requires Sound(w) && Sound(v) && Completed(w, v, f, at, n, data, true, []) && n <= |data|
    requires Picture(c, w, f) && |c.bytes| == w.files[f].size && (at <= |c.bytes| || (c.clean && n > 0))
    ensures Covered(v.files[f]) && Contents(v, f) == StoredAt(c.bytes, at, data[..n]) && (c.clean ==> ZeroBehind(v, f))
  {
    hide Sound, Completed, Bytes, ZeroFrom, BlocksFor, Contents, Stored;
    if n > 0 && c.clean {
      WriteKeepsZeros(w, v, f, at, n, data);
    } else {
      WriteIsStore(w, v, f, at, n, data);
      if n == 0 {
        NothingWritten(w, v, f, at, data);
      }
    }
  }

  lemma ExtraZeros(w: World, v: World, f: nat, at: nat, n: nat, data: seq<Byte>)
    requires Sound(w) && Sound(v) && Completed(w, v, f, at, n, data, true, []) && Covered(w.files[f])
    requires ZeroFrom(Bytes(w, f), BLKSIZE * BlocksFor(w.files[f].size)) && (n > 0 || at <= w.files[f].size)
    ensures ZeroFrom(Bytes(v, f), BLKSIZE * BlocksFor(v.files[f].size))
  {
    hide Sound, FileOk, Bytes, Written, ZeroFrom, BlocksFor, OthersKept;
    BytesSized(w, f);
    SizeBound(w, f);
    SizeAside(v, f, w.files[f].size);
    WrittenExtra(Bytes(w, f), w.files[f].size, at, data[..n]);
  }

  lemma NothingWritten(w: World, v: World, f: nat, at: nat, data: seq<Byte>)
    requires Sound(w) && Sound(v) && Completed(w, v, f, at, 0, data, true, []) && at <= w.files[f].size
    ensures Bytes(v, f) == Bytes(w, f) && v.files[f].size == w.files[f].size
  {
    assert FileOk(w, f);
    SizeAside(v, f, w.files[f].size);
  }

  /** Blocks behind the block of the last byte hold zeros after a write if they did before. */
  lemma WrittenExtra(s: seq<Byte>, size: nat, at: nat, d: seq<Byte>)
    requires size <= |s| && ZeroFrom(s, BLKSIZE * BlocksFor(size))
    ensures ZeroFrom(Written(s, at, d), BLKSIZE * BlocksFor(if at + |d| > size then at + |d| else size))
  {
    var end := if at + |d| > size then at + |d| else size;
    var n, t := BLKSIZE * BlocksFor(end), Written(s, at, d);
    assert n >= end && BlocksFor(end) >= BlocksFor(size);
    forall p | n <= p < |t| ensures t[p] == 0 {
      if d != [] {
        assert t[p] == Padded(s, at + |d|)[p];
      }
    }
  }

  lemma StopPictured(c: Image, w: World, v: World, f: nat, len: nat)
    requires Called(w, v, SetLength(f, len, false)) && Picture(c, w, f)
    ensures Picture(c, v, f)
  {
    hide Sound, Bytes;
    BytesSized(w, f);
    BytesSized(v, f);
    StoppedLeaves(w, v, f, len);
  }

  lemma LengthPictured(c: Image, w: World, v: World, f: nat, len: nat)
    requires Called(w, v, SetLength(f, len, true)) && Picture(c, w, f) && Fits(c, SetLength(f, len, true))
    ensures Picture(Applied(c, SetLength(f, len, true)), v, f)
  {
    hide Sound, Bytes, ZeroFrom;
    BytesSized(w, f);
    BytesSized(v, f);
    TruncateContents(w, v, f, len);
    NothingBehind(Bytes(v, f), len);
    if len <= w.files[f].size {
      CutZeros(Bytes(w, f), w.files[f].size, len);
    } else {
      LengthenKeepsZeros(w, v, f, len);
    }
  }

  lemma NothingBehind(s: seq<Byte>, len: nat)
    requires |s| == BLKSIZE * BlocksFor(len)
    ensures ZeroFrom(s, BLKSIZE * BlocksFor(len))
  {
  }

  lemma OthersRead(w: World, v: World, op: Op)
    requires Called(w, v, op)
    ensures v.files.Keys == w.files.Keys
    ensures forall g :: g in w.files && g != op.file ==> v.files[g] == w.files[g] && Bytes(v, g) == Bytes(w, g)
  {
    var f := op.file;
    var u := if op.Write? then WithSize(v, f, w.files[f].size) else v;
    forall g | g in w.files && g != f
      ensures g in v.files && v.files[g] == w.files[g] && Bytes(v, g) == Bytes(w, g)
    {
      assert Blocks(u, g) == Blocks(w, g);
      assert Blocks(v, g) == Blocks(u, g);
    }
  }

  lemma CallIsApplied(c: map<nat, Image>, w: World, v: World, op: Op)
    requires Called(w, v, op) && op.file in w.files && op.file in v.files && Pictures(c, w) && Fits(c[op.file], op)
    ensures Pictures(c[op.file := Applied(c[op.file], op)], v)
  {
    hide Called, Applied, Fits, Bytes;
    CallPictured(c[op.file], w, v, op);
    OthersRead(w, v, op);
  }

  lemma CalledFile(w: World, v: World, op: Op)
    requires Called(w, v, op)
    ensures op.file in w.files && op.file in v.files
  {
  }

  /** Every call of the run fits the files as the calls before it have left them. */
  predicate AllFit(c: map<nat, Image>, ops: seq<Op>) {
    ops == [] ||
    var (before, op) := (ops[..|ops| - 1], ops[|ops| - 1]);
    AllFit(c, before) && op.file in AllApplied(c, before) && Fits(AllApplied(c, before)[op.file], op)
  }

  /**
   * Over every run files behave as flat arrays of bytes, each on its own. Gaps and added lengths are zeros, as long as
   * files are not made longer after a cut that was not clean.
   */
  lemma {:induction false} RunIsFlat(c: map<nat, Image>, ws: seq<World>, ops: seq<Op>)
    requires |ws| == |ops| + 1 && Pictures(c, ws[0]) && AllFit(c, ops)
    requires forall i :: 0 <= i < |ops| ==> Called(ws[i], ws[i + 1], ops[i])
    ensures Pictures(AllApplied(c, ops), ws[|ops|])
    decreases |ops|
  {
    hide Called, Applied, Pictures, Fits;
    if ops != [] {
      var n := |ops| - 1;
      assert Called(ws[n], ws[n + 1], ops[n]);
      CalledFile(ws[n], ws[n + 1], ops[n]);
      RunIsFlat(c, ws[..|ops|], ops[..n]);
      CallIsApplied(AllApplied(c, ops[..n]), ws[n], ws[n + 1], ops[n]);
    }
  }
}
