/**
 The two checks around every domain commit: pages and filesystem space outside what the retained records still reserve.
 Sizes are bytes, exact as the source's big integers are; SQLite reports pages and the filesystem blocks.
 */
module Capacity {

  const PAGE_BYTES := 4_096
  const MAX_DATABASE_BYTES := 536_870_912
  const FILESYSTEM_HEADROOM_BYTES := 67_108_864
  const TRANSACTION_OVERHEAD_BYTES := 4_194_304
  const MAX_SAFE_INTEGER := 9_007_199_254_740_991

  /** Pages in use (the page count less the free list), and the blocks the filesystem still offers. */
  datatype Disk = Disk(pages: nat, blocks: nat)

  /** The size of a filesystem block. */
  type Block = b: int | 0 < b witness 1

  /** What stays reserved while an assigned write of that many bytes is under way. */
  function Remaining(reserved: nat, assignedBytes: nat): nat {
    if reserved < assignedBytes then 0 else reserved - assignedBytes
  }

  function Reserve(reserved: nat, ordinaryBytes: nat, assignedBytes: nat): nat {
    Remaining(reserved, assignedBytes) * 3 + TRANSACTION_OVERHEAD_BYTES + ordinaryBytes * 3
  }

  /** `assertPhysicalCapacity` returns. */
  predicate Passes(disk: Disk, block: Block, reserved: nat, ordinaryBytes: int, assignedBytes: int) {
    && 0 <= ordinaryBytes <= MAX_SAFE_INTEGER && 0 <= assignedBytes <= MAX_SAFE_INTEGER
    && disk.pages * PAGE_BYTES + Reserve(reserved, ordinaryBytes, assignedBytes) <= MAX_DATABASE_BYTES
    && FILESYSTEM_HEADROOM_BYTES + Reserve(reserved, ordinaryBytes, assignedBytes) <= block * disk.blocks
  }

  /** The reserve is whole: everything the retained records reserve could be written now. */
  predicate Whole(disk: Disk, block: Block, reserved: nat) {
    Passes(disk, block, reserved, 0, 0)
  }

  /** One commit: the accounting it writes, the bytes it may allocate or was assigned, and the disk it leaves. */
  datatype Commit = Commit(reserved: nat, ordinaryBytes: nat, assignedBytes: nat, disk: Disk)

  /** A commit is checked against its new accounting before it touches a row and again before it is kept. */
  predicate Kept(before: Disk, block: Block, commit: Commit) {
    && Passes(before, block, commit.reserved, commit.ordinaryBytes, commit.assignedBytes)
    && Passes(commit.disk, block, commit.reserved, 0, commit.assignedBytes)
  }

  // ---------------------------------------------------------------------------------- whole pages and blocks

  function CeilDiv(n: nat, unit: Block): (units: nat)
    ensures unit * (units - 1) < n <= unit * units
  {
    (n + unit - 1) / unit
  }

  lemma Multiples(unit: Block, j: int, k: int)
    requires j <= k
    ensures unit * j <= unit * k
  {
  }

  lemma CeilDivIs(n: nat, unit: Block, k: int)
    ensures n <= unit * k <==> CeilDiv(n, unit) <= k
  {
    var units := CeilDiv(n, unit);
    if units <= k { Multiples(unit, units, k); } else { Multiples(unit, k, units - 1); }
  }

  lemma CeilDivGrows(m: nat, n: nat, unit: Block, units: int)
    requires m + unit * units <= n
    ensures CeilDiv(m, unit) + units <= CeilDiv(n, unit)
  {
    var bound := CeilDiv(n, unit);
    assert m <= unit * (bound - units);
    CeilDivIs(m, unit, bound - units);
  }

  /** Pages outside the transaction overhead, a whole number. */
  const PAGES := 130_048

  /** Pages the reserve of so many bytes stands for. */
  function PagesFor(reserved: nat): nat {
    CeilDiv(3 * reserved, PAGE_BYTES)
  }

  /** Blocks that must stay free for it. */
  function BlocksFor(reserved: nat, block: Block): nat {
    CeilDiv(FILESYSTEM_HEADROOM_BYTES + TRANSACTION_OVERHEAD_BYTES + 3 * reserved, block)
  }

  /** Without ordinary bytes the check counts whole pages and whole blocks. */
  lemma PassesInUnits(disk: Disk, block: Block, reserved: nat, assignedBytes: nat)
    requires assignedBytes <= MAX_SAFE_INTEGER
    ensures var left := Remaining(reserved, assignedBytes);
      Passes(disk, block, reserved, 0, assignedBytes) <==> disk.pages + PagesFor(left) <= PAGES && BlocksFor(left, block) <= disk.blocks
  {
    var left := Remaining(reserved, assignedBytes);
    CeilDivIs(3 * left, PAGE_BYTES, PAGES - disk.pages);
    CeilDivIs(FILESYSTEM_HEADROOM_BYTES + TRANSACTION_OVERHEAD_BYTES + 3 * left, block, disk.blocks);
  }

  lemma UnitsGrow(less: nat, more: nat, block: Block)
    requires less <= more
    ensures PagesFor(less) <= PagesFor(more) && BlocksFor(less, block) <= BlocksFor(more, block)
  {
    CeilDivGrows(3 * less, 3 * more, PAGE_BYTES, 0);
    CeilDivGrows(FILESYSTEM_HEADROOM_BYTES + TRANSACTION_OVERHEAD_BYTES + 3 * less,
      FILESYSTEM_HEADROOM_BYTES + TRANSACTION_OVERHEAD_BYTES + 3 * more, block, 0);
  }

  // ---------------------------------------------------------------------------------- one assigned write

  /**
   An assigned write from one accounting to another that adds pages and takes blocks, both possibly fewer than none: what
   stays reserved while it is checked, and what it adds beside its new accounting, fit into what was reserved before.
   */
  predicate Bounded(reserved: nat, after: nat, assignedBytes: nat, pages: int, blocks: int, block: Block) {
    && PagesFor(Remaining(after, assignedBytes)) <= PagesFor(reserved)
    && BlocksFor(Remaining(after, assignedBytes), block) <= BlocksFor(reserved, block)
    && pages + PagesFor(after) <= PagesFor(reserved)
    && blocks + BlocksFor(after, block) <= BlocksFor(reserved, block)
  }

  /** The write as a commit on some disk. */
  function Written(disk: Disk, after: nat, assignedBytes: nat, pages: int, blocks: int): Commit
    requires 0 <= disk.pages + pages && 0 <= disk.blocks - blocks
  {
    Commit(after, 0, assignedBytes, Disk(disk.pages + pages, disk.blocks - blocks))
  }

  /** On every disk whose reserve is whole and on which it can take place, the write is kept and leaves the reserve whole. */
  ghost predicate AlwaysKept(reserved: nat, after: nat, assignedBytes: nat, pages: int, blocks: int, block: Block) {
    forall disk: Disk | Whole(disk, block, reserved) && 0 <= disk.pages + pages && 0 <= disk.blocks - blocks ::
      var commit := Written(disk, after, assignedBytes, pages, blocks);
      Kept(disk, block, commit) && Whole(commit.disk, block, after)
  }

  lemma BoundedIsKept(disk: Disk, block: Block, reserved: nat, commit: Commit)
    requires Whole(disk, block, reserved) && commit.ordinaryBytes == 0 && commit.assignedBytes <= MAX_SAFE_INTEGER
    requires Bounded(reserved, commit.reserved, commit.assignedBytes, commit.disk.pages - disk.pages, disk.blocks - commit.disk.blocks, block)
    ensures Kept(disk, block, commit) && Whole(commit.disk, block, commit.reserved)
  {
    hide PagesFor, BlocksFor, Passes;
    PassesInUnits(disk, block, reserved, 0);
    PassesInUnits(disk, block, commit.reserved, commit.assignedBytes);
    PassesInUnits(commit.disk, block, commit.reserved, commit.assignedBytes);
    PassesInUnits(commit.disk, block, commit.reserved, 0);
    UnitsGrow(Remaining(commit.reserved, commit.assignedBytes), commit.reserved, block);
  }

  /**
   The bound is exact. Whatever an assigned write does to the accounting, the pages and the blocks, it is kept with the
   reserve whole afterwards on every disk where it was whole before if and only if it is bounded; some such disk exists
   when the reserve fits the database at all and the write frees no more pages than are in use.
   */
  lemma ExactGrowth(reserved: nat, after: nat, assignedBytes: nat, pages: int, blocks: int, block: Block)
    requires assignedBytes <= MAX_SAFE_INTEGER
    requires 3 * reserved + TRANSACTION_OVERHEAD_BYTES <= MAX_DATABASE_BYTES && 0 <= PAGES - PagesFor(reserved) + pages
    ensures AlwaysKept(reserved, after, assignedBytes, pages, blocks, block) <==> Bounded(reserved, after, assignedBytes, pages, blocks, block)
  {
    if Bounded(reserved, after, assignedBytes, pages, blocks, block) {
      forall disk: Disk | Whole(disk, block, reserved) && 0 <= disk.pages + pages && 0 <= disk.blocks - blocks
        ensures var commit := Written(disk, after, assignedBytes, pages, blocks);
          Kept(disk, block, commit) && Whole(commit.disk, block, after)
      {
        BoundedIsKept(disk, block, reserved, Written(disk, after, assignedBytes, pages, blocks));
      }
    }
    if AlwaysKept(reserved, after, assignedBytes, pages, blocks, block) {
      FullDiskNeedsBound(reserved, after, assignedBytes, pages, blocks, block);
    }
  }

  /** The fullest disk with a whole reserve already shows a write that is not bounded. */
  lemma FullDiskNeedsBound(reserved: nat, after: nat, assignedBytes: nat, pages: int, blocks: int, block: Block)
    requires assignedBytes <= MAX_SAFE_INTEGER
    requires 3 * reserved + TRANSACTION_OVERHEAD_BYTES <= MAX_DATABASE_BYTES && 0 <= PAGES - PagesFor(reserved) + pages
    requires AlwaysKept(reserved, after, assignedBytes, pages, blocks, block)
    ensures Bounded(reserved, after, assignedBytes, pages, blocks, block)
  {
    CeilDivIs(3 * reserved, PAGE_BYTES, PAGES);
    hide PagesFor, BlocksFor, Passes;
    var room := BlocksFor(reserved, block);
    var disk := Disk(PAGES - PagesFor(reserved), if blocks <= room then room else blocks);
    PassesInUnits(disk, block, reserved, 0);
    var commit := Written(disk, after, assignedBytes, pages, blocks);
    PassesInUnits(disk, block, after, assignedBytes);
    PassesInUnits(commit.disk, block, after, 0);
    assert Kept(disk, block, commit) && Whole(commit.disk, block, after);
    SomeBlocks(after, block);
  }

  lemma SomeBlocks(reserved: nat, block: Block)
    ensures BlocksFor(reserved, block) > 0
  {
    CeilDivIs(FILESYSTEM_HEADROOM_BYTES + TRANSACTION_OVERHEAD_BYTES + 3 * reserved, block, 0);
  }

  /** A write that adds and takes at most three times the bytes it gives up is bounded. */
  lemma ThreeTimesIsBounded(reserved: nat, after: nat, assignedBytes: nat, pages: int, blocks: int, block: Block)
    requires after <= reserved && PAGE_BYTES * pages <= 3 * (reserved - after) && block * blocks <= 3 * (reserved - after)
    ensures Bounded(reserved, after, assignedBytes, pages, blocks, block)
  {
    UnitsGrow(Remaining(after, assignedBytes), reserved, block);
    CeilDivGrows(3 * after, 3 * reserved, PAGE_BYTES, pages);
    CeilDivGrows(FILESYSTEM_HEADROOM_BYTES + TRANSACTION_OVERHEAD_BYTES + 3 * after,
      FILESYSTEM_HEADROOM_BYTES + TRANSACTION_OVERHEAD_BYTES + 3 * reserved, block, blocks);
  }

  // ---------------------------------------------------------------------------------- runs of assigned writes

  predicate Assigned(disk: Disk, block: Block, reserved: nat, commit: Commit) {
    && commit.ordinaryBytes == 0 && commit.assignedBytes <= MAX_SAFE_INTEGER
    && Bounded(reserved, commit.reserved, commit.assignedBytes, commit.disk.pages - disk.pages, disk.blocks - commit.disk.blocks, block)
  }

  /** Each write of the run starts from what the one before it left. */
  predicate AssignedRun(disk: Disk, block: Block, reserved: nat, commits: seq<Commit>)
    decreases |commits|
  {
    commits == [] || (Assigned(disk, block, reserved, commits[0]) && AssignedRun(commits[0].disk, block, commits[0].reserved, commits[1..]))
  }

  predicate KeptRun(disk: Disk, block: Block, commits: seq<Commit>)
    decreases |commits|
  {
    commits == [] || (Kept(disk, block, commits[0]) && KeptRun(commits[0].disk, block, commits[1..]))
  }

  /** The reserve is whole after the last write. */
  predicate WholeAfter(disk: Disk, block: Block, reserved: nat, commits: seq<Commit>) {
    if commits == [] then Whole(disk, block, reserved)
    else Whole(commits[|commits| - 1].disk, block, commits[|commits| - 1].reserved)
  }

  /** While the reserve is whole every run of bounded writes is kept, however long, and leaves the reserve whole. */
  lemma {:induction false} ReserveSuffices(disk: Disk, block: Block, reserved: nat, commits: seq<Commit>)
    requires Whole(disk, block, reserved) && AssignedRun(disk, block, reserved, commits)
    ensures KeptRun(disk, block, commits) && WholeAfter(disk, block, reserved, commits)
    decreases |commits|
  {
    hide Bounded, Kept, Whole;
    if commits != [] {
      BoundedIsKept(disk, block, reserved, commits[0]);
      ReserveSuffices(commits[0].disk, block, commits[0].reserved, commits[1..]);
    }
  }

  /** An ordinary commit that was kept leaves the reserve whole, so nothing it promised can be refused later. */
  lemma OrdinaryThenAssigned(before: Disk, block: Block, ordinary: Commit, commits: seq<Commit>)
    requires Kept(before, block, ordinary) && ordinary.assignedBytes == 0 && AssignedRun(ordinary.disk, block, ordinary.reserved, commits)
    ensures KeptRun(before, block, [ordinary] + commits) && WholeAfter(before, block, ordinary.reserved, [ordinary] + commits)
  {
    ReserveSuffices(ordinary.disk, block, ordinary.reserved, commits);
    assert ([ordinary] + commits)[1..] == commits;
  }

  // ---------------------------------------------------------------------------------- the checks alone

  /** Whatever a write did, passing both checks leaves the reserve whole. */
  ghost predicate ChecksSuffice(after: nat, assignedBytes: nat, block: Block) {
    forall before: Disk, left: Disk | Kept(before, block, Commit(after, 0, assignedBytes, left)) :: Whole(left, block, after)
  }

  /**
   The two checks keep the reserve by themselves exactly when the assigned bytes change neither its pages nor its blocks.
   Without the requirement on pages no write passes at all.
   */
  lemma ChecksSufficeExactly(after: nat, assignedBytes: nat, block: Block)
    requires assignedBytes <= MAX_SAFE_INTEGER && PagesFor(Remaining(after, assignedBytes)) <= PAGES
    ensures ChecksSuffice(after, assignedBytes, block) <==>
            && PagesFor(after) == PagesFor(Remaining(after, assignedBytes))
            && BlocksFor(after, block) == BlocksFor(Remaining(after, assignedBytes), block)
  {
    hide PagesFor, BlocksFor, Passes;
    var left := Remaining(after, assignedBytes);
    UnitsGrow(left, after, block);
    forall disk: Disk
      ensures Passes(disk, block, after, 0, assignedBytes) <==> disk.pages + PagesFor(left) <= PAGES && BlocksFor(left, block) <= disk.blocks
      ensures Whole(disk, block, after) <==> disk.pages + PagesFor(after) <= PAGES && BlocksFor(after, block) <= disk.blocks
    {
      PassesInUnits(disk, block, after, assignedBytes);
      PassesInUnits(disk, block, after, 0);
    }
    if ChecksSuffice(after, assignedBytes, block) {
      var full := Disk(PAGES - PagesFor(left), BlocksFor(left, block));
      assert Kept(full, block, Commit(after, 0, assignedBytes, full));
      assert Whole(full, block, after);
    }
  }

  /** A write that passes both and breaks the reserve: it takes the last pages although it gives nothing up, and the next one, which takes nothing, is refused. */
  lemma ChecksAloneDoNotSuffice(disk: Disk, first: Commit, second: Commit, reserved: nat, block: Block)
    requires disk == Disk(130_022, 1_000_000) && block == 4_096 && reserved == 34_816
    requires first == Commit(34_816, 0, 34_816, Disk(130_048, 999_974))
    requires second == Commit(34_816, 0, 0, first.disk)
    ensures Whole(disk, block, reserved) && Kept(disk, block, first)
    ensures !Assigned(disk, block, reserved, first) && !Whole(first.disk, block, first.reserved)
    ensures Assigned(first.disk, block, first.reserved, second) && !Kept(first.disk, block, second)
  {
    assert first.disk.pages - disk.pages == 26;
    assert PagesFor(34_816) == 26 by { CeilDivIs(3 * 34_816, PAGE_BYTES, 26); CeilDivIs(3 * 34_816, PAGE_BYTES, 25); }
    UnitsGrow(0, 34_816, block);
  }
}
