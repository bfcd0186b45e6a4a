/** How a disk request is cut into commands, and how the buffer of a DMA command is described to the controller.
    Source: source/kernel/hardware/devices/hard_disk/parallel_ata.c:84-87, 108-168, 180-246;
    source/kernel/hardware/controllers/ide/ide.c:401-424 */
module DiskTransfer {
  import opened Arithmetic

  const PAGE: nat := 4096

  /** A PRDT is one page of 8-byte entries. */
  const ENTRIES: nat := 512

  const MAX_DMA_SECTORS: nat := 2044

  datatype Prd = Prd(address: nat, count: nat, last: bool)

  // ----- the descriptor table

  ghost predicate Aligned(pm: nat -> nat) {
    forall page :: pm(page) % PAGE == 0
  }

  /** The physical address of a virtual one. */
  function Physical(pm: nat -> nat, v: nat): nat {
    pm(v / PAGE) + v % PAGE
  }

  /** The physical image of a buffer, byte by byte. */
  function Image(pm: nat -> nat, buffer: nat, size: nat): seq<int> {
    seq(size, (i: nat) => Physical(pm, buffer + i))
  }

  function EntryBytes(e: Prd): seq<int> {
    seq(e.count, (i: nat) => e.address + i)
  }

  /** The bytes a table describes, entry by entry. */
  function TableBytes(table: seq<Prd>): seq<int> {
    if table == [] then [] else TableBytes(table[..|table| - 1]) + EntryBytes(table[|table| - 1])
  }

  /** How many pages a buffer touches. */
  function PagesTouched(buffer: nat, size: nat): nat {
    if size == 0 then 0 else (buffer + size - 1) / PAGE - buffer / PAGE + 1
  }

  lemma {:induction false} NextEntry(pm: nat -> nat, buffer: nat, done: nat, table: seq<Prd>, e: Prd)
    requires TableBytes(table) == Image(pm, buffer, done)
    requires e.address == Physical(pm, buffer + done) && (buffer + done) % PAGE + e.count <= PAGE
    ensures TableBytes(table + [e]) == Image(pm, buffer, done + e.count)
  {
    assert (table + [e])[..|table|] == table;
    var whole := Image(pm, buffer, done + e.count);
    forall i | 0 <= i < e.count
      ensures EntryBytes(e)[i] == whole[done + i]
    {
      InOnePage(buffer + done, i);
      assert buffer + (done + i) == (buffer + done) + i;
      assert whole[done + i] == Physical(pm, buffer + (done + i));
    }
    assert whole == Image(pm, buffer, done) + EntryBytes(e);
  }

  lemma InOnePage(v: nat, i: nat)
    requires v % PAGE + i < PAGE
    ensures (v + i) / PAGE == v / PAGE && (v + i) % PAGE == v % PAGE + i
  {
    assert v == v / PAGE * PAGE + v % PAGE;
  }

  lemma NextPage(v: nat, count: nat)
    requires v % PAGE + count == PAGE
    ensures (v + count) / PAGE == v / PAGE + 1 && (v + count) % PAGE == 0
  {
    assert v == v / PAGE * PAGE + v % PAGE;
    assert v + count == (v / PAGE + 1) * PAGE;
  }

  /** What the fill has written when `done` bytes of the buffer are described. */
  predicate Filled(pm: nat -> nat, buffer: nat, length: nat, done: nat, table: seq<Prd>) {
    && done <= length
    && TableBytes(table) == Image(pm, buffer, done)
    && |table| == PagesTouched(buffer, done)
    && (done < length && done > 0 ==> (buffer + done) % PAGE == 0)
    && var complete := done == length;
       forall k :: 0 <= k < |table| ==> EntrySoFar(table, k, complete)
  }

  predicate EntrySoFar(table: seq<Prd>, k: nat, complete: bool)
    requires k < |table|
  {
    && 1 <= table[k].count && table[k].address % PAGE + table[k].count <= PAGE
    && (table[k].last <==> complete && k == |table| - 1)
  }

  /** One more entry, up to the end of its page or of the buffer. */
  lemma {:induction false} FillOne(pm: nat -> nat, buffer: nat, length: nat, done: nat, table: seq<Prd>, e: Prd)
    requires Aligned(pm) && Filled(pm, buffer, length, done, table) && done < length
    requires e.address == Physical(pm, buffer + done) && (done == 0 ==> table == [])
    requires var rest := PAGE - (buffer + done) % PAGE; e.count == if rest > length - done then length - done else rest
    requires e.last <==> done + e.count == length
    ensures Filled(pm, buffer, length, done + e.count, table + [e])
  {
    NextEntry(pm, buffer, done, table, e);
    var v := buffer + done;
    assert pm(v / PAGE) % PAGE == 0;
    FirstEntryFits(pm(v / PAGE), v % PAGE);
    InOnePage(v, e.count - 1);
    if done > 0 { PageBefore(v); }
    if done + e.count < length { NextPage(v, e.count); }
    var complete := done + e.count == length;
    forall k | 0 <= k < |table| + 1
      ensures EntrySoFar(table + [e], k, complete)
    {
      if k < |table| { assert EntrySoFar(table, k, false); }
    }
  }

  lemma PageBefore(v: nat)
    requires v > 0 && v % PAGE == 0
    ensures (v - 1) / PAGE == v / PAGE - 1
  {
  }

  /** Writes one entry behind the first `n`. */
  method WriteEntry(prdt: array<Prd>, n: nat, pm: nat -> nat, bufferStart: nat, length: nat, buffer: nat, count: nat)
    requires Aligned(pm) && n < prdt.Length
    requires bufferStart <= buffer < bufferStart + length && (n == 0 <==> buffer == bufferStart)
    requires Filled(pm, bufferStart, length, buffer - bufferStart, prdt[..n])
    requires var left := bufferStart + length - buffer;
             count == if PAGE - buffer % PAGE > left then left else PAGE - buffer % PAGE
    modifies prdt
    ensures Filled(pm, bufferStart, length, buffer - bufferStart + count, prdt[..n + 1])
  {
    ghost var before := prdt[..n];
    prdt[n] := Prd(pm(buffer / PAGE) + buffer % PAGE, count, buffer + count == bufferStart + length);
    assert prdt[..n + 1] == before + [prdt[n]];
    FillOne(pm, bufferStart, length, buffer - bufferStart, before, prdt[n]);
  }

  /** The loop over the pages behind the first one: `entries` entries are filled up to `from`, and `left` bytes are
      left. */
  method FillPages(prdt: array<Prd>, entries: nat, pm: nat -> nat, bufferStart: nat, length: nat, from: nat, left: nat)
    returns (inside: bool, n: nat)
    requires Aligned(pm) && entries <= prdt.Length && bufferStart <= from && from + left == bufferStart + length
    requires left > 0 ==> from > bufferStart && entries > 0
    requires Filled(pm, bufferStart, length, from - bufferStart, prdt[..entries])
    modifies prdt
    ensures inside ==> n <= prdt.Length && Filled(pm, bufferStart, length, length, prdt[..n])
    ensures !inside ==> n == prdt.Length && PagesTouched(bufferStart, length) > prdt.Length
    ensures !inside ==> TableBytes(prdt[..]) < Image(pm, bufferStart, length)
  {
    var buffer, size := from, left;
    n := entries;
    while size > 0
      invariant buffer >= bufferStart && buffer + size == bufferStart + length
      invariant size > 0 ==> buffer > bufferStart && n > 0
      invariant n <= prdt.Length && Filled(pm, bufferStart, length, buffer - bufferStart, prdt[..n])
    {
      if n == prdt.Length {
        assert prdt[..n] == prdt[..];
        FullTable(pm, bufferStart, length, buffer - bufferStart, prdt[..]);
        return false, n;
      }
      var count := if size > PAGE then PAGE else size;
      WriteEntry(prdt, n, pm, bufferStart, length, buffer, count);
      size := size - count;
      buffer := buffer + count;
      n := n + 1;
    }
    inside := true;
  }

  /** Fills the descriptor table of a DMA command; the entries are the first `n` of `prdt`. The source does not look
      at the size of the table; where it would leave it, this stops with `inside` false. */
  method FillPrdt(prdt: array<Prd>, pm: nat -> nat, bufferStart: nat, length: nat) returns (inside: bool, n: nat)
    requires Aligned(pm)
    modifies prdt
    ensures inside <==> PagesTouched(bufferStart, length) <= prdt.Length
    ensures inside ==> n == PagesTouched(bufferStart, length)
    ensures inside ==> TableBytes(prdt[..n]) == Image(pm, bufferStart, length)
    ensures inside ==> forall k :: 0 <= k < n ==> EntrySoFar(prdt[..n], k, true)
    ensures !inside ==> n == prdt.Length && TableBytes(prdt[..]) < Image(pm, bufferStart, length)
  {
    var buffer, size := bufferStart, length;
    n := 0;
    assert prdt[..0] == [];
    var skip := buffer - buffer / PAGE * PAGE;
    var inFirst := PAGE - skip;
    if inFirst > size {
      inFirst := size;
    }
    if inFirst > 0 {
      RoomForOne(bufferStart, length, 0);
      if prdt.Length == 0 {
        FullTable(pm, bufferStart, length, 0, prdt[..]);
        return false, 0;
      }
      WriteEntry(prdt, n, pm, bufferStart, length, buffer, inFirst);
      size := size - inFirst;
      buffer := buffer + inFirst;
      n := n + 1;
    }
    inside, n := FillPages(prdt, n, pm, bufferStart, length, buffer, size);
  }

  /** A full table with something left to describe. */
  lemma {:induction false} FullTable(pm: nat -> nat, buffer: nat, length: nat, done: nat, table: seq<Prd>)
    requires Filled(pm, buffer, length, done, table) && done < length
    ensures PagesTouched(buffer, length) > |table| && TableBytes(table) < Image(pm, buffer, length)
  {
    RoomForOne(buffer, length, done);
    ImageJoins(pm, buffer, done, length - done);
  }

  lemma {:induction false} ImageJoins(pm: nat -> nat, buffer: nat, m: nat, n: nat)
    ensures Image(pm, buffer, m + n) == Image(pm, buffer, m) + Image(pm, buffer + m, n)
  {
    var whole, rest := Image(pm, buffer, m + n), Image(pm, buffer + m, n);
    forall i | 0 <= i < n
      ensures whole[m + i] == rest[i]
    {
      assert buffer + (m + i) == (buffer + m) + i;
    }
  }

  lemma FirstEntryFits(base: nat, skip: nat)
    requires base % PAGE == 0 && skip < PAGE
    ensures (base + skip) % PAGE == skip
  {
    assert base + skip == base / PAGE * PAGE + skip;
  }

  lemma RoomForOne(buffer: nat, length: nat, done: nat)
    requires done < length && (done > 0 ==> (buffer + done) % PAGE == 0)
    ensures PagesTouched(buffer, done) < PagesTouched(buffer, length)
  {
    if done > 0 { PageBefore(buffer + done); }
    assert (buffer + done) / PAGE <= (buffer + length - 1) / PAGE;
  }

  /** The table fits its page exactly when the buffer, counted from the start of its first page, is no longer
      than 2 MiB. */
  lemma PrdtFitsIff(buffer: nat, size: nat)
    ensures PagesTouched(buffer, size) <= ENTRIES <==> size == 0 || buffer % PAGE + size <= ENTRIES * PAGE
  {
    if size > 0 {
      var first, skip := buffer / PAGE, buffer % PAGE;
      assert buffer + size - 1 == first * PAGE + (skip + size - 1);
      assert (buffer + size - 1) / PAGE == first + (skip + size - 1) / PAGE;
    }
  }

  /** With 512-byte sectors a chunk needs at most 257 entries. */
  lemma ChunkFits(buffer: nat, sectors: nat)
    requires sectors <= MAX_DMA_SECTORS
    ensures PagesTouched(buffer, sectors * 512) <= 257 < ENTRIES
  {
    if sectors > 0 {
      assert buffer + sectors * 512 - 1 < (buffer / PAGE + 1) * PAGE + 256 * PAGE;
    }
  }

  /** With 4096-byte sectors a full chunk never fits. */
  lemma BigSectorsDoNotFit(buffer: nat)
    ensures PagesTouched(buffer, MAX_DMA_SECTORS * 4096) > ENTRIES
  {
    PrdtFitsIff(buffer, MAX_DMA_SECTORS * 4096);
  }

  // ----- cutting a request into commands

  datatype Chunk = Chunk(lba: nat, sectors: nat, buffer: nat)

  /** Which sector goes where. */
  datatype Placed = Placed(lba: nat, at: nat)

  /** `n * size`, added up. */
  function Times(n: nat, size: nat): nat {
    if n == 0 then 0 else Times(n - 1, size) + size
  }

  lemma {:induction false} TimesIsProduct(n: nat, size: nat)
    ensures Times(n, size) == n * size
  {
    if n > 0 { TimesIsProduct(n - 1, size); }
  }

  lemma {:induction false} TimesAdds(m: nat, n: nat, size: nat)
    ensures Times(m, size) + Times(n, size) == Times(m + n, size)
  {
    if n > 0 { TimesAdds(m, n - 1, size); }
  }

  function ChunkSectors(c: Chunk, sectorSize: nat): seq<Placed> {
    seq(c.sectors, (i: nat) => Placed(c.lba + i, c.buffer + Times(i, sectorSize)))
  }

  function AllSectors(chunks: seq<Chunk>, sectorSize: nat): seq<Placed> {
    if chunks == [] then []
    else AllSectors(chunks[..|chunks| - 1], sectorSize) + ChunkSectors(chunks[|chunks| - 1], sectorSize)
  }

  lemma {:induction false} NextChunk(chunks: seq<Chunk>, c: Chunk, lba: nat, buffer: nat, done: nat, sectorSize: nat)
    requires AllSectors(chunks, sectorSize) == ChunkSectors(Chunk(lba, done, buffer), sectorSize)
    requires c.lba == lba + done && c.buffer == buffer + Times(done, sectorSize)
    ensures AllSectors(chunks + [c], sectorSize) == ChunkSectors(Chunk(lba, done + c.sectors, buffer), sectorSize)
  {
    assert (chunks + [c])[..|chunks|] == chunks;
    forall i | 0 <= i < c.sectors
      ensures c.buffer + Times(i, sectorSize) == buffer + Times(done + i, sectorSize)
    {
      TimesAdds(done, i, sectorSize);
    }
    assert ChunkSectors(Chunk(lba, done + c.sectors, buffer), sectorSize)
        == ChunkSectors(Chunk(lba, done, buffer), sectorSize) + ChunkSectors(c, sectorSize);
  }

  /** All commands but the last move `max` sectors. */
  predicate SizeOk(chunks: seq<Chunk>, k: nat, max: nat)
    requires k < |chunks|
  {
    1 <= chunks[k].sectors <= max && (k < |chunks| - 1 ==> chunks[k].sectors == max)
  }

  /** The commands sent when `done` of `count` sectors are under way. */
  predicate Sent(chunks: seq<Chunk>, lba: nat, count: nat, buffer: nat, max: nat, sectorSize: nat, done: nat)
    requires max > 0
  {
    && done <= count
    && AllSectors(chunks, sectorSize) == ChunkSectors(Chunk(lba, done, buffer), sectorSize)
    && (forall k :: 0 <= k < |chunks| ==> SizeOk(chunks, k, max))
    && (if done < count then done == Times(|chunks|, max) && (chunks != [] ==> chunks[|chunks| - 1].sectors == max)
        else |chunks| == Ceiling(count, max))
  }

  lemma {:induction false} SendOne(chunks: seq<Chunk>, c: Chunk, lba: nat, count: nat, buffer: nat, max: nat,
                                   sectorSize: nat, done: nat)
    requires max > 0 && Sent(chunks, lba, count, buffer, max, sectorSize, done) && done < count
    requires c.sectors == (if max > count - done then count - done else max)
    requires c.lba == lba + done && c.buffer == buffer + Times(done, sectorSize)
    ensures Sent(chunks + [c], lba, count, buffer, max, sectorSize, done + c.sectors)
  {
    NextChunk(chunks, c, lba, buffer, done, sectorSize);
    if done + c.sectors == count { LastChunk(count, max, |chunks|, c.sectors); }
    forall k | 0 <= k < |chunks| + 1
      ensures SizeOk(chunks + [c], k, max)
    {
      if k < |chunks| { assert SizeOk(chunks, k, max); }
    }
  }

  /** Reads or writes `count` sectors in commands of at most `max`; `works` says whether the k-th command
      succeeds. A failing command ends the request. Up to there the commands are for each sector once, in order. */
  method Transfer(lbaStart: nat, count: nat, bufferStart: nat, max: nat, sectorSize: nat, works: nat -> bool)
    returns (ok: bool, chunks: seq<Chunk>)
    requires max > 0
    ensures forall k :: 0 <= k < |chunks| ==> SizeOk(chunks, k, max)
    ensures forall k :: 0 <= k < |chunks| - 1 ==> works(k)
    ensures ok <==> |chunks| == Ceiling(count, max) && forall k :: 0 <= k < |chunks| ==> works(k)
    ensures ok ==> AllSectors(chunks, sectorSize) == ChunkSectors(Chunk(lbaStart, count, bufferStart), sectorSize)
    ensures AllSectors(chunks, sectorSize) <= ChunkSectors(Chunk(lbaStart, count, bufferStart), sectorSize)
  {
    var lba, left, buffer := lbaStart, count, bufferStart;
    chunks := [];
    EmptyRequest(count, max);
    while left > 0
      invariant left <= count && lba == lbaStart + (count - left)
      invariant buffer == bufferStart + Times(count - left, sectorSize)
      invariant Sent(chunks, lbaStart, count, bufferStart, max, sectorSize, count - left)
      invariant forall k :: 0 <= k < |chunks| ==> works(k)
    {
      var sectors := if max > left then left else max;
      var c := Chunk(lba, sectors, buffer);
      SendOne(chunks, c, lbaStart, count, bufferStart, max, sectorSize, count - left);
      chunks := chunks + [c];
      if !works(|chunks| - 1) {
        ShorterIsPrefix(lbaStart, count - left + sectors, count, bufferStart, sectorSize);
        return false, chunks;
      }
      TimesAdds(count - left, sectors, sectorSize);
      TimesIsProduct(sectors, sectorSize);
      lba := lba + sectors;
      left := left - sectors;
      buffer := buffer + sectors * sectorSize;
    }
    assert count - left == count;
    return true, chunks;
  }

  lemma EmptyRequest(count: nat, max: nat)
    requires max > 0
    ensures count == 0 ==> Ceiling(count, max) == 0
  {
  }

  function Ceiling(count: nat, max: nat): nat
    requires max > 0
  {
    (count + max - 1) / max
  }

  lemma ShorterIsPrefix(lba: nat, done: nat, count: nat, buffer: nat, sectorSize: nat)
    requires done <= count
    ensures ChunkSectors(Chunk(lba, done, buffer), sectorSize) <= ChunkSectors(Chunk(lba, count, buffer), sectorSize)
  {
    var all := ChunkSectors(Chunk(lba, count, buffer), sectorSize);
    assert ChunkSectors(Chunk(lba, done, buffer), sectorSize) == all[..done];
  }

  lemma LastChunk(count: nat, max: nat, k: nat, left: nat)
    requires max > 0 && 1 <= left <= max && count - left == Times(k, max)
    ensures Ceiling(count, max) == k + 1
  {
    TimesIsProduct(k, max);
    assert (k + 1) * max == k * max + max;
    Quotient(count + max - 1, max, k + 1, left - 1);
  }

  // ----- a DMA request of 512-byte sectors as a whole

  const SECTOR: nat := 512

  /** One command: its buffer always fits the table. */
  method DescribeChunk(prdt: array<Prd>, pm: nat -> nat, c: Chunk) returns (n: nat)
    requires prdt.Length == ENTRIES && Aligned(pm) && c.sectors <= MAX_DMA_SECTORS
    modifies prdt
    ensures n <= ENTRIES && TableBytes(prdt[..n]) == Image(pm, c.buffer, c.sectors * SECTOR)
    ensures forall k :: 0 <= k < n ==> EntrySoFar(prdt[..n], k, true)
  {
    ChunkFits(c.buffer, c.sectors);
    var inside;
    inside, n := FillPrdt(prdt, pm, c.buffer, c.sectors * SECTOR);
  }

  /** A read or write by DMA: command after command the table is filled and the command sent. `chunks` are the
      commands, `described` is what the tables describe, one after the other. */
  method TransferDma(lbaStart: nat, count: nat, bufferStart: nat, pm: nat -> nat, works: nat -> bool, prdt: array<Prd>)
    returns (ok: bool, sent: nat, ghost chunks: seq<Chunk>, ghost described: seq<int>)
    requires prdt.Length == ENTRIES && Aligned(pm)
    modifies prdt
    ensures sent <= count && (ok <==> forall k :: 0 <= k < Ceiling(count, MAX_DMA_SECTORS) ==> works(k))
    ensures Sent(chunks, lbaStart, count, bufferStart, MAX_DMA_SECTORS, SECTOR, sent)
    ensures described == Image(pm, bufferStart, sent * SECTOR)
    ensures ok ==> sent == count
  {
    var lba, left, buffer, k := lbaStart, count, bufferStart, 0;
    sent, chunks, described := 0, [], [];
    while left > 0
      invariant left == count - sent && 0 <= sent <= count && buffer == bufferStart + sent * SECTOR
      invariant lba == lbaStart + sent
      invariant Sent(chunks, lbaStart, count, bufferStart, MAX_DMA_SECTORS, SECTOR, sent)
      invariant described == Image(pm, bufferStart, sent * SECTOR)
      invariant if left > 0 then sent == k * MAX_DMA_SECTORS else k == Ceiling(count, MAX_DMA_SECTORS)
      invariant forall i :: 0 <= i < k ==> works(i)
    {
      var sectors := if MAX_DMA_SECTORS > left then left else MAX_DMA_SECTORS;
      var n := DescribeChunk(prdt, pm, Chunk(lba, sectors, buffer));
      ImageJoins(pm, bufferStart, sent * SECTOR, sectors * SECTOR);
      described := described + TableBytes(prdt[..n]);
      ChunksLeft(count, sent, sectors, k);
      SectorPlaces(sent);
      SendOne(chunks, Chunk(lba, sectors, buffer), lbaStart, count, bufferStart, MAX_DMA_SECTORS, SECTOR, sent);
      chunks := chunks + [Chunk(lba, sectors, buffer)];
      sent := sent + sectors;
      if !works(k) {
        return false, sent, chunks, described;
      }
      k := k + 1;
      lba := lba + sectors;
      left := left - sectors;
      buffer := buffer + sectors * SECTOR;
    }
    return true, sent, chunks, described;
  }

  lemma SectorPlaces(sent: nat)
    ensures Times(sent, SECTOR) == sent * SECTOR
  {
    TimesIsProduct(sent, SECTOR);
  }

  lemma {:induction false} ChunksLeft(count: nat, sent: nat, sectors: nat, k: nat)
    requires sent < count && sent == k * MAX_DMA_SECTORS
    requires sectors == if MAX_DMA_SECTORS > count - sent then count - sent else MAX_DMA_SECTORS
    ensures k < Ceiling(count, MAX_DMA_SECTORS)
    ensures sent + sectors == count ==> k + 1 == Ceiling(count, MAX_DMA_SECTORS)
    ensures sent + sectors < count ==> sent + sectors == (k + 1) * MAX_DMA_SECTORS
  {
  }

  // ----- what a DMA command asks the disk for

  const LBA28_LIMIT: nat := 0x100_0000

  /** The count registers: 8 bits below sector 2^24, 16 bits from there on; zero stands for the most they can say. */
  function AskedSectors(lba: nat, sectors: nat): nat {
    var most := if lba < LBA28_LIMIT then 0x100 else 0x1_0000;
    if sectors % most == 0 then most else sectors % most
  }

  /** A command within the maximum asks for its sectors if and only if it begins at sector 2^24 or behind it, or is
      for at most 256; a full one below that asks for 252 of 2044. */
  lemma {:induction false} AskedIff(lba: nat, sectors: nat)
    requires 1 <= sectors <= MAX_DMA_SECTORS
    ensures AskedSectors(lba, sectors) == sectors <==> lba >= LBA28_LIMIT || sectors <= 0x100
    ensures lba < LBA28_LIMIT ==> AskedSectors(lba, MAX_DMA_SECTORS) == 252
  {
  }
}
