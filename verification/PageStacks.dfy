/** The allocator's routines as code over the stacks themselves: the batched local allocation and
    release of one core, and the contiguous allocator that cuts a run out of the global stack.
    Source: source/kernel/hardware/devices/memory/physical_memory.c */
module PageStacks {
  import opened PageAllocator

  const PAGE_SIZE: nat := 4096
  const WORD: nat := 0x1_0000_0000

  datatype Option<T> = None | Some(value: T)

  function Reverse(s: seq<Page>): (r: seq<Page>)
    ensures |r| == |s| && forall k :: 0 <= k < |s| ==> r[k] == s[|s| - 1 - k]
  {
    if s == [] then [] else [Top(s)] + Reverse(Pop(s))
  }

  function Min(a: nat, b: nat): nat {
    if a < b then a else b
  }

  // ----- the refill of an empty local stack

  /** What `moved` turns of the refill loop take off the global stack, in the order they arrive. */
  function Loaded(free: seq<Page>, moved: nat): seq<Page>
    requires moved <= |free|
  {
    Reverse(free[|free| - moved..])
  }

  function Remaining(free: seq<Page>, moved: nat): seq<Page>
    requires moved <= |free|
  {
    free[..|free| - moved]
  }

  function RefillCount(free: seq<Page>): nat {
    Min(REFILL_BATCH, |free|)
  }

  /** Core `c` after `moved` turns of its refill loop. */
  function Refilling(s: State, c: nat, moved: nat): State
    requires c < |s.cores| && moved <= |s.free|
  {
    s.(free := Remaining(s.free, moved),
       cores := s.cores[c := s.cores[c].(transit := Loaded(s.free, moved), pc := Loading(moved))])
  }

  lemma LoadTurn(s: State, c: nat, moved: nat)
    requires s.panic.Running? && c < |s.cores| && moved < RefillCount(s.free)
    ensures Enabled(Refilling(s, c, moved), LoadOne(c))
    ensures Apply(Refilling(s, c, moved), LoadOne(c)) == Refilling(s, c, moved + 1)
  {
    LoadedGrows(s.free, moved);
  }

  /** The refill loop of one core, run without interruption, is the batch move of the code below. */
  lemma {:induction false} LoadRun(s: State, c: nat, moved: nat)
    requires s.panic.Running? && c < |s.cores| && s.cores[c].pc == Loading(0) && s.cores[c].transit == []
    requires moved <= RefillCount(s.free)
    ensures CanRun(s, Repeat(LoadOne(c), moved)) && Run(s, Repeat(LoadOne(c), moved)) == Refilling(s, c, moved)
  {
    if moved == 0 {
      assert Refilling(s, c, 0) == s;
    } else {
      LoadRun(s, c, moved - 1);
      LoadTurn(s, c, moved - 1);
      Extend(s, Repeat(LoadOne(c), moved - 1), Refilling(s, c, moved - 1), LoadOne(c));
    }
  }

  /** Core `c` after `moved` turns of its spill loop. */
  function Spilling(s: State, c: nat, page: Page, moved: nat): State
    requires c < |s.cores| && moved <= |s.cores[c].stack|
  {
    var stack := s.cores[c].stack;
    s.(free := s.free + Loaded(stack, moved),
       cores := s.cores[c := s.cores[c].(stack := Remaining(stack, moved), pc := Storing(page, moved))])
  }

  lemma StoreTurn(s: State, c: nat, page: Page, moved: nat)
    requires s.panic.Running? && c < |s.cores| && moved < |s.cores[c].stack| && moved < SPILL_BATCH
    requires |s.free| + moved < s.capacity
    ensures Enabled(Spilling(s, c, page, moved), StoreOne(c))
    ensures Apply(Spilling(s, c, page, moved), StoreOne(c)) == Spilling(s, c, page, moved + 1)
  {
    LoadedGrows(s.cores[c].stack, moved);
    var stack := s.cores[c].stack;
    assert (s.free + Loaded(stack, moved)) + [Top(Remaining(stack, moved))] == s.free + Loaded(stack, moved + 1);
  }

  lemma NothingSpilled(s: State, c: nat, page: Page)
    requires c < |s.cores| && s.cores[c].pc == Storing(page, 0)
    ensures Spilling(s, c, page, 0) == s
  {
    var stack := s.cores[c].stack;
    assert Loaded(stack, 0) == [] && Remaining(stack, 0) == stack;
    assert s.free + [] == s.free;
    var core := s.cores[c].(stack := stack, pc := Storing(page, 0));
    assert core == s.cores[c] && s.cores[c := core] == s.cores;
  }

  /** The spill loop of one core, run without interruption where the global stack has room, is the batch move of
      the code below. */
  lemma {:induction false} SpillRun(s: State, c: nat, page: Page, moved: nat)
    requires s.panic.Running? && c < |s.cores| && s.cores[c].pc == Storing(page, 0)
    requires moved <= SPILL_BATCH && moved <= |s.cores[c].stack| && |s.free| + moved <= s.capacity
    ensures CanRun(s, Repeat(StoreOne(c), moved))
    ensures Run(s, Repeat(StoreOne(c), moved)) == Spilling(s, c, page, moved)
  {
    if moved == 0 {
      NothingSpilled(s, c, page);
    } else {
      SpillRun(s, c, page, moved - 1);
      StoreTurn(s, c, page, moved - 1);
      var steps := Repeat(StoreOne(c), moved - 1);
      Extend(s, steps, Spilling(s, c, page, moved - 1), StoreOne(c));
      assert Repeat(StoreOne(c), moved) == steps + [StoreOne(c)];
    }
  }

  lemma Extend(s: State, steps: seq<Step>, t: State, last: Step)
    requires CanRun(s, steps) && Run(s, steps) == t && Enabled(t, last)
    ensures CanRun(s, steps + [last]) && Run(s, steps + [last]) == Apply(t, last)
  {
    RunAppend(s, steps, last);
  }

  function Repeat(st: Step, n: nat): seq<Step> {
    if n == 0 then [] else Repeat(st, n - 1) + [st]
  }

  lemma LoadedGrows(free: seq<Page>, moved: nat)
    requires moved < |free|
    ensures Loaded(free, moved + 1) == Loaded(free, moved) + [Top(Remaining(free, moved))]
    ensures Remaining(free, moved + 1) == Pop(Remaining(free, moved))
  {
  }

  lemma {:induction false} RunAppend(s: State, steps: seq<Step>, last: Step)
    requires CanRun(s, steps) && Enabled(Run(s, steps), last)
    ensures CanRun(s, steps + [last])
    ensures Run(s, steps + [last]) == Apply(Run(s, steps), last)
    decreases |steps|
  {
    if steps != [] {
      RunAppend(Apply(s, steps[0]), steps[1..], last);
      assert (steps + [last])[1..] == steps[1..] + [last];
    }
  }

  // ----- contiguous runs of pages

  /** The physical page after `p`, in 32-bit arithmetic. */
  function After(p: Page): Page {
    (p + PAGE_SIZE) % WORD
  }

  /** Stack entries `top - n + 1 .. top` are `n` pages whose addresses grow towards the bottom. */
  predicate IsRun(s: seq<Page>, top: int, n: nat) {
    && n - 1 <= top < |s|
    && forall k :: top - n + 1 < k <= top ==> s[k - 1] == After(s[k])
  }

  /** The request in pages: `size` is rounded up to a page in 32-bit arithmetic. */
  function PagesFor(size: nat): nat {
    (if size % PAGE_SIZE != 0 then (size - size % PAGE_SIZE + PAGE_SIZE) % WORD else size) / PAGE_SIZE
  }

  function Cut(s: seq<Page>, top: int, n: nat): seq<Page>
    requires n - 1 <= top < |s|
  {
    s[..top + 1 - n] + s[top + 1..]
  }

  class GlobalStack {
    var entries: array<Page>
    var top: nat

    ghost predicate Valid()
      reads this
    {
      top <= entries.Length
    }

    ghost function Contents(): seq<Page>
      reads this, entries
      requires Valid()
    {
      entries[..top]
    }

    constructor (capacity: nat)
      ensures Valid() && fresh(entries) && entries.Length == capacity && Contents() == []
    {
      entries := new Page[capacity];
      top := 0;
    }

    /** The block copy: entries from `src` up to the top move `n` places down, and the top with them. */
    method CutOut(high: nat, n: nat)
      requires Valid() && n - 1 <= high < top
      modifies this`top, entries
      ensures Valid() && entries == old(entries) && Contents() == Cut(old(Contents()), high, n)
    {
      ghost var s := Contents();
      forall k | high + 1 <= k < top {
        entries[k - n] := entries[k];
      }
      assert entries[..high + 1 - n] == s[..high + 1 - n];
      assert entries[high + 1 - n..top - n] == s[high + 1..];
      top := top - n;
      assert entries[..top] == entries[..high + 1 - n] + entries[high + 1 - n..top];
    }

    /** The inner loop of the search: from entry `high` down, as long as the pages are consecutive. */
    method RunDown(high: nat) returns (low: int)
      requires Valid() && high < top
      ensures 0 <= low <= high && Ascends(Contents(), low, high)
      ensures low == 0 || Contents()[low - 1] != After(Contents()[low])
    {
      low := high;
      while low > 0 && After(entries[low]) == entries[low - 1]
        invariant 0 <= low <= high && Ascends(Contents(), low, high)
      {
        low := low - 1;
      }
    }

    /** Cuts `PagesFor(size)` consecutive pages out of the stack and returns the lowest one. */
    method AllocContinuous(size: nat) returns (page: Option<Page>, ghost at: int)
      requires Valid() && size < WORD
      modifies this`top, entries
      ensures Valid() && entries == old(entries)
      ensures page.None? ==> Contents() == old(Contents())
      ensures page.Some? ==>
                var n := PagesFor(size);
                && 4 * n <= |old(Contents())|
                && IsRun(old(Contents()), at, n) && 0 <= at
                && page.value == old(Contents())[at]
                && Contents() == Cut(old(Contents()), at, n)
      ensures PagesFor(size) > 0 && page.None? ==>
                || 4 * PagesFor(size) > |old(Contents())|
                || forall t :: !IsRun(old(Contents()), t, PagesFor(size))
      ensures PagesFor(size) == 0 ==> (page.Some? <==> |old(Contents())| >= 2)
    {
      var n := PagesFor(size);
      ghost var s := Contents();
      at := -1;
      if top < 4 * n {
        return None, at;
      }
      var start: int := top - 1;
      while start > 0
        invariant -1 <= start < top && top == old(top) && Contents() == s
        invariant n == 0 ==> start == top - 1
        invariant n > 0 ==> NoRunAbove(s, start, n)
      {
        var first := entries[start];
        var low := RunDown(start);
        if start - low + 1 >= n {
          at := start;
          LongRun(s, low, start, n);
          CutOut(start, n);
          return Some(first), at;
        }
        ShortRun(s, low, start, n);
        start := low - 1;
      }
      if n > 0 {
        LastEntry(s, n, start);
      }
      return None, at;
    }
  }

  /** Entries `low` to `high` are consecutive pages. */
  predicate Ascends(s: seq<Page>, low: int, high: int)
    requires 0 <= low <= high < |s|
  {
    forall k :: low < k <= high ==> s[k - 1] == After(s[k])
  }

  /** No run of `n` has its top above entry `start`. */
  predicate NoRunAbove(s: seq<Page>, start: int, n: nat) {
    forall t :: start < t < |s| ==> !IsRun(s, t, n)
  }

  /** The upper end of a run of at least `n` is a run of `n`. */
  lemma LongRun(s: seq<Page>, low: int, high: int, n: nat)
    requires 0 <= low <= high < |s| && high - low + 1 >= n && Ascends(s, low, high)
    ensures IsRun(s, high, n)
  {
  }

  /** A maximal run shorter than `n` contains no run of `n`. */
  lemma ShortRun(s: seq<Page>, low: int, high: int, n: nat)
    requires 0 <= low <= high < |s| && high - low + 1 < n
    requires low == 0 || s[low - 1] != After(s[low])
    requires NoRunAbove(s, high, n)
    ensures NoRunAbove(s, low - 1, n)
  {
    forall t | low <= t <= high ensures !IsRun(s, t, n) {
      assert t - n + 1 < low && (low > 0 ==> s[low - 1] != After(s[low]));
    }
  }

  /** The bottom entry, which the search never starts from, cannot be a run of its own here. */
  lemma LastEntry(s: seq<Page>, n: nat, start: int)
    requires n > 0 && 4 * n <= |s| && -1 <= start <= 0
    requires NoRunAbove(s, start, n)
    ensures forall t :: !IsRun(s, t, n)
  {
    if n == 1 {
      assert IsRun(s, |s| - 1, n);
    }
  }

  // ----- what a contiguous allocation means

  /** The `k`-th page of the block that starts at `page`. */
  function PageOfBlock(page: Page, k: nat): Page {
    (page + k * PAGE_SIZE) % WORD
  }

  lemma {:induction false} RunPages(s: seq<Page>, top: int, n: nat, k: nat)
    requires IsRun(s, top, n) && k < n && s[top] < WORD
    ensures s[top - k] == PageOfBlock(s[top], k)
  {
    if k > 0 {
      RunPages(s, top, n, k - 1);
      assert s[top - k] == After(s[top - k + 1]);
      ModAdd(s[top] + (k - 1) * PAGE_SIZE, PAGE_SIZE);
    }
  }

  lemma ModAdd(a: nat, b: nat)
    ensures (a % WORD + b) % WORD == (a + b) % WORD
  {
    assert a == a / WORD * WORD + a % WORD;
    assert a + b == (a % WORD + b) + a / WORD * WORD;
    ModShift(a % WORD + b, a / WORD);
  }

  lemma {:induction false} ModShift(a: nat, q: nat)
    ensures (a + q * WORD) % WORD == a % WORD
  {
    if q > 0 {
      ModShift(a, q - 1);
    }
  }

  predicate Distinct(s: seq<Page>) {
    forall i, j :: 0 <= i < j < |s| ==> s[i] != s[j]
  }

  /** Cutting a run leaves the rest in order, takes exactly the block's pages, and they are gone. */
  lemma CutTakesTheBlock(s: seq<Page>, top: int, n: nat)
    requires IsRun(s, top, n) && 0 <= top && Distinct(s) && s[top] < WORD
    ensures |Cut(s, top, n)| == |s| - n
    ensures forall k :: 0 <= k < n ==> PageOfBlock(s[top], k) in s && PageOfBlock(s[top], k) !in Cut(s, top, n)
    ensures forall x :: x in s && x !in Cut(s, top, n) ==> exists k :: 0 <= k < n && x == PageOfBlock(s[top], k)
    ensures Distinct(Cut(s, top, n))
  {
    forall k | 0 <= k < n
      ensures PageOfBlock(s[top], k) in s && PageOfBlock(s[top], k) !in Cut(s, top, n)
    {
      RunPages(s, top, n, k);
      NotInCut(s, top, n, top - k);
    }
    forall x | x in s && x !in Cut(s, top, n)
      ensures exists k :: 0 <= k < n && x == PageOfBlock(s[top], k)
    {
      var i :| 0 <= i < |s| && s[i] == x;
      InCut(s, top, n, i);
      RunPages(s, top, n, top - i);
      assert x == PageOfBlock(s[top], top - i);
    }
  }

  lemma NotInCut(s: seq<Page>, top: int, n: nat, i: int)
    requires n - 1 <= top < |s| && 0 <= top - n + 1 <= i <= top && Distinct(s)
    ensures s[i] !in Cut(s, top, n)
  {
    var low := s[..top + 1 - n];
    var high := s[top + 1..];
    assert forall k :: 0 <= k < |low| ==> low[k] == s[k];
    assert forall k :: 0 <= k < |high| ==> high[k] == s[top + 1 + k];
  }

  lemma InCut(s: seq<Page>, top: int, n: nat, i: int)
    requires n - 1 <= top < |s| && 0 <= i < |s|
    ensures s[i] in Cut(s, top, n) || top + 1 - n <= i <= top
  {
    if i < top + 1 - n {
      assert Cut(s, top, n)[i] == s[i];
    } else if i > top {
      assert Cut(s, top, n)[i - n] == s[i];
    }
  }

  /** The request is empty exactly for size 0 and for sizes whose rounding wraps around. */
  lemma EmptyRequest(size: nat)
    requires size < WORD
    ensures PagesFor(size) == 0 <==> (size == 0 || size > 0xFFFF_F000)
    ensures 0 < size <= 0xFFFF_F000 ==> (PagesFor(size) - 1) * PAGE_SIZE < size <= PagesFor(size) * PAGE_SIZE
  {
  }

  /** A granted request leaves its page off the free stack if and only if the size is neither 0 nor so
      large that rounding it up to a page wraps around; in those cases the page is still free. */
  lemma GrantedPageIsTaken(s: seq<Page>, top: int, size: nat)
    requires size < WORD && Distinct(s) && 0 <= top < |s| && s[top] < WORD && IsRun(s, top, PagesFor(size))
    ensures s[top] !in Cut(s, top, PagesFor(size)) <==> 0 < size <= 0xFFFF_F000
  {
    EmptyRequest(size);
    var n := PagesFor(size);
    if n > 0 {
      NotInCut(s, top, n, top);
    } else {
      assert Cut(s, top, 0) == s;
    }
  }

  // ----- one core's stack

  /** `slots[0]` is the number of pages; they are in `slots[1..]`. */
  class LocalStack {
    var slots: array<nat>

    ghost predicate Valid()
      reads this, slots
    {
      slots.Length == LOCAL_CAPACITY + 1 && slots[0] <= LOCAL_CAPACITY
    }

    ghost function Contents(): seq<Page>
      reads this, slots
      requires Valid()
    {
      slots[1..slots[0] + 1]
    }

    constructor ()
      ensures Valid() && fresh(slots) && Contents() == []
    {
      slots := new nat[LOCAL_CAPACITY + 1](_ => 0);
    }

    /** Pops the global stack into slot `index`. */
    method MoveIn(g: GlobalStack, index: nat)
      requires g.Valid() && g.top > 0 && g.entries != slots && 0 < index < slots.Length
      modifies slots, g`top
      ensures g.Valid() && slots[0] == old(slots[0])
      ensures g.Contents() == Pop(old(g.Contents()))
      ensures slots[1..index + 1] == old(slots[1..index]) + [Top(old(g.Contents()))]
    {
      g.top := g.top - 1;
      slots[index] := g.entries[g.top];
    }

    /** Refills an empty stack from the global one. `false` is the out-of-memory panic. */
    method Refill(g: GlobalStack) returns (ok: bool)
      requires Valid() && g.Valid() && g.entries != slots && slots[0] == 0
      modifies slots, g`top
      ensures Valid() && g.Valid()
      ensures ok <==> old(g.Contents()) != []
      ensures !ok ==> Contents() == [] && g.Contents() == old(g.Contents())
      ensures ok ==> Contents() == Loaded(old(g.Contents()), RefillCount(old(g.Contents())))
      ensures ok ==> g.Contents() == Remaining(old(g.Contents()), RefillCount(old(g.Contents())))
    {
      ghost var free := g.Contents();
      if g.top == 0 {
        return false;
      }
      var index := 0;
      for i := 0 to REFILL_BATCH
        invariant index <= i && index <= |free| && (index < i ==> index == |free|)
        invariant g.Valid() && g.Contents() == Remaining(free, index)
        invariant slots.Length == LOCAL_CAPACITY + 1 && slots[0] == 0
        invariant slots[1..index + 1] == Loaded(free, index)
      {
        if g.top == 0 {
          break;
        }
        LoadedGrows(free, index);
        index := index + 1;
        MoveIn(g, index);
      }
      slots[0] := index;
      return true;
    }

    method AllocPage(g: GlobalStack) returns (page: Option<Page>)
      requires Valid() && g.Valid() && g.entries != slots
      modifies slots, g`top
      ensures Valid() && g.Valid()
      ensures page.None? <==> old(Contents()) == [] && old(g.Contents()) == []
      ensures page.None? ==> Contents() == [] && g.Contents() == []
      ensures old(Contents()) != [] ==>
                && page == Some(Top(old(Contents()))) && Contents() == Pop(old(Contents()))
                && g.Contents() == old(g.Contents())
      ensures old(Contents()) == [] && old(g.Contents()) != [] ==>
                var free := old(g.Contents());
                var loaded := Loaded(free, RefillCount(free));
                && page == Some(Top(loaded)) && Contents() == Pop(loaded)
                && g.Contents() == Remaining(free, RefillCount(free))
    {
      if slots[0] == 0 {
        var ok := Refill(g);
        if !ok {
          return None;
        }
      }
      var newest := PopSlot();
      return Some(newest);
    }

    method PopSlot() returns (page: Page)
      requires Valid() && Contents() != []
      modifies slots
      ensures Valid() && page == Top(old(Contents())) && Contents() == Pop(old(Contents()))
    {
      page := slots[slots[0]];
      slots[0] := slots[0] - 1;
    }

    /** Pushes slot `index` onto the global stack. */
    method MoveOut(g: GlobalStack, index: nat)
      requires g.Valid() && g.top < g.entries.Length && g.entries != slots && index < slots.Length
      modifies g`top, g.entries
      ensures g.Valid() && g.entries == old(g.entries)
      ensures g.Contents() == old(g.Contents()) + [slots[index]]
    {
      g.entries[g.top] := slots[index];
      g.top := g.top + 1;
    }

    /** Moves the newest 128 pages of a full stack to the global one. `false` is the overflow panic. */
    method Spill(g: GlobalStack) returns (ok: bool)
      requires Valid() && g.Valid() && g.entries != slots && slots[0] == LOCAL_CAPACITY
      modifies slots, g`top, g.entries
      ensures Valid() && g.Valid() && g.entries == old(g.entries)
      ensures ok <==> |old(g.Contents())| + SPILL_BATCH <= g.entries.Length
      ensures ok ==> Contents() == Remaining(old(Contents()), SPILL_BATCH)
      ensures ok ==> g.Contents() == old(g.Contents()) + Loaded(old(Contents()), SPILL_BATCH)
    {
      ghost var own := Contents();
      ghost var free := g.Contents();
      var index := LOCAL_CAPACITY;
      for i := 0 to SPILL_BATCH
        invariant index == LOCAL_CAPACITY - i
        invariant Valid() && Contents() == own && slots[0] == LOCAL_CAPACITY
        invariant g.Valid() && g.entries == old(g.entries) && g.Contents() == free + Loaded(own, i)
      {
        if g.top == g.entries.Length {
          return false;
        }
        LoadedGrows(own, i);
        assert Contents()[index - 1] == slots[index];
        MoveOut(g, index);
        index := index - 1;
      }
      slots[0] := index;
      return true;
    }

    method FreePage(g: GlobalStack, page: Page) returns (ok: bool)
      requires Valid() && g.Valid() && g.entries != slots
      modifies slots, g`top, g.entries
      ensures Valid() && g.Valid() && g.entries == old(g.entries)
      ensures ok <==> |old(Contents())| < LOCAL_CAPACITY || |old(g.Contents())| + SPILL_BATCH <= g.entries.Length
      ensures |old(Contents())| < LOCAL_CAPACITY ==>
                Contents() == old(Contents()) + [page] && g.Contents() == old(g.Contents())
      ensures ok && |old(Contents())| == LOCAL_CAPACITY ==>
                && Contents() == Remaining(old(Contents()), SPILL_BATCH) + [page]
                && g.Contents() == old(g.Contents()) + Loaded(old(Contents()), SPILL_BATCH)
    {
      if slots[0] == LOCAL_CAPACITY {
        ok := Spill(g);
        if !ok {
          return;
        }
      }
      slots[slots[0] + 1] := page;
      slots[0] := slots[0] + 1;
      ok := true;
    }
  }
}
