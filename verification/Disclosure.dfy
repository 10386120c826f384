/**
  What a creating call lets its caller learn. The kernel copies the arguments with its own rights, so
  they may come from memory the caller itself may not read.
 */
module Disclosure {
  import opened Words
  import opened IntrusiveList
  import opened Mmu
  import opened SysTimer
  import opened Model
  import opened Invariant
  import opened Preservation
  import opened Machine
  import opened AddressSpaces
  import opened AccessRights
  import opened Creation
  import opened Stacks
  import Steps

  // ----- Another process's data -----

  /** Process `p`'s data frame has a mapping of its own, for the kernel alone. */
  lemma DataIsMapped(s: State, p: nat, va: Word)
    requires Inv(s) && p < s.cfg.spaces && va / MiB == DataFrame(p)
    ensures |s.l1| == L1_SIZE && |s.mem| == MEMORY_SIZE
    ensures Translate(s.l1, s.tables, va) == Some(Location(va, 1)) && Kept(s.mem, va) && KernelReads(s, va)
    ensures !UserReads(s, va)
  {
    hide Stored;
    assert va == DataFrame(p) * MiB + va % MiB;
  }

  /** `n` bytes of process `p`'s data, from offset `o` on, can be copied, and arrive as they are. */
  lemma DataIsFetched(s: State, p: nat, o: nat, n: nat, to: nat, others: seq<Byte>, k: nat)
    requires Inv(s) && p < s.cfg.spaces && k < n && o + n <= MiB && to >= USER_STACKS * MiB
    ensures |s.l1| == L1_SIZE && |s.mem| == MEMORY_SIZE && DataFrame(p) * MiB + o + k < USER_STACKS * MiB
    ensures Fetchable(s, DataFrame(p) * MiB + o, n)
    ensures !UserReads(s, DataFrame(p) * MiB + o + k)
    ensures Fetched(s, DataFrame(p) * MiB + o, to, n, others)[k] == s.mem[DataFrame(p) * MiB + o + k]
  {
    hide Inv, Fetched, Translate, Kept, KernelReads, UserReads, DataFrame;
    var src := DataFrame(p) * MiB + o;
    FrameBound(s, p);
    forall i | 0 <= i < n
      ensures Plus(src, i) == src + i && KernelReads(s, Plus(src, i)) && BehindApart(s, Plus(src, i), to, n)
      ensures !UserReads(s, src + i) && Translate(s.l1, s.tables, src + i) == Some(Location(src + i, 1))
    {
      FrameOf(DataFrame(p), o + i);
      DataIsMapped(s, p, src + i);
    }
    ArgumentsAreTheCallers(s, src, to, n, others, k);
  }

  lemma FrameBound(s: State, p: nat)
    requires Inv(s) && p < s.cfg.spaces
    ensures |s.l1| == L1_SIZE && |s.mem| == MEMORY_SIZE && 1 <= DataFrame(p) < UDATA_ORIGINAL
  {
  }

  /**
    So a thread can be handed the data of any process: its creator names the kernel's mapping of that
    process's frame, which it may not read itself, as the place of the arguments.
   */
  lemma ThreadGetsOthersData(s: State, p: nat, o: nat, k: nat, bytes: seq<Byte>, env: Env)
    requires Inv(s) && UserRunning(s) && HasFreeSlot(s, RunningProcess(s)) && p < s.cfg.spaces
    requires k < s.cpu.general[2] && o + s.cpu.general[2] <= MiB && s.cpu.general[1] == DataFrame(p) * MiB + o
    ensures |s.l1| == L1_SIZE && |s.mem| == MEMORY_SIZE && DataFrame(p) * MiB + o + k < MEMORY_SIZE
    ensures !UserReads(s, DataFrame(p) * MiB + o + k) && s.finished != []
    ensures var r := CreateThreadSyscall(s, bytes, env);
            var t, n := s.finished[0], s.cpu.general[2];
            && t < |r.blocks| && r.blocks[t].pid == RunningProcess(s)
            && r.blocks[t].regs.general[0] == r.blocks[t].regs.sp && |r.mem| == MEMORY_SIZE
            && r.mem[(USER_STACKS + t + 1) * MiB - Align8(n) + k] == s.mem[DataFrame(p) * MiB + o + k]
  {
    hide *;
    var pid, n := RunningProcess(s), s.cpu.general[2];
    var slot := FreeSlot(s, pid);
    Steps.CallerTables(s);
    ThreadCall(s, slot, bytes, env);
    StackTop(s, n);
    DataIsFetched(s, p, o, n, (USER_STACKS + s.finished[0] + 1) * MiB - Align8(n), bytes, k);
    ArgumentsFetched(s, bytes);
    StartCallIs(s, pid, slot, bytes, env);
    ArgumentsAreStored(s, pid, slot, s.cpu.general[0], Arguments(s, bytes), env, k);
    StartedIn(s, pid, slot, s.cpu.general[0], Arguments(s, bytes), env);
  }

  lemma FreeSlot(s: State, pid: nat) returns (slot: nat)
    requires Inv(s) && pid < s.cfg.spaces && HasFreeSlot(s, pid)
    ensures |s.slots| == s.cfg.spaces && FirstEmptySlot(s.slots[pid], 0) == Some(slot) && MiB == STACK_SIZE
  {
    var q: nat :| q < s.cfg.slots && !Used(s, pid, q);
    slot := FirstEmptySlot(s.slots[pid], 0).value;
  }

  lemma StackTop(s: State, n: nat)
    requires Inv(s) && s.finished != [] && n <= STACK_SIZE
    ensures (USER_STACKS + s.finished[0] + 1) * MiB - Align8(n) >= USER_STACKS * MiB && USER_STACKS * MiB < MEMORY_SIZE
  {
  }

  lemma ArgumentsFetched(s: State, bytes: seq<Byte>)
    requires |s.l1| == L1_SIZE && s.finished != [] && s.cpu.general[2] <= STACK_SIZE
    ensures var n := s.cpu.general[2];
            && ArgumentsFetchable(s) == Fetchable(s, s.cpu.general[1], n)
            && (USER_STACKS + s.finished[0] + 1) * MiB - Align8(n) >= 0
            && Arguments(s, bytes) ==
               Fetched(s, s.cpu.general[1], (USER_STACKS + s.finished[0] + 1) * MiB - Align8(n), n, bytes)
  {
    hide Fetched, Fetchable;
  }

  lemma StartedIn(s: State, pid: nat, slot: nat, func: Word, args: seq<Byte>, env: Env)
    requires Inv(s) && s.finished != [] && pid < s.cfg.spaces && slot < s.cfg.slots && |args| <= STACK_SIZE
    ensures var r := StartThread(s, pid, slot, func, args, env);
            s.finished[0] < |r.blocks| && r.blocks[s.finished[0]].pid == pid
  {
  }
}
