/** The x86_64 context switch as a small register machine, and voluntary switches as coroutines.

    Memory is a map from the addresses of 8-byte words.  It is meant for word-aligned addresses: two different ones do
    not overlap.  Addresses do not wrap around. */
module ContextSwitch {
  import opened Words

  type Mem = map<int, int>

  datatype Cpu = Cpu(rax: int, rbx: int, rcx: int, rdx: int, rsi: int, rdi: int, rbp: int, rsp: int,
                     r8: int, r9: int, r10: int, r11: int, r12: int, r13: int, r14: int, r15: int,
                     flags: int, pc: int)

  datatype Machine = Machine(cpu: Cpu, mem: Mem)

  /** Code addresses: the label at the end of the switch, the trampoline, the return point of its first call, and the
      function a finished thread ends in. */
  datatype Code = Code(label_: int, trampoline: int, afterEntry: int, finished: int)

  function Get(m: Mem, a: int): int { if a in m then m[a] else 0 }

  // ── Single instructions ──

  function Store(m: Machine, a: int, v: int): Machine { m.(mem := m.mem[a := v]) }

  function Push(m: Machine, v: int): Machine {
    Machine(m.cpu.(rsp := m.cpu.rsp - 8), m.mem[m.cpu.rsp - 8 := v])
  }

  function Ret(m: Machine): Machine {
    m.(cpu := m.cpu.(pc := Get(m.mem, m.cpu.rsp), rsp := m.cpu.rsp + 8))
  }

  function Popf(m: Machine): Machine {
    m.(cpu := m.cpu.(flags := Get(m.mem, m.cpu.rsp), rsp := m.cpu.rsp + 8))
  }

  /** `call target` with the address of the next instruction. */
  function Call(m: Machine, target: int, next: int): Machine {
    var p := Push(m, next);
    p.(cpu := p.cpu.(pc := target))
  }

  // ── The routines ──

  /** `context_switch_voluntary` up to and including its jump. */
  function Save(k: Code, m: Machine): Machine {
    var m := Store(m, m.cpu.rdi + 0x00, m.cpu.rsp);
    var m := m.(cpu := m.cpu.(rax := k.label_));
    var m := Store(m, m.cpu.rdi + 0x08, m.cpu.rax);
    var m := Store(m, m.cpu.rdi + 0x10, m.cpu.rbx);
    var m := Store(m, m.cpu.rdi + 0x18, m.cpu.rbp);
    var m := Store(m, m.cpu.rdi + 0x20, m.cpu.r12);
    var m := Store(m, m.cpu.rdi + 0x28, m.cpu.r13);
    var m := Store(m, m.cpu.rdi + 0x30, m.cpu.r14);
    Store(m, m.cpu.rdi + 0x38, m.cpu.r15)
  }

  function Restore(m: Machine): Machine {
    var m := m.(cpu := m.cpu.(rsp := Get(m.mem, m.cpu.rsi + 0x00)));
    var m := m.(cpu := m.cpu.(rax := Get(m.mem, m.cpu.rsi + 0x08)));
    var m := m.(cpu := m.cpu.(rbx := Get(m.mem, m.cpu.rsi + 0x10)));
    var m := m.(cpu := m.cpu.(rbp := Get(m.mem, m.cpu.rsi + 0x18)));
    var m := m.(cpu := m.cpu.(r12 := Get(m.mem, m.cpu.rsi + 0x20)));
    var m := m.(cpu := m.cpu.(r13 := Get(m.mem, m.cpu.rsi + 0x28)));
    var m := m.(cpu := m.cpu.(r14 := Get(m.mem, m.cpu.rsi + 0x30)));
    var m := m.(cpu := m.cpu.(r15 := Get(m.mem, m.cpu.rsi + 0x38)));
    m.(cpu := m.cpu.(pc := m.cpu.rax))
  }

  /** The whole call: the caller pushes its return address, the switch jumps, and a context that comes back at the label
      returns. */
  function Switch(k: Code, m: Machine, from: int, to: int, ret: int): Machine {
    var m := Push(m.(cpu := m.cpu.(rdi := from, rsi := to)), ret);
    var m := Restore(Save(k, m));
    if m.cpu.pc == k.label_ then Ret(m) else m
  }

  /** `stack_top & !0xF` on 64-bit words. */
  function AlignDown(sp: nat): nat { And(sp, TWO64 - 16) }

  function InitContext(k: Code, mem: Mem, area: int, top: nat, fn: int, arg: int): Mem {
    mem[area + 0x00 := AlignDown(top)][area + 0x08 := k.trampoline][area + 0x10 := 0][area + 0x18 := 0]
       [area + 0x20 := fn][area + 0x28 := arg][area + 0x30 := 0][area + 0x38 := 0]
  }

  /** The trampoline up to the call of the entry function, and from its return to the call of the cleanup. */
  function Trampoline(k: Code, m: Machine): Machine {
    Call(m.(cpu := m.cpu.(rdi := m.cpu.r13)), m.cpu.r12, k.afterEntry)
  }

  function AfterEntry(k: Code, m: Machine): Machine { Call(m, k.finished, k.afterEntry + 1) }

  /** `context_restore_forced` with the save area's address in rdi. */
  function RestoreForced(m: Machine): Machine {
    var m := m.(cpu := m.cpu.(rax := Get(m.mem, m.cpu.rdi + 0x00)));
    var m := m.(cpu := m.cpu.(rbx := Get(m.mem, m.cpu.rdi + 0x08)));
    var m := m.(cpu := m.cpu.(rcx := Get(m.mem, m.cpu.rdi + 0x10)));
    var m := m.(cpu := m.cpu.(rdx := Get(m.mem, m.cpu.rdi + 0x18)));
    var m := m.(cpu := m.cpu.(rsi := Get(m.mem, m.cpu.rdi + 0x20)));
    var m := m.(cpu := m.cpu.(rbp := Get(m.mem, m.cpu.rdi + 0x30)));
    var m := m.(cpu := m.cpu.(rsp := Get(m.mem, m.cpu.rdi + 0x38)));
    var m := m.(cpu := m.cpu.(r8 := Get(m.mem, m.cpu.rdi + 0x40)));
    var m := m.(cpu := m.cpu.(r9 := Get(m.mem, m.cpu.rdi + 0x48)));
    var m := m.(cpu := m.cpu.(r10 := Get(m.mem, m.cpu.rdi + 0x50)));
    var m := m.(cpu := m.cpu.(r11 := Get(m.mem, m.cpu.rdi + 0x58)));
    var m := m.(cpu := m.cpu.(r12 := Get(m.mem, m.cpu.rdi + 0x60)));
    var m := m.(cpu := m.cpu.(r13 := Get(m.mem, m.cpu.rdi + 0x68)));
    var m := m.(cpu := m.cpu.(r14 := Get(m.mem, m.cpu.rdi + 0x70)));
    var m := m.(cpu := m.cpu.(r15 := Get(m.mem, m.cpu.rdi + 0x78)));
    var m := Push(m, Get(m.mem, m.cpu.rdi + 0x80));
    var m := Push(m, Get(m.mem, m.cpu.rdi + 0x88));
    var m := m.(cpu := m.cpu.(rdi := Get(m.mem, m.cpu.rdi + 0x28)));
    Ret(Popf(m))
  }

  // ── Entry of a fresh context ──

  lemma AndShift(x: nat, y: nat)
    ensures And(x, 2 * y) == 2 * And(x / 2, y)
  {
  }

  /** Masking the low four bits rounds a 64-bit address down to a multiple of 16. */
  lemma AlignDownIs(sp: nat)
    requires sp < TWO64
    ensures AlignDown(sp) == sp - sp % 16
  {
    hide And;
    AndShift4(sp, TWO64 / 16 - 1);
    AndAllBits(sp / 16);
  }

  lemma AndShift4(x: nat, y: nat)
    ensures And(x, 16 * y) == 16 * And(x / 16, y)
  {
    hide And;
    AndShift2(x, 4 * y);
    AndShift2(x / 4, y);
    assert x / 4 / 4 == x / 16;
  }

  lemma AndShift2(x: nat, y: nat)
    ensures And(x, 4 * y) == 4 * And(x / 4, y)
  {
    hide And;
    AndShift(x, 2 * y);
    AndShift(x / 2, y);
    assert x / 2 / 2 == x / 4 && 2 * (2 * y) == 4 * y;
  }

  lemma AndAllBits(x: nat)
    requires x < TWO64 / 16
    ensures And(x, TWO64 / 16 - 1) == x
  {
    SixtyBits();
    AndMask(x, 60);
    Reduced(x, Pow2(60), 0, x);
    hide And, Pow2;
  }

  lemma SixtyBits()
    ensures Pow2(60) == TWO64 / 16
  {
    WordPowers();
    assert Pow2(61) == 2 * Pow2(60) && Pow2(62) == 2 * Pow2(61) && Pow2(63) == 2 * Pow2(62) && Pow2(64) == 2 * Pow2(63);
  }

  /** What a fresh context sees: the entry function with its argument, the stack aligned as the System V AMD64 ABI
      (section 3.2.2) demands at a function's entry, for any stack top; and the same alignment for the cleanup function
      once the entry function has returned. */
  lemma FreshEntry(k: Code, mem: Mem, m: Machine, area: int, top: nat, fn: int, arg: int)
    requires top < TWO64 && m.mem == InitContext(k, mem, area, top, fn, arg) && m.cpu.rsi == area
    ensures Restore(m).cpu.pc == k.trampoline
    ensures var e := Trampoline(k, Restore(m));
      && e.cpu.pc == fn && e.cpu.rdi == arg && (e.cpu.rsp + 8) % 16 == 0
      && top - 24 < e.cpu.rsp <= top - 8 && Get(e.mem, e.cpu.rsp) == k.afterEntry
      && (AfterEntry(k, Ret(e)).cpu.rsp + 8) % 16 == 0 && Ret(e).cpu.pc == k.afterEntry
  {
    AlignDownIs(top);
    hide AlignDown;
  }

  // ── Forced restore ──

  predicate Aligned(a: int) { a % 8 == 0 }

  /** The register file saved at `a`. */
  function Saved(m: Mem, a: int): Cpu {
    Cpu(Get(m, a), Get(m, a + 0x08), Get(m, a + 0x10), Get(m, a + 0x18), Get(m, a + 0x20), Get(m, a + 0x28),
      Get(m, a + 0x30),
        Get(m, a + 0x38), Get(m, a + 0x40), Get(m, a + 0x48), Get(m, a + 0x50), Get(m, a + 0x58), Get(m, a + 0x60),
        Get(m, a + 0x68), Get(m, a + 0x70), Get(m, a + 0x78), Get(m, a + 0x88), Get(m, a + 0x80))
  }

  /** The forced restore reproduces every register, the flags, the instruction pointer and the stack pointer if and only
      if the two words it pushes below the saved stack pointer do not change what it has yet to read.  Save area and
      saved stack pointer are word-aligned. */
  lemma ForcedRestoreIff(m: Machine)
    requires Aligned(m.cpu.rdi) && Aligned(Get(m.mem, m.cpu.rdi + 0x38))
    ensures var a := m.cpu.rdi;
      var saved := Saved(m.mem, a);
      RestoreForced(m).cpu == saved <==>
        && (a + 0x88 == saved.rsp - 8 ==> saved.flags == saved.pc)
        && (a + 0x28 == saved.rsp - 8 ==> saved.rdi == saved.pc)
        && (a + 0x28 == saved.rsp - 16 ==> saved.rdi == saved.flags)
  {
  }

  /** It does so, aligned or not, when the save area lies outside those 16 bytes. */
  lemma ForcedRestoreOutside(m: Machine)
    requires var s := Get(m.mem, m.cpu.rdi + 0x38); m.cpu.rdi + 0x90 <= s - 16 || s <= m.cpu.rdi
    ensures RestoreForced(m).cpu == Saved(m.mem, m.cpu.rdi)
  {
    var s := Get(m.mem, m.cpu.rdi + 0x38);
    assert m.cpu.rdi + 0x88 != s - 8 && m.cpu.rdi + 0x28 != s - 8 && m.cpu.rdi + 0x28 != s - 16;
  }

  /** It overwrites exactly the two words below the restored stack pointer, which lie in the 128-byte red zone of
      section 3.2.2 of the System V AMD64 ABI. */
  lemma ForcedRestoreWrites(m: Machine, x: int)
    ensures var s := Get(m.mem, m.cpu.rdi + 0x38);
      && (x != s - 8 && x != s - 16 ==> Get(RestoreForced(m).mem, x) == Get(m.mem, x))
      && Get(RestoreForced(m).mem, s - 8) == Get(m.mem, m.cpu.rdi + 0x80)
  {
  }
}
