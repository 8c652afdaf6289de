/** The marker gateway, executed: it counts the hit and leaves the machine as it found it. */
module Gateways {
  import opened Slots
  import opened Wire
  import opened Patching
  import opened Realization

  /** What the gateway's instructions touch: two registers, the flags, the stack (top last), one cell of memory and the
      byte to be read next. */
  datatype Machine = Machine(rax: nat, r11: nat, flags: nat, stack: seq<nat>, memory: map<nat, nat>, ip: nat)

  /** The flags after adding one to a cell; all that matters is that they are new. */
  type FlagsOf = (nat, nat) -> nat

  const CELL: nat := 0x1_0000_0000

  /** One instruction, by its encoding in the Intel 64 and IA-32 manual, volume 2: `pushfq`, `push rax`, `push r11`,
      `mov r11, imm64`, `add dword ptr [r11], 1`, `pop r11`, `pop rax`, `popfq`. */
  function Execute(code: seq<Byte>, m: Machine, flagsOf: FlagsOf): Option<Machine> {
    if m.ip > |code| then None
    else
      var at := code[m.ip..];
      var n := |m.stack|;
      if |at| >= 1 && at[0] == 0x9C then Some(m.(stack := m.stack + [m.flags], ip := m.ip + 1))
      else if |at| >= 1 && at[0] == 0x50 then Some(m.(stack := m.stack + [m.rax], ip := m.ip + 1))
      else if |at| >= 2 && at[..2] == [0x41, 0x53] then Some(m.(stack := m.stack + [m.r11], ip := m.ip + 2))
      else if |at| >= 10 && at[..2] == [0x49, 0xBB] then Some(m.(r11 := Number(at[2..10]), ip := m.ip + 10))
      else if |at| >= 4 && at[..4] == [0x41, 0x83, 0x03, 0x01] && m.r11 in m.memory then
        Some(m.(memory := m.memory[m.r11 := (m.memory[m.r11] + 1) % CELL],
                flags := flagsOf(m.flags, m.memory[m.r11]), ip := m.ip + 4))
      else if n == 0 then None
      else if |at| >= 2 && at[..2] == [0x41, 0x5B] then
        Some(m.(r11 := m.stack[n - 1], stack := m.stack[..n - 1], ip := m.ip + 2))
      else if |at| >= 1 && at[0] == 0x58 then
        Some(m.(rax := m.stack[n - 1], stack := m.stack[..n - 1], ip := m.ip + 1))
      else if |at| >= 1 && at[0] == 0x9D then
        Some(m.(flags := m.stack[n - 1], stack := m.stack[..n - 1], ip := m.ip + 1))
      else None
  }

  function Steps(code: seq<Byte>, m: Machine, flagsOf: FlagsOf, n: nat): Option<Machine> {
    if n == 0 then Some(m)
    else
      var before := Steps(code, m, flagsOf, n - 1);
      if before.None? then None else Execute(code, before.value, flagsOf)
  }

  lemma OneMore(code: seq<Byte>, m: Machine, flagsOf: FlagsOf, n: nat)
    requires Steps(code, m, flagsOf, n).Some?
    ensures Steps(code, m, flagsOf, n + 1) == Execute(code, Steps(code, m, flagsOf, n).value, flagsOf)
  {
  }

  /** Entered at its first byte, the marker gateway takes eight instructions to its stub. There registers, flags and
      stack are what they were, the counter is one higher, and the stub leads to the trampoline. */
  lemma GatewayIsTransparent(trampoline: Address, counter: Address, m: Machine, flagsOf: FlagsOf)
    requires m.ip == 0 && counter in m.memory
    ensures var code := MarkerGateway(trampoline, counter);
            && Steps(code, m, flagsOf, 8)
                 == Some(m.(memory := m.memory[counter := (m.memory[counter] + 1) % CELL], ip := Entry(true)))
            && JumpTarget(code[Entry(true)..]) == Some(trampoline)
  {
    hide LittleEndian, Stub, Nops, JumpTarget, Steps, Execute, MarkerGateway;
    var code := MarkerGateway(trampoline, counter);
    GatewayJumps(true, trampoline, counter);
    Saves(code, m, flagsOf, trampoline, counter);
    var saved := m.(stack := m.stack + [m.flags, m.rax, m.r11], ip := 4);
    var counted := Counted(saved, counter, flagsOf);
    Counts(code, saved, flagsOf, trampoline, counter);
    OneMore(code, m, flagsOf, 3);
    OneMore(code, m, flagsOf, 4);
    Restores(code, m, counted, flagsOf, trampoline, counter);
    OneMore(code, m, flagsOf, 5);
    OneMore(code, m, flagsOf, 6);
    OneMore(code, m, flagsOf, 7);
  }

  function Counted(m: Machine, counter: nat, flagsOf: FlagsOf): Machine
    requires counter in m.memory
  {
    m.(r11 := counter, memory := m.memory[counter := (m.memory[counter] + 1) % CELL],
       flags := flagsOf(m.flags, m.memory[counter]), ip := 18)
  }

  lemma Counts(code: seq<Byte>, m: Machine, flagsOf: FlagsOf, trampoline: Address, counter: Address)
    requires m.ip == 4 && code == MarkerGateway(trampoline, counter) && counter in m.memory
    ensures var aimed := Execute(code, m, flagsOf);
            && aimed == Some(m.(r11 := counter, ip := 14))
            && Execute(code, aimed.value, flagsOf) == Some(Counted(m, counter, flagsOf))
  {
    hide Stub, Nops, MarkerGateway, Number, LittleEndian;
    SpaceIsEightBytes();
    NumberRoundTrip(counter, 8);
    GatewayBytes(trampoline, counter);
    assert code[4..][2..10] == code[6..14] && code[4..][..2] == code[4..6] && code[14..][..4] == code[14..18];
    assert code[14..18][0] == 0x41 && code[14..18][1] == 0x83;
    assert code[14..][..2][1] == 0x83;
  }

  lemma GatewayBytes(trampoline: Address, counter: Address)
    ensures var code := MarkerGateway(trampoline, counter);
            && |code| == 64 && code[4..6] == [0x49, 0xBB] && code[6..14] == LittleEndian(counter, 8)
            && code[14..18] == [0x41, 0x83, 0x03, 0x01]
  {
    var bytes := LittleEndian(counter, 8);
    assert |bytes| == 8;
    hide LittleEndian, Stub, Nops;
  }

  lemma Saves(code: seq<Byte>, m: Machine, flagsOf: FlagsOf, trampoline: Address, counter: Address)
    requires m.ip == 0 && code == MarkerGateway(trampoline, counter)
    ensures Steps(code, m, flagsOf, 3) == Some(m.(stack := m.stack + [m.flags, m.rax, m.r11], ip := 4))
  {
    hide LittleEndian, Stub, Nops;
    var one := m.(stack := m.stack + [m.flags], ip := 1);
    assert Execute(code, m, flagsOf) == Some(one);
    var two := one.(stack := one.stack + [m.rax], ip := 2);
    assert Execute(code, one, flagsOf) == Some(two);
    assert code[2..][..2] == [0x41, 0x53];
    assert two.stack + [m.r11] == m.stack + [m.flags, m.rax, m.r11];
    assert Execute(code, two, flagsOf) == Some(two.(stack := m.stack + [m.flags, m.rax, m.r11], ip := 4));
    assert Steps(code, m, flagsOf, 0) == Some(m);
    OneMore(code, m, flagsOf, 0);
    OneMore(code, m, flagsOf, 1);
    OneMore(code, m, flagsOf, 2);
  }

  lemma Restores(code: seq<Byte>, m: Machine, counted: Machine, flagsOf: FlagsOf, trampoline: Address, counter: Address)
    requires code == MarkerGateway(trampoline, counter)
    requires counted.ip == 18 && counted.stack == m.stack + [m.flags, m.rax, m.r11] && counted.rax == m.rax
    ensures var a := Execute(code, counted, flagsOf);
            && a == Some(counted.(r11 := m.r11, stack := m.stack + [m.flags, m.rax], ip := 20))
            && var b := Execute(code, a.value, flagsOf);
               && b == Some(a.value.(rax := m.rax, stack := m.stack + [m.flags], ip := 21))
               && Execute(code, b.value, flagsOf) == Some(b.value.(flags := m.flags, stack := m.stack, ip := 22))
  {
    hide LittleEndian, Stub, Nops;
    assert code[18..22] == [0x41, 0x5B, 0x58, 0x9D];
    assert code[18..][..2] == [0x41, 0x5B] && code[18..][..4] == code[18..22];
    assert counted.stack[..|m.stack| + 2] == m.stack + [m.flags, m.rax];
    assert (m.stack + [m.flags, m.rax])[..|m.stack| + 1] == m.stack + [m.flags];
    assert (m.stack + [m.flags])[..|m.stack|] == m.stack;
  }
}
