/** The bytes a realised patch leaves behind: the patched site, the trampoline and the gateway. */
module Patching {
  import opened Slots
  import opened Wire
  import opened Decoder
  import opened PatchPlan

  const STUB: nat := 12     // mov rax, imm64; jmp rax
  const CAPTURE: nat := 16  // bytes the planner sees
  const NOP: Byte := 0x90
  const SPACE: nat := 0x1_0000_0000_0000_0000

  type Address = a: nat | a < SPACE

  // ---- the jump stub --------------------------------------------------------------------------------------

  function Stub(addr: Address): (r: seq<Byte>)
    ensures |r| == STUB
  {
    [0x48, 0xB8] + LittleEndian(addr, 8) + [0xFF, 0xE0]
  }

  /** Where the stub at the front of `code` jumps to, if there is one. */
  function JumpTarget(code: seq<Byte>): Option<nat> {
    if |code| >= STUB && code[..2] == [0x48, 0xB8] && code[10..12] == [0xFF, 0xE0] then Some(Number(code[2..10]))
        else None
  }

  lemma SpaceIsEightBytes()
    ensures Pow256(8) == SPACE
  {
    assert Pow256(2) == 0x1_0000 && Pow256(4) == 0x1_0000_0000 && Pow256(6) == 0x1_0000_0000_0000;
  }

  const STUB_INSNS: seq<Insn> := [Insn(10, true), Insn(2, true)]

  lemma StubInsnsTotal()
    ensures Total(STUB_INSNS) == STUB
  {
    assert STUB_INSNS[1..] == [Insn(2, true)] && STUB_INSNS[1..][1..] == [];
  }

  /** A stub jumps to its address, and the planner's decoder reads it as ten and two bytes. */
  lemma StubReads(addr: Address, rest: seq<Byte>)
    ensures JumpTarget(Stub(addr) + rest) == Some(addr)
    ensures Reads(Stub(addr) + rest, STUB_INSNS)
  {
    var code := Stub(addr) + rest;
    assert code[2..10] == LittleEndian(addr, 8);
    SpaceIsEightBytes();
    NumberRoundTrip(addr, 8);
    MovReads(code);
    JmpReads(code[10..]);
    assert STUB_INSNS[1..] == [Insn(2, true)];
    assert Reads(code[10..][2..], [Insn(2, true)][1..]);
  }

  lemma MovReads(code: seq<Byte>)
    requires |code| >= 10 && code[0] == 0x48 && code[1] == 0xB8
    ensures Decode(code) == Some(Insn(10, true))
  {
    PrefixesUnique(code, 1);
    assert IsRexW(code[..1][0]);
  }

  lemma JmpReads(code: seq<Byte>)
    requires |code| >= 2 && code[0] == 0xFF && code[1] == 0xE0
    ensures Decode(code) == Some(Insn(2, true))
  {
    PrefixesUnique(code, 0);
    assert Finish(code, 1, WithOperand(0)) == Some(Insn(2, true));
  }

  // ---- padding ----------------------------------------------------------------------------------------------

  function Nops(n: nat): (r: seq<Byte>)
    ensures |r| == n
  {
    seq(n, _ => NOP)
  }

  function Ones(n: nat): (r: seq<Insn>)
    ensures |r| == n
  {
    seq(n, _ => Insn(1, true))
  }

  lemma {:induction false} NopsRead(n: nat, rest: seq<Byte>)
    ensures Reads(Nops(n) + rest, Ones(n)) && Total(Ones(n)) == n
  {
    if n > 0 {
      var code := Nops(n) + rest;
      assert code[0] == NOP && code[1..] == Nops(n - 1) + rest;
      PrefixesUnique(code, 0);
      assert Decode(code) == Some(Insn(1, true));
      assert Ones(n)[1..] == Ones(n - 1);
      NopsRead(n - 1, rest);
    }
  }

  // ---- the patched site ---------------------------------------------------------------------------------------

  /** A site whose first `n` bytes are replaced by a stub and padding. */
  function Patched(site: seq<Byte>, dest: Address, n: nat): (r: seq<Byte>)
    requires STUB <= n <= |site|
    ensures |r| == |site|
  {
    Stub(dest) + Nops(n - STUB) + site[n..]
  }

  /** What the decoder reads in place of the overwritten instructions. */
  function Replacement(n: nat): seq<Insn>
    requires STUB <= n
  {
    STUB_INSNS + Ones(n - STUB)
  }

  /** The patched site jumps to its destination and decodes as the stub and one-byte padding ending exactly at the
      boundary; from there on it decodes just as the original did, and only as the original did. */
  lemma PatchResynchronises(site: seq<Byte>, dest: Address, insns: seq<Insn>, more: seq<Insn>)
    requires Reads(site, insns) && STUB <= Total(insns) <= |site|
    ensures var n := Total(insns);
            var patched := Patched(site, dest, n);
            && JumpTarget(patched) == Some(dest)
            && Total(Replacement(n)) == n && Reads(patched, Replacement(n))
            && (Reads(patched, Replacement(n) + more) <==> Reads(site, insns + more))
  {
    hide Reads, Stub, Nops, Ones, JumpTarget, Total;
    var n := Total(insns);
    var patched := Patched(site, dest, n);
    var pad := Nops(n - STUB) + site[n..];
    assert patched == Stub(dest) + pad && patched[STUB..] == pad && patched[n..] == site[n..];
    StubReads(dest, pad);
    StubInsnsTotal();
    NopsRead(n - STUB, site[n..]);
    TotalAppend(STUB_INSNS, Ones(n - STUB));
    ReadsAppend(patched, STUB_INSNS, Ones(n - STUB));
    ReadsAppend(patched, Replacement(n), more);
    ReadsAppend(site, insns, more);
  }

  // ---- the trampoline -----------------------------------------------------------------------------------------

  function Return(target: Address, n: nat): Address { (target + n) % SPACE }

  /** The overwritten instructions and a stub back to the byte behind them. */
  function Trampoline(site: seq<Byte>, target: Address, n: nat): (r: seq<Byte>)
    requires n <= |site|
    ensures |r| == n + STUB
  {
    site[..n] + Stub(Return(target, n))
  }

  /** The trampoline decodes as the original instructions and the stub, with nothing left over; the stub returns to the
      boundary; and with the patched site it still determines the original bytes. */
  lemma TrampolineReads(site: seq<Byte>, target: Address, dest: Address, insns: seq<Insn>)
    requires Reads(site, insns) && STUB <= Total(insns) <= |site|
    ensures var n := Total(insns);
            var code := Trampoline(site, target, n);
            && Reads(code, insns + STUB_INSNS) && Total(insns + STUB_INSNS) == |code|
            && JumpTarget(code[n..]) == Some((target + n) % SPACE)
            && code[..n] + Patched(site, dest, n)[n..] == site
  {
    hide Reads, Stub, JumpTarget, Total;
    var n := Total(insns);
    var code := Trampoline(site, target, n);
    var back := Stub(Return(target, n));
    assert code[..n] == site[..n] && code[n..] == back + [];
    ReadsIsLocal(site, code, insns);
    StubReads(Return(target, n), []);
    StubInsnsTotal();
    TotalAppend(insns, STUB_INSNS);
    ReadsAppend(code, insns, STUB_INSNS);
    assert Patched(site, dest, n)[n..] == site[n..];
  }

  // ---- what the planner accepts ---------------------------------------------------------------------------------

  /** The instructions to move, if the planner accepts the captured bytes. */
  function Accepted(site: seq<Byte>): Option<seq<Insn>>
    requires |site| >= CAPTURE
  {
    var insns := Cover(site[..CAPTURE], STUB, MAX_INSTRUCTIONS);
    if insns.Some? && AllSafe(insns.value) then insns else None
  }

  lemma AcceptedReads(site: seq<Byte>)
    requires |site| >= CAPTURE && Accepted(site).Some?
    ensures var insns := Accepted(site).value; Reads(site, insns) && AllSafe(insns) && STUB <= Total(insns) <= CAPTURE
  {
    hide Reads, Cover, Total, AllSafe;
    var insns := Accepted(site).value;
    CoverIsLeastBoundary(site[..CAPTURE], STUB, MAX_INSTRUCTIONS, insns);
    PlanAddsUp(site[..CAPTURE], STUB);
    assert site[..CAPTURE][..Total(insns)] == site[..Total(insns)];
    ReadsIsLocal(site[..CAPTURE], site, insns);
  }

  /** Whatever the planner accepts is patched soundly: for every destination the site and the trampoline decode as
      intended, the moved instructions are all relocatable, and the rest of the site is as it was. */
  lemma AcceptedPatchIsSound(site: seq<Byte>, target: Address, dest: Address, more: seq<Insn>)
    requires |site| >= CAPTURE && Accepted(site).Some?
    ensures var insns := Accepted(site).value;
            var n := Total(insns);
            && STUB <= n <= CAPTURE && AllSafe(insns) && Reads(site, insns)
            && JumpTarget(Patched(site, dest, n)) == Some(dest)
            && Total(Replacement(n)) == n && Reads(Patched(site, dest, n), Replacement(n))
            && (Reads(Patched(site, dest, n), Replacement(n) + more) <==> Reads(site, insns + more))
            && Reads(Trampoline(site, target, n), insns + STUB_INSNS)
            && JumpTarget(Trampoline(site, target, n)[n..]) == Some((target + n) % SPACE)
  {
    hide Reads, Total, AllSafe, JumpTarget, Accepted, Trampoline, Patched;
    var insns := Accepted(site).value;
    AcceptedReads(site);
    PatchResynchronises(site, dest, insns, more);
    TrampolineReads(site, target, dest, insns);
  }

  /** A patched site is accepted again, as its stub alone: a second patch moves the first one's jump to its trampoline,
      so that leaving the second gateway enters the first. */
  lemma RepatchNests(site: seq<Byte>, target: Address, first: Address, n: nat)
    requires |site| >= CAPTURE && STUB <= n <= CAPTURE
    ensures Accepted(Patched(site, first, n)) == Some(STUB_INSNS)
    ensures JumpTarget(Trampoline(Patched(site, first, n), target, STUB)) == Some(first)
  {
    hide Reads, Stub, JumpTarget, Cover;
    var patched := Patched(site, first, n);
    var seen := patched[..CAPTURE];
    assert seen == Stub(first) + seen[STUB..];
    StubReads(first, seen[STUB..]);
    StubInsnsTotal();
    assert STUB_INSNS[..0] == [] && STUB_INSNS[..1] == [Insn(10, true)] && STUB_INSNS[..1][1..] == [];
    CoverIsLeastBoundary(seen, STUB, MAX_INSTRUCTIONS, STUB_INSNS);
    var code := Trampoline(patched, target, STUB);
    assert patched[..STUB] == Stub(first);
    StubReads(first, Stub(Return(target, STUB)));
  }
}
