/** The decoder against the opcode map: how long each instruction is, and which ones mean something else when moved. */
module Opcodes {
  import opened Slots
  import opened Wire
  import opened Decoder
  import opened PatchPlan
  import opened Patching

  // ---- the opcode map, appendix A of the Intel 64 and IA-32 manual, volume 2D ----------------------------------

  /** Rows of sixteen opcodes, as the map prints them. */
  function Row(b: Byte): nat { b / 16 }

  /** REX, operand size, address size and the two repeat prefixes. */
  predicate PrefixByte(b: Byte) { Row(b) == 4 || b in {0x66, 0x67, 0xF2, 0xF3} }

  /** The prefixes end at `p`, where the opcode is. */
  ghost predicate OpcodeAt(code: seq<Byte>, p: nat) {
    p < |code| && !PrefixByte(code[p]) && forall i :: 0 <= i < p ==> PrefixByte(code[i])
  }

  /** Some prefix is a REX with its W bit set. */
  ghost predicate RexW(code: seq<Byte>, p: nat)
    requires p <= |code|
  {
    exists i :: 0 <= i < p && Row(code[i]) == 4 && code[i] % 16 >= 8
  }

  /** `push` and `pop` of a register, `nop`, `ret` and `int3`. */
  predicate Bare(op: Byte) { Row(op) == 5 || op in {0x90, 0xC3, 0xCC} }

  /** `jmp` and the sixteen conditional jumps with a displacement of one byte. */
  predicate ShortBranch(op: Byte) { op == 0xEB || Row(op) == 7 }

  /** `call` and `jmp` with a displacement of four bytes. */
  predicate NearBranch(op: Byte) { op == 0xE8 || op == 0xE9 }

  /** `mov` of an immediate to a register. */
  predicate MovImmediate(op: Byte) { Row(op) == 0xB && op % 16 >= 8 }

  /** `add`, `and`, `sub`, `xor` and `cmp` between register and operand, either way round. */
  predicate Arithmetic(op: Byte) { op < 0x40 && op % 8 in {1, 3} && op / 8 in {0, 4, 5, 6, 7} }

  /** `movsxd`, `test`, `xchg`, `mov`, `lea` and group 5. */
  predicate Transfer(op: Byte) { op == 0x63 || (Row(op) == 8 && op % 2 == 1 && 5 <= op % 16 <= 0xD) || op == 0xFF }

  /** The opcodes with a ModR/M operand, and the immediate behind it. */
  function OperandImmediate(op: Byte): Option<nat> {
    if Arithmetic(op) || Transfer(op) then Some(0)
    else if op in {0x80, 0x82, 0x83, 0xC0, 0xC1, 0xC6} then Some(1)
    else if op in {0x69, 0x81, 0xC7} then Some(4)
    else None
  }

  /** Mod 0 with r/m 5: the operand is addressed relative to the end of the instruction. */
  predicate RipRelative(modrm: Byte) { modrm / 64 == 0 && modrm % 8 == 5 }

  /** An instruction of `n` bytes, if the buffer holds them. */
  function Whole(code: seq<Byte>, n: nat, safe: bool): Option<Insn> {
    if n <= |code| then Some(Insn(n, safe)) else None
  }

  /** An operand from `cursor` on, and an immediate of `size` bytes behind it. */
  function WithModRm(code: seq<Byte>, cursor: nat, size: nat): Option<Insn> {
    if cursor >= |code| then None
    else Whole(code, cursor + OperandBytes(code[cursor..]) + size, !RipRelative(code[cursor]))
  }

  lemma FinishOperand(code: seq<Byte>, cursor: nat, size: nat)
    requires cursor <= |code|
    ensures Finish(code, cursor, WithOperand(size)) == WithModRm(code, cursor, size)
  {
    hide ParseModRmSib, OperandBytes;
    OperandFollowsManual(code[cursor..]);
  }

  lemma PrefixesEnd(code: seq<Byte>, p: nat)
    requires OpcodeAt(code, p)
    ensures Prefixes(code) == p && (Wide(code[..p]) <==> RexW(code, p))
  {
    forall i | 0 <= i < |code| ensures IsPrefix(code[i]) <==> PrefixByte(code[i]) {}
    PrefixesUnique(code, p);
    if Wide(code[..p]) {
      var i :| 0 <= i < p && IsRexW(code[..p][i]);
      assert Row(code[i]) == 4 && code[i] % 16 >= 8;
    }
    if i :| 0 <= i < p && Row(code[i]) == 4 && code[i] % 16 >= 8 {
      assert IsRexW(code[..p][i]);
    }
  }

  lemma TailFollowsMap(op: Byte, wide: bool)
    ensures var tail := OneByteTail(op, wide);
            if Bare(op) then tail == Immediate(0, false)
            else if op == 0x6A then tail == Immediate(1, false)
            else if op == 0x68 then tail == Immediate(4, false)
            else if ShortBranch(op) then tail == Immediate(1, true)
            else if NearBranch(op) then tail == Immediate(4, true)
            else if MovImmediate(op) then tail == Immediate(if wide then 8 else 4, false)
            else if OperandImmediate(op).Some? then tail == WithOperand(OperandImmediate(op).value)
            else tail == Unsupported
  {
  }

  /** One-byte opcodes: the length and the verdict for every class of the map; everything else is refused. */
  lemma OneByteOpcodes(code: seq<Byte>, p: nat)
    requires OpcodeAt(code, p) && code[p] != 0x0F
    ensures var op, r := code[p], Decode(code);
            && (Bare(op) ==> r == Some(Insn(p + 1, true)))
            && (op == 0x6A ==> r == Whole(code, p + 2, true))
            && (op == 0x68 ==> r == Whole(code, p + 5, true))
            && (ShortBranch(op) ==> r == Whole(code, p + 2, false))
            && (NearBranch(op) ==> r == Whole(code, p + 5, false))
            && (MovImmediate(op) ==> r == Whole(code, p + (if RexW(code, p) then 9 else 5), true))
            && (OperandImmediate(op).Some? ==> r == WithModRm(code, p + 1, OperandImmediate(op).value))
            && (r.Some? ==>
                  || Bare(op) || op in {0x6A, 0x68} || ShortBranch(op) || NearBranch(op) || MovImmediate(op)
                  || OperandImmediate(op).Some?)
  {
    hide ParseModRmSib, OperandBytes, Wide, RexW, WithModRm, OneByteTail;
    PrefixesEnd(code, p);
    TailFollowsMap(code[p], Wide(code[..p]));
    if OperandImmediate(code[p]).Some? { FinishOperand(code, p + 1, OperandImmediate(code[p]).value); }
  }

  /** Two-byte opcodes: the conditional jumps and the long `nop`. */
  lemma TwoByteOpcodes(code: seq<Byte>, p: nat)
    requires OpcodeAt(code, p) && code[p] == 0x0F
    ensures var r := Decode(code);
            if p + 1 == |code| then r.None?
            else
              var op := code[p + 1];
              && (Row(op) == 8 ==> r == Whole(code, p + 6, false))
              && (op == 0x1F ==> r == WithModRm(code, p + 2, 0))
              && (r.Some? ==> Row(op) == 8 || op == 0x1F)
  {
    hide ParseModRmSib, OperandBytes, Wide, RexW, WithModRm;
    PrefixesEnd(code, p);
    if p + 1 < |code| { FinishOperand(code, p + 2, 0); }
  }

  lemma {:induction false} FindOpcode(code: seq<Byte>)
    requires Decode(code).Some?
    ensures OpcodeAt(code, Prefixes(code))
  {
  }

  // ---- what an instruction refers to ------------------------------------------------------------------------------

  /** Where the instruction holds a displacement from its own end, and how many bytes of it. */
  function RelativeAt(code: seq<Byte>, p: nat): Option<(nat, nat)>
    requires p < |code|
  {
    var op := code[p];
    if ShortBranch(op) then Some((p + 1, 1))
    else if NearBranch(op) then Some((p + 1, 4))
    else if op == 0x0F && p + 1 < |code| && Row(code[p + 1]) == 8 then Some((p + 2, 4))
    else if op == 0x0F && p + 2 < |code| && code[p + 1] == 0x1F && RipRelative(code[p + 2]) then Some((p + 3, 4))
    else if OperandImmediate(op).Some? && p + 1 < |code| && RipRelative(code[p + 1]) then Some((p + 2, 4))
    else None
  }

  /** A two's complement number. */
  function Signed(bytes: seq<Byte>): int {
    var v := Number(bytes);
    if 2 * v < Pow256(|bytes|) then v else v - Pow256(|bytes|)
  }

  lemma RelativeIsInside(code: seq<Byte>)
    requires Decode(code).Some?
    ensures var p := Prefixes(code);
            && OpcodeAt(code, p)
            && (RelativeAt(code, p).Some? ==>
                  var (at, n) := RelativeAt(code, p).value; at + n <= Decode(code).value.len <= |code|)
            && (Decode(code).value.safe <==> RelativeAt(code, p).None?)
  {
    hide ParseModRmSib, Decode, RexW;
    FindOpcode(code);
    var p := Prefixes(code);
    if code[p] == 0x0F { TwoByteOpcodes(code, p); } else { OneByteOpcodes(code, p); }
  }

  /** The address the instruction refers to when it sits at `at`: a branch target, or the address of its operand. */
  function Refers(code: seq<Byte>, at: nat): Option<nat>
    requires Decode(code).Some?
  {
    RelativeIsInside(code);
    match RelativeAt(code, Prefixes(code))
    case None => None
    case Some((d, n)) => Some((at + Decode(code).value.len + Signed(code[d..d + n])) % SPACE)
  }

  /** The decoder calls an instruction safe if and only if it refers to the same thing wherever it sits. */
  lemma SafeIffMovable(code: seq<Byte>)
    requires Decode(code).Some?
    ensures Decode(code).value.safe <==> forall a: nat, b: nat :: Refers(code, a) == Refers(code, b)
  {
    hide Decode, Prefixes, RelativeAt, Signed;
    RelativeIsInside(code);
    if !Decode(code).value.safe {
      var (d, n) := RelativeAt(code, Prefixes(code)).value;
      NextDiffers(Decode(code).value.len + Signed(code[d..d + n]));
      assert Refers(code, 0) != Refers(code, 1);
    }
  }

  lemma NextDiffers(x: int)
    ensures x % SPACE != (x + 1) % SPACE
  {
  }

  // ---- what the planner accepts -------------------------------------------------------------------------------------

  /** The instruction found at offset `at` refers to the same thing wherever it sits. */
  ghost predicate MovableAt(code: seq<Byte>, at: nat) {
    && at <= |code| && Decode(code[at..]).Some?
    && forall a: nat, b: nat :: Refers(code[at..], a) == Refers(code[at..], b)
  }

  lemma {:induction false} ReadsAt(code: seq<Byte>, insns: seq<Insn>, k: nat)
    requires Reads(code, insns) && k < |insns|
    ensures Total(insns[..k]) + insns[k].len <= Total(insns) <= |code|
    ensures Decode(code[Total(insns[..k])..]) == Some(insns[k])
  {
    hide Decode;
    ReadsWithin(code, insns);
    if k == 0 {
      assert insns[..0] == [] && code[0..] == code;
    } else {
      ReadsAt(code[insns[0].len..], insns[1..], k - 1);
      assert insns[..k][1..] == insns[1..][..k - 1];
      assert code[insns[0].len..][Total(insns[1..][..k - 1])..] == code[Total(insns[..k])..];
    }
  }

  /** A site whose first boundary at or behind the stub is reached within eight instructions is accepted if and only if
      every one of them is movable; no other site is. */
  lemma AcceptedIffMovable(site: seq<Byte>, insns: seq<Insn>)
    requires |site| >= CAPTURE
    ensures Accepted(site) == Some(insns) <==>
              && |insns| <= 8 && Reads(site[..16], insns) && ReachesFirst(insns, 12)
              && forall k :: 0 <= k < |insns| ==> MovableAt(site[..16], Total(insns[..k]))
  {
    hide Cover, Reads, ReachesFirst, Total, Decode, Refers;
    var seen := site[..CAPTURE];
    CoverIsLeastBoundary(seen, STUB, MAX_INSTRUCTIONS, insns);
    if Reads(seen, insns) {
      forall k | 0 <= k < |insns| ensures insns[k].safe <==> MovableAt(seen, Total(insns[..k])) {
        ReadsAt(seen, insns, k);
        SafeIffMovable(seen[Total(insns[..k])..]);
      }
    }
  }

  /** Every instruction that an accepted patch moves reads the same in the trampoline, wherever that is, and refers to
      what it referred to at the site. */
  lemma MovedInstructionsKeepMeaning(site: seq<Byte>, target: Address, block: Address, k: nat)
    requires |site| >= CAPTURE && Accepted(site).Some? && k < |Accepted(site).value|
    ensures var insns := Accepted(site).value;
            var n, at := Total(insns), Total(insns[..k]);
            && STUB <= n <= CAPTURE && at + insns[k].len <= n
            && var here, there := site[at..], Trampoline(site, target, n)[at..];
               && Decode(here) == Decode(there) == Some(insns[k])
               && here[..insns[k].len] == there[..insns[k].len]
               && Refers(here, target + at) == Refers(there, block + at)
  {
    hide Reads, Total, Accepted, Decode, JumpTarget, Refers;
    var insns := Accepted(site).value;
    AcceptedReads(site);
    var n, at := Total(insns), Total(insns[..k]);
    TrampolineReads(site, target, target, insns);
    var code := Trampoline(site, target, n);
    ReadsAt(site, insns, k);
    ReadsAppend(code, insns, STUB_INSNS);
    ReadsAt(code, insns, k);
    var len := insns[k].len;
    assert site[at..][..len] == site[at..at + len] == site[..n][at..at + len];
    assert code[at..][..len] == code[at..at + len] == code[..n][at..at + len];
    Unmoved(site[at..]);
    Unmoved(code[at..]);
  }

  lemma Unmoved(code: seq<Byte>)
    requires Decode(code).Some? && Decode(code).value.safe
    ensures forall at: nat :: Refers(code, at) == None
  {
    hide Decode, Prefixes, RelativeAt;
    RelativeIsInside(code);
  }
}
