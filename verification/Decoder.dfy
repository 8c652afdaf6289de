/** The x64 instruction-length decoder of the patch planner. */
module Decoder {
  import opened Slots
  import opened Wire

  /** A decoded instruction: its length, and whether its bytes mean the same at another address. */
  datatype Insn = Insn(len: nat, safe: bool)

  // ---- ModR/M and SIB -----------------------------------------------------------------------------------

  datatype Operand = Operand(len: nat, ripRelative: bool)

  function Mod(b: Byte): nat { b / 64 }
  function Low3(b: Byte): nat { b % 8 }

  predicate HasSib(modrm: Byte) { Mod(modrm) != 3 && Low3(modrm) == 4 }

  /** `parse_modrm_sib`, cursor step by cursor step. */
  function ParseModRmSib(code: seq<Byte>): Option<Operand> {
    if |code| < 1 then None
    else
      var mod, rm := Mod(code[0]), Low3(code[0]);
      var rip := mod == 0 && rm == 5;
      if HasSib(code[0]) && |code| < 2 then None
      else
        var base5 := HasSib(code[0]) && mod == 0 && Low3(code[1]) == 5;
        var cursor := (if HasSib(code[0]) then 2 else 1) + (if base5 then 4 else 0);
        if cursor > |code| then None
        else if mod == 1 then
          if cursor + 1 > |code| then None else Some(Operand(cursor + 1, rip))
        else if mod == 2 || rip then
          if cursor + 4 > |code| then None else Some(Operand(cursor + 4, rip))
        else Some(Operand(cursor, rip))
  }

  /** Section 2.1.5 of the Intel 64 and IA-32 manual, volume 2A: the displacement behind the ModR/M and SIB bytes. */
  function Displacement(modrm: Byte, sib: Byte): nat {
    match modrm / 64
    case 0 => if modrm % 8 == 5 || (modrm % 8 == 4 && sib % 8 == 5) then 4 else 0
    case 1 => 1
    case 2 => 4
    case _ => 0
  }

  function OperandBytes(code: seq<Byte>): nat
    requires code != []
  {
    if code[0] / 64 == 3 || code[0] % 8 != 4 then 1 + Displacement(code[0], 0)
    else if |code| < 2 then 2
    else 2 + Displacement(code[0], code[1])
  }

  /** The parser accepts exactly when every byte the manual's table calls for is there, and returns that many. */
  lemma OperandFollowsManual(code: seq<Byte>)
    ensures ParseModRmSib(code).Some? <==> code != [] && OperandBytes(code) <= |code|
    ensures ParseModRmSib(code).Some? ==>
              ParseModRmSib(code).value == Operand(OperandBytes(code), code[0] / 64 == 0 && code[0] % 8 == 5)
  {
  }

  // ---- opcodes ------------------------------------------------------------------------------------------

  predicate IsPrefix(b: Byte) { IsRex(b) || b == 0x66 || b == 0x67 || b == 0xF2 || b == 0xF3 }
  predicate IsRex(b: Byte) { 0x40 <= b <= 0x4F }
  predicate IsRexW(b: Byte) { IsRex(b) && b / 8 % 2 == 1 }

  function Prefixes(code: seq<Byte>): (n: nat)
    ensures n <= |code|
    ensures forall i :: 0 <= i < n ==> IsPrefix(code[i])
    ensures n < |code| ==> !IsPrefix(code[n])
  {
    if code == [] || !IsPrefix(code[0]) then 0 else 1 + Prefixes(code[1..])
  }

  predicate Wide(prefixes: seq<Byte>) { exists i :: 0 <= i < |prefixes| && IsRexW(prefixes[i]) }

  /** What follows an opcode: an immediate alone (an address relative to the instruction or not), or an operand and an
      immediate. */
  datatype Tail = Unsupported | Immediate(size: nat, relative: bool) | WithOperand(size: nat)

  function OneByteTail(op: Byte, wide: bool): Tail {
    if 0x50 <= op <= 0x5F || op in {0x90, 0xC3, 0xCC} then Immediate(0, false)
    else if op == 0x68 then Immediate(4, false)
    else if op == 0x6A then Immediate(1, false)
    else if op in {0xE8, 0xE9} then Immediate(4, true)
    else if op == 0xEB || 0x70 <= op <= 0x7F then Immediate(1, true)
    else if 0xB8 <= op <= 0xBF then Immediate(if wide then 8 else 4, false)
    else if op in {0x01, 0x03, 0x21, 0x23, 0x29, 0x2B, 0x31, 0x33, 0x39, 0x3B, 0x63, 0x85, 0x87, 0x89, 0x8B, 0x8D,
        0xFF} then WithOperand(0)
    else if op in {0x80, 0x82, 0x83, 0xC0, 0xC1, 0xC6} then WithOperand(1)
    else if op in {0x81, 0x69, 0xC7} then WithOperand(4)
    else Unsupported
  }

  function TwoByteTail(op: Byte): Tail {
    if 0x80 <= op <= 0x8F then Immediate(4, true) else if op == 0x1F then WithOperand(0) else Unsupported
  }

  /** The instruction whose opcode ends at `cursor`. */
  function Finish(code: seq<Byte>, cursor: nat, tail: Tail): (r: Option<Insn>)
    requires cursor <= |code|
    ensures r.Some? ==> cursor <= r.value.len <= |code|
  {
    match tail
    case Unsupported => None
    case Immediate(n, relative) => if cursor + n > |code| then None else Some(Insn(cursor + n, !relative))
    case WithOperand(n) =>
      match ParseModRmSib(code[cursor..])
      case None => None
      case Some(op) => if cursor + op.len + n > |code| then None else Some(Insn(cursor + op.len + n, !op.ripRelative))
  }

  /** The instruction at the front of `code`. */
  function Decode(code: seq<Byte>): (r: Option<Insn>)
    ensures r.Some? ==> 0 < r.value.len <= |code|
  {
    var p := Prefixes(code);
    if p >= |code| then None
    else if code[p] == 0x0F then
      if p + 1 >= |code| then None else Finish(code, p + 2, TwoByteTail(code[p + 1]))
    else Finish(code, p + 1, OneByteTail(code[p], Wide(code[..p])))
  }

  // ---- decoding is local ----------------------------------------------------------------------------------

  /** The two sequences agree on their first `n` bytes. */
  predicate Agree(a: seq<Byte>, b: seq<Byte>, n: nat) { n <= |a| && n <= |b| && a[..n] == b[..n] }

  lemma AgreeAt(a: seq<Byte>, b: seq<Byte>, n: nat, k: nat)
    requires Agree(a, b, n) && k <= n
    ensures Agree(a, b, k) && Agree(a[k..], b[k..], n - k)
    ensures forall i :: 0 <= i < n ==> a[i] == b[i]
  {
    forall i | 0 <= i < n ensures a[i] == b[i] { assert a[..n][i] == b[..n][i]; }
    assert a[..k] == b[..k];
    assert a[k..][..n - k] == b[k..][..n - k];
  }

  lemma PrefixesUnique(code: seq<Byte>, n: nat)
    requires n < |code| && !IsPrefix(code[n]) && forall i :: 0 <= i < n ==> IsPrefix(code[i])
    ensures Prefixes(code) == n
  {
  }

  lemma OperandIsLocal(a: seq<Byte>, b: seq<Byte>)
    requires ParseModRmSib(a).Some? && Agree(a, b, ParseModRmSib(a).value.len)
    ensures ParseModRmSib(b) == ParseModRmSib(a)
  {
    OperandFollowsManual(a);
    OperandFollowsManual(b);
    AgreeAt(a, b, ParseModRmSib(a).value.len, 0);
  }

  lemma FinishIsLocal(a: seq<Byte>, b: seq<Byte>, cursor: nat, tail: Tail)
    requires cursor <= |a| && Finish(a, cursor, tail).Some? && Agree(a, b, Finish(a, cursor, tail).value.len)
    ensures Finish(b, cursor, tail) == Finish(a, cursor, tail)
  {
    hide ParseModRmSib;
    if tail.WithOperand? {
      var op := ParseModRmSib(a[cursor..]).value;
      AgreeAt(a, b, cursor + op.len + tail.size, cursor);
      AgreeAt(a[cursor..], b[cursor..], op.len + tail.size, op.len);
      OperandIsLocal(a[cursor..], b[cursor..]);
    }
  }

  /** Decoding looks at the bytes of the instruction only: any other bytes that agree on them decode alike, however
      few or many follow. */
  lemma DecodeIsLocal(a: seq<Byte>, b: seq<Byte>)
    requires Decode(a).Some? && Agree(a, b, Decode(a).value.len)
    ensures Decode(b) == Decode(a)
  {
    hide Finish, OneByteTail, TwoByteTail;
    var p, n := Prefixes(a), Decode(a).value.len;
    assert p < n by { OpcodeIsInside(a); }
    AgreeAt(a, b, n, p);
    PrefixesUnique(b, p);
    if a[p] == 0x0F {
      FinishIsLocal(a, b, p + 2, TwoByteTail(a[p + 1]));
    } else {
      FinishIsLocal(a, b, p + 1, OneByteTail(a[p], Wide(a[..p])));
    }
  }

  lemma OpcodeIsInside(code: seq<Byte>)
    requires Decode(code).Some?
    ensures Prefixes(code) < Decode(code).value.len
    ensures code[Prefixes(code)] == 0x0F ==> Prefixes(code) + 1 < Decode(code).value.len
  {
  }

  /** No instruction is cut short: exactly the buffers that hold all of its bytes decode to it. */
  lemma DecodeIffWhole(code: seq<Byte>, n: nat)
    requires Decode(code).Some? && n <= |code|
    ensures Decode(code[..n]) == Decode(code) <==> n >= Decode(code).value.len
    ensures n < Decode(code).value.len ==> Decode(code[..n]).None?
  {
    var len := Decode(code).value.len;
    if n >= len {
      assert code[..n][..len] == code[..len];
      DecodeIsLocal(code, code[..n]);
    } else if Decode(code[..n]).Some? {
      var m := Decode(code[..n]).value.len;
      assert code[..n][..m] == code[..m];
      DecodeIsLocal(code[..n], code);
    }
  }

  // ---- the decoder as it runs -------------------------------------------------------------------------------

  /** `decode_instruction_x64`: skips prefixes, then tries the opcode groups in turn. */
  method DecodeInstruction(code: seq<Byte>) returns (r: Option<Insn>)
    ensures r == Decode(code)
  {
    hide ParseModRmSib;
    var cursor := 0;
    while cursor < |code| && IsPrefix(code[cursor])
      invariant cursor <= |code| && forall i :: 0 <= i < cursor ==> IsPrefix(code[i])
    {
      cursor := cursor + 1;
    }
    if cursor >= |code| { return None; }
    PrefixesUnique(code, cursor);
    ghost var p := cursor;
    var opcode := code[cursor];
    cursor := cursor + 1;
    if 0x50 <= opcode <= 0x5F || opcode == 0x90 || opcode == 0xC3 || opcode == 0xCC {
      return Some(Insn(cursor, true));
    }
    if opcode == 0x68 {
      return if cursor + 4 > |code| then None else Some(Insn(cursor + 4, true));
    }
    if opcode == 0x6A {
      return if cursor + 1 > |code| then None else Some(Insn(cursor + 1, true));
    }
    if opcode == 0xE8 || opcode == 0xE9 {
      return if cursor + 4 > |code| then None else Some(Insn(cursor + 4, false));
    }
    if opcode == 0xEB || 0x70 <= opcode <= 0x7F {
      return if cursor + 1 > |code| then None else Some(Insn(cursor + 1, false));
    }
    if opcode == 0x0F {
      if cursor >= |code| { return None; }
      var op2 := code[cursor];
      cursor := cursor + 1;
      if 0x80 <= op2 <= 0x8F {
        return if cursor + 4 > |code| then None else Some(Insn(cursor + 4, false));
      }
      if op2 == 0x1F {
        var op := ParseModRmSib(code[cursor..]);
        OperandFollowsManual(code[cursor..]);
        return if op.None? then None else Some(Insn(cursor + op.value.len, !op.value.ripRelative));
      }
      return None;
    }
    if 0xB8 <= opcode <= 0xBF {
      var wide := false;
      for i := 0 to cursor
        invariant wide <==> exists j :: 0 <= j < i && IsRexW(code[j])
      {
        if IsRexW(code[i]) { wide := true; }
      }
      assert wide == Wide(code[..p]) by { WideAt(code, p); }
      var size := if wide then 8 else 4;
      return if cursor + size > |code| then None else Some(Insn(cursor + size, true));
    }
    r := OperandForm(code, cursor, opcode);
  }

  /** The index of the wide prefix in the whole buffer. The opcode behind the prefixes is never one. */
  lemma WideAt(code: seq<Byte>, p: nat)
    requires p < |code| && !IsPrefix(code[p])
    ensures Wide(code[..p]) <==> exists j :: 0 <= j < p + 1 && IsRexW(code[j])
  {
    if Wide(code[..p]) {
      var i :| 0 <= i < |code[..p]| && IsRexW(code[..p][i]);
      assert IsRexW(code[i]);
    }
    if j :| 0 <= j < p + 1 && IsRexW(code[j]) {
      assert code[..p][j] == code[j];
    }
  }

  /** The opcodes with a ModR/M operand, the last group tried. */
  method OperandForm(code: seq<Byte>, cursor: nat, opcode: Byte) returns (r: Option<Insn>)
    requires cursor <= |code|
    ensures OneByteTail(opcode, false).WithOperand? ==> r == Finish(code, cursor, OneByteTail(opcode, false))
    ensures !OneByteTail(opcode, false).WithOperand? ==> r.None?
  {
    hide ParseModRmSib;
    var size;
    if opcode in {0x01, 0x03, 0x21, 0x23, 0x29, 0x2B, 0x31, 0x33, 0x39, 0x3B, 0x63, 0x85, 0x87, 0x89, 0x8B, 0x8D,
        0xFF} {
      size := 0;
    } else if opcode in {0x80, 0x82, 0x83, 0xC0, 0xC1, 0xC6} {
      size := 1;
    } else if opcode in {0x81, 0x69, 0xC7} {
      size := 4;
    } else {
      return None;
    }
    var op := ParseModRmSib(code[cursor..]);
    if op.None? { return None; }
    r := if cursor + op.value.len + size > |code| then None
        else Some(Insn(cursor + op.value.len + size, !op.value.ripRelative));
  }
}
