/** Runs of instructions and the patch boundary planner. */
module PatchPlan {
  import opened Slots
  import opened Wire
  import opened Decoder

  const MAX_INSTRUCTIONS: nat := 8

  // ---- runs of instructions -----------------------------------------------------------------------------

  function Total(insns: seq<Insn>): nat { if insns == [] then 0 else insns[0].len + Total(insns[1..]) }

  predicate AllSafe(insns: seq<Insn>) { forall i :: 0 <= i < |insns| ==> insns[i].safe }

  /** The decoder reads `code` as starting with `insns`, one after the other. */
  predicate Reads(code: seq<Byte>, insns: seq<Insn>) {
    insns == [] || (Decode(code) == Some(insns[0]) && Reads(code[insns[0].len..], insns[1..]))
  }

  lemma {:induction false} TotalAppend(a: seq<Insn>, b: seq<Insn>)
    ensures Total(a + b) == Total(a) + Total(b)
  {
    if a == [] { assert a + b == b; } else {
      TotalAppend(a[1..], b);
      assert (a + b)[1..] == a[1..] + b;
    }
  }

  lemma {:induction false} ReadsWithin(code: seq<Byte>, insns: seq<Insn>)
    requires Reads(code, insns)
    ensures |insns| <= Total(insns) <= |code|
  {
    hide Decode;
    if insns != [] { ReadsWithin(code[insns[0].len..], insns[1..]); }
  }

  /** Reading a concatenation is reading the first part and then, behind its bytes, the second. */
  lemma {:induction false} ReadsAppend(code: seq<Byte>, a: seq<Insn>, b: seq<Insn>)
    ensures Reads(code, a + b) <==> Reads(code, a) && Total(a) <= |code| && Reads(code[Total(a)..], b)
  {
    hide Decode;
    if a == [] {
      assert a + b == b && code[0..] == code;
    } else {
      assert (a + b)[1..] == a[1..] + b;
      if Decode(code) == Some(a[0]) {
        var rest := code[a[0].len..];
        ReadsAppend(rest, a[1..], b);
        if Total(a) <= |code| { assert rest[Total(a[1..])..] == code[Total(a)..]; }
      }
    }
  }

  /** Reading depends on the bytes read only. */
  lemma {:induction false} ReadsIsLocal(a: seq<Byte>, b: seq<Byte>, insns: seq<Insn>)
    requires Reads(a, insns) && Agree(a, b, Total(insns))
    ensures Reads(b, insns)
  {
    hide Decode;
    if insns != [] {
      var n := insns[0].len;
      AgreeAt(a, b, Total(insns), n);
      DecodeIsLocal(a, b);
      ReadsIsLocal(a[n..], b[n..], insns[1..]);
    }
  }

  // ---- the boundary planner -----------------------------------------------------------------------------

  /** Decode until at least `min` bytes are covered, with at most `budget` instructions. */
  function Cover(code: seq<Byte>, min: int, budget: nat): Option<seq<Insn>> {
    if min <= 0 then Some([])
    else if budget == 0 || Decode(code).None? then None
    else
      var first := Decode(code).value;
      match Cover(code[first.len..], min - first.len, budget - 1)
      case None => None
      case Some(rest) => Some([first] + rest)
  }

  /** The instructions end at the least boundary at or above `min`. */
  predicate ReachesFirst(insns: seq<Insn>, min: int) {
    Total(insns) >= min && forall k :: 0 <= k < |insns| ==> Total(insns[..k]) < min
  }

  lemma ReachesFirstCons(insns: seq<Insn>, min: int)
    requires insns != []
    ensures ReachesFirst(insns, min) <==> min > 0 && ReachesFirst(insns[1..], min - insns[0].len)
  {
    var rest := insns[1..];
    forall k | 0 <= k < |rest| ensures Total(insns[..k + 1]) == insns[0].len + Total(rest[..k]) {
      assert insns[..k + 1][1..] == rest[..k];
    }
    if ReachesFirst(insns, min) {
      assert insns[..0] == [] && Total(insns[..0]) < min;
      forall k | 0 <= k < |rest| ensures Total(rest[..k]) < min - insns[0].len {
        assert Total(insns[..k + 1]) < min;
      }
    }
    if min > 0 && ReachesFirst(rest, min - insns[0].len) {
      forall k | 0 <= k < |insns| ensures Total(insns[..k]) < min {
        if k > 0 { assert Total(rest[..k - 1]) < min - insns[0].len; }
      }
    }
  }

  /** The planner's answer is the only run of at most `budget` instructions that the code reads as and that ends at the
      least instruction boundary at or above `min`; it answers whenever there is one. */
  lemma {:induction false} CoverIsLeastBoundary(code: seq<Byte>, min: int, budget: nat, insns: seq<Insn>)
    ensures Cover(code, min, budget) == Some(insns) <==>
              |insns| <= budget && Reads(code, insns) && ReachesFirst(insns, min)
  {
    hide Decode, ReachesFirst;
    if insns == [] {
      assert ReachesFirst(insns, min) <==> min <= 0 by { EmptyReaches(min); }
    } else {
      ReachesFirstCons(insns, min);
      if min > 0 && budget > 0 && Decode(code) == Some(insns[0]) {
        CoverIsLeastBoundary(code[insns[0].len..], min - insns[0].len, budget - 1, insns[1..]);
        assert insns == [insns[0]] + insns[1..];
      }
    }
  }

  lemma EmptyReaches(min: int)
    ensures ReachesFirst([], min) <==> min <= 0
  {
  }

  /** `insns` were read without reaching `min`, and the planner cannot go on: the budget is spent or the next
      instruction does not decode. */
  predicate Stuck(code: seq<Byte>, min: int, budget: nat, insns: seq<Insn>) {
    && |insns| <= budget && Reads(code, insns) && Total(insns) <= |code| && Total(insns) < min
    && (|insns| == budget || Decode(code[Total(insns)..]).None?)
  }

  /** Where the planner stops without an answer. */
  function Stopped(code: seq<Byte>, min: int, budget: nat): (insns: seq<Insn>) {
    if min <= 0 || budget == 0 || Decode(code).None? then []
    else [Decode(code).value] + Stopped(code[Decode(code).value.len..], min - Decode(code).value.len, budget - 1)
  }

  /** The planner gives up exactly when it gets stuck below `min`. */
  lemma {:induction false} CoverFailsIffStuck(code: seq<Byte>, min: int, budget: nat)
    ensures Cover(code, min, budget).None? <==> Stuck(code, min, budget, Stopped(code, min, budget))
    ensures Cover(code, min, budget).Some? ==> Cover(code, min, budget).value == Stopped(code, min, budget)
  {
    hide Decode;
    if min > 0 && budget > 0 && Decode(code).Some? {
      var first := Decode(code).value;
      var rest := code[first.len..];
      var tail := Stopped(rest, min - first.len, budget - 1);
      CoverFailsIffStuck(rest, min - first.len, budget - 1);
      var insns := [first] + tail;
      assert insns[1..] == tail;
      if Total(insns) <= |code| { assert rest[Total(tail)..] == code[Total(insns)..]; }
    } else {
      assert code[Total([])..] == code;
    }
  }

  lemma StoppedDecides(code: seq<Byte>, min: int, budget: nat)
    ensures Cover(code, min, budget).Some? <==> Total(Stopped(code, min, budget)) >= min
  {
    hide Cover, Reads, Stopped;
    CoverFailsIffStuck(code, min, budget);
    if Cover(code, min, budget).Some? { CoverIsLeastBoundary(code, min, budget, Cover(code, min, budget).value); }
  }

  /** Bytes beyond the boundary do not matter to the planner. */
  lemma CoverIsLocal(a: seq<Byte>, b: seq<Byte>, min: int, budget: nat)
    requires Cover(a, min, budget).Some? && Agree(a, b, Total(Cover(a, min, budget).value))
    ensures Cover(b, min, budget) == Cover(a, min, budget)
  {
    hide Cover, Reads, ReachesFirst;
    var insns := Cover(a, min, budget).value;
    CoverIsLeastBoundary(a, min, budget, insns);
    ReadsIsLocal(a, b, insns);
    CoverIsLeastBoundary(b, min, budget, insns);
  }

  /** The planner's report. A recorded length is one byte. */
  datatype Boundary = Boundary(supported: bool, relocationSafe: bool, overwriteLen: nat, lengths: seq<Byte>)

  function Recorded(insns: seq<Insn>): (r: seq<Byte>)
    ensures |r| == |insns|
  {
    seq(|insns|, i requires 0 <= i < |insns| => insns[i].len % 256)
  }

  /** `compute_patch_plan_boundary`. */
  method PlanBoundary(code: seq<Byte>, min: nat) returns (b: Boundary)
    ensures b.supported <==> Cover(code, min, MAX_INSTRUCTIONS).Some?
    ensures b.supported ==>
              var insns := Cover(code, min, MAX_INSTRUCTIONS).value;
              b.overwriteLen == Total(insns) && b.lengths == Recorded(insns) && (b.relocationSafe <==> AllSafe(insns))
    ensures !b.supported ==>
              !b.relocationSafe && b.overwriteLen == 0 && b.lengths == Recorded(Stopped(code, min, MAX_INSTRUCTIONS))
  {
    hide Decode, Cover, Recorded, AllSafe, Total, Reads;
    ghost var insns: seq<Insn> := [];
    var cursor, safe, lengths := 0, true, [];
    assert code[cursor..] == code;
    CoverFailsIffStuck(code, min, MAX_INSTRUCTIONS);
    StoppedDecides(code, min, MAX_INSTRUCTIONS);
    NothingYet();
    while cursor < |code| && |lengths| < MAX_INSTRUCTIONS && cursor < min
      invariant cursor <= |code| && |insns| <= MAX_INSTRUCTIONS
      invariant cursor == Total(insns) && lengths == Recorded(insns) && (safe <==> AllSafe(insns))
      invariant Stopped(code, min, MAX_INSTRUCTIONS)
          == insns + Stopped(code[cursor..], min - cursor, MAX_INSTRUCTIONS - |insns|)
    {
      var info := DecodeInstruction(code[cursor..]);
      if info.None? || info.value.len == 0 {
        assert insns + [] == insns;
        return Boundary(false, false, 0, lengths);
      }
      ghost var rest := Stopped(code[cursor..][info.value.len..], min - cursor - info.value.len,
          MAX_INSTRUCTIONS - |insns| - 1);
      assert code[cursor..][info.value.len..] == code[cursor + info.value.len..];
      assert insns + ([info.value] + rest) == insns + [info.value] + rest;
      OneMore(insns, info.value);
      lengths := lengths + [info.value.len % 256];
      insns := insns + [info.value];
      safe := safe && info.value.safe;
      cursor := cursor + info.value.len;
    }
    assert insns + [] == insns;
    if cursor < min {
      if cursor == |code| { NothingDecodes(code[cursor..]); }
      return Boundary(false, false, 0, lengths);
    }
    b := Boundary(true, safe, cursor, lengths);
  }

  function Sum(lengths: seq<Byte>): nat { if lengths == [] then 0 else lengths[0] + Sum(lengths[1..]) }

  lemma {:induction false} RecordedSum(insns: seq<Insn>)
    requires forall i :: 0 <= i < |insns| ==> insns[i].len < 256
    ensures Sum(Recorded(insns)) == Total(insns)
  {
    if insns != [] {
      RecordedSum(insns[1..]);
      assert Recorded(insns)[1..] == Recorded(insns[1..]);
    }
  }

  lemma {:induction false} PartWithinTotal(insns: seq<Insn>, i: nat)
    requires i < |insns|
    ensures insns[i].len <= Total(insns)
  {
    if i > 0 { PartWithinTotal(insns[1..], i - 1); }
  }

  /** An accepted plan stays within the captured bytes and eight instructions, and the recorded lengths add up to it. */
  lemma PlanAddsUp(code: seq<Byte>, min: nat)
    requires Cover(code, min, MAX_INSTRUCTIONS).Some?
    ensures var insns := Cover(code, min, MAX_INSTRUCTIONS).value;
            && |insns| <= MAX_INSTRUCTIONS && min <= Total(insns) <= |code|
            && (|code| < 256 ==> Sum(Recorded(insns)) == Total(insns))
  {
    hide Cover, Reads, Recorded, Total;
    var insns := Cover(code, min, MAX_INSTRUCTIONS).value;
    CoverIsLeastBoundary(code, min, MAX_INSTRUCTIONS, insns);
    ReadsWithin(code, insns);
    if |code| < 256 {
      forall i | 0 <= i < |insns| ensures insns[i].len < 256 { PartWithinTotal(insns, i); }
      RecordedSum(insns);
    }
  }

  lemma NothingYet()
    ensures Total([]) == 0 && Recorded([]) == [] && AllSafe([])
  {
  }

  lemma OneMore(insns: seq<Insn>, next: Insn)
    ensures Total(insns + [next]) == Total(insns) + next.len
    ensures Recorded(insns + [next]) == Recorded(insns) + [next.len % 256]
    ensures AllSafe(insns + [next]) <==> AllSafe(insns) && next.safe
  {
    TotalAppend(insns, [next]);
    var more := insns + [next];
    assert more[|insns|] == next;
    if AllSafe(more) {
      forall i | 0 <= i < |insns| ensures insns[i].safe { assert more[i].safe; }
    }
  }

  lemma NothingDecodes(code: seq<Byte>)
    requires code == []
    ensures Decode(code).None?
  {
  }
}
