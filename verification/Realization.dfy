/** Realising a patch: plan, build the trampoline and the gateway, then overwrite the site. */
module Realization {
  import opened Slots
  import opened Wire
  import opened PatchPlan
  import opened Patching

  // ---- gateways --------------------------------------------------------------------------------------------

  const GATEWAY_HEAD: seq<Byte> := [0x9C, 0x50, 0x41, 0x53, 0x49, 0xBB]
  const GATEWAY_TAIL: seq<Byte> := [0x41, 0x83, 0x03, 0x01, 0x41, 0x5B, 0x58, 0x9D]

  /** Save flags and registers, count the hit, restore them; then the stub and padding. */
  function MarkerGateway(trampoline: Address, counter: Address): (r: seq<Byte>)
    ensures |r| == 64
  {
    GATEWAY_HEAD + LittleEndian(counter, 8) + GATEWAY_TAIL + Stub(trampoline) + Nops(30)
  }

  function PassthroughGateway(trampoline: Address): (r: seq<Byte>)
    ensures |r| == 32
  {
    Stub(trampoline) + Nops(20)
  }

  /** The offset of the gateway's stub. */
  function Entry(marker: bool): nat { if marker then 22 else 0 }

  function Gateway(marker: bool, trampoline: Address, counter: Address): (r: seq<Byte>)
    ensures |r| >= Entry(marker)
  {
    if marker then MarkerGateway(trampoline, counter) else PassthroughGateway(trampoline)
  }

  lemma GatewayJumps(marker: bool, trampoline: Address, counter: Address)
    ensures JumpTarget(Gateway(marker, trampoline, counter)[Entry(marker)..]) == Some(trampoline)
  {
    hide Stub, Nops, JumpTarget;
    var code := Gateway(marker, trampoline, counter);
    var rest := if marker then Nops(30) else Nops(20);
    assert code[Entry(marker)..] == Stub(trampoline) + rest;
    StubReads(trampoline, rest);
  }

  // ---- requests and outcomes ---------------------------------------------------------------------------------

  datatype Request = Request(target: Address, symbol: string, destination: Address, name: string)

  datatype Error =
    | NoError | NotAttempted | TargetMissing | DetourMissing | IncompatibleDetour
    | UnsupportedInstruction | AllocationFailed | ProtectFailed

  /** What the operating system answers: addresses for the two blocks, whether the page may be written, the variant
      asked for, where the hit counter lives, and the code of the last error. */
  datatype Host = Host(
    trampolineAt: Option<Address>, gatewayAt: Option<Address>, writable: bool, marker: bool, counterAt: Address,
        code: nat)

  predicate SupportedLabel(name: string) {
    name in {"phs_create_player_controls_manual_detour_thunk", "phpr_passthrough_gateway", "phpr_marker_gateway"}
  }

  /** The first obstacle, in the order in which they are met. */
  function Obstacle(request: Option<Request>, site: seq<Byte>, host: Host): Error
    requires |site| >= CAPTURE
  {
    if request.None? || request.value.target == 0 then TargetMissing
    else if request.value.destination == 0 then DetourMissing
    else if !SupportedLabel(request.value.name) then IncompatibleDetour
    else if Accepted(site).None? then UnsupportedInstruction
    else if host.trampolineAt.None? || host.gatewayAt.None? then AllocationFailed
    else if !host.writable then ProtectFailed
    else NoError
  }

  /** A patch is realised if and only if there is a target and a detour with one of the three known labels, the planner
      accepts the site, both blocks are allocated and the page can be written. What fails is named, the first thing
      first. */
  lemma RealisedIff(request: Option<Request>, site: seq<Byte>, host: Host)
    requires |site| >= CAPTURE
    ensures var e := Obstacle(request, site, host);
            var target := request.Some? && request.value.target != 0;
            var detour := target && request.value.destination != 0;
            var labelled := detour && (request.value.name == "phs_create_player_controls_manual_detour_thunk"
                || request.value.name == "phpr_passthrough_gateway" || request.value.name == "phpr_marker_gateway");
            var plan := labelled && Accepted(site).Some?;
            var blocks := plan && host.trampolineAt.Some? && host.gatewayAt.Some?;
            && (e == TargetMissing <==> !target) && (e == DetourMissing <==> target && !detour)
            && (e == IncompatibleDetour <==> detour && !labelled)
            && (e == UnsupportedInstruction <==> labelled && !plan)
            && (e == AllocationFailed <==> plan && !blocks) && (e == ProtectFailed <==> blocks && !host.writable)
            && (e == NoError <==> blocks && host.writable)
  {
    hide Accepted;
  }

  // ---- writing bytes ------------------------------------------------------------------------------------------

  /** Copies `src` over the bytes at `at`, as memcpy does. */
  method CopyInto(dst: array<Byte>, at: nat, src: seq<Byte>)
    requires at + |src| <= dst.Length
    modifies dst
    ensures dst[..] == old(dst[..at]) + src + old(dst[at + |src|..]) && dst[..at + |src|] == old(dst[..at]) + src
  {
    var i := 0;
    while i < |src|
      invariant i <= |src|
      invariant dst[..at + i] == old(dst[..at]) + src[..i]
      invariant dst[at + i..] == old(dst[at + i..])
    {
      dst[at + i] := src[i];
      i := i + 1;
    }
    assert src[..i] == src && dst[..] == dst[..at + i] + dst[at + i..];
  }

  /** `emit_mov_rax_jmp_rax`. */
  method EmitStub(dst: array<Byte>, at: nat, addr: Address)
    requires at + STUB <= dst.Length
    modifies dst
    ensures dst[..] == old(dst[..at]) + Stub(addr) + old(dst[at + STUB..])
  {
    hide LittleEndian;
    CopyInto(dst, at + 2, LittleEndian(addr, 8));
    dst[at], dst[at + 1] := 0x48, 0xB8;
    dst[at + 10], dst[at + 11] := 0xFF, 0xE0;
  }

  /** Fills from `from` up to `to` with padding. */
  method Pad(dst: array<Byte>, from: nat, to: nat)
    requires from <= to <= dst.Length
    modifies dst
    ensures dst[..] == old(dst[..from]) + Nops(to - from) + old(dst[to..])
  {
    var cursor := from;
    while cursor < to
      invariant from <= cursor <= to
      invariant dst[..cursor] == old(dst[..from]) + Nops(cursor - from)
      invariant dst[cursor..] == old(dst[cursor..])
    {
      dst[cursor] := NOP;
      cursor := cursor + 1;
    }
    assert dst[..] == dst[..cursor] + dst[cursor..];
  }

  // ---- the attempt ----------------------------------------------------------------------------------------------

  class Realizer {
    var error: Error
    var patchRealized: bool
    var trampolineRealized: bool
    var trampolineAddr: Address  // also what the hook shim is told
    var bytesOverwritten: nat
    var platformCode: nat
    var targetAddr: Address
    var targetSymbol: string
    var detourAddr: Address
    var detourLabel: string

    constructor ()
      ensures Reset()
    {
      error := NotAttempted;
      patchRealized, trampolineRealized, trampolineAddr, bytesOverwritten := false, false, 0, 0;
      targetAddr, detourAddr, detourLabel, targetSymbol, platformCode := 0, 0, "", "", 0;
    }

    ghost predicate Blank()
      reads this
    {
      !patchRealized && !trampolineRealized && trampolineAddr == 0 && bytesOverwritten == 0
    }

    ghost predicate Reset()
      reads this
    {
      Blank() && error == NotAttempted && platformCode == 0 && Notes(None)
    }

    /** `clf4_phpr_attempt`: either the whole patch is realised or the site is untouched. */
    method Attempt(request: Option<Request>, site: array<Byte>, host: Host)
        returns (ok: bool, trampoline: array<Byte>, gateway: array<Byte>)
      requires site.Length >= CAPTURE
      modifies this, site
      ensures fresh(trampoline) && fresh(gateway)
      ensures error == Obstacle(request, old(site[..]), host) && (ok <==> error == NoError)
      ensures platformCode == if error == AllocationFailed || error == ProtectFailed then host.code else 0
      ensures !ok ==> Blank() && site[..] == old(site[..])
      ensures !ok ==> Notes(request)
      ensures ok ==>
                && patchRealized && trampolineRealized && trampolineAddr == host.trampolineAt.value
                && targetAddr == request.value.target && targetSymbol == request.value.symbol
                && detourAddr == host.gatewayAt.value
                && detourLabel == if host.marker then "phpr_marker_gateway" else "phpr_passthrough_gateway"
      ensures ok ==>
                && bytesOverwritten == Total(Accepted(old(site[..])).value)
                && STUB <= bytesOverwritten <= CAPTURE
                && site[..] == Patched(old(site[..]), host.gatewayAt.value, bytesOverwritten)
                && trampoline[..] == Trampoline(old(site[..]), request.value.target, bytesOverwritten)
                && gateway[..] == Gateway(host.marker, host.trampolineAt.value, host.counterAt)
    {
      hide Accepted, Total, Patched, Trampoline, Gateway, Obstacle;
      Begin(request);
      trampoline, gateway := new Byte[0], new Byte[0];
      var n: nat;
      error, n := Preflight(request, site, host);
      platformCode := if error == AllocationFailed || error == ProtectFailed then host.code else 0;
      ok := error == NoError;
      if ok {
        trampoline, gateway := Write(request.value.target, site, host, n);
        patchRealized, trampolineRealized, trampolineAddr, bytesOverwritten := true, true, host.trampolineAt.value, n;
        detourAddr := host.gatewayAt.value;
        detourLabel := if host.marker then "phpr_marker_gateway" else "phpr_passthrough_gateway";
      }
    }

    /** Forgets the last attempt and notes what is asked for. */
    method Begin(request: Option<Request>)
      modifies this
      ensures Blank() && Notes(request)
    {
      patchRealized, trampolineRealized, trampolineAddr, bytesOverwritten := false, false, 0, 0;
      if request.Some? {
        targetAddr, targetSymbol := request.value.target, request.value.symbol;
        detourAddr, detourLabel := request.value.destination, request.value.name;
      } else {
        targetAddr, targetSymbol, detourAddr, detourLabel := 0, "", 0, "";
      }
    }

    ghost predicate Notes(request: Option<Request>)
      reads this
    {
      match request
      case None => targetAddr == 0 && targetSymbol == "" && detourAddr == 0 && detourLabel == ""
      case Some(r) =>
        targetAddr == r.target && targetSymbol == r.symbol && detourAddr == r.destination && detourLabel == r.name
    }
  }

  /** The checks in order. The last two stand for allocations and a page protection that fail; what was allocated by
      then is freed again. */
  method Preflight(request: Option<Request>, site: array<Byte>, host: Host) returns (e: Error, n: nat)
    requires site.Length >= CAPTURE
    ensures e == Obstacle(request, site[..], host)
    ensures e == NoError ==> request.Some? && host.trampolineAt.Some? && host.gatewayAt.Some?
    ensures e == NoError ==> Accepted(site[..]).Some?
    ensures e == NoError ==> n == Total(Accepted(site[..]).value) && STUB <= n <= CAPTURE
  {
    hide Accepted, Total, SupportedLabel;
    n := 0;
    if request.None? || request.value.target == 0 { return TargetMissing, 0; }
    if request.value.destination == 0 { return DetourMissing, 0; }
    if !SupportedLabel(request.value.name) { return IncompatibleDetour, 0; }
    var boundary := PlanSite(site);
    if boundary.None? { return UnsupportedInstruction, 0; }
    n := boundary.value;
    if n < STUB { assert false; }  // the write_failed error cannot happen
    if host.trampolineAt.None? || host.gatewayAt.None? { return AllocationFailed, 0; }
    if !host.writable { return ProtectFailed, 0; }
    e := NoError;
  }

  /** Captures the first bytes of the site and plans on them. Once a plan is there it covers the stub. */
  method PlanSite(site: array<Byte>) returns (n: Option<nat>)
    requires site.Length >= CAPTURE
    ensures n.Some? <==> Accepted(site[..]).Some?
    ensures n.Some? ==> n.value == Total(Accepted(site[..]).value) && STUB <= n.value <= CAPTURE
  {
    hide Cover, Total, AllSafe, Recorded, Stopped, Reads;
    var captured := site[..CAPTURE];
    assert captured == site[..][..CAPTURE];
    var plan := PlanBoundary(captured, STUB);
    if !plan.supported || !plan.relocationSafe { return None; }
    AcceptedReads(site[..]);
    n := Some(plan.overwriteLen);
  }

  /** A realised patch closes the circle: the site jumps to the gateway, the gateway to the trampoline, and the
      trampoline, behind instructions that are all relocatable and read as before, to the byte behind them. */
  lemma CircleCloses(request: Option<Request>, site: seq<Byte>, host: Host)
    requires |site| >= CAPTURE && Obstacle(request, site, host) == NoError
    ensures var insns := Accepted(site).value;
            var n := Total(insns);
            && STUB <= n <= |site| && AllSafe(insns)
            && JumpTarget(Patched(site, host.gatewayAt.value, n)) == host.gatewayAt
            && JumpTarget(Gateway(host.marker, host.trampolineAt.value, host.counterAt)[Entry(host.marker)..])
                  == host.trampolineAt
            && Reads(Trampoline(site, request.value.target, n), insns)
            && JumpTarget(Trampoline(site, request.value.target, n)[n..]) == Some((request.value.target + n) % SPACE)
  {
    hide Accepted, Total, AllSafe, Reads, JumpTarget, Patched, Gateway, Trampoline, SupportedLabel;
    var insns := Accepted(site).value;
    AcceptedPatchIsSound(site, request.value.target, host.gatewayAt.value, []);
    ReadsAppend(Trampoline(site, request.value.target, Total(insns)), insns, STUB_INSNS);
    GatewayJumps(host.marker, host.trampolineAt.value, host.counterAt);
  }

  method BuildTrampoline(site: array<Byte>, target: Address, n: nat) returns (code: array<Byte>)
    requires n <= site.Length
    ensures fresh(code) && code[..] == Trampoline(site[..], target, n)
  {
    hide Stub;
    code := new Byte[n + STUB](_ => 0);
    CopyInto(code, 0, site[..n]);
    EmitStub(code, n, Return(target, n));
    assert site[..n] == site[..][..n];
  }

  method BuildGateway(marker: bool, trampoline: Address, counter: Address) returns (code: array<Byte>)
    ensures fresh(code) && code[..] == Gateway(marker, trampoline, counter)
  {
    hide Stub, Nops, LittleEndian;
    if marker {
      code := BuildMarker(trampoline, counter);
    } else {
      code := new Byte[32](_ => 0);
      EmitStub(code, 0, trampoline);
      Pad(code, STUB, 32);
    }
  }

  /** The bytes of the marker gateway one after the other, each behind what is already there. */
  method BuildMarker(trampoline: Address, counter: Address) returns (code: array<Byte>)
    ensures fresh(code) && code[..] == MarkerGateway(trampoline, counter)
  {
    hide Stub, Nops, LittleEndian;
    code := new Byte[64](_ => 0);
    ghost var counting := GATEWAY_HEAD + LittleEndian(counter, 8) + GATEWAY_TAIL;
    WriteCounting(code, counter);
    EmitStub(code, 22, trampoline);
    assert code[..34] == counting + Stub(trampoline);
    Pad(code, 34, 64);
    assert code[..] == counting + Stub(trampoline) + Nops(30);
  }

  method WriteCounting(code: array<Byte>, counter: Address)
    requires code.Length == 64
    modifies code
    ensures code[..22] == GATEWAY_HEAD + LittleEndian(counter, 8) + GATEWAY_TAIL
  {
    hide LittleEndian;
    CopyInto(code, 0, GATEWAY_HEAD);
    ghost var head := code[..6];
    assert head == GATEWAY_HEAD;
    CopyInto(code, 6, LittleEndian(counter, 8));
    ghost var counted := code[..14];
    assert counted == head + LittleEndian(counter, 8);
    CopyInto(code, 14, GATEWAY_TAIL);
    assert code[..22] == counted + GATEWAY_TAIL;
  }

  /** Trampoline and gateway first, then the site that leads to them. */
  method Write(target: Address, site: array<Byte>, host: Host, n: nat)
      returns (trampoline: array<Byte>, gateway: array<Byte>)
    requires STUB <= n <= site.Length && host.trampolineAt.Some? && host.gatewayAt.Some?
    modifies site
    ensures fresh(trampoline) && fresh(gateway)
    ensures site[..] == Patched(old(site[..]), host.gatewayAt.value, n)
    ensures trampoline[..] == Trampoline(old(site[..]), target, n)
    ensures gateway[..] == Gateway(host.marker, host.trampolineAt.value, host.counterAt)
  {
    hide Patched, Trampoline, Gateway;
    trampoline := BuildTrampoline(site, target, n);
    gateway := BuildGateway(host.marker, host.trampolineAt.value, host.counterAt);
    PatchSite(site, host.gatewayAt.value, n);
  }

  method PatchSite(site: array<Byte>, dest: Address, n: nat)
    requires STUB <= n <= site.Length
    modifies site
    ensures site[..] == Patched(old(site[..]), dest, n)
  {
    hide Stub, Nops;
    EmitStub(site, 0, dest);
    Pad(site, STUB, n);
  }
}
