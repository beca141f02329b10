/**
 * The kernel-operation filter: groups of operations are turned into system-call numbers and compiled to
 * a classic BPF program, which a small interpreter gives its meaning.
 */
module SeccompFilter {
  import opened Prelude

  // --- The machine --------------------------------------------------------------------------------

  /** `sock_filter`. */
  datatype Instruction = Instruction(code: nat, jt: nat, jf: nat, k: nat)

  const LOAD_WORD: nat := 0x20
  const JUMP_EQUAL: nat := 0x15
  const RETURN: nat := 0x06

  /** The words of `seccomp_data`: call number and architecture first, then address and arguments. */
  datatype Data = Data(nr: nat, arch: nat, rest: seq<nat>)

  function WordAt(d: Data, offset: nat): Option<nat> {
    if offset == 0 then Some(d.nr)
    else if offset == 4 then Some(d.arch)
    else if offset % 4 == 0 && offset / 4 - 2 < |d.rest| then Some(d.rest[offset / 4 - 2])
    else None
  }

  /** Executes from `pc` with accumulator `a`; `None` is a program the kernel would refuse. */
  function Run(program: seq<Instruction>, pc: nat, a: nat, d: Data): Option<nat>
    decreases |program| - pc
  {
    if pc >= |program| then None
    else
      var i := program[pc];
      if i.code == LOAD_WORD then
        var w := WordAt(d, i.k);
        if w.None? then None else Run(program, pc + 1, w.value, d)
      else if i.code == JUMP_EQUAL then Run(program, pc + 1 + if a == i.k then i.jt else i.jf, a, d)
      else if i.code == RETURN then Some(i.k)
      else None
  }

  // --- The policy -----------------------------------------------------------------------------------

  datatype Arch = X86_64 | Aarch64

  function AuditArch(arch: Arch): nat {
    match arch case X86_64 => 0xc000003e case Aarch64 => 0xc00000b7
  }

  datatype KernelOp =
    | MountFilesystem
    | ChangeNamespace
    | TraceProcess
    | AccessProcessMemory
    | UseKernelInstrumentation
    | LoadKernelCode
    | AccessRawDevice
    | ManageSystemPower

  /** In declaration order, the order of a `BTreeSet`. */
  const ALL: seq<KernelOp> := [MountFilesystem, ChangeNamespace, TraceProcess, AccessProcessMemory,
                               UseKernelInstrumentation, LoadKernelCode, AccessRawDevice, ManageSystemPower]

  datatype Violation = ReturnPermissionDenied | KillProcess

  datatype Policy =
    | Unrestricted
    | DenyList(denied: set<KernelOp>, violation: Violation)
    | AllowList(allowed: set<KernelOp>, violation: Violation)

  const KILL: nat := 0x80000000
  const ERRNO: nat := 0x00050000
  const EPERM: nat := 1
  const ALLOW: nat := 0x7fff0000

  function SyscallsForOp(arch: Arch, op: KernelOp): seq<nat> {
    match arch
    case X86_64 =>
      (match op
       case MountFilesystem => [165, 166, 155, 161]
       case ChangeNamespace => [308, 272]
       case TraceProcess => [101, 312]
       case AccessProcessMemory => [310, 311]
       case UseKernelInstrumentation => [321, 298, 323]
       case LoadKernelCode => [175, 313, 176, 246]
       case AccessRawDevice => [304, 303]
       case ManageSystemPower => [169, 167, 168])
    case Aarch64 =>
      (match op
       case MountFilesystem => [40, 39, 41, 51]
       case ChangeNamespace => [268, 97]
       case TraceProcess => [117, 272]
       case AccessProcessMemory => [270, 271]
       case UseKernelInstrumentation => [280, 241, 282]
       case LoadKernelCode => [105, 273, 106, 104]
       case AccessRawDevice => [265, 264]
       case ManageSystemPower => [142, 224, 225])
  }

  /** No call number belongs to two groups. */
  lemma GroupsAreDisjoint(arch: Arch, a: KernelOp, b: KernelOp, nr: nat)
    requires nr in SyscallsForOp(arch, a) && nr in SyscallsForOp(arch, b)
    ensures a == b
  {
  }

  /** The numbers of the operations of a list that are in a set, in order. */
  function SyscallsOf(arch: Arch, ops: seq<KernelOp>, chosen: set<KernelOp>): seq<nat> {
    if ops == [] then []
    else (if ops[0] in chosen then SyscallsForOp(arch, ops[0]) else []) + SyscallsOf(arch, ops[1..], chosen)
  }

  function Without(all: seq<nat>, some: seq<nat>): seq<nat> {
    if all == [] then [] else (if all[0] in some then [] else [all[0]]) + Without(all[1..], some)
  }

  /** The numbers to deny, in the order in which they are compiled. */
  function Denied(arch: Arch, policy: Policy): seq<nat> {
    match policy
    case Unrestricted => []
    case DenyList(denied, _) => SyscallsOf(arch, ALL, denied)
    case AllowList(allowed, _) => Without(SyscallsOf(arch, ALL, set op | op in ALL), SyscallsOf(arch, ALL, allowed))
  }

  function ReturnFor(v: Violation): nat {
    match v case ReturnPermissionDenied => ERRNO + EPERM case KillProcess => KILL
  }

  // --- The compiler -----------------------------------------------------------------------------------

  const PROLOGUE_LENGTH := 4

  function Prologue(arch: Arch): seq<Instruction> {
    [Instruction(LOAD_WORD, 0, 0, 4), Instruction(JUMP_EQUAL, 1, 0, AuditArch(arch)),
     Instruction(RETURN, 0, 0, KILL), Instruction(LOAD_WORD, 0, 0, 0)]
  }

  function Test(nr: nat, verdict: nat): seq<Instruction> {
    [Instruction(JUMP_EQUAL, 0, 1, nr), Instruction(RETURN, 0, 0, verdict)]
  }

  /** The tests of some numbers, one after the other. */
  function Tests(denied: seq<nat>, verdict: nat): seq<Instruction> {
    if denied == [] then [] else Tests(denied[..|denied| - 1], verdict) + Test(denied[|denied| - 1], verdict)
  }

  function Program(arch: Arch, denied: seq<nat>, verdict: nat): seq<Instruction> {
    Prologue(arch) + Tests(denied, verdict) + [Instruction(RETURN, 0, 0, ALLOW)]
  }

  /** The filter for a policy, if one is needed. */
  function Filter(arch: Arch, policy: Policy): Option<seq<Instruction>> {
    if Denied(arch, policy) == [] then None else Some(Program(arch, Denied(arch, policy), ReturnFor(policy.violation)))
  }

  /** `install_kernel_ops_filter`, up to handing the program to the kernel; `None` installs no filter. */
  method CompileFilter(arch: Arch, policy: Policy) returns (filter: Option<seq<Instruction>>)
    ensures filter == Filter(arch, policy)
  {
    if policy.Unrestricted? { return None; }
    var syscalls := Denied(arch, policy);
    if syscalls == [] { return None; }
    var violation := ReturnFor(policy.violation);
    var code := Prologue(arch);
    for i := 0 to |syscalls|
      invariant code == Prologue(arch) + Tests(syscalls[..i], violation)
    {
      OneMoreTest(Prologue(arch), syscalls, violation, i);
      code := code + Test(syscalls[i], violation);
    }
    assert syscalls[..|syscalls|] == syscalls;
    code := code + [Instruction(RETURN, 0, 0, ALLOW)];
    filter := Some(code);
  }

  lemma OneMoreTest(code: seq<Instruction>, syscalls: seq<nat>, verdict: nat, i: nat)
    requires i < |syscalls|
    ensures code + Tests(syscalls[..i + 1], verdict) == code + Tests(syscalls[..i], verdict) + Test(syscalls[i], verdict)
  {
    assert syscalls[..i + 1][..i] == syscalls[..i];
  }

  // --- What the program means -----------------------------------------------------------------------------

  lemma {:induction false} TestsAt(denied: seq<nat>, verdict: nat, i: nat)
    requires i < |denied|
    ensures |Tests(denied, verdict)| == 2 * |denied|
    ensures Tests(denied, verdict)[2 * i..2 * i + 2] == Test(denied[i], verdict)
    decreases |denied|
  {
    var n := |denied| - 1;
    if n > 0 { TestsAt(denied[..n], verdict, if i < n then i else 0); }
    if i < n {
      assert Tests(denied, verdict)[2 * i..2 * i + 2] == Tests(denied[..n], verdict)[2 * i..2 * i + 2];
    } else {
      assert Tests(denied[..0], verdict) == [];
    }
  }

  lemma ProgramAt(arch: Arch, denied: seq<nat>, verdict: nat, i: nat)
    requires i < |denied|
    ensures var p, pc := Program(arch, denied, verdict), PROLOGUE_LENGTH + 2 * i;
            |p| == 2 * |denied| + 5 && p[pc] == Test(denied[i], verdict)[0] && p[pc + 1] == Test(denied[i], verdict)[1]
            && p[|p| - 1] == Instruction(RETURN, 0, 0, ALLOW)
  {
    TestsAt(denied, verdict, i);
    var ts := Tests(denied, verdict);
    assert ts[2 * i] == ts[2 * i..2 * i + 2][0] && ts[2 * i + 1] == ts[2 * i..2 * i + 2][1];
  }

  /** From the `i`-th test on, the program asks whether the number is among the remaining ones. */
  lemma {:induction false} RunTests(arch: Arch, denied: seq<nat>, verdict: nat, i: nat, d: Data)
    requires denied != [] && i <= |denied|
    ensures Run(Program(arch, denied, verdict), PROLOGUE_LENGTH + 2 * i, d.nr, d)
         == Some(if d.nr in denied[i..] then verdict else ALLOW)
    decreases |denied| - i
  {
    var p := Program(arch, denied, verdict);
    if i < |denied| {
      ProgramAt(arch, denied, verdict, i);
      RunTests(arch, denied, verdict, i + 1, d);
      assert denied[i..] == [denied[i]] + denied[i + 1..];
    } else {
      ProgramAt(arch, denied, verdict, 0);
    }
  }

  /** A wrong architecture is killed, a denied number meets the verdict, all else is allowed. */
  lemma RunProgram(arch: Arch, denied: seq<nat>, verdict: nat, d: Data)
    requires denied != []
    ensures Run(Program(arch, denied, verdict), 0, 0, d)
         == Some(if d.arch != AuditArch(arch) then KILL else if d.nr in denied then verdict else ALLOW)
  {
    var p := Program(arch, denied, verdict);
    assert p[0] == Prologue(arch)[0] && p[1] == Prologue(arch)[1] && p[2] == Prologue(arch)[2] && p[3] == Prologue(arch)[3];
    assert Run(p, 0, 0, d) == Run(p, 1, d.arch, d);
    assert Run(p, 2, d.arch, d) == Some(KILL);
    assert Run(p, 3, d.arch, d) == Run(p, 4, d.nr, d);
    RunTests(arch, denied, verdict, 0, d);
    assert denied[0..] == denied;
  }

  // --- What the policy means ----------------------------------------------------------------------------

  /** The operation is one that the policy denies. */
  predicate Denies(policy: Policy, op: KernelOp) {
    match policy
    case Unrestricted => false
    case DenyList(denied, _) => op in denied
    case AllowList(allowed, _) => op !in allowed
  }

  lemma {:induction false} SyscallsOfGroups(arch: Arch, ops: seq<KernelOp>, chosen: set<KernelOp>, nr: nat)
    ensures nr in SyscallsOf(arch, ops, chosen) <==> exists op :: op in ops && op in chosen && nr in SyscallsForOp(arch, op)
  {
    if ops != [] { SyscallsOfGroups(arch, ops[1..], chosen, nr); }
  }

  lemma {:induction false} WithoutRemoves(all: seq<nat>, some: seq<nat>, nr: nat)
    ensures nr in Without(all, some) <==> nr in all && nr !in some
  {
    if all != [] { WithoutRemoves(all[1..], some, nr); }
  }

  lemma EveryOpIsListed(op: KernelOp)
    ensures op in ALL
  {
  }

  /** The compiled numbers are exactly those of the denied operations. */
  lemma DeniedNumbers(arch: Arch, policy: Policy, nr: nat)
    ensures nr in Denied(arch, policy) <==> exists op :: Denies(policy, op) && nr in SyscallsForOp(arch, op)
  {
    match policy
    case Unrestricted =>
    case DenyList(denied, _) =>
      forall op: KernelOp ensures op in ALL { EveryOpIsListed(op); }
      SyscallsOfGroups(arch, ALL, denied, nr);
    case AllowList(allowed, _) => NotAllowedNumbers(arch, policy, nr);
  }

  lemma NotAllowedNumbers(arch: Arch, policy: Policy, nr: nat)
    requires policy.AllowList?
    ensures nr in Denied(arch, policy) <==> exists op :: Denies(policy, op) && nr in SyscallsForOp(arch, op)
  {
    var allowed, every := policy.allowed, set op | op in ALL;
    forall op: KernelOp ensures op in every { EveryOpIsListed(op); }
    SyscallsOfGroups(arch, ALL, every, nr);
    SyscallsOfGroups(arch, ALL, allowed, nr);
    WithoutRemoves(SyscallsOf(arch, ALL, every), SyscallsOf(arch, ALL, allowed), nr);
    OneGroup(arch, nr);
  }

  lemma OneGroup(arch: Arch, nr: nat)
    ensures forall a, b :: nr in SyscallsForOp(arch, a) && nr in SyscallsForOp(arch, b) ==> a == b
  {
    forall a, b | nr in SyscallsForOp(arch, a) && nr in SyscallsForOp(arch, b)
      ensures a == b
    {
      GroupsAreDisjoint(arch, a, b, nr);
    }
  }

  /** What the kernel decides under a filter, or without one. */
  function Decision(filter: Option<seq<Instruction>>, d: Data): Option<nat> {
    match filter
    case None => Some(ALLOW)
    case Some(program) => Run(program, 0, 0, d)
  }

  /** The kernel's word for a violation: kill the process, or fail the call with the error that permission is denied. */
  function ReturnWord(policy: Policy): nat
    requires !policy.Unrestricted?
  {
    if policy.violation == KillProcess then 0x8000_0000 else 0x0005_0001
  }

  /**
   * A policy that denies something is carried out exactly: on another architecture the process is killed, a call
   * of a denied operation meets the violation, and every other call is allowed.
   */
  lemma FilterMeansPolicy(arch: Arch, policy: Policy, d: Data)
    requires exists op :: Denies(policy, op)
    ensures Filter(arch, policy).Some?
    ensures Decision(Filter(arch, policy), d)
         == Some(if d.arch != (if arch == X86_64 then 0xC000_003E else 0xC000_00B7) then 0x8000_0000
                 else if exists op :: Denies(policy, op) && d.nr in SyscallsForOp(arch, op) then ReturnWord(policy)
                 else 0x7FFF_0000)
  {
    var op :| Denies(policy, op);
    DeniedNumbers(arch, policy, SyscallsForOp(arch, op)[0]);
    RunProgram(arch, Denied(arch, policy), ReturnFor(policy.violation), d);
    DeniedNumbers(arch, policy, d.nr);
  }

  /** The program word for word: check the architecture, load the call number, test each denied number, allow the rest. */
  lemma FilterWords(arch: Arch, policy: Policy)
    requires exists op :: Denies(policy, op)
    ensures Filter(arch, policy).Some?
    ensures var p, denied := Filter(arch, policy).value, Denied(arch, policy);
            && |p| == 2 * |denied| + 5
            && p[0] == Instruction(0x20, 0, 0, 4)
            && p[1] == Instruction(0x15, 1, 0, if arch == X86_64 then 0xC000_003E else 0xC000_00B7)
            && p[2] == Instruction(0x06, 0, 0, 0x8000_0000)
            && p[3] == Instruction(0x20, 0, 0, 0)
            && (forall i :: 0 <= i < |denied| ==>
                  p[4 + 2 * i] == Instruction(0x15, 0, 1, denied[i]) && p[5 + 2 * i] == Instruction(0x06, 0, 0, ReturnWord(policy)))
            && p[|p| - 1] == Instruction(0x06, 0, 0, 0x7FFF_0000)
  {
    FilterIffDenies(arch, policy);
    var denied := Denied(arch, policy);
    var p := Program(arch, denied, ReturnFor(policy.violation));
    ProgramAt(arch, denied, ReturnFor(policy.violation), 0);
    forall i | 0 <= i < |denied|
      ensures p[4 + 2 * i] == Instruction(0x15, 0, 1, denied[i]) && p[5 + 2 * i] == Instruction(0x06, 0, 0, ReturnWord(policy))
    {
      ProgramAt(arch, denied, ReturnFor(policy.violation), i);
    }
  }

  /** A filter is installed exactly when some operation is denied. */
  lemma FilterIffDenies(arch: Arch, policy: Policy)
    ensures Filter(arch, policy).Some? <==> exists op :: Denies(policy, op)
  {
    if op :| Denies(policy, op) { DeniedNumbers(arch, policy, SyscallsForOp(arch, op)[0]); }
    if Denied(arch, policy) != [] { DeniedNumbers(arch, policy, Denied(arch, policy)[0]); }
  }

  /** Allowing some operations is denying all others. */
  lemma AllowIsDenyComplement(arch: Arch, allowed: set<KernelOp>, v: Violation, d: Data)
    ensures var others := set op | op in ALL && op !in allowed;
            Decision(Filter(arch, AllowList(allowed, v)), d) == Decision(Filter(arch, DenyList(others, v)), d)
  {
    var others := set op | op in ALL && op !in allowed;
    var allow, deny := AllowList(allowed, v), DenyList(others, v);
    forall op ensures Denies(allow, op) <==> Denies(deny, op) { EveryOpIsListed(op); }
    FilterIffDenies(arch, allow);
    FilterIffDenies(arch, deny);
    if exists op :: Denies(allow, op) {
      FilterMeansPolicy(arch, allow, d);
      FilterMeansPolicy(arch, deny, d);
    }
  }
}
