/** Building the seccomp filter of one app, and what it decides for every system call. */
module Seccomp {
  import opened Wrappers
  import opened Bits
  import opened SyscallLists

  datatype Arch = X86_64 | X86 | Aarch64 | Arm | Foreign

  datatype Capability =
    | Bpf | DacReadSearch | Perfmon | SysAdmin | SysChroot | SysModule | SysPacct | SysPtrace | SysRawio | SysTime
    | SysTtyConfig | Unpaired(name: string)

  // What the program was built for.
  datatype Target = BuiltForX86_64 | BuiltForAarch64 | BuiltForOther

  // Calls only some architectures have.
  function ArchAllowed(target: Target): seq<string> {
    match target
    case BuiltForX86_64 => ARCH_ALLOWED_X86_64
    case BuiltForAarch64 => ARCH_ALLOWED_AARCH64
    case BuiltForOther => []
  }

  // The instruction sets the filter covers, the 32-bit ones included.
  function Architectures(target: Target): seq<Arch> {
    match target
    case BuiltForX86_64 => [X86_64, X86]
    case BuiltForAarch64 => [Aarch64, Arm]
    case BuiltForOther => []
  }

  datatype RunConfig = RunConfig(capabilities: seq<Capability>, allow: seq<string>, deny: seq<string>)

  // A call as a filter sees it: its name, where it comes from, and its first argument.
  datatype Call = Call(name: string, arch: Arch, argument: nat)

  datatype Verdict = Allow | Errno(number: nat)

  datatype Test = Always | NoUserNamespace | NoUserNamespaceOn(arch: Arch) | NotVsock | Is(value: nat)

  datatype Rule = Rule(name: string, verdict: Verdict, test: Test)

  datatype Policy = Policy(archs: seq<Arch>, rules: seq<Rule>)

  const EPERM := Errno(1)
  const ENOSYS := Errno(38)
  const CLONE_NEWUSER_BIT := 28
  const AF_VSOCK := 40
  const PERSONALITIES := [0x0, 0x8, 0x2_0000, 0x2_0008, 0xffff_ffff]

  const CAPABILITY_SYSCALLS: seq<(Capability, seq<string>)> := [
    (Bpf, ["bpf"]),
    (DacReadSearch, ["open_by_handle_at"]),
    (Perfmon, ["perf_event_open"]),
    (SysAdmin, ["bpf", "lookup_dcookie", "quotactl", "quotactl_fd", "setdomainname", "sethostname", "setns"]),
    (SysChroot, ["chroot"]),
    (SysModule, ["delete_module", "finit_module", "init_module", "query_module"]),
    (SysPacct, ["acct"]),
    (SysPtrace, ["kcmp", "process_madvise"]),
    (SysRawio, ["ioperm", "iopl"]),
    (SysTime, ["clock_settime", "clock_settime64", "settimeofday", "stime"]),
    (SysTtyConfig, ["vhangup"])]

  // ---- What a policy does ----

  predicate Passes(test: Test, c: Call) {
    match test
    case Always => true
    case NoUserNamespace => !Bit(c.argument, CLONE_NEWUSER_BIT)
    case NoUserNamespaceOn(arch) => c.arch == arch && !Bit(c.argument, CLONE_NEWUSER_BIT)
    case NotVsock => c.argument != AF_VSOCK
    case Is(value) => c.argument == value
  }

  predicate Matches(r: Rule, c: Call) {
    r.name == c.name && Passes(r.test, c)
  }

  predicate Gives(rules: seq<Rule>, c: Call, v: Verdict) {
    exists r :: r in rules && Matches(r, c) && r.verdict == v
  }

  // Any matching rule that allows the call is enough.
  function Decide(p: Policy, c: Call): Verdict {
    if c.arch !in p.archs then EPERM
    else if Gives(p.rules, c, Allow) then Allow
    else if Gives(p.rules, c, ENOSYS) then ENOSYS
    else EPERM
  }

  // ---- Building one ----

  // The rules for calls allowed only in part.
  predicate IsPartial(r: Rule, archs: seq<Arch>) {
    || (r.test.NoUserNamespaceOn? && r.test.arch in archs && r == Rule("clone", Allow, r.test))
    || r == Rule("unshare", Allow, NoUserNamespace)
    || r == Rule("clone3", ENOSYS, Always)
    || r == Rule("socket", Allow, NotVsock)
    || (r.test.Is? && r.test.value in PERSONALITIES && r == Rule("personality", Allow, r.test))
  }

  method PartialRules(archs: seq<Arch>) returns (rules: seq<Rule>)
    ensures forall r :: r in rules <==> IsPartial(r, archs)
  {
    rules := [];
    for n := 0 to |archs|
      invariant forall r :: r in rules <==>
                  r.test.NoUserNamespaceOn? && r.test.arch in archs[..n] && r == Rule("clone", Allow, r.test)
    {
      rules := rules + [Rule("clone", Allow, NoUserNamespaceOn(archs[n]))];
    }
    rules := rules + [Rule("unshare", Allow, NoUserNamespace)];
    rules := rules + [Rule("clone3", ENOSYS, Always)];
    rules := rules + [Rule("socket", Allow, NotVsock)];
    ghost var before := rules;
    for n := 0 to |PERSONALITIES|
      invariant forall r :: r in rules <==>
                  r in before
                  || (r.test.Is? && r.test.value in PERSONALITIES[..n] && r == Rule("personality", Allow, r.test))
    {
      rules := rules + [Rule("personality", Allow, Is(PERSONALITIES[n]))];
    }
  }

  function Without(rules: seq<Rule>, name: string): (r: seq<Rule>)
    ensures forall q :: q in r <==> q in rules && q.name != name
  {
    if rules == [] then []
    else (if rules[0].name != name then [rules[0]] else []) + Without(rules[1..], name)
  }

  predicate Granted(run: RunConfig, name: string) {
    exists i :: 0 <= i < |CAPABILITY_SYSCALLS| &&
      CAPABILITY_SYSCALLS[i].0 in run.capabilities && name in CAPABILITY_SYSCALLS[i].1
  }

  // The names the built-in profile starts from.
  function BuiltIn(target: Target): set<string> {
    set name | name in ALLOWED + ArchAllowed(target)
  }

  // The names allowed whatever their arguments, before any is denied.
  predicate Listed(target: Target, run: RunConfig, name: string) {
    name in run.allow || name in BuiltIn(target) || Granted(run, name)
  }

  method AllowedNames(target: Target, run: RunConfig) returns (allowed: set<string>)
    ensures forall name :: name in allowed <==>
              name in BuiltIn(target) || Granted(run, name)
  {
    hide BuiltIn;
    allowed := BuiltIn(target);
    for n := 0 to |CAPABILITY_SYSCALLS|
      invariant forall name :: name in allowed <==>
        name in BuiltIn(target) ||
        exists i :: 0 <= i < n && CAPABILITY_SYSCALLS[i].0 in run.capabilities && name in CAPABILITY_SYSCALLS[i].1
    {
      if CAPABILITY_SYSCALLS[n].0 in run.capabilities {
        allowed := allowed + set name | name in CAPABILITY_SYSCALLS[n].1;
      }
    }
  }

  // The filter of one app. It fails exactly when a name left to allow is not one of a system call; otherwise it decides
  // every call the way Decision says. `known` holds the names the filter library takes for system calls.
  method Profile(target: Target, known: set<string>, run: RunConfig) returns (r: Result<Policy>)
    ensures r.Err? <==> exists name :: Listed(target, run, name) && name !in run.deny && name !in known
    ensures r.Ok? ==> forall c :: Decide(r.value, c) == Decision(target, run, c)
  {
    hide BuiltIn, Granted, IsPartial, Decide, Decision;
    var allowed := AllowedNames(target, run);
    var partial := PartialRules(Architectures(target));
    ghost var base := allowed;
    for n := 0 to |run.allow|
      invariant forall name :: name in allowed <==> name in base || name in run.allow[..n]
      invariant forall q :: q in partial <==> IsPartial(q, Architectures(target)) && q.name !in run.allow[..n]
    {
      allowed := allowed + {run.allow[n]};
      partial := Without(partial, run.allow[n]);
      assert run.allow[..n + 1] == run.allow[..n] + [run.allow[n]];
    }
    assert run.allow[..|run.allow|] == run.allow;
    for n := 0 to |run.deny|
      invariant forall name :: name in allowed <==> Listed(target, run, name) && name !in run.deny[..n]
      invariant forall q :: q in partial <==>
                  IsPartial(q, Architectures(target)) && q.name !in run.allow && q.name !in run.deny[..n]
    {
      allowed := allowed - {run.deny[n]};
      partial := Without(partial, run.deny[n]);
      assert run.deny[..n + 1] == run.deny[..n] + [run.deny[n]];
    }
    assert run.deny[..|run.deny|] == run.deny;
    r := Filled(target, known, allowed, partial);
    if r.Ok? {
      forall c ensures Decide(r.value, c) == Decision(target, run, c) {
        DecidesAsSpecified(target, run, r.value, c);
      }
    }
  }

  // One unconditional rule per allowed name, then the partial ones.
  method Filled(target: Target, known: set<string>, allowed: set<string>, partial: seq<Rule>) returns (r: Result<Policy>)
    ensures r.Err? <==> exists name :: name in allowed && name !in known
    ensures r.Ok? ==> r.value.archs == Architectures(target)
    ensures r.Ok? ==> forall q :: q in r.value.rules <==>
                        q in partial || (q.name in allowed && q == Rule(q.name, Allow, Always))
  {
    var rules: seq<Rule> := [];
    var todo := allowed;
    while todo != {}
      invariant todo <= allowed
      invariant forall name :: name in allowed - todo ==> name in known
      invariant forall q :: q in rules <==> q.name in allowed - todo && q == Rule(q.name, Allow, Always)
    {
      var name :| name in todo;
      if name !in known {
        return Err;
      }
      todo := todo - {name};
      rules := rules + [Rule(name, Allow, Always)];
    }
    r := Ok(Policy(Architectures(target), rules + partial));
  }

  // ---- The decision ----

  // What is left to the partial rules.
  function PartialDecision(c: Call): Verdict {
    if c.name == "clone" || c.name == "unshare" then if Bit(c.argument, CLONE_NEWUSER_BIT) then EPERM else Allow
    else if c.name == "socket" then if c.argument == AF_VSOCK then EPERM else Allow
    else if c.name == "personality" then if c.argument in PERSONALITIES then Allow else EPERM
    else if c.name == "clone3" then ENOSYS
    else EPERM
  }

  function Decision(target: Target, run: RunConfig, c: Call): Verdict {
    if c.arch !in Architectures(target) then EPERM
    else if c.name in run.deny then EPERM
    else if Listed(target, run, c.name) then Allow
    else PartialDecision(c)
  }

  lemma DecidesAsSpecified(target: Target, run: RunConfig, p: Policy, c: Call)
    requires p.archs == Architectures(target)
    requires forall q: Rule :: q in p.rules <==>
      (IsPartial(q, Architectures(target)) && q.name !in run.allow && q.name !in run.deny)
      || (Listed(target, run, q.name) && q.name !in run.deny && q == Rule(q.name, Allow, Always))
    ensures Decide(p, c) == Decision(target, run, c)
  {
    hide BuiltIn, Granted, Bit;
    if c.arch in Architectures(target) && c.name !in run.deny {
      if Listed(target, run, c.name) {
        var q := Rule(c.name, Allow, Always);
        assert q in p.rules && Matches(q, c);
      } else {
        PartialGives(Architectures(target), p.rules, c);
      }
    }
  }

  lemma PartialGives(archs: seq<Arch>, rules: seq<Rule>, c: Call)
    requires c.arch in archs
    requires forall q: Rule :: q.name == c.name ==> (q in rules <==> IsPartial(q, archs))
    ensures Gives(rules, c, Allow) <==> PartialDecision(c) == Allow
    ensures Gives(rules, c, ENOSYS) <==> PartialDecision(c) == ENOSYS
  {
    hide Bit;
    if PartialDecision(c) == Allow {
      var test := if c.name == "clone" then NoUserNamespaceOn(c.arch) else if c.name == "unshare" then NoUserNamespace
                  else if c.name == "socket" then NotVsock else Is(c.argument);
      var q := Rule(c.name, Allow, test);
      assert IsPartial(q, archs) && Matches(q, c);
    }
    if PartialDecision(c) == ENOSYS {
      assert Matches(Rule(c.name, ENOSYS, Always), c);
    }
  }

  // ---- What a config can do ----

  predicate SameNames<T(==)>(a: seq<T>, b: seq<T>) {
    (forall x :: x in a ==> x in b) && (forall x :: x in b ==> x in a)
  }

  // The decision depends only on which names and capabilities are listed.
  lemma OnlyTheSetsMatter(target: Target, run: RunConfig, other: RunConfig, c: Call)
    requires SameNames(run.capabilities, other.capabilities)
    requires SameNames(run.allow, other.allow) && SameNames(run.deny, other.deny)
    ensures Decision(target, run, c) == Decision(target, other, c)
  {
    hide BuiltIn;
    assert Granted(run, c.name) <==> Granted(other, c.name) by {
      GrantedGrows(run, other, c.name);
      GrantedGrows(other, run, c.name);
    }
  }

  lemma GrantedGrows(run: RunConfig, other: RunConfig, name: string)
    requires forall x :: x in run.capabilities ==> x in other.capabilities
    ensures Granted(run, name) ==> Granted(other, name)
  {
  }

  // Asking for more, and denying less, never costs a call.
  lemma MoreAllowedMorePermitted(target: Target, run: RunConfig, other: RunConfig, c: Call)
    requires forall x :: x in run.capabilities ==> x in other.capabilities
    requires forall x :: x in run.allow ==> x in other.allow
    requires forall x :: x in other.deny ==> x in run.deny
    ensures Decision(target, run, c) == Allow ==> Decision(target, other, c) == Allow
  {
    hide BuiltIn;
    GrantedGrows(run, other, c.name);
  }

  // ---- In plain terms ----

  // The capability pairings, capability by capability.
  predicate Reaches(capability: Capability, name: string) {
    match capability
    case Bpf => name == "bpf"
    case DacReadSearch => name == "open_by_handle_at"
    case Perfmon => name == "perf_event_open"
    case SysAdmin =>
      name == "bpf" || name == "lookup_dcookie" || name == "quotactl" || name == "quotactl_fd"
      || name == "setdomainname" || name == "sethostname" || name == "setns"
    case SysChroot => name == "chroot"
    case SysModule =>
      name == "delete_module" || name == "finit_module" || name == "init_module" || name == "query_module"
    case SysPacct => name == "acct"
    case SysPtrace => name == "kcmp" || name == "process_madvise"
    case SysRawio => name == "ioperm" || name == "iopl"
    case SysTime => name == "clock_settime" || name == "clock_settime64" || name == "settimeofday" || name == "stime"
    case SysTtyConfig => name == "vhangup"
    case Unpaired(_) => false
  }

  lemma RowInPlainTerms(i: nat, name: string)
    requires i < 11
    ensures name in CAPABILITY_SYSCALLS[i].1 <==> Reaches(CAPABILITY_SYSCALLS[i].0, name)
  {
  }

  lemma EveryPairedCapabilityHasARow(capability: Capability, name: string) returns (i: nat)
    requires Reaches(capability, name)
    ensures i < 11 && CAPABILITY_SYSCALLS[i].0 == capability
  {
    hide Paired;
    i := match capability
      case Bpf => 0
      case DacReadSearch => 1
      case Perfmon => 2
      case SysAdmin => 3
      case SysChroot => 4
      case SysModule => 5
      case SysPacct => 6
      case SysPtrace => 7
      case SysRawio => 8
      case SysTime => 9
      case SysTtyConfig => 10;
  }

  lemma GrantsInPlainTerms(run: RunConfig, name: string)
    ensures Granted(run, name) <==> exists c :: c in run.capabilities && Reaches(c, name)
  {
    hide Reaches;
    if Granted(run, name) {
      var i: nat :| i < 11 && CAPABILITY_SYSCALLS[i].0 in run.capabilities && name in CAPABILITY_SYSCALLS[i].1;
      RowInPlainTerms(i, name);
    }
    if c :| c in run.capabilities && Reaches(c, name) {
      var i := EveryPairedCapabilityHasARow(c, name);
      RowInPlainTerms(i, name);
    }
  }

  lemma ReachedIsPaired(capability: Capability, name: string)
    requires Reaches(capability, name)
    ensures Paired(name) && !PartlyAllowed(name)
  {
  }

  lemma ArchitecturesInPlainTerms(target: Target, arch: Arch)
    ensures arch in Architectures(target) <==>
            (target.BuiltForX86_64? && (arch.X86_64? || arch.X86?)) || (target.BuiltForAarch64? && (arch.Aarch64? || arch.Arm?))
  {
  }

  // The order of precedence: the architecture, deny, allow and the built-in lists; a call that neither these nor a
  // capability nor a rule of its own lets through is refused.
  lemma DecisionInPlainTerms(target: Target, run: RunConfig, c: Call)
    ensures c.arch !in Architectures(target) || c.name in run.deny ==> Decision(target, run, c) == Errno(1)
    ensures c.arch in Architectures(target) && c.name !in run.deny
            && (c.name in run.allow || c.name in ALLOWED
                || (target.BuiltForX86_64? && c.name in ARCH_ALLOWED_X86_64)
                || (target.BuiltForAarch64? && c.name in ARCH_ALLOWED_AARCH64)) ==>
              Decision(target, run, c) == Allow
    ensures c.name !in run.allow && c.name !in ALLOWED
            && !(target.BuiltForX86_64? && c.name in ARCH_ALLOWED_X86_64)
            && !(target.BuiltForAarch64? && c.name in ARCH_ALLOWED_AARCH64)
            && !(exists held :: held in run.capabilities && Reaches(held, c.name)) && !PartlyAllowed(c.name) ==>
              Decision(target, run, c) == Errno(1)
  {
    hide Granted, Reaches, Bit, ALLOWED, ARCH_ALLOWED_X86_64, ARCH_ALLOWED_AARCH64;
    GrantsInPlainTerms(run, c.name);
  }

  // A call that goes with a capability gets through only for an app that holds the capability or names the call.
  lemma PairedCallsNeedTheirCapability(target: Target, run: RunConfig, c: Call)
    requires Paired(c.name)
    ensures Decision(target, run, c) ==
            if c.arch in Architectures(target) && c.name !in run.deny
               && (c.name in run.allow || exists held :: held in run.capabilities && Reaches(held, c.name))
            then Allow else Errno(1)
  {
    hide Granted, Reaches, Paired, PartlyAllowed;
    GrantsInPlainTerms(run, c.name);
    NotBuiltIn(target, c.name);
    PairedIsNotPartial(c);
  }

  lemma NotBuiltIn(target: Target, name: string)
    requires PartlyAllowed(name) || Paired(name)
    ensures name !in BuiltIn(target)
  {
    hide PartlyAllowed, Paired, ALLOWED, ARCH_ALLOWED_X86_64, ARCH_ALLOWED_AARCH64;
    ListsLeaveOut(name);
  }

  lemma PairedIsNotPartial(c: Call)
    requires Paired(c.name)
    ensures PartialDecision(c) == Errno(1)
  {
    hide Bit;
  }

  // No list gets in the way of the partial rules. So whatever capabilities an app asks for, unless it names clone or
  // unshare itself it never gets a user namespace, and clone3 is answered as missing.
  lemma UserNamespacesStayShut(target: Target, run: RunConfig, c: Call)
    requires PartlyAllowed(c.name) && c.name !in run.allow
    ensures Decision(target, run, c) ==
            if c.arch !in Architectures(target) || c.name in run.deny then Errno(1)
            else if c.name == "clone" || c.name == "unshare" then
              if c.argument / 0x1000_0000 % 2 == 1 then Errno(1) else Allow
            else if c.name == "socket" then if c.argument == 40 then Errno(1) else Allow
            else if c.name == "personality" then
              if c.argument == 0 || c.argument == 8 || c.argument == 0x2_0000 || c.argument == 0x2_0008
                 || c.argument == 0xffff_ffff then Allow else Errno(1)
            else Errno(38)
  {
    hide Granted, Reaches, Bit, BuiltIn, PartlyAllowed, Paired;
    GrantsInPlainTerms(run, c.name);
    if held :| held in run.capabilities && Reaches(held, c.name) {
      ReachedIsPaired(held, c.name);
    }
    NotBuiltIn(target, c.name);
    PartialInPlainTerms(c);
  }

  lemma PartialInPlainTerms(c: Call)
    requires PartlyAllowed(c.name)
    ensures PartialDecision(c) ==
            if c.name == "clone" || c.name == "unshare" then
              if c.argument / 0x1000_0000 % 2 == 1 then Errno(1) else Allow
            else if c.name == "socket" then if c.argument == 40 then Errno(1) else Allow
            else if c.name == "personality" then
              if c.argument == 0 || c.argument == 8 || c.argument == 0x2_0000 || c.argument == 0x2_0008
                 || c.argument == 0xffff_ffff then Allow else Errno(1)
            else Errno(38)
  {
    hide Bit, Pow2;
    BitIs(c.argument, 28);
    Pow28();
  }

  lemma Pow28()
    ensures Pow2(28) == 0x1000_0000
  {
    hide Pow2;
    Pow256();
    Pow2Adds(8, 8);
    Pow2Adds(16, 8);
    Pow2Adds(24, 4);
    Pow4();
  }

  lemma Pow4()
    ensures Pow2(4) == 16
  {
  }
}
