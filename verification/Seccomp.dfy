/** The seccomp filter compiler: three name tables and an architecture's syscall numbers
    become a classic-BPF program. The program is proved to compute a first-match policy. */
module Seccomp {
  import opened Bpf
  import opened Wrappers

  /** `isX8664` stands for the comparison of table identities that singles out native x86-64. */
  datatype ArchInfo = ArchInfo(name: string, id: Word, isX8664: bool, syscalls: map<string, int>)

  datatype Tables = Tables(lethal: seq<string>, deny: seq<string>, allow: seq<string>)

  datatype BuildError = NoExecve(arch: string)

  const X32_SYSCALL_MASK: Word := 0x4000_0000

  const ACTION_ALLOW: Word := 0x7fff_0000
  const ACTION_KILL_PROCESS: Word := 0x8000_0000
  const ACTION_ERRNO_BASE: Word := 0x0005_0000

  const EACCES := 13
  const ENOSYS := 38

  /** An errno takes the low 16 bits, which are clear in the base. */
  function ActionErrno(errno: nat): Word {
    ACTION_ERRNO_BASE + errno % 0x1_0000
  }

  /** The conversion of a table's signed number to an unsigned 32-bit word, which wraps. */
  function ToWord(num: int): Word { num % 0x1_0000_0000 }

  // ---------------------------------------------------------------------------------------
  // What the filter is meant to decide, without mentioning the program
  // ---------------------------------------------------------------------------------------

  /** `nr` is the number of some name the table lists and the architecture knows. */
  ghost predicate Listed(names: seq<string>, syscalls: map<string, int>, nr: Word) {
    exists i :: 0 <= i < |names| && names[i] in syscalls && ToWord(syscalls[names[i]]) == nr
  }

  ghost function Policy(info: ArchInfo, t: Tables, d: SeccompData): Word {
    if d.arch != info.id then ACTION_KILL_PROCESS
    else if info.isX8664 && d.nr >= X32_SYSCALL_MASK then ACTION_KILL_PROCESS
    else if Listed(t.lethal, info.syscalls, d.nr) then ACTION_KILL_PROCESS
    else if Listed(t.deny, info.syscalls, d.nr) then ActionErrno(EACCES)
    else if Listed(t.allow, info.syscalls, d.nr) then ACTION_ALLOW
    else ActionErrno(ENOSYS)
  }

  /** A word is the number it stands for, unless that does not fit 32 bits: then it is the one of
      those 2^32 apart that does. */
  lemma WordsOfNumbers(num: int, nr: Word)
    ensures ToWord(num) == nr <==> (num - nr) % 0x1_0000_0000 == 0
    ensures 0 <= num < 0x1_0000_0000 ==> ToWord(num) == num
    ensures -0x8000_0000 <= num < 0 ==> ToWord(num) == num + 0x1_0000_0000
  {
    var n: int := nr;
    if (num - n) % 0x1_0000_0000 == 0 {
      var k := (num - n) / 0x1_0000_0000;
      assert num == k * 0x1_0000_0000 + n;
    }
  }

  /** The policy in numbers: a call is judged by the numbers that the table gives to the listed
      names, and the verdicts are the words the kernel knows. */
  lemma PolicyInNumbers(info: ArchInfo, t: Tables, d: SeccompData)
    requires forall name :: name in info.syscalls ==> 0 <= info.syscalls[name] < 0x1_0000_0000
    ensures Policy(info, t, d) ==
      if d.arch != info.id || (info.isX8664 && d.nr >= 0x4000_0000) then 0x8000_0000
      else if exists name :: name in t.lethal && name in info.syscalls && info.syscalls[name] == d.nr then 0x8000_0000
      else if exists name :: name in t.deny && name in info.syscalls && info.syscalls[name] == d.nr then 0x0005_000d
      else if exists name :: name in t.allow && name in info.syscalls && info.syscalls[name] == d.nr then 0x7fff_0000
      else 0x0005_0026
  {
    hide ToWord;
    forall name | name in info.syscalls ensures ToWord(info.syscalls[name]) == info.syscalls[name] {
      WordsOfNumbers(info.syscalls[name], 0);
    }
    ListedNames(t.lethal, info.syscalls, d.nr);
    ListedNames(t.deny, info.syscalls, d.nr);
    ListedNames(t.allow, info.syscalls, d.nr);
  }

  lemma ListedNames(names: seq<string>, syscalls: map<string, int>, nr: Word)
    ensures Listed(names, syscalls, nr) <==>
            exists name :: name in names && name in syscalls && ToWord(syscalls[name]) == nr
  {
    if name :| name in names && name in syscalls && ToWord(syscalls[name]) == nr {
      var i :| 0 <= i < |names| && names[i] == name;
    }
  }

  // ---------------------------------------------------------------------------------------
  // The compiler
  // ---------------------------------------------------------------------------------------

  /** A stretch `code` decides membership in `names`: started at its first instruction with
      the syscall number loaded, it halts with `action` if the number is listed and otherwise
      falls out at its end with the accumulator intact, whatever surrounds it. */
  ghost predicate Decides(code: Program, names: seq<string>, syscalls: map<string, int>, action: Word) {
    forall before: Program, after: Program, d: SeccompData ::
      Exec(before + code + after, |before|, d.nr, d) ==
      if Listed(names, syscalls, d.nr) then Halt(action)
      else Exec(before + code + after, |before| + |code|, d.nr, d)
  }

  lemma {:induction false} DecidesOneMore(code: Program, names: seq<string>, name: string, syscalls: map<string, int>,
                                          action: Word)
    requires Decides(code, names, syscalls, action)
    requires name in syscalls
    ensures Decides(
              code + [JumpIf(JumpEqual, ToWord(syscalls[name]), 0, 1), RetConstant(action)],
              names + [name], syscalls, action)
  {
    var unit := [JumpIf(JumpEqual, ToWord(syscalls[name]), 0, 1), RetConstant(action)];
    forall before: Program, after: Program, d: SeccompData
      ensures Exec(before + (code + unit) + after, |before|, d.nr, d) ==
              if Listed(names + [name], syscalls, d.nr) then Halt(action)
              else Exec(before + (code + unit) + after, |before| + |code + unit|, d.nr, d)
    {
      var whole := before + (code + unit) + after;
      assert whole == before + code + (unit + after);
      ListedOneMore(names, name, syscalls, d.nr);
      CheckUnit(whole, |before| + |code|, ToWord(syscalls[name]), action, d);
    }
  }

  /** One check is a compare and, in its shadow, a return: skip 0 on a match, 1 otherwise. */
  lemma CheckUnit(prog: Program, at: nat, num: Word, action: Word, d: SeccompData)
    requires at + 2 <= |prog|
    requires prog[at] == JumpIf(JumpEqual, num, 0, 1) && prog[at + 1] == RetConstant(action)
    ensures Exec(prog, at, d.nr, d) == if d.nr == num then Halt(action) else Exec(prog, at + 2, d.nr, d)
  {
    if d.nr == num {
      assert Exec(prog, at + 1, d.nr, d) == Halt(action);
    }
  }

  lemma ListedOneMore(names: seq<string>, name: string, syscalls: map<string, int>, nr: Word)
    ensures Listed(names + [name], syscalls, nr) <==>
            Listed(names, syscalls, nr) || (name in syscalls && ToWord(syscalls[name]) == nr)
  {
    var more := names + [name];
    assert more[|names|] == name;
    assert forall i :: 0 <= i < |names| ==> more[i] == names[i];
  }

  /** Names the architecture does not know are skipped. */
  method AppendMatchGroup(prog: Program, info: ArchInfo, names: seq<string>, action: Word)
    returns (grown: Program)
    ensures prog <= grown
    ensures Decides(grown[|prog|..], names, info.syscalls, action)
    ensures |grown| <= |prog| + 2 * |names|
  {
    grown := prog;
    assert grown[|prog|..] == [];
    for n := 0 to |names|
      invariant prog <= grown
      invariant Decides(grown[|prog|..], names[..n], info.syscalls, action)
      invariant |grown| <= |prog| + 2 * n
    {
      var name := names[n];
      ghost var code := grown[|prog|..];
      assert names[..n] + [name] == names[..n + 1];
      if name in info.syscalls {
        DecidesOneMore(code, names[..n], name, info.syscalls, action);
        var unit := [JumpIf(JumpEqual, ToWord(info.syscalls[name]), 0, 1), RetConstant(action)];
        grown := grown + unit;
        assert grown[|prog|..] == code + unit;
      } else {
        forall d: SeccompData
          ensures Listed(names[..n + 1], info.syscalls, d.nr) == Listed(names[..n], info.syscalls, d.nr)
        {
          ListedOneMore(names[..n], name, info.syscalls, d.nr);
        }
      }
    }
    assert names[..|names|] == names;
  }

  /** Compiler correctness: whatever the tables, the number map, the architecture word and
      the syscall number, the emitted program halts with the policy's verdict. */
  method BuildSeccompProgram(info: ArchInfo, t: Tables) returns (r: Result<Program, BuildError>)
    ensures r.Ok? <==> "execve" in info.syscalls
    ensures r.Err? ==> r.error == NoExecve(info.name)
    ensures r.Ok? ==> forall d: SeccompData :: Run(r.value, d) == Halt(Policy(info, t, d))
    ensures r.Ok? && (forall name :: name in info.syscalls ==> 0 <= info.syscalls[name] < 0x1_0000_0000) ==>
      forall d: SeccompData :: Run(r.value, d) == Halt(
        if d.arch != info.id || (info.isX8664 && d.nr >= 0x4000_0000) then 0x8000_0000
        else if exists name :: name in t.lethal && name in info.syscalls && info.syscalls[name] == d.nr then 0x8000_0000
        else if exists name :: name in t.deny && name in info.syscalls && info.syscalls[name] == d.nr then 0x0005_000d
        else if exists name :: name in t.allow && name in info.syscalls && info.syscalls[name] == d.nr then 0x7fff_0000
        else 0x0005_0026)
    ensures r.Ok? ==> 0 < |r.value| <= 2 * (|t.lethal| + |t.deny| + |t.allow|) + 7
  {
    if "execve" !in info.syscalls {
      return Err(NoExecve(info.name));
    }
    var prog := [
      LoadAbsolute(4, 4),
      JumpIf(JumpEqual, info.id, 1, 0),
      RetConstant(ACTION_KILL_PROCESS)
    ];
    prog := prog + [LoadAbsolute(0, 4)];
    if info.isX8664 {
      prog := prog + [
        JumpIf(JumpGreaterOrEqual, X32_SYSCALL_MASK, 0, 1),
        RetConstant(ACTION_KILL_PROCESS)
      ];
    }
    ghost var guards := prog;
    prog := AppendMatchGroup(prog, info, t.lethal, ACTION_KILL_PROCESS);
    ghost var lethal := prog[|guards|..];
    ghost var upToLethal := prog;
    prog := AppendMatchGroup(prog, info, t.deny, ActionErrno(EACCES));
    ghost var deny := prog[|upToLethal|..];
    ghost var upToDeny := prog;
    prog := AppendMatchGroup(prog, info, t.allow, ACTION_ALLOW);
    ghost var allow := prog[|upToDeny|..];
    ghost var last := [RetConstant(ActionErrno(ENOSYS))];
    prog := prog + [RetConstant(ActionErrno(ENOSYS))];

    assert prog == guards + lethal + deny + allow + last;
    GroupsInOrder(info, t, guards, lethal, deny, allow, last);
    if forall name :: name in info.syscalls ==> 0 <= info.syscalls[name] < 0x1_0000_0000 {
      forall d: SeccompData { PolicyInNumbers(info, t, d); }
    }
    return Ok(prog);
  }

  /** Guards, then the three groups, then the default: the order of the stretches is the
      order of precedence, even when names of two tables share a number. */
  lemma GroupsInOrder(info: ArchInfo, t: Tables,
                      guards: Program, lethal: Program, deny: Program, allow: Program, last: Program)
    requires guards == Guards(info)
    requires Decides(lethal, t.lethal, info.syscalls, ACTION_KILL_PROCESS)
    requires Decides(deny, t.deny, info.syscalls, ActionErrno(EACCES))
    requires Decides(allow, t.allow, info.syscalls, ACTION_ALLOW)
    requires last == [RetConstant(ActionErrno(ENOSYS))]
    ensures forall d: SeccompData :: Run(guards + lethal + deny + allow + last, d) == Halt(Policy(info, t, d))
  {
    var prog := guards + lethal + deny + allow + last;
    forall d: SeccompData ensures Run(prog, d) == Halt(Policy(info, t, d)) {
      GuardsDecide(info, prog, d);
      var afterLethal, afterDeny := guards + lethal, guards + lethal + deny;
      assert prog == guards + lethal + (deny + allow + last);
      assert prog == afterLethal + deny + (allow + last);
      assert prog == afterDeny + allow + last;
      assert prog[|afterDeny| + |allow|] == last[0];
      assert Exec(prog, |afterDeny| + |allow|, d.nr, d) == Halt(ActionErrno(ENOSYS));
    }
  }

  /** The instructions before the first group. */
  function Guards(info: ArchInfo): Program {
    [LoadAbsolute(4, 4), JumpIf(JumpEqual, info.id, 1, 0), RetConstant(ACTION_KILL_PROCESS), LoadAbsolute(0, 4)] +
    if info.isX8664 then [JumpIf(JumpGreaterOrEqual, X32_SYSCALL_MASK, 0, 1), RetConstant(ACTION_KILL_PROCESS)] else []
  }

  /** The hand-counted skips of the architecture and x32 guards. */
  lemma GuardsDecide(info: ArchInfo, prog: Program, d: SeccompData)
    requires Guards(info) <= prog
    ensures Run(prog, d) ==
            if d.arch != info.id || (info.isX8664 && d.nr >= X32_SYSCALL_MASK) then Halt(ACTION_KILL_PROCESS)
            else Exec(prog, |Guards(info)|, d.nr, d)
  {
    var guards := Guards(info);
    assert forall i :: 0 <= i < |guards| ==> prog[i] == guards[i];
    assert Run(prog, d) == Exec(prog, 1, d.arch, d);
    if d.arch != info.id {
      assert Exec(prog, 1, d.arch, d) == Exec(prog, 2, d.arch, d);
    } else {
      assert Exec(prog, 1, d.arch, d) == Exec(prog, 3, d.arch, d) == Exec(prog, 4, d.nr, d);
      if info.isX8664 {
        assert prog[4] == JumpIf(JumpGreaterOrEqual, X32_SYSCALL_MASK, 0, 1);
        assert prog[5] == RetConstant(ACTION_KILL_PROCESS);
        assert Exec(prog, 5, d.nr, d) == Halt(ACTION_KILL_PROCESS);
      }
    }
  }

  /** The x32 guard is a range test; it catches every number carrying the x32 bit (and the
      numbers with only the top bit, which no ABI uses). */
  lemma X32GuardCatchesTheBit(nr: Word)
    ensures nr >= X32_SYSCALL_MASK <==> nr / 0x4000_0000 % 2 == 1 || nr / 0x8000_0000 % 2 == 1
    ensures X32_SYSCALL_MASK == 0x4000_0000
  {
  }

  // ---------------------------------------------------------------------------------------
  // Handing the program to the kernel
  // ---------------------------------------------------------------------------------------

  datatype RawInstruction = RawInstruction(op: bv16, jt: bv8, jf: bv8, k: bv32)

  datatype SockFilter = SockFilter(code: bv16, jt: bv8, jf: bv8, k: bv32)

  type Uint16 = x: int | 0 <= x < 0x1_0000

  /** Copies the assembled program one to one. The kernel's length field is 16 bits wide, so
      it is the true length exactly when the program is shorter than 65536 instructions. */
  method LoadSeccompFilter(raw: seq<RawInstruction>) returns (filter: array<SockFilter>, length: Uint16)
    requires raw != []
    ensures filter.Length == |raw|
    ensures forall i :: 0 <= i < |raw| ==> filter[i] == SockFilter(raw[i].op, raw[i].jt, raw[i].jf, raw[i].k)
    ensures length == filter.Length <==> |raw| < 0x1_0000
  {
    filter := new SockFilter[|raw|](_ => SockFilter(0, 0, 0, 0));
    for i := 0 to |raw|
      invariant forall j :: 0 <= j < i ==> filter[j] == SockFilter(raw[j].op, raw[j].jt, raw[j].jf, raw[j].k)
    {
      filter[i] := SockFilter(raw[i].op, raw[i].jt, raw[i].jf, raw[i].k);
    }
    length := filter.Length % 0x1_0000;
  }

  // ---------------------------------------------------------------------------------------
  // The shipped tables
  // ---------------------------------------------------------------------------------------

  const LETHAL_SYSCALLS: seq<string> := [
    "mount", "umount", "umount2", "pivot_root", "chroot", "reboot", "kexec_load", "kexec_file_load",
    "init_module", "finit_module", "delete_module", "unshare", "setns", "swapon", "swapoff", "bpf",
    "perf_event_open", "add_key", "request_key", "keyctl", "acct", "quotactl", "syslog",
    "open_by_handle_at", "name_to_handle_at", "iopl", "ioperm", "modify_ldt"
  ]

  const DENY_SYSCALLS: seq<string> := [
    "socket", "socketpair", "connect", "accept", "accept4", "bind", "listen", "sendto", "recvfrom",
    "sendmsg", "recvmsg", "sendmmsg", "recvmmsg", "shutdown", "getsockopt", "setsockopt", "getsockname",
    "getpeername", "io_uring_setup", "io_uring_enter", "io_uring_register", "ptrace",
    "process_vm_readv", "process_vm_writev", "kcmp", "userfaultfd"
  ]

  const ALLOW_SYSCALLS: seq<string> :=
    PROCESS + MEMORY + DESCRIPTOR_IO + FILESYSTEM + POLLING + TIME + IDENTITY + LIMITS + RUNTIME

  const PROCESS: seq<string> := [
    "execve", "execveat", "exit", "exit_group", "wait4", "waitid", "clone", "clone3", "fork", "vfork",
    "kill", "tkill", "tgkill", "rt_sigaction", "rt_sigprocmask", "rt_sigreturn", "rt_sigsuspend",
    "rt_sigtimedwait", "rt_sigpending", "rt_sigqueueinfo", "sigaltstack", "getpid", "gettid", "getppid",
    "getpgrp", "getpgid", "setpgid", "getsid", "setsid", "prctl", "arch_prctl", "personality"
  ]

  const MEMORY: seq<string> := [
    "mmap", "munmap", "mprotect", "mremap", "brk", "madvise", "msync", "membarrier"
  ]

  const DESCRIPTOR_IO: seq<string> := [
    "read", "write", "readv", "writev", "pread64", "pwrite64", "preadv", "pwritev", "preadv2",
    "pwritev2", "open", "openat", "openat2", "close", "close_range", "lseek", "dup", "dup2", "dup3",
    "fcntl", "ioctl"
  ]

  const FILESYSTEM: seq<string> := [
    "stat", "fstat", "lstat", "statx", "newfstatat", "access", "faccessat", "faccessat2", "readlink",
    "readlinkat", "getcwd", "chdir", "fchdir", "mkdir", "mkdirat", "rmdir", "unlink", "unlinkat",
    "rename", "renameat", "renameat2", "link", "linkat", "symlink", "symlinkat", "chmod", "fchmod",
    "fchmodat", "chown", "fchown", "fchownat", "lchown", "truncate", "ftruncate", "utime", "utimes",
    "utimensat", "futimesat", "getdents", "getdents64", "flock", "fsync", "fdatasync", "fallocate",
    "sync", "syncfs", "statfs", "fstatfs", "umask"
  ]

  const POLLING: seq<string> := [
    "pipe", "pipe2", "poll", "ppoll", "select", "pselect6", "epoll_create", "epoll_create1",
    "epoll_ctl", "epoll_wait", "epoll_pwait", "epoll_pwait2", "eventfd", "eventfd2", "signalfd",
    "signalfd4", "timerfd_create", "timerfd_settime", "timerfd_gettime", "splice", "tee", "vmsplice",
    "copy_file_range", "sendfile", "getrandom", "ioprio_get", "ioprio_set"
  ]

  const TIME: seq<string> := [
    "clock_gettime", "clock_getres", "clock_nanosleep", "nanosleep", "gettimeofday", "time", "times"
  ]

  const IDENTITY: seq<string> := [
    "getuid", "geteuid", "getgid", "getegid", "getresuid", "getresgid", "getgroups", "setuid", "setgid",
    "setgroups", "setresuid", "setresgid", "setfsuid", "setfsgid", "setregid", "setreuid"
  ]

  const LIMITS: seq<string> := [
    "getrlimit", "setrlimit", "prlimit64", "getrusage", "sysinfo", "getpriority", "setpriority",
    "sched_getaffinity", "sched_setaffinity", "sched_yield", "sched_getparam", "sched_getscheduler",
    "sched_setscheduler"
  ]

  const RUNTIME: seq<string> := [
    "uname", "set_tid_address", "set_robust_list", "get_robust_list", "rseq", "futex", "futex_waitv",
    "restart_syscall"
  ]

  const SHIPPED := Tables(LETHAL_SYSCALLS, DENY_SYSCALLS, ALLOW_SYSCALLS)

  const BPF_MAXINSNS := 4096

  /** Some other name that is to be refused has execve's number. */
  ghost predicate RefusedUnderAnotherName(syscalls: map<string, int>)
    requires "execve" in syscalls
  {
    exists name :: name in syscalls && name != "execve" && (name in SHIPPED.lethal || name in SHIPPED.deny) &&
      ToWord(syscalls[name]) == ToWord(syscalls["execve"])
  }

  /** The program built from the shipped tables fits both the 16-bit length field and the
      kernel's instruction limit, and lets the command's own execve through exactly on
      architectures that give it a number below the x32 range, and that number to no other
      name that is to be refused. */
  lemma ShippedFilterPermitsExecve(info: ArchInfo, prog: Program, d: SeccompData)
    requires "execve" in info.syscalls
    requires forall d: SeccompData :: Run(prog, d) == Halt(Policy(info, SHIPPED, d))
    requires d == SeccompData(ToWord(info.syscalls["execve"]), info.id)
    requires |prog| <= 2 * (|SHIPPED.lethal| + |SHIPPED.deny| + |SHIPPED.allow|) + 7
    ensures Run(prog, d) == Halt(ACTION_ALLOW) <==>
      && (info.isX8664 ==> d.nr < X32_SYSCALL_MASK)
      && !RefusedUnderAnotherName(info.syscalls)
    ensures |prog| <= BPF_MAXINSNS
  {
    ExecveIsNotLethalOrDenied();
    assert Run(prog, d) == Halt(Policy(info, SHIPPED, d));
    ListedNames(SHIPPED.lethal, info.syscalls, d.nr);
    ListedNames(SHIPPED.deny, info.syscalls, d.nr);
    assert PROCESS[0] == "execve";
    assert ALLOW_SYSCALLS[0] == "execve";
    assert Listed(SHIPPED.allow, info.syscalls, d.nr);
  }

  /** What the child installs, from the native architecture's number map. */
  method ShippedProgram(info: ArchInfo) returns (r: Result<Program, BuildError>)
    ensures r.Ok? <==> "execve" in info.syscalls
    ensures r.Ok? ==>
      && |r.value| <= BPF_MAXINSNS
      && (forall d: SeccompData :: Run(r.value, d) == Halt(Policy(info, SHIPPED, d)))
      && (Run(r.value, SeccompData(ToWord(info.syscalls["execve"]), info.id)) == Halt(ACTION_ALLOW) <==>
            && (info.isX8664 ==> ToWord(info.syscalls["execve"]) < X32_SYSCALL_MASK)
            && !RefusedUnderAnotherName(info.syscalls))
  {
    r := BuildSeccompProgram(info, SHIPPED);
    if r.Ok? {
      hide Policy, Run, ToWord, RefusedUnderAnotherName;
      ShippedFilterPermitsExecve(info, r.value, SeccompData(ToWord(info.syscalls["execve"]), info.id));
    }
  }

  lemma ExecveIsNotLethalOrDenied()
    ensures "execve" !in LETHAL_SYSCALLS && "execve" !in DENY_SYSCALLS
  {
    forall i | 0 <= i < |LETHAL_SYSCALLS| ensures |LETHAL_SYSCALLS[i]| != 6 || LETHAL_SYSCALLS[i][1] != 'x' {}
    forall i | 0 <= i < |DENY_SYSCALLS| ensures |DENY_SYSCALLS[i]| != 6 || DENY_SYSCALLS[i][1] != 'x' {}
  }
}
