/** The calls the built-in profile allows outright, in the order the program lists them. */
module SyscallLists {
  predicate PartlyAllowed(name: string) {
    name == "clone" || name == "unshare" || name == "clone3" || name == "socket" || name == "personality"
  }

  // The calls that go with a capability.
  predicate Paired(name: string) {
    name == "bpf" || name == "open_by_handle_at" || name == "perf_event_open" || name == "lookup_dcookie" || name == "quotactl" ||
    name == "quotactl_fd" || name == "setdomainname" || name == "sethostname" || name == "setns" || name == "chroot" ||
    name == "delete_module" || name == "finit_module" || name == "init_module" || name == "query_module" || name == "acct" ||
    name == "kcmp" || name == "process_madvise" || name == "ioperm" || name == "iopl" || name == "clock_settime" ||
    name == "clock_settime64" || name == "settimeofday" || name == "stime" || name == "vhangup"
  }

  const ALLOWED_1: seq<string> := [
    "_llseek", "_newselect", "accept", "accept4", "access", "adjtimex", "alarm", "bind", "brk", "capget", "capset",
    "chdir", "chmod", "chown", "chown32"]

  const ALLOWED_2: seq<string> := [
    "clock_adjtime", "clock_adjtime64", "clock_getres", "clock_getres_time64", "clock_gettime", "clock_gettime64",
    "clock_nanosleep", "clock_nanosleep_time64", "close", "close_range", "connect", "copy_file_range", "creat",
    "dup", "dup2"]

  const ALLOWED_3: seq<string> := [
    "dup3", "epoll_create", "epoll_create1", "epoll_ctl", "epoll_ctl_old", "epoll_pwait", "epoll_pwait2",
    "epoll_wait", "epoll_wait_old", "eventfd", "eventfd2", "execve", "execveat", "exit", "exit_group"]

  const ALLOWED_4: seq<string> := [
    "faccessat", "faccessat2", "fadvise64", "fadvise64_64", "fallocate", "fanotify_init", "fanotify_mark", "fchdir",
    "fchmod", "fchmodat", "fchmodat2", "fchown", "fchown32", "fchownat", "fcntl"]

  const ALLOWED_5: seq<string> := [
    "fcntl64", "fdatasync", "fgetxattr", "flistxattr", "flock", "fork", "fremovexattr", "fsconfig", "fsetxattr",
    "fsmount", "fsopen", "fspick", "fstat", "fstat64", "fstatat64"]

  const ALLOWED_6: seq<string> := [
    "fstatfs", "fstatfs64", "fsync", "ftruncate", "ftruncate64", "futex", "futex_time64", "futimesat",
    "get_mempolicy", "get_robust_list", "get_thread_area", "getcpu", "getcwd", "getdents", "getdents64"]

  const ALLOWED_7: seq<string> := [
    "getegid", "getegid32", "geteuid", "geteuid32", "getgid", "getgid32", "getgroups", "getgroups32", "getitimer",
    "getpeername", "getpgid", "getpgrp", "getpid", "getppid", "getpriority"]

  const ALLOWED_8: seq<string> := [
    "getrandom", "getresgid", "getresgid32", "getresuid", "getresuid32", "getrlimit", "getrusage", "getsid",
    "getsockname", "getsockopt", "gettid", "gettimeofday", "getuid", "getuid32", "getxattr"]

  const ALLOWED_9: seq<string> := [
    "inotify_add_watch", "inotify_init", "inotify_init1", "inotify_rm_watch", "io_cancel", "io_destroy",
    "io_getevents", "io_setup", "io_submit", "ioctl", "ioprio_get", "ioprio_set", "ipc", "keyctl", "kill"]

  const ALLOWED_10: seq<string> := [
    "landlock_add_rule", "landlock_create_ruleset", "landlock_restrict_self", "lchown", "lchown32", "lgetxattr",
    "link", "linkat", "listen", "listxattr", "llistxattr", "lremovexattr", "lseek", "lsetxattr", "lstat"]

  const ALLOWED_11: seq<string> := [
    "lstat64", "madvise", "mbind", "membarrier", "memfd_create", "memfd_secret", "mincore", "mkdir", "mkdirat",
    "mknod", "mknodat", "mlock", "mlock2", "mlockall", "mmap"]

  const ALLOWED_12: seq<string> := [
    "mmap2", "mount", "mount_setattr", "move_mount", "mprotect", "mq_getsetattr", "mq_notify", "mq_open",
    "mq_timedreceive", "mq_timedreceive_time64", "mq_timedsend", "mq_timedsend_time64", "mq_unlink", "mremap",
    "msgctl"]

  const ALLOWED_13: seq<string> := [
    "msgget", "msgrcv", "msgsnd", "msync", "munlock", "munlockall", "munmap", "name_to_handle_at", "nanosleep",
    "newfstatat", "open", "open_tree", "openat", "openat2", "pause"]

  const ALLOWED_14: seq<string> := [
    "pidfd_getfd", "pidfd_open", "pidfd_send_signal", "pipe", "pipe2", "pivot_root", "pkey_alloc", "pkey_free",
    "pkey_mprotect", "poll", "ppoll", "ppoll_time64", "prctl", "pread64", "preadv"]

  const ALLOWED_15: seq<string> := [
    "preadv2", "prlimit64", "process_mrelease", "process_vm_readv", "process_vm_writev", "pselect6",
    "pselect6_time64", "ptrace", "pwrite64", "pwritev", "pwritev2", "read", "readahead", "readlink", "readlinkat"]

  const ALLOWED_16: seq<string> := [
    "readv", "reboot", "recv", "recvfrom", "recvmmsg", "recvmmsg_time64", "recvmsg", "remap_file_pages",
    "removexattr", "rename", "renameat", "renameat2", "restart_syscall", "rmdir", "rseq"]

  const ALLOWED_17: seq<string> := [
    "rt_sigaction", "rt_sigpending", "rt_sigprocmask", "rt_sigqueueinfo", "rt_sigreturn", "rt_sigsuspend",
    "rt_sigtimedwait", "rt_sigtimedwait_time64", "rt_tgsigqueueinfo", "sched_get_priority_max",
    "sched_get_priority_min", "sched_getaffinity", "sched_getattr", "sched_getparam", "sched_getscheduler"]

  const ALLOWED_18: seq<string> := [
    "sched_rr_get_interval", "sched_rr_get_interval_time64", "sched_setaffinity", "sched_setattr", "sched_setparam",
    "sched_setscheduler", "sched_yield", "seccomp", "select", "semctl", "semget", "semop", "semtimedop",
    "semtimedop_time64", "send"]

  const ALLOWED_19: seq<string> := [
    "sendfile", "sendfile64", "sendmmsg", "sendmsg", "sendto", "set_mempolicy", "set_robust_list", "set_thread_area",
    "set_tid_address", "setfsgid", "setfsgid32", "setfsuid", "setfsuid32", "setgid", "setgid32"]

  const ALLOWED_20: seq<string> := [
    "setgroups", "setgroups32", "setitimer", "setpgid", "setpriority", "setregid", "setregid32", "setresgid",
    "setresgid32", "setresuid", "setresuid32", "setreuid", "setreuid32", "setrlimit", "setsid"]

  const ALLOWED_21: seq<string> := [
    "setsockopt", "setuid", "setuid32", "setxattr", "shmat", "shmctl", "shmdt", "shmget", "shutdown", "sigaltstack",
    "signal", "signalfd", "signalfd4", "sigprocmask", "sigreturn"]

  const ALLOWED_22: seq<string> := [
    "socketcall", "socketpair", "splice", "stat", "stat64", "statfs", "statfs64", "statx", "symlink", "symlinkat",
    "sync", "sync_file_range", "syncfs", "sysinfo", "syslog"]

  const ALLOWED_23: seq<string> := [
    "tee", "tgkill", "time", "timer_create", "timer_delete", "timer_getoverrun", "timer_gettime", "timer_gettime64",
    "timer_settime", "timer_settime64", "timerfd_create", "timerfd_gettime", "timerfd_gettime64", "timerfd_settime",
    "timerfd_settime64"]

  const ALLOWED_24: seq<string> := [
    "times", "tkill", "truncate", "truncate64", "ugetrlimit", "umask", "umount", "umount2", "uname", "unlink",
    "unlinkat", "utime", "utimensat", "utimensat_time64", "utimes"]

  const ALLOWED_25: seq<string> := [
    "vfork", "wait4", "waitid", "waitpid", "write", "writev"]

  const ALLOWED: seq<string> :=
    ALLOWED_1 + ALLOWED_2 + ALLOWED_3 + ALLOWED_4 + ALLOWED_5 + ALLOWED_6 + ALLOWED_7 + ALLOWED_8 +
    ALLOWED_9 + ALLOWED_10 + ALLOWED_11 + ALLOWED_12 + ALLOWED_13 + ALLOWED_14 + ALLOWED_15 + ALLOWED_16 +
    ALLOWED_17 + ALLOWED_18 + ALLOWED_19 + ALLOWED_20 + ALLOWED_21 + ALLOWED_22 + ALLOWED_23 + ALLOWED_24 +
    ALLOWED_25

  const ARCH_ALLOWED_X86_64: seq<string> := ["arch_prctl", "modify_ldt"]

  const ARCH_ALLOWED_AARCH64: seq<string> := [
    "arm_fadvise64_64", "arm_sync_file_range", "breakpoint", "cacheflush", "set_tls", "sync_file_range2"]

  // No list names a call that is allowed only in part, so its own rules are all there is for it; and none names one that
  // goes with a capability, so the capability is the only way to it.
  lemma ListsLeaveOut(name: string)
    requires PartlyAllowed(name) || Paired(name)
    ensures name !in ALLOWED && name !in ARCH_ALLOWED_X86_64 && name !in ARCH_ALLOWED_AARCH64
  {
    hide PartlyAllowed, Paired, ARCH_ALLOWED_X86_64, ARCH_ALLOWED_AARCH64;
    hide ALLOWED_1, ALLOWED_2, ALLOWED_3, ALLOWED_4, ALLOWED_5, ALLOWED_6, ALLOWED_7, ALLOWED_8, ALLOWED_9,
         ALLOWED_10, ALLOWED_11, ALLOWED_12, ALLOWED_13, ALLOWED_14, ALLOWED_15, ALLOWED_16, ALLOWED_17, ALLOWED_18,
         ALLOWED_19, ALLOWED_20, ALLOWED_21, ALLOWED_22, ALLOWED_23, ALLOWED_24, ALLOWED_25;
    Part1LeavesOut(name);
    Part2LeavesOut(name);
    Part3LeavesOut(name);
    Part4LeavesOut(name);
    Part5LeavesOut(name);
    Part6LeavesOut(name);
    Part7LeavesOut(name);
    Part8LeavesOut(name);
    Part9LeavesOut(name);
    Part10LeavesOut(name);
    Part11LeavesOut(name);
    Part12LeavesOut(name);
    Part13LeavesOut(name);
    Part14LeavesOut(name);
    Part15LeavesOut(name);
    Part16LeavesOut(name);
    Part17LeavesOut(name);
    Part18LeavesOut(name);
    Part19LeavesOut(name);
    Part20LeavesOut(name);
    Part21LeavesOut(name);
    Part22LeavesOut(name);
    Part23LeavesOut(name);
    Part24LeavesOut(name);
    Part25LeavesOut(name);
    ArchitecturesLeaveOut(name);
  }

  lemma ArchitecturesLeaveOut(name: string)
    requires PartlyAllowed(name) || Paired(name)
    ensures name !in ARCH_ALLOWED_X86_64 && name !in ARCH_ALLOWED_AARCH64
  {
  }

  lemma Part1LeavesOut(name: string)
    requires PartlyAllowed(name) || Paired(name)
    ensures name !in ALLOWED_1
  {
  }

  lemma Part2LeavesOut(name: string)
    requires PartlyAllowed(name) || Paired(name)
    ensures name !in ALLOWED_2
  {
  }

  lemma Part3LeavesOut(name: string)
    requires PartlyAllowed(name) || Paired(name)
    ensures name !in ALLOWED_3
  {
  }

  lemma Part4LeavesOut(name: string)
    requires PartlyAllowed(name) || Paired(name)
    ensures name !in ALLOWED_4
  {
  }

  lemma Part5LeavesOut(name: string)
    requires PartlyAllowed(name) || Paired(name)
    ensures name !in ALLOWED_5
  {
  }

  lemma Part6LeavesOut(name: string)
    requires PartlyAllowed(name) || Paired(name)
    ensures name !in ALLOWED_6
  {
  }

  lemma Part7LeavesOut(name: string)
    requires PartlyAllowed(name) || Paired(name)
    ensures name !in ALLOWED_7
  {
  }

  lemma Part8LeavesOut(name: string)
    requires PartlyAllowed(name) || Paired(name)
    ensures name !in ALLOWED_8
  {
  }

  lemma Part9LeavesOut(name: string)
    requires PartlyAllowed(name) || Paired(name)
    ensures name !in ALLOWED_9
  {
  }

  lemma Part10LeavesOut(name: string)
    requires PartlyAllowed(name) || Paired(name)
    ensures name !in ALLOWED_10
  {
  }

  lemma Part11LeavesOut(name: string)
    requires PartlyAllowed(name) || Paired(name)
    ensures name !in ALLOWED_11
  {
  }

  lemma Part12LeavesOut(name: string)
    requires PartlyAllowed(name) || Paired(name)
    ensures name !in ALLOWED_12
  {
  }

  lemma Part13LeavesOut(name: string)
    requires PartlyAllowed(name) || Paired(name)
    ensures name !in ALLOWED_13
  {
  }

  lemma Part14LeavesOut(name: string)
    requires PartlyAllowed(name) || Paired(name)
    ensures name !in ALLOWED_14
  {
  }

  lemma Part15LeavesOut(name: string)
    requires PartlyAllowed(name) || Paired(name)
    ensures name !in ALLOWED_15
  {
  }

  lemma Part16LeavesOut(name: string)
    requires PartlyAllowed(name) || Paired(name)
    ensures name !in ALLOWED_16
  {
  }

  lemma Part17LeavesOut(name: string)
    requires PartlyAllowed(name) || Paired(name)
    ensures name !in ALLOWED_17
  {
  }

  lemma Part18LeavesOut(name: string)
    requires PartlyAllowed(name) || Paired(name)
    ensures name !in ALLOWED_18
  {
  }

  lemma Part19LeavesOut(name: string)
    requires PartlyAllowed(name) || Paired(name)
    ensures name !in ALLOWED_19
  {
  }

  lemma Part20LeavesOut(name: string)
    requires PartlyAllowed(name) || Paired(name)
    ensures name !in ALLOWED_20
  {
  }

  lemma Part21LeavesOut(name: string)
    requires PartlyAllowed(name) || Paired(name)
    ensures name !in ALLOWED_21
  {
  }

  lemma Part22LeavesOut(name: string)
    requires PartlyAllowed(name) || Paired(name)
    ensures name !in ALLOWED_22
  {
  }

  lemma Part23LeavesOut(name: string)
    requires PartlyAllowed(name) || Paired(name)
    ensures name !in ALLOWED_23
  {
  }

  lemma Part24LeavesOut(name: string)
    requires PartlyAllowed(name) || Paired(name)
    ensures name !in ALLOWED_24
  {
  }

  lemma Part25LeavesOut(name: string)
    requires PartlyAllowed(name) || Paired(name)
    ensures name !in ALLOWED_25
  {
  }
}
