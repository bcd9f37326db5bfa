/** The system call names that AMD64 GNU/Linux process record/replay decodes
    raw numbers into: the union of the enumerators of `enum amd64_syscall`
    and `enum amd64_x32_syscall` in binutils/gdb/amd64-linux-tdep.h.

    Each name is the enumerator's suffix in CamelCase (`amd64_sys_rt_sigaction`
    and `amd64_x32_sys_rt_sigaction` both become `Sig(RtSigaction)`). The
    enumerator `amd64_x32_syscall_bit` is the base of the x32 numbering, not a
    system call, so it has no name here.

    The header lists the names in one flat enum per ABI. Here they are grouped
    by kernel subsystem, two levels deep, so that a proof about every name can
    be split group by group; the grouping carries no meaning for the numbering,
    and the order of the names within a group is not the order of either enum. */
module Syscalls {

  datatype Syscall =
      Io(io: IoCall)
    | Event(event: EventCall)
    | Path(path: PathCall)
    | Fs(fs: FsCall)
    | Mem(mem: MemCall)
    | Proc(proc: ProcCall)
    | Cred(cred: CredCall)
    | Sched(sched: SchedCall)
    | Sig(sig: SigCall)
    | Clock(clock: ClockCall)
    | Ipc(ipc: IpcCall)
    | Net(net: NetCall)
    | Admin(admin: AdminCall)

  /** System calls for reading and writing through file descriptors. */
  datatype IoCall =
      Read | Write | Open | Close | Lseek
    | Pread64 | Pwrite64 | Readv | Writev | Preadv
    | Pwritev | Pipe | Pipe2 | Dup | Dup2
    | Fcntl | Flock | Fsync | Fdatasync | Ioctl
    | Sendfile64 | Readahead | Fadvise64 | Splice | Tee
    | Vmsplice | SyncFileRange | Creat | Openat | Sync

  /** System calls for readiness polling, file notification and asynchronous I/O. */
  datatype EventCall =
      Select | Poll | Pselect6 | Ppoll | EpollCreate
    | EpollWait | EpollCtl | InotifyInit | InotifyAddWatch | InotifyRmWatch
    | IoSetup | IoDestroy | IoGetevents | IoSubmit | IoCancel

  /** System calls for the file-system namespace and file metadata. */
  datatype PathCall =
      Newstat | Newfstat | Newlstat | Access | Truncate
    | Ftruncate | Getdents | Getdents64 | Getcwd | Chdir
    | Fchdir | Rename | Mkdir | Rmdir | Link
    | Unlink | Symlink | Readlink | Chmod | Fchmod
    | Chown | Fchown | Lchown | Umask | Utime
    | Utimes | Mknod | Mkdirat | Mknodat | Fchownat
    | Futimesat | Newfstatat | Unlinkat | Renameat | Linkat
    | Symlinkat | Readlinkat | Fchmodat | Faccessat

  /** System calls for mounts, swap, quotas and extended attributes. */
  datatype FsCall =
      Statfs | Fstatfs | Ustat | Sysfs | Chroot
    | PivotRoot | Mount | Umount | Swapon | Swapoff
    | Quotactl | Nfsservctl | LookupDcookie | Setxattr | Lsetxattr
    | Fsetxattr | Getxattr | Lgetxattr | Fgetxattr | Listxattr
    | Llistxattr | Flistxattr | Removexattr | Lremovexattr | Fremovexattr

  /** System calls for address-space management. */
  datatype MemCall =
      Mmap | Mprotect | Munmap | Brk | Mremap
    | Msync | Mincore | Madvise | Mlock | Munlock
    | Mlockall | Munlockall | RemapFilePages | Mbind | SetMempolicy
    | GetMempolicy | MigratePages | MovePages | ProcessVmReadv | ProcessVmWritev

  /** System calls for process and thread life cycle and control. */
  datatype ProcCall =
      Clone | Fork | Vfork | Execve | Exit
    | ExitGroup | Wait4 | Waitid | Kill | Tkill
    | Tgkill | Getpid | Getppid | Gettid | Getpgrp
    | Getpgid | Setpgid | Getsid | Setsid | Personality
    | Ptrace | Prctl | ArchPrctl | ModifyLdt | Iopl
    | Ioperm | SetTidAddress | RestartSyscall | Unshare | SetRobustList
    | GetRobustList | Futex | KexecLoad

  /** System calls for user and group identities, capabilities, resource limits and usage. */
  datatype CredCall =
      Getuid | Geteuid | Getgid | Getegid | Setuid
    | Setgid | Setreuid | Setregid | Setresuid | Getresuid
    | Setresgid | Getresgid | Setfsuid | Setfsgid | Getgroups
    | Setgroups | Capget | Capset | Getrlimit | Setrlimit
    | Getrusage | Times

  /** System calls for scheduling and I/O priorities. */
  datatype SchedCall =
      SchedYield | SchedSetparam | SchedGetparam | SchedSetscheduler | SchedGetscheduler
    | SchedGetPriorityMax | SchedGetPriorityMin | SchedRrGetInterval | SchedSetaffinity | SchedGetaffinity
    | Getpriority | Setpriority | IoprioSet | IoprioGet

  /** System calls for signal handling. */
  datatype SigCall =
      RtSigaction | RtSigprocmask | RtSigreturn | RtSigpending | RtSigtimedwait
    | RtSigqueueinfo | RtSigsuspend | RtTgsigqueueinfo | Sigaltstack | Pause

  /** System calls for clocks, sleeping and timers. */
  datatype ClockCall =
      Nanosleep | Getitimer | Setitimer | Alarm | Gettimeofday
    | Settimeofday | Time | Adjtimex | TimerCreate | TimerSettime
    | TimerGettime | TimerGetoverrun | TimerDelete | ClockSettime | ClockGettime
    | ClockGetres | ClockNanosleep

  /** System calls for System V and POSIX message-queue IPC. */
  datatype IpcCall =
      Shmget | Shmat | Shmctl | Shmdt | Semget
    | Semop | Semctl | Semtimedop | Msgget | Msgsnd
    | Msgrcv | Msgctl | MqOpen | MqUnlink | MqTimedsend
    | MqTimedreceive | MqNotify | MqGetsetattr

  /** System calls for sockets. */
  datatype NetCall =
      Socket | Connect | Accept | Sendto | Recvfrom
    | Sendmsg | Recvmsg | Shutdown | Bind | Listen
    | Getsockname | Getpeername | Socketpair | Setsockopt | Getsockopt
    | Recvmmsg | Sendmmsg

  /** System calls for system-wide administration, kernel modules, keys and randomness. */
  datatype AdminCall =
      Uname | Sysinfo | Syslog | Sysctl | Reboot
    | Sethostname | Setdomainname | Acct | Vhangup | InitModule
    | DeleteModule | AddKey | RequestKey | Keyctl | Getrandom
}
