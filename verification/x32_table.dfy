/** The x32 numbering, `enum amd64_x32_syscall`: the raw number a tracee
    running the x32 ABI (64-bit registers, 32-bit pointers) reports, and the
    decoder record/replay uses on it.

    Every x32 number is `X32SyscallBit + offset`. The offsets fall into two
    blocks. In the shared block, 0 to 277, an entry point the x32 ABI takes
    over from the native ABI keeps its native number as offset. The
    x32-specific block, 512 to 542, holds the entry points whose x32 version
    differs (mostly because they pass pointer-holding structures) and the
    calls that the native enum does not list. */
module X32Table {
  import opened Wrappers
  import opened Syscalls
  import opened NativeTable
  import opened Enumerations

  /** `amd64_x32_syscall_bit`, added to every x32 offset. It is also the
      number of `read`, so it is a constant here, not a name. */
  const X32SyscallBit: nat := 0x4000_0000

  /** The last offset of the shared block, that of `sync_file_range`. */
  const LastSharedOffset: nat := 277

  /** The first and last offsets of the x32-specific block. */
  const FirstX32Offset: nat := 512
  const LastX32Offset: nat := 542

  /** The offsets of the shared block that no x32 enumerator takes: the
      native gaps below 278, plus the native numbers of the calls that were
      moved to the x32-specific block or that the x32 enum leaves out. */
  predicate IsSharedBlockHole(offset: nat)
  {
    || offset == 13 || 15 <= offset <= 16 || 19 <= offset <= 20
    || 45 <= offset <= 47 || 54 <= offset <= 55 || offset == 59
    || offset == 101 || 127 <= offset <= 129 || offset == 131 || offset == 134
    || offset == 174 || 177 <= offset <= 178 || 180 <= offset <= 185
    || offset == 205 || offset == 211 || 214 <= offset <= 215 || offset == 222
    || offset == 236 || offset == 244 || 246 <= offset <= 247
    || 273 <= offset <= 274
  }

  /** The offsets that decode to nothing: the holes of the shared block,
      everything between the two blocks, and everything above the
      x32-specific block. */
  predicate IsUnusedOffset(offset: nat)
  {
    || (offset <= LastSharedOffset && IsSharedBlockHole(offset))
    || (LastSharedOffset < offset < FirstX32Offset)
    || LastX32Offset < offset
  }

  /** The names that only the native enum lists. */
  const NativeOnlyNames: set<Syscall> := {Fs(Nfsservctl), Io(Pipe2), Admin(Getrandom)}

  /** The offset the x32 enumerator for `s` adds to `X32SyscallBit`, or
      `None` when the x32 enum has no enumerator for it. */
  function X32Offset(s: Syscall): Option<nat>
  {
    match s
    case Io(Read) => Some(0)
    case Io(Write) => Some(1)
    case Io(Open) => Some(2)
    case Io(Close) => Some(3)
    case Path(Newstat) => Some(4)
    case Path(Newfstat) => Some(5)
    case Path(Newlstat) => Some(6)
    case Event(Poll) => Some(7)
    case Io(Lseek) => Some(8)
    case Mem(Mmap) => Some(9)
    case Mem(Mprotect) => Some(10)
    case Mem(Munmap) => Some(11)
    case Mem(Brk) => Some(12)
    case Sig(RtSigaction) => Some(512)
    case Sig(RtSigprocmask) => Some(14)
    case Sig(RtSigreturn) => Some(513)
    case Io(Ioctl) => Some(514)
    case Io(Pread64) => Some(17)
    case Io(Pwrite64) => Some(18)
    case Io(Readv) => Some(515)
    case Io(Writev) => Some(516)
    case Path(Access) => Some(21)
    case Io(Pipe) => Some(22)
    case Event(Select) => Some(23)
    case Sched(SchedYield) => Some(24)
    case Mem(Mremap) => Some(25)
    case Mem(Msync) => Some(26)
    case Mem(Mincore) => Some(27)
    case Mem(Madvise) => Some(28)
    case Ipc(Shmget) => Some(29)
    case Ipc(Shmat) => Some(30)
    case Ipc(Shmctl) => Some(31)
    case Io(Dup) => Some(32)
    case Io(Dup2) => Some(33)
    case Sig(Pause) => Some(34)
    case Clock(Nanosleep) => Some(35)
    case Clock(Getitimer) => Some(36)
    case Clock(Alarm) => Some(37)
    case Clock(Setitimer) => Some(38)
    case Proc(Getpid) => Some(39)
    case Io(Sendfile64) => Some(40)
    case Net(Socket) => Some(41)
    case Net(Connect) => Some(42)
    case Net(Accept) => Some(43)
    case Net(Sendto) => Some(44)
    case Net(Recvfrom) => Some(517)
    case Net(Sendmsg) => Some(518)
    case Net(Recvmsg) => Some(519)
    case Net(Shutdown) => Some(48)
    case Net(Bind) => Some(49)
    case Net(Listen) => Some(50)
    case Net(Getsockname) => Some(51)
    case Net(Getpeername) => Some(52)
    case Net(Socketpair) => Some(53)
    case Net(Setsockopt) => Some(541)
    case Net(Getsockopt) => Some(542)
    case Proc(Clone) => Some(56)
    case Proc(Fork) => Some(57)
    case Proc(Vfork) => Some(58)
    case Proc(Execve) => Some(520)
    case Proc(Exit) => Some(60)
    case Proc(Wait4) => Some(61)
    case Proc(Kill) => Some(62)
    case Admin(Uname) => Some(63)
    case Ipc(Semget) => Some(64)
    case Ipc(Semop) => Some(65)
    case Ipc(Semctl) => Some(66)
    case Ipc(Shmdt) => Some(67)
    case Ipc(Msgget) => Some(68)
    case Ipc(Msgsnd) => Some(69)
    case Ipc(Msgrcv) => Some(70)
    case Ipc(Msgctl) => Some(71)
    case Io(Fcntl) => Some(72)
    case Io(Flock) => Some(73)
    case Io(Fsync) => Some(74)
    case Io(Fdatasync) => Some(75)
    case Path(Truncate) => Some(76)
    case Path(Ftruncate) => Some(77)
    case Path(Getdents) => Some(78)
    case Path(Getcwd) => Some(79)
    case Path(Chdir) => Some(80)
    case Path(Fchdir) => Some(81)
    case Path(Rename) => Some(82)
    case Path(Mkdir) => Some(83)
    case Path(Rmdir) => Some(84)
    case Io(Creat) => Some(85)
    case Path(Link) => Some(86)
    case Path(Unlink) => Some(87)
    case Path(Symlink) => Some(88)
    case Path(Readlink) => Some(89)
    case Path(Chmod) => Some(90)
    case Path(Fchmod) => Some(91)
    case Path(Chown) => Some(92)
    case Path(Fchown) => Some(93)
    case Path(Lchown) => Some(94)
    case Path(Umask) => Some(95)
    case Clock(Gettimeofday) => Some(96)
    case Cred(Getrlimit) => Some(97)
    case Cred(Getrusage) => Some(98)
    case Admin(Sysinfo) => Some(99)
    case Cred(Times) => Some(100)
    case Proc(Ptrace) => Some(521)
    case Cred(Getuid) => Some(102)
    case Admin(Syslog) => Some(103)
    case Cred(Getgid) => Some(104)
    case Cred(Setuid) => Some(105)
    case Cred(Setgid) => Some(106)
    case Cred(Geteuid) => Some(107)
    case Cred(Getegid) => Some(108)
    case Proc(Setpgid) => Some(109)
    case Proc(Getppid) => Some(110)
    case Proc(Getpgrp) => Some(111)
    case Proc(Setsid) => Some(112)
    case Cred(Setreuid) => Some(113)
    case Cred(Setregid) => Some(114)
    case Cred(Getgroups) => Some(115)
    case Cred(Setgroups) => Some(116)
    case Cred(Setresuid) => Some(117)
    case Cred(Getresuid) => Some(118)
    case Cred(Setresgid) => Some(119)
    case Cred(Getresgid) => Some(120)
    case Proc(Getpgid) => Some(121)
    case Cred(Setfsuid) => Some(122)
    case Cred(Setfsgid) => Some(123)
    case Proc(Getsid) => Some(124)
    case Cred(Capget) => Some(125)
    case Cred(Capset) => Some(126)
    case Sig(RtSigpending) => Some(522)
    case Sig(RtSigtimedwait) => Some(523)
    case Sig(RtSigqueueinfo) => Some(524)
    case Sig(RtSigsuspend) => Some(130)
    case Sig(Sigaltstack) => Some(525)
    case Path(Utime) => Some(132)
    case Path(Mknod) => Some(133)
    case Proc(Personality) => Some(135)
    case Fs(Ustat) => Some(136)
    case Fs(Statfs) => Some(137)
    case Fs(Fstatfs) => Some(138)
    case Fs(Sysfs) => Some(139)
    case Sched(Getpriority) => Some(140)
    case Sched(Setpriority) => Some(141)
    case Sched(SchedSetparam) => Some(142)
    case Sched(SchedGetparam) => Some(143)
    case Sched(SchedSetscheduler) => Some(144)
    case Sched(SchedGetscheduler) => Some(145)
    case Sched(SchedGetPriorityMax) => Some(146)
    case Sched(SchedGetPriorityMin) => Some(147)
    case Sched(SchedRrGetInterval) => Some(148)
    case Mem(Mlock) => Some(149)
    case Mem(Munlock) => Some(150)
    case Mem(Mlockall) => Some(151)
    case Mem(Munlockall) => Some(152)
    case Admin(Vhangup) => Some(153)
    case Proc(ModifyLdt) => Some(154)
    case Fs(PivotRoot) => Some(155)
    case Admin(Sysctl) => Some(156)
    case Proc(Prctl) => Some(157)
    case Proc(ArchPrctl) => Some(158)
    case Clock(Adjtimex) => Some(159)
    case Cred(Setrlimit) => Some(160)
    case Fs(Chroot) => Some(161)
    case Io(Sync) => Some(162)
    case Admin(Acct) => Some(163)
    case Clock(Settimeofday) => Some(164)
    case Fs(Mount) => Some(165)
    case Fs(Umount) => Some(166)
    case Fs(Swapon) => Some(167)
    case Fs(Swapoff) => Some(168)
    case Admin(Reboot) => Some(169)
    case Admin(Sethostname) => Some(170)
    case Admin(Setdomainname) => Some(171)
    case Proc(Iopl) => Some(172)
    case Proc(Ioperm) => Some(173)
    case Admin(InitModule) => Some(175)
    case Admin(DeleteModule) => Some(176)
    case Fs(Quotactl) => Some(179)
    case Fs(Nfsservctl) => None
    case Proc(Gettid) => Some(186)
    case Io(Readahead) => Some(187)
    case Fs(Setxattr) => Some(188)
    case Fs(Lsetxattr) => Some(189)
    case Fs(Fsetxattr) => Some(190)
    case Fs(Getxattr) => Some(191)
    case Fs(Lgetxattr) => Some(192)
    case Fs(Fgetxattr) => Some(193)
    case Fs(Listxattr) => Some(194)
    case Fs(Llistxattr) => Some(195)
    case Fs(Flistxattr) => Some(196)
    case Fs(Removexattr) => Some(197)
    case Fs(Lremovexattr) => Some(198)
    case Fs(Fremovexattr) => Some(199)
    case Proc(Tkill) => Some(200)
    case Clock(Time) => Some(201)
    case Proc(Futex) => Some(202)
    case Sched(SchedSetaffinity) => Some(203)
    case Sched(SchedGetaffinity) => Some(204)
    case Event(IoSetup) => Some(206)
    case Event(IoDestroy) => Some(207)
    case Event(IoGetevents) => Some(208)
    case Event(IoSubmit) => Some(209)
    case Event(IoCancel) => Some(210)
    case Fs(LookupDcookie) => Some(212)
    case Event(EpollCreate) => Some(213)
    case Mem(RemapFilePages) => Some(216)
    case Path(Getdents64) => Some(217)
    case Proc(SetTidAddress) => Some(218)
    case Proc(RestartSyscall) => Some(219)
    case Ipc(Semtimedop) => Some(220)
    case Io(Fadvise64) => Some(221)
    case Clock(TimerCreate) => Some(526)
    case Clock(TimerSettime) => Some(223)
    case Clock(TimerGettime) => Some(224)
    case Clock(TimerGetoverrun) => Some(225)
    case Clock(TimerDelete) => Some(226)
    case Clock(ClockSettime) => Some(227)
    case Clock(ClockGettime) => Some(228)
    case Clock(ClockGetres) => Some(229)
    case Clock(ClockNanosleep) => Some(230)
    case Proc(ExitGroup) => Some(231)
    case Event(EpollWait) => Some(232)
    case Event(EpollCtl) => Some(233)
    case Proc(Tgkill) => Some(234)
    case Path(Utimes) => Some(235)
    case Mem(Mbind) => Some(237)
    case Mem(SetMempolicy) => Some(238)
    case Mem(GetMempolicy) => Some(239)
    case Ipc(MqOpen) => Some(240)
    case Ipc(MqUnlink) => Some(241)
    case Ipc(MqTimedsend) => Some(242)
    case Ipc(MqTimedreceive) => Some(243)
    case Ipc(MqNotify) => Some(527)
    case Ipc(MqGetsetattr) => Some(245)
    case Proc(KexecLoad) => Some(528)
    case Proc(Waitid) => Some(529)
    case Admin(AddKey) => Some(248)
    case Admin(RequestKey) => Some(249)
    case Admin(Keyctl) => Some(250)
    case Sched(IoprioSet) => Some(251)
    case Sched(IoprioGet) => Some(252)
    case Event(InotifyInit) => Some(253)
    case Event(InotifyAddWatch) => Some(254)
    case Event(InotifyRmWatch) => Some(255)
    case Mem(MigratePages) => Some(256)
    case Io(Openat) => Some(257)
    case Path(Mkdirat) => Some(258)
    case Path(Mknodat) => Some(259)
    case Path(Fchownat) => Some(260)
    case Path(Futimesat) => Some(261)
    case Path(Newfstatat) => Some(262)
    case Path(Unlinkat) => Some(263)
    case Path(Renameat) => Some(264)
    case Path(Linkat) => Some(265)
    case Path(Symlinkat) => Some(266)
    case Path(Readlinkat) => Some(267)
    case Path(Fchmodat) => Some(268)
    case Path(Faccessat) => Some(269)
    case Event(Pselect6) => Some(270)
    case Event(Ppoll) => Some(271)
    case Proc(Unshare) => Some(272)
    case Proc(SetRobustList) => Some(530)
    case Proc(GetRobustList) => Some(531)
    case Io(Splice) => Some(275)
    case Io(Tee) => Some(276)
    case Io(SyncFileRange) => Some(277)
    case Io(Vmsplice) => Some(532)
    case Mem(MovePages) => Some(533)
    case Io(Pipe2) => None
    case Admin(Getrandom) => None
    case Io(Preadv) => Some(534)
    case Io(Pwritev) => Some(535)
    case Sig(RtTgsigqueueinfo) => Some(536)
    case Net(Recvmmsg) => Some(537)
    case Net(Sendmmsg) => Some(538)
    case Mem(ProcessVmReadv) => Some(539)
    case Mem(ProcessVmWritev) => Some(540)
  }

  /** The value of the x32 enumerator for `s`. */
  function X32Num(s: Syscall): Option<nat>
  {
    match X32Offset(s)
    case Some(offset) => Some(X32SyscallBit + offset)
    case None => None
  }

  /** The name whose x32 enumerator has offset `offset`, searched in blocks
      of 32. */
  function DecodeX32Offset(offset: nat): Option<Syscall>
  {
    if offset < 32 then
      match offset
      case 0 => Some(Io(Read))
      case 1 => Some(Io(Write))
      case 2 => Some(Io(Open))
      case 3 => Some(Io(Close))
      case 4 => Some(Path(Newstat))
      case 5 => Some(Path(Newfstat))
      case 6 => Some(Path(Newlstat))
      case 7 => Some(Event(Poll))
      case 8 => Some(Io(Lseek))
      case 9 => Some(Mem(Mmap))
      case 10 => Some(Mem(Mprotect))
      case 11 => Some(Mem(Munmap))
      case 12 => Some(Mem(Brk))
      case 14 => Some(Sig(RtSigprocmask))
      case 17 => Some(Io(Pread64))
      case 18 => Some(Io(Pwrite64))
      case 21 => Some(Path(Access))
      case 22 => Some(Io(Pipe))
      case 23 => Some(Event(Select))
      case 24 => Some(Sched(SchedYield))
      case 25 => Some(Mem(Mremap))
      case 26 => Some(Mem(Msync))
      case 27 => Some(Mem(Mincore))
      case 28 => Some(Mem(Madvise))
      case 29 => Some(Ipc(Shmget))
      case 30 => Some(Ipc(Shmat))
      case 31 => Some(Ipc(Shmctl))
      case _ => None
    else if offset < 64 then
      match offset
      case 32 => Some(Io(Dup))
      case 33 => Some(Io(Dup2))
      case 34 => Some(Sig(Pause))
      case 35 => Some(Clock(Nanosleep))
      case 36 => Some(Clock(Getitimer))
      case 37 => Some(Clock(Alarm))
      case 38 => Some(Clock(Setitimer))
      case 39 => Some(Proc(Getpid))
      case 40 => Some(Io(Sendfile64))
      case 41 => Some(Net(Socket))
      case 42 => Some(Net(Connect))
      case 43 => Some(Net(Accept))
      case 44 => Some(Net(Sendto))
      case 48 => Some(Net(Shutdown))
      case 49 => Some(Net(Bind))
      case 50 => Some(Net(Listen))
      case 51 => Some(Net(Getsockname))
      case 52 => Some(Net(Getpeername))
      case 53 => Some(Net(Socketpair))
      case 56 => Some(Proc(Clone))
      case 57 => Some(Proc(Fork))
      case 58 => Some(Proc(Vfork))
      case 60 => Some(Proc(Exit))
      case 61 => Some(Proc(Wait4))
      case 62 => Some(Proc(Kill))
      case 63 => Some(Admin(Uname))
      case _ => None
    else if offset < 96 then
      match offset
      case 64 => Some(Ipc(Semget))
      case 65 => Some(Ipc(Semop))
      case 66 => Some(Ipc(Semctl))
      case 67 => Some(Ipc(Shmdt))
      case 68 => Some(Ipc(Msgget))
      case 69 => Some(Ipc(Msgsnd))
      case 70 => Some(Ipc(Msgrcv))
      case 71 => Some(Ipc(Msgctl))
      case 72 => Some(Io(Fcntl))
      case 73 => Some(Io(Flock))
      case 74 => Some(Io(Fsync))
      case 75 => Some(Io(Fdatasync))
      case 76 => Some(Path(Truncate))
      case 77 => Some(Path(Ftruncate))
      case 78 => Some(Path(Getdents))
      case 79 => Some(Path(Getcwd))
      case 80 => Some(Path(Chdir))
      case 81 => Some(Path(Fchdir))
      case 82 => Some(Path(Rename))
      case 83 => Some(Path(Mkdir))
      case 84 => Some(Path(Rmdir))
      case 85 => Some(Io(Creat))
      case 86 => Some(Path(Link))
      case 87 => Some(Path(Unlink))
      case 88 => Some(Path(Symlink))
      case 89 => Some(Path(Readlink))
      case 90 => Some(Path(Chmod))
      case 91 => Some(Path(Fchmod))
      case 92 => Some(Path(Chown))
      case 93 => Some(Path(Fchown))
      case 94 => Some(Path(Lchown))
      case 95 => Some(Path(Umask))
      case _ => None
    else if offset < 128 then
      match offset
      case 96 => Some(Clock(Gettimeofday))
      case 97 => Some(Cred(Getrlimit))
      case 98 => Some(Cred(Getrusage))
      case 99 => Some(Admin(Sysinfo))
      case 100 => Some(Cred(Times))
      case 102 => Some(Cred(Getuid))
      case 103 => Some(Admin(Syslog))
      case 104 => Some(Cred(Getgid))
      case 105 => Some(Cred(Setuid))
      case 106 => Some(Cred(Setgid))
      case 107 => Some(Cred(Geteuid))
      case 108 => Some(Cred(Getegid))
      case 109 => Some(Proc(Setpgid))
      case 110 => Some(Proc(Getppid))
      case 111 => Some(Proc(Getpgrp))
      case 112 => Some(Proc(Setsid))
      case 113 => Some(Cred(Setreuid))
      case 114 => Some(Cred(Setregid))
      case 115 => Some(Cred(Getgroups))
      case 116 => Some(Cred(Setgroups))
      case 117 => Some(Cred(Setresuid))
      case 118 => Some(Cred(Getresuid))
      case 119 => Some(Cred(Setresgid))
      case 120 => Some(Cred(Getresgid))
      case 121 => Some(Proc(Getpgid))
      case 122 => Some(Cred(Setfsuid))
      case 123 => Some(Cred(Setfsgid))
      case 124 => Some(Proc(Getsid))
      case 125 => Some(Cred(Capget))
      case 126 => Some(Cred(Capset))
      case _ => None
    else if offset < 160 then
      match offset
      case 130 => Some(Sig(RtSigsuspend))
      case 132 => Some(Path(Utime))
      case 133 => Some(Path(Mknod))
      case 135 => Some(Proc(Personality))
      case 136 => Some(Fs(Ustat))
      case 137 => Some(Fs(Statfs))
      case 138 => Some(Fs(Fstatfs))
      case 139 => Some(Fs(Sysfs))
      case 140 => Some(Sched(Getpriority))
      case 141 => Some(Sched(Setpriority))
      case 142 => Some(Sched(SchedSetparam))
      case 143 => Some(Sched(SchedGetparam))
      case 144 => Some(Sched(SchedSetscheduler))
      case 145 => Some(Sched(SchedGetscheduler))
      case 146 => Some(Sched(SchedGetPriorityMax))
      case 147 => Some(Sched(SchedGetPriorityMin))
      case 148 => Some(Sched(SchedRrGetInterval))
      case 149 => Some(Mem(Mlock))
      case 150 => Some(Mem(Munlock))
      case 151 => Some(Mem(Mlockall))
      case 152 => Some(Mem(Munlockall))
      case 153 => Some(Admin(Vhangup))
      case 154 => Some(Proc(ModifyLdt))
      case 155 => Some(Fs(PivotRoot))
      case 156 => Some(Admin(Sysctl))
      case 157 => Some(Proc(Prctl))
      case 158 => Some(Proc(ArchPrctl))
      case 159 => Some(Clock(Adjtimex))
      case _ => None
    else if offset < 192 then
      match offset
      case 160 => Some(Cred(Setrlimit))
      case 161 => Some(Fs(Chroot))
      case 162 => Some(Io(Sync))
      case 163 => Some(Admin(Acct))
      case 164 => Some(Clock(Settimeofday))
      case 165 => Some(Fs(Mount))
      case 166 => Some(Fs(Umount))
      case 167 => Some(Fs(Swapon))
      case 168 => Some(Fs(Swapoff))
      case 169 => Some(Admin(Reboot))
      case 170 => Some(Admin(Sethostname))
      case 171 => Some(Admin(Setdomainname))
      case 172 => Some(Proc(Iopl))
      case 173 => Some(Proc(Ioperm))
      case 175 => Some(Admin(InitModule))
      case 176 => Some(Admin(DeleteModule))
      case 179 => Some(Fs(Quotactl))
      case 186 => Some(Proc(Gettid))
      case 187 => Some(Io(Readahead))
      case 188 => Some(Fs(Setxattr))
      case 189 => Some(Fs(Lsetxattr))
      case 190 => Some(Fs(Fsetxattr))
      case 191 => Some(Fs(Getxattr))
      case _ => None
    else if offset < 224 then
      match offset
      case 192 => Some(Fs(Lgetxattr))
      case 193 => Some(Fs(Fgetxattr))
      case 194 => Some(Fs(Listxattr))
      case 195 => Some(Fs(Llistxattr))
      case 196 => Some(Fs(Flistxattr))
      case 197 => Some(Fs(Removexattr))
      case 198 => Some(Fs(Lremovexattr))
      case 199 => Some(Fs(Fremovexattr))
      case 200 => Some(Proc(Tkill))
      case 201 => Some(Clock(Time))
      case 202 => Some(Proc(Futex))
      case 203 => Some(Sched(SchedSetaffinity))
      case 204 => Some(Sched(SchedGetaffinity))
      case 206 => Some(Event(IoSetup))
      case 207 => Some(Event(IoDestroy))
      case 208 => Some(Event(IoGetevents))
      case 209 => Some(Event(IoSubmit))
      case 210 => Some(Event(IoCancel))
      case 212 => Some(Fs(LookupDcookie))
      case 213 => Some(Event(EpollCreate))
      case 216 => Some(Mem(RemapFilePages))
      case 217 => Some(Path(Getdents64))
      case 218 => Some(Proc(SetTidAddress))
      case 219 => Some(Proc(RestartSyscall))
      case 220 => Some(Ipc(Semtimedop))
      case 221 => Some(Io(Fadvise64))
      case 223 => Some(Clock(TimerSettime))
      case _ => None
    else if offset < 256 then
      match offset
      case 224 => Some(Clock(TimerGettime))
      case 225 => Some(Clock(TimerGetoverrun))
      case 226 => Some(Clock(TimerDelete))
      case 227 => Some(Clock(ClockSettime))
      case 228 => Some(Clock(ClockGettime))
      case 229 => Some(Clock(ClockGetres))
      case 230 => Some(Clock(ClockNanosleep))
      case 231 => Some(Proc(ExitGroup))
      case 232 => Some(Event(EpollWait))
      case 233 => Some(Event(EpollCtl))
      case 234 => Some(Proc(Tgkill))
      case 235 => Some(Path(Utimes))
      case 237 => Some(Mem(Mbind))
      case 238 => Some(Mem(SetMempolicy))
      case 239 => Some(Mem(GetMempolicy))
      case 240 => Some(Ipc(MqOpen))
      case 241 => Some(Ipc(MqUnlink))
      case 242 => Some(Ipc(MqTimedsend))
      case 243 => Some(Ipc(MqTimedreceive))
      case 245 => Some(Ipc(MqGetsetattr))
      case 248 => Some(Admin(AddKey))
      case 249 => Some(Admin(RequestKey))
      case 250 => Some(Admin(Keyctl))
      case 251 => Some(Sched(IoprioSet))
      case 252 => Some(Sched(IoprioGet))
      case 253 => Some(Event(InotifyInit))
      case 254 => Some(Event(InotifyAddWatch))
      case 255 => Some(Event(InotifyRmWatch))
      case _ => None
    else if offset < 288 then
      match offset
      case 256 => Some(Mem(MigratePages))
      case 257 => Some(Io(Openat))
      case 258 => Some(Path(Mkdirat))
      case 259 => Some(Path(Mknodat))
      case 260 => Some(Path(Fchownat))
      case 261 => Some(Path(Futimesat))
      case 262 => Some(Path(Newfstatat))
      case 263 => Some(Path(Unlinkat))
      case 264 => Some(Path(Renameat))
      case 265 => Some(Path(Linkat))
      case 266 => Some(Path(Symlinkat))
      case 267 => Some(Path(Readlinkat))
      case 268 => Some(Path(Fchmodat))
      case 269 => Some(Path(Faccessat))
      case 270 => Some(Event(Pselect6))
      case 271 => Some(Event(Ppoll))
      case 272 => Some(Proc(Unshare))
      case 275 => Some(Io(Splice))
      case 276 => Some(Io(Tee))
      case 277 => Some(Io(SyncFileRange))
      case _ => None
    else if offset < 544 then
      match offset
      case 512 => Some(Sig(RtSigaction))
      case 513 => Some(Sig(RtSigreturn))
      case 514 => Some(Io(Ioctl))
      case 515 => Some(Io(Readv))
      case 516 => Some(Io(Writev))
      case 517 => Some(Net(Recvfrom))
      case 518 => Some(Net(Sendmsg))
      case 519 => Some(Net(Recvmsg))
      case 520 => Some(Proc(Execve))
      case 521 => Some(Proc(Ptrace))
      case 522 => Some(Sig(RtSigpending))
      case 523 => Some(Sig(RtSigtimedwait))
      case 524 => Some(Sig(RtSigqueueinfo))
      case 525 => Some(Sig(Sigaltstack))
      case 526 => Some(Clock(TimerCreate))
      case 527 => Some(Ipc(MqNotify))
      case 528 => Some(Proc(KexecLoad))
      case 529 => Some(Proc(Waitid))
      case 530 => Some(Proc(SetRobustList))
      case 531 => Some(Proc(GetRobustList))
      case 532 => Some(Io(Vmsplice))
      case 533 => Some(Mem(MovePages))
      case 534 => Some(Io(Preadv))
      case 535 => Some(Io(Pwritev))
      case 536 => Some(Sig(RtTgsigqueueinfo))
      case 537 => Some(Net(Recvmmsg))
      case 538 => Some(Net(Sendmmsg))
      case 539 => Some(Mem(ProcessVmReadv))
      case 540 => Some(Mem(ProcessVmWritev))
      case 541 => Some(Net(Setsockopt))
      case 542 => Some(Net(Getsockopt))
      case _ => None
    else
      None
  }

  /** The name whose x32 enumerator has the value `n`, or `None` when no
      enumerator has that value. Numbers below `X32SyscallBit` are never
      x32 numbers. */
  function DecodeX32(n: nat): Option<Syscall>
  {
    if n < X32SyscallBit then None else DecodeX32Offset(n - X32SyscallBit)
  }

  /** One name's x32 entry is consistent: its offset decodes back to it,
      and it has an offset unless it is native-only. */
  predicate X32EntryAgrees(s: Syscall)
  {
    && (X32Offset(s).Some? ==> DecodeX32Offset(X32Offset(s).value) == Some(s))
    && (X32Offset(s).None? <==> s in NativeOnlyNames)
  }

  /** The offset decoder is consistent at `offset`: if it answers `s`, then
      `offset` is the offset of `s`. */
  predicate X32DecodeAgrees(offset: nat, s: Syscall)
  {
    DecodeX32Offset(offset) == Some(s) ==> X32Offset(s) == Some(offset)
  }

  /** In the shared block, the x32 decoder answers what the native decoder
      answers, wherever it answers anything. */
  predicate SharedDecodeAgrees(offset: nat, s: Syscall)
  {
    DecodeX32Offset(offset) == Some(s) ==> DecodeNative(offset) == Some(s)
  }

  // The x32 entries agree with the decoder, one lemma per group of names.

  lemma X32EntriesIo(c: IoCall)
    ensures X32EntryAgrees(Io(c))
  {
    match c
    case Read =>
    case Write =>
    case Open =>
    case Close =>
    case Lseek =>
    case Pread64 =>
    case Pwrite64 =>
    case Readv =>
    case Writev =>
    case Preadv =>
    case Pwritev =>
    case Pipe =>
    case Pipe2 =>
    case Dup =>
    case Dup2 =>
    case Fcntl =>
    case Flock =>
    case Fsync =>
    case Fdatasync =>
    case Ioctl =>
    case Sendfile64 =>
    case Readahead =>
    case Fadvise64 =>
    case Splice =>
    case Tee =>
    case Vmsplice =>
    case SyncFileRange =>
    case Creat =>
    case Openat =>
    case Sync =>
  }

  lemma X32EntriesEvent(c: EventCall)
    ensures X32EntryAgrees(Event(c))
  {
    match c
    case Select =>
    case Poll =>
    case Pselect6 =>
    case Ppoll =>
    case EpollCreate =>
    case EpollWait =>
    case EpollCtl =>
    case InotifyInit =>
    case InotifyAddWatch =>
    case InotifyRmWatch =>
    case IoSetup =>
    case IoDestroy =>
    case IoGetevents =>
    case IoSubmit =>
    case IoCancel =>
  }

  lemma X32EntriesPath(c: PathCall)
    ensures X32EntryAgrees(Path(c))
  {
    match c
    case Newstat =>
    case Newfstat =>
    case Newlstat =>
    case Access =>
    case Truncate =>
    case Ftruncate =>
    case Getdents =>
    case Getdents64 =>
    case Getcwd =>
    case Chdir =>
    case Fchdir =>
    case Rename =>
    case Mkdir =>
    case Rmdir =>
    case Link =>
    case Unlink =>
    case Symlink =>
    case Readlink =>
    case Chmod =>
    case Fchmod =>
    case Chown =>
    case Fchown =>
    case Lchown =>
    case Umask =>
    case Utime =>
    case Utimes =>
    case Mknod =>
    case Mkdirat =>
    case Mknodat =>
    case Fchownat =>
    case Futimesat =>
    case Newfstatat =>
    case Unlinkat =>
    case Renameat =>
    case Linkat =>
    case Symlinkat =>
    case Readlinkat =>
    case Fchmodat =>
    case Faccessat =>
  }

  lemma X32EntriesFs(c: FsCall)
    ensures X32EntryAgrees(Fs(c))
  {
    match c
    case Statfs =>
    case Fstatfs =>
    case Ustat =>
    case Sysfs =>
    case Chroot =>
    case PivotRoot =>
    case Mount =>
    case Umount =>
    case Swapon =>
    case Swapoff =>
    case Quotactl =>
    case Nfsservctl =>
    case LookupDcookie =>
    case Setxattr =>
    case Lsetxattr =>
    case Fsetxattr =>
    case Getxattr =>
    case Lgetxattr =>
    case Fgetxattr =>
    case Listxattr =>
    case Llistxattr =>
    case Flistxattr =>
    case Removexattr =>
    case Lremovexattr =>
    case Fremovexattr =>
  }

  lemma X32EntriesMem(c: MemCall)
    ensures X32EntryAgrees(Mem(c))
  {
    match c
    case Mmap =>
    case Mprotect =>
    case Munmap =>
    case Brk =>
    case Mremap =>
    case Msync =>
    case Mincore =>
    case Madvise =>
    case Mlock =>
    case Munlock =>
    case Mlockall =>
    case Munlockall =>
    case RemapFilePages =>
    case Mbind =>
    case SetMempolicy =>
    case GetMempolicy =>
    case MigratePages =>
    case MovePages =>
    case ProcessVmReadv =>
    case ProcessVmWritev =>
  }

  lemma X32EntriesProc(c: ProcCall)
    ensures X32EntryAgrees(Proc(c))
  {
    match c
    case Clone =>
    case Fork =>
    case Vfork =>
    case Execve =>
    case Exit =>
    case ExitGroup =>
    case Wait4 =>
    case Waitid =>
    case Kill =>
    case Tkill =>
    case Tgkill =>
    case Getpid =>
    case Getppid =>
    case Gettid =>
    case Getpgrp =>
    case Getpgid =>
    case Setpgid =>
    case Getsid =>
    case Setsid =>
    case Personality =>
    case Ptrace =>
    case Prctl =>
    case ArchPrctl =>
    case ModifyLdt =>
    case Iopl =>
    case Ioperm =>
    case SetTidAddress =>
    case RestartSyscall =>
    case Unshare =>
    case SetRobustList =>
    case GetRobustList =>
    case Futex =>
    case KexecLoad =>
  }

  lemma X32EntriesCred(c: CredCall)
    ensures X32EntryAgrees(Cred(c))
  {
    match c
    case Getuid =>
    case Geteuid =>
    case Getgid =>
    case Getegid =>
    case Setuid =>
    case Setgid =>
    case Setreuid =>
    case Setregid =>
    case Setresuid =>
    case Getresuid =>
    case Setresgid =>
    case Getresgid =>
    case Setfsuid =>
    case Setfsgid =>
    case Getgroups =>
    case Setgroups =>
    case Capget =>
    case Capset =>
    case Getrlimit =>
    case Setrlimit =>
    case Getrusage =>
    case Times =>
  }

  lemma X32EntriesSched(c: SchedCall)
    ensures X32EntryAgrees(Sched(c))
  {
    match c
    case SchedYield =>
    case SchedSetparam =>
    case SchedGetparam =>
    case SchedSetscheduler =>
    case SchedGetscheduler =>
    case SchedGetPriorityMax =>
    case SchedGetPriorityMin =>
    case SchedRrGetInterval =>
    case SchedSetaffinity =>
    case SchedGetaffinity =>
    case Getpriority =>
    case Setpriority =>
    case IoprioSet =>
    case IoprioGet =>
  }

  lemma X32EntriesSig(c: SigCall)
    ensures X32EntryAgrees(Sig(c))
  {
    match c
    case RtSigaction =>
    case RtSigprocmask =>
    case RtSigreturn =>
    case RtSigpending =>
    case RtSigtimedwait =>
    case RtSigqueueinfo =>
    case RtSigsuspend =>
    case RtTgsigqueueinfo =>
    case Sigaltstack =>
    case Pause =>
  }

  lemma X32EntriesClock(c: ClockCall)
    ensures X32EntryAgrees(Clock(c))
  {
    match c
    case Nanosleep =>
    case Getitimer =>
    case Setitimer =>
    case Alarm =>
    case Gettimeofday =>
    case Settimeofday =>
    case Time =>
    case Adjtimex =>
    case TimerCreate =>
    case TimerSettime =>
    case TimerGettime =>
    case TimerGetoverrun =>
    case TimerDelete =>
    case ClockSettime =>
    case ClockGettime =>
    case ClockGetres =>
    case ClockNanosleep =>
  }

  lemma X32EntriesIpc(c: IpcCall)
    ensures X32EntryAgrees(Ipc(c))
  {
    match c
    case Shmget =>
    case Shmat =>
    case Shmctl =>
    case Shmdt =>
    case Semget =>
    case Semop =>
    case Semctl =>
    case Semtimedop =>
    case Msgget =>
    case Msgsnd =>
    case Msgrcv =>
    case Msgctl =>
    case MqOpen =>
    case MqUnlink =>
    case MqTimedsend =>
    case MqTimedreceive =>
    case MqNotify =>
    case MqGetsetattr =>
  }

  lemma X32EntriesNet(c: NetCall)
    ensures X32EntryAgrees(Net(c))
  {
    match c
    case Socket =>
    case Connect =>
    case Accept =>
    case Sendto =>
    case Recvfrom =>
    case Sendmsg =>
    case Recvmsg =>
    case Shutdown =>
    case Bind =>
    case Listen =>
    case Getsockname =>
    case Getpeername =>
    case Socketpair =>
    case Setsockopt =>
    case Getsockopt =>
    case Recvmmsg =>
    case Sendmmsg =>
  }

  lemma X32EntriesAdmin(c: AdminCall)
    ensures X32EntryAgrees(Admin(c))
  {
    match c
    case Uname =>
    case Sysinfo =>
    case Syslog =>
    case Sysctl =>
    case Reboot =>
    case Sethostname =>
    case Setdomainname =>
    case Acct =>
    case Vhangup =>
    case InitModule =>
    case DeleteModule =>
    case AddKey =>
    case RequestKey =>
    case Keyctl =>
    case Getrandom =>
  }

  // Decoding agrees with the encoder and with the native table at the x32 offsets `lo` to `hi`.
  // Each `X32Decodes<lo>To<hi>` covers one small range, so that each proof
  // stays cheap.

  lemma X32Decodes0To7(offset: nat, s: Syscall)
    requires 0 <= offset < 8
    ensures X32DecodeAgrees(offset, s)
  {
  }

  lemma X32Decodes8To15(offset: nat, s: Syscall)
    requires 8 <= offset < 16
    ensures X32DecodeAgrees(offset, s)
  {
  }

  lemma X32Decodes16To23(offset: nat, s: Syscall)
    requires 16 <= offset < 24
    ensures X32DecodeAgrees(offset, s)
  {
  }

  lemma X32Decodes24To31(offset: nat, s: Syscall)
    requires 24 <= offset < 32
    ensures X32DecodeAgrees(offset, s)
  {
  }

  lemma X32Decodes32To39(offset: nat, s: Syscall)
    requires 32 <= offset < 40
    ensures X32DecodeAgrees(offset, s)
  {
  }

  lemma X32Decodes40To47(offset: nat, s: Syscall)
    requires 40 <= offset < 48
    ensures X32DecodeAgrees(offset, s)
  {
  }

  lemma X32Decodes48To55(offset: nat, s: Syscall)
    requires 48 <= offset < 56
    ensures X32DecodeAgrees(offset, s)
  {
  }

  lemma X32Decodes56To63(offset: nat, s: Syscall)
    requires 56 <= offset < 64
    ensures X32DecodeAgrees(offset, s)
  {
  }

  lemma X32Decodes64To71(offset: nat, s: Syscall)
    requires 64 <= offset < 72
    ensures X32DecodeAgrees(offset, s)
  {
  }

  lemma X32Decodes72To79(offset: nat, s: Syscall)
    requires 72 <= offset < 80
    ensures X32DecodeAgrees(offset, s)
  {
  }

  lemma X32Decodes80To87(offset: nat, s: Syscall)
    requires 80 <= offset < 88
    ensures X32DecodeAgrees(offset, s)
  {
  }

  lemma X32Decodes88To95(offset: nat, s: Syscall)
    requires 88 <= offset < 96
    ensures X32DecodeAgrees(offset, s)
  {
  }

  lemma X32Decodes96To103(offset: nat, s: Syscall)
    requires 96 <= offset < 104
    ensures X32DecodeAgrees(offset, s)
  {
  }

  lemma X32Decodes104To111(offset: nat, s: Syscall)
    requires 104 <= offset < 112
    ensures X32DecodeAgrees(offset, s)
  {
  }

  lemma X32Decodes112To119(offset: nat, s: Syscall)
    requires 112 <= offset < 120
    ensures X32DecodeAgrees(offset, s)
  {
  }

  lemma X32Decodes120To127(offset: nat, s: Syscall)
    requires 120 <= offset < 128
    ensures X32DecodeAgrees(offset, s)
  {
  }

  lemma X32Decodes128To135(offset: nat, s: Syscall)
    requires 128 <= offset < 136
    ensures X32DecodeAgrees(offset, s)
  {
  }

  lemma X32Decodes136To143(offset: nat, s: Syscall)
    requires 136 <= offset < 144
    ensures X32DecodeAgrees(offset, s)
  {
  }

  lemma X32Decodes144To151(offset: nat, s: Syscall)
    requires 144 <= offset < 152
    ensures X32DecodeAgrees(offset, s)
  {
  }

  lemma X32Decodes152To159(offset: nat, s: Syscall)
    requires 152 <= offset < 160
    ensures X32DecodeAgrees(offset, s)
  {
  }

  lemma X32Decodes160To167(offset: nat, s: Syscall)
    requires 160 <= offset < 168
    ensures X32DecodeAgrees(offset, s)
  {
  }

  lemma X32Decodes168To175(offset: nat, s: Syscall)
    requires 168 <= offset < 176
    ensures X32DecodeAgrees(offset, s)
  {
  }

  lemma X32Decodes176To183(offset: nat, s: Syscall)
    requires 176 <= offset < 184
    ensures X32DecodeAgrees(offset, s)
  {
  }

  lemma X32Decodes184To191(offset: nat, s: Syscall)
    requires 184 <= offset < 192
    ensures X32DecodeAgrees(offset, s)
  {
  }

  lemma X32Decodes192To199(offset: nat, s: Syscall)
    requires 192 <= offset < 200
    ensures X32DecodeAgrees(offset, s)
  {
  }

  lemma X32Decodes200To207(offset: nat, s: Syscall)
    requires 200 <= offset < 208
    ensures X32DecodeAgrees(offset, s)
  {
  }

  lemma X32Decodes208To215(offset: nat, s: Syscall)
    requires 208 <= offset < 216
    ensures X32DecodeAgrees(offset, s)
  {
  }

  lemma X32Decodes216To223(offset: nat, s: Syscall)
    requires 216 <= offset < 224
    ensures X32DecodeAgrees(offset, s)
  {
  }

  lemma X32Decodes224To231(offset: nat, s: Syscall)
    requires 224 <= offset < 232
    ensures X32DecodeAgrees(offset, s)
  {
  }

  lemma X32Decodes232To239(offset: nat, s: Syscall)
    requires 232 <= offset < 240
    ensures X32DecodeAgrees(offset, s)
  {
  }

  lemma X32Decodes240To247(offset: nat, s: Syscall)
    requires 240 <= offset < 248
    ensures X32DecodeAgrees(offset, s)
  {
  }

  lemma X32Decodes248To255(offset: nat, s: Syscall)
    requires 248 <= offset < 256
    ensures X32DecodeAgrees(offset, s)
  {
  }

  lemma X32Decodes256To263(offset: nat, s: Syscall)
    requires 256 <= offset < 264
    ensures X32DecodeAgrees(offset, s)
  {
  }

  lemma X32Decodes264To271(offset: nat, s: Syscall)
    requires 264 <= offset < 272
    ensures X32DecodeAgrees(offset, s)
  {
  }

  lemma X32Decodes272To277(offset: nat, s: Syscall)
    requires 272 <= offset < 278
    ensures X32DecodeAgrees(offset, s)
  {
  }

  lemma X32Decodes512To519(offset: nat, s: Syscall)
    requires 512 <= offset < 520
    ensures X32DecodeAgrees(offset, s)
  {
  }

  lemma X32Decodes520To527(offset: nat, s: Syscall)
    requires 520 <= offset < 528
    ensures X32DecodeAgrees(offset, s)
  {
  }

  lemma X32Decodes528To535(offset: nat, s: Syscall)
    requires 528 <= offset < 536
    ensures X32DecodeAgrees(offset, s)
  {
  }

  lemma X32Decodes536To542(offset: nat, s: Syscall)
    requires 536 <= offset < 543
    ensures X32DecodeAgrees(offset, s)
  {
  }

  // The x32 decoder agrees with the native decoder at the offsets `lo` to `hi`.
  // Each `SharedDecodes<lo>To<hi>` covers one small range, so that each proof
  // stays cheap.

  lemma SharedDecodes0To7(offset: nat, s: Syscall)
    requires 0 <= offset < 8
    ensures SharedDecodeAgrees(offset, s)
  {
  }

  lemma SharedDecodes8To15(offset: nat, s: Syscall)
    requires 8 <= offset < 16
    ensures SharedDecodeAgrees(offset, s)
  {
  }

  lemma SharedDecodes16To23(offset: nat, s: Syscall)
    requires 16 <= offset < 24
    ensures SharedDecodeAgrees(offset, s)
  {
  }

  lemma SharedDecodes24To31(offset: nat, s: Syscall)
    requires 24 <= offset < 32
    ensures SharedDecodeAgrees(offset, s)
  {
  }

  lemma SharedDecodes32To39(offset: nat, s: Syscall)
    requires 32 <= offset < 40
    ensures SharedDecodeAgrees(offset, s)
  {
  }

  lemma SharedDecodes40To47(offset: nat, s: Syscall)
    requires 40 <= offset < 48
    ensures SharedDecodeAgrees(offset, s)
  {
  }

  lemma SharedDecodes48To55(offset: nat, s: Syscall)
    requires 48 <= offset < 56
    ensures SharedDecodeAgrees(offset, s)
  {
  }

  lemma SharedDecodes56To63(offset: nat, s: Syscall)
    requires 56 <= offset < 64
    ensures SharedDecodeAgrees(offset, s)
  {
  }

  lemma SharedDecodes64To71(offset: nat, s: Syscall)
    requires 64 <= offset < 72
    ensures SharedDecodeAgrees(offset, s)
  {
  }

  lemma SharedDecodes72To79(offset: nat, s: Syscall)
    requires 72 <= offset < 80
    ensures SharedDecodeAgrees(offset, s)
  {
  }

  lemma SharedDecodes80To87(offset: nat, s: Syscall)
    requires 80 <= offset < 88
    ensures SharedDecodeAgrees(offset, s)
  {
  }

  lemma SharedDecodes88To95(offset: nat, s: Syscall)
    requires 88 <= offset < 96
    ensures SharedDecodeAgrees(offset, s)
  {
  }

  lemma SharedDecodes96To103(offset: nat, s: Syscall)
    requires 96 <= offset < 104
    ensures SharedDecodeAgrees(offset, s)
  {
  }

  lemma SharedDecodes104To111(offset: nat, s: Syscall)
    requires 104 <= offset < 112
    ensures SharedDecodeAgrees(offset, s)
  {
  }

  lemma SharedDecodes112To119(offset: nat, s: Syscall)
    requires 112 <= offset < 120
    ensures SharedDecodeAgrees(offset, s)
  {
  }

  lemma SharedDecodes120To127(offset: nat, s: Syscall)
    requires 120 <= offset < 128
    ensures SharedDecodeAgrees(offset, s)
  {
  }

  lemma SharedDecodes128To135(offset: nat, s: Syscall)
    requires 128 <= offset < 136
    ensures SharedDecodeAgrees(offset, s)
  {
  }

  lemma SharedDecodes136To143(offset: nat, s: Syscall)
    requires 136 <= offset < 144
    ensures SharedDecodeAgrees(offset, s)
  {
  }

  lemma SharedDecodes144To151(offset: nat, s: Syscall)
    requires 144 <= offset < 152
    ensures SharedDecodeAgrees(offset, s)
  {
  }

  lemma SharedDecodes152To159(offset: nat, s: Syscall)
    requires 152 <= offset < 160
    ensures SharedDecodeAgrees(offset, s)
  {
  }

  lemma SharedDecodes160To167(offset: nat, s: Syscall)
    requires 160 <= offset < 168
    ensures SharedDecodeAgrees(offset, s)
  {
  }

  lemma SharedDecodes168To175(offset: nat, s: Syscall)
    requires 168 <= offset < 176
    ensures SharedDecodeAgrees(offset, s)
  {
  }

  lemma SharedDecodes176To183(offset: nat, s: Syscall)
    requires 176 <= offset < 184
    ensures SharedDecodeAgrees(offset, s)
  {
  }

  lemma SharedDecodes184To191(offset: nat, s: Syscall)
    requires 184 <= offset < 192
    ensures SharedDecodeAgrees(offset, s)
  {
  }

  lemma SharedDecodes192To199(offset: nat, s: Syscall)
    requires 192 <= offset < 200
    ensures SharedDecodeAgrees(offset, s)
  {
  }

  lemma SharedDecodes200To207(offset: nat, s: Syscall)
    requires 200 <= offset < 208
    ensures SharedDecodeAgrees(offset, s)
  {
  }

  lemma SharedDecodes208To215(offset: nat, s: Syscall)
    requires 208 <= offset < 216
    ensures SharedDecodeAgrees(offset, s)
  {
  }

  lemma SharedDecodes216To223(offset: nat, s: Syscall)
    requires 216 <= offset < 224
    ensures SharedDecodeAgrees(offset, s)
  {
  }

  lemma SharedDecodes224To231(offset: nat, s: Syscall)
    requires 224 <= offset < 232
    ensures SharedDecodeAgrees(offset, s)
  {
  }

  lemma SharedDecodes232To239(offset: nat, s: Syscall)
    requires 232 <= offset < 240
    ensures SharedDecodeAgrees(offset, s)
  {
  }

  lemma SharedDecodes240To247(offset: nat, s: Syscall)
    requires 240 <= offset < 248
    ensures SharedDecodeAgrees(offset, s)
  {
  }

  lemma SharedDecodes248To255(offset: nat, s: Syscall)
    requires 248 <= offset < 256
    ensures SharedDecodeAgrees(offset, s)
  {
  }

  lemma SharedDecodes256To263(offset: nat, s: Syscall)
    requires 256 <= offset < 264
    ensures SharedDecodeAgrees(offset, s)
  {
  }

  lemma SharedDecodes264To271(offset: nat, s: Syscall)
    requires 264 <= offset < 272
    ensures SharedDecodeAgrees(offset, s)
  {
  }

  lemma SharedDecodes272To277(offset: nat, s: Syscall)
    requires 272 <= offset < 278
    ensures SharedDecodeAgrees(offset, s)
  {
  }

  /** An offset decodes to nothing exactly when it is unused. */
  lemma X32OffsetUnmappedIff(offset: nat)
    ensures DecodeX32Offset(offset).None? <==> IsUnusedOffset(offset)
  {
  }

  /** A number decodes to nothing exactly when it is below `X32SyscallBit`
      or its offset is unused. */
  lemma X32UnmappedIff(n: nat)
    ensures DecodeX32(n).None? <==>
      (n < X32SyscallBit || IsUnusedOffset(n - X32SyscallBit))
  {
    if X32SyscallBit <= n {
      X32OffsetUnmappedIff(n - X32SyscallBit);
    }
  }

  /** Encoding a name and decoding the offset gives the name back, and the
      only names without an x32 enumerator are the native-only ones. */
  lemma X32OffsetRoundTrip(s: Syscall)
    ensures X32Offset(s).Some? ==> DecodeX32Offset(X32Offset(s).value) == Some(s)
    ensures X32Offset(s).None? <==> s in NativeOnlyNames
  {
    match s
    case Io(c) => X32EntriesIo(c);
    case Event(c) => X32EntriesEvent(c);
    case Path(c) => X32EntriesPath(c);
    case Fs(c) => X32EntriesFs(c);
    case Mem(c) => X32EntriesMem(c);
    case Proc(c) => X32EntriesProc(c);
    case Cred(c) => X32EntriesCred(c);
    case Sched(c) => X32EntriesSched(c);
    case Sig(c) => X32EntriesSig(c);
    case Clock(c) => X32EntriesClock(c);
    case Ipc(c) => X32EntriesIpc(c);
    case Net(c) => X32EntriesNet(c);
    case Admin(c) => X32EntriesAdmin(c);
  }

  /** Decoding an offset and encoding the name gives the offset back; in the
      shared block the native decoder gives the same name. */
  lemma X32OffsetDecodeSound(offset: nat)
    ensures DecodeX32Offset(offset).Some? ==>
      X32Offset(DecodeX32Offset(offset).value) == Some(offset)
    ensures DecodeX32Offset(offset).Some? && offset <= LastSharedOffset ==>
      DecodeNative(offset) == DecodeX32Offset(offset)
  {
    if DecodeX32Offset(offset).Some? {
      X32OffsetUnmappedIff(offset);
      var s := DecodeX32Offset(offset).value;
      if offset < 8 {
        X32Decodes0To7(offset, s);
        SharedDecodes0To7(offset, s);
      } else if offset < 16 {
        X32Decodes8To15(offset, s);
        SharedDecodes8To15(offset, s);
      } else if offset < 24 {
        X32Decodes16To23(offset, s);
        SharedDecodes16To23(offset, s);
      } else if offset < 32 {
        X32Decodes24To31(offset, s);
        SharedDecodes24To31(offset, s);
      } else if offset < 40 {
        X32Decodes32To39(offset, s);
        SharedDecodes32To39(offset, s);
      } else if offset < 48 {
        X32Decodes40To47(offset, s);
        SharedDecodes40To47(offset, s);
      } else if offset < 56 {
        X32Decodes48To55(offset, s);
        SharedDecodes48To55(offset, s);
      } else if offset < 64 {
        X32Decodes56To63(offset, s);
        SharedDecodes56To63(offset, s);
      } else if offset < 72 {
        X32Decodes64To71(offset, s);
        SharedDecodes64To71(offset, s);
      } else if offset < 80 {
        X32Decodes72To79(offset, s);
        SharedDecodes72To79(offset, s);
      } else if offset < 88 {
        X32Decodes80To87(offset, s);
        SharedDecodes80To87(offset, s);
      } else if offset < 96 {
        X32Decodes88To95(offset, s);
        SharedDecodes88To95(offset, s);
      } else if offset < 104 {
        X32Decodes96To103(offset, s);
        SharedDecodes96To103(offset, s);
      } else if offset < 112 {
        X32Decodes104To111(offset, s);
        SharedDecodes104To111(offset, s);
      } else if offset < 120 {
        X32Decodes112To119(offset, s);
        SharedDecodes112To119(offset, s);
      } else if offset < 128 {
        X32Decodes120To127(offset, s);
        SharedDecodes120To127(offset, s);
      } else if offset < 136 {
        X32Decodes128To135(offset, s);
        SharedDecodes128To135(offset, s);
      } else if offset < 144 {
        X32Decodes136To143(offset, s);
        SharedDecodes136To143(offset, s);
      } else if offset < 152 {
        X32Decodes144To151(offset, s);
        SharedDecodes144To151(offset, s);
      } else if offset < 160 {
        X32Decodes152To159(offset, s);
        SharedDecodes152To159(offset, s);
      } else if offset < 168 {
        X32Decodes160To167(offset, s);
        SharedDecodes160To167(offset, s);
      } else if offset < 176 {
        X32Decodes168To175(offset, s);
        SharedDecodes168To175(offset, s);
      } else if offset < 184 {
        X32Decodes176To183(offset, s);
        SharedDecodes176To183(offset, s);
      } else if offset < 192 {
        X32Decodes184To191(offset, s);
        SharedDecodes184To191(offset, s);
      } else if offset < 200 {
        X32Decodes192To199(offset, s);
        SharedDecodes192To199(offset, s);
      } else if offset < 208 {
        X32Decodes200To207(offset, s);
        SharedDecodes200To207(offset, s);
      } else if offset < 216 {
        X32Decodes208To215(offset, s);
        SharedDecodes208To215(offset, s);
      } else if offset < 224 {
        X32Decodes216To223(offset, s);
        SharedDecodes216To223(offset, s);
      } else if offset < 232 {
        X32Decodes224To231(offset, s);
        SharedDecodes224To231(offset, s);
      } else if offset < 240 {
        X32Decodes232To239(offset, s);
        SharedDecodes232To239(offset, s);
      } else if offset < 248 {
        X32Decodes240To247(offset, s);
        SharedDecodes240To247(offset, s);
      } else if offset < 256 {
        X32Decodes248To255(offset, s);
        SharedDecodes248To255(offset, s);
      } else if offset < 264 {
        X32Decodes256To263(offset, s);
        SharedDecodes256To263(offset, s);
      } else if offset < 272 {
        X32Decodes264To271(offset, s);
        SharedDecodes264To271(offset, s);
      } else if offset < 278 {
        X32Decodes272To277(offset, s);
        SharedDecodes272To277(offset, s);
      } else if offset < 520 {
        X32Decodes512To519(offset, s);
      } else if offset < 528 {
        X32Decodes520To527(offset, s);
      } else if offset < 536 {
        X32Decodes528To535(offset, s);
      } else {
        X32Decodes536To542(offset, s);
      }
    }
  }

  /** Encoding a name and decoding the number gives the name back, and the
      only names without an x32 number are the native-only ones. */
  lemma X32RoundTrip(s: Syscall)
    ensures X32Num(s).Some? ==> DecodeX32(X32Num(s).value) == Some(s)
    ensures X32Num(s).None? <==> s in NativeOnlyNames
  {
    X32OffsetRoundTrip(s);
  }

  /** Decoding a number and encoding the name gives the number back; when the
      offset lies in the shared block, it is also the name's native number. */
  lemma X32DecodeSound(n: nat)
    ensures DecodeX32(n).Some? ==> X32Num(DecodeX32(n).value) == Some(n)
    ensures DecodeX32(n).Some? && n - X32SyscallBit <= LastSharedOffset ==>
      NativeNum(DecodeX32(n).value) == Some(n - X32SyscallBit)
  {
    if DecodeX32(n).Some? {
      var offset := n - X32SyscallBit;
      var s := DecodeX32(n).value;
      X32OffsetDecodeSound(offset);
      if offset <= LastSharedOffset {
        NativeDecodeIff(offset, s);
      }
    }
  }

  /** The decoder is exactly the inverse of the enum. */
  lemma X32DecodeIff(n: nat, s: Syscall)
    ensures DecodeX32(n) == Some(s) <==> X32Num(s) == Some(n)
  {
    X32RoundTrip(s);
    X32DecodeSound(n);
  }

  /** No two x32 enumerators share a value. */
  lemma X32Injective(a: Syscall, b: Syscall)
    requires X32Num(a).Some? && X32Num(a) == X32Num(b)
    ensures a == b
  {
    X32RoundTrip(a);
    X32RoundTrip(b);
  }

  /** Every x32 number is at least `X32SyscallBit`, and its offset lies in
      the shared block or in the x32-specific block. */
  lemma X32NumInBlocks(s: Syscall)
    ensures X32Num(s).Some? ==> X32SyscallBit <= X32Num(s).value
    ensures X32Num(s).Some? ==>
      var offset := X32Num(s).value - X32SyscallBit;
      offset <= LastSharedOffset || FirstX32Offset <= offset <= LastX32Offset
  {
    X32RoundTrip(s);
    if X32Num(s).Some? {
      X32UnmappedIff(X32Num(s).value);
    }
  }

  /** A name numbered in the shared block keeps its native number as its
      offset. */
  lemma X32SharedEntryPoint(s: Syscall)
    requires X32Num(s).Some? && X32Num(s).value - X32SyscallBit <= LastSharedOffset
    ensures NativeNum(s).Some?
    ensures X32Num(s).value == X32SyscallBit + NativeNum(s).value
  {
    X32RoundTrip(s);
    X32DecodeSound(X32Num(s).value);
  }

  /** The x32-specific block has no holes: each of its offsets is the offset
      of exactly one name. */
  lemma X32SpecificBlockIsDense(offset: nat)
    requires FirstX32Offset <= offset <= LastX32Offset
    ensures DecodeX32(X32SyscallBit + offset).Some?
    ensures X32Num(DecodeX32(X32SyscallBit + offset).value) == Some(X32SyscallBit + offset)
  {
    X32OffsetUnmappedIff(offset);
    X32OffsetDecodeSound(offset);
  }

  /** A call moved to the x32-specific block leaves a hole behind: its native
      number, used as an x32 offset, decodes to nothing. */
  lemma X32MovedCallLeavesHole(s: Syscall)
    requires X32Num(s).Some? && X32Num(s).value - X32SyscallBit >= FirstX32Offset
    requires NativeNum(s).Some?
    ensures DecodeX32(X32SyscallBit + NativeNum(s).value).None?
  {
    MovedOffsetLeavesHole(s, NativeNum(s).value, X32Offset(s).value);
  }

  /** The offset form of `X32MovedCallLeavesHole`: a call at x32 offset `k` in
      the x32-specific block, whose native number is `m`, leaves offset `m`
      without a name. */
  lemma MovedOffsetLeavesHole(s: Syscall, m: nat, k: nat)
    requires X32Offset(s) == Some(k) && FirstX32Offset <= k
    requires NativeNum(s) == Some(m)
    ensures DecodeX32Offset(m).None?
  {
    NativeRoundTrip(s);
    NativeUnmappedIff(m);
    X32OffsetUnmappedIff(m);
    if DecodeX32Offset(m).Some? {
      assert m <= LastSharedOffset;
      X32OffsetDecodeSound(m);
      assert false;
    }
  }

  /** The number of enumerators `enum amd64_x32_syscall` declares, not
      counting `amd64_x32_syscall_bit`. */
  const X32EnumeratorCount: nat := 272

  /** The enumerator declared at position `i` of `enum amd64_x32_syscall`,
      counting from 0 in source order after `amd64_x32_syscall_bit`. */
  function X32Entry(i: int): Enumerator
    requires 0 <= i < X32EnumeratorCount
  {
    if i < 16 then
      match i
      case 0 => Enumerator(Io(Read), X32SyscallBit + 0)
      case 1 => Enumerator(Io(Write), X32SyscallBit + 1)
      case 2 => Enumerator(Io(Open), X32SyscallBit + 2)
      case 3 => Enumerator(Io(Close), X32SyscallBit + 3)
      case 4 => Enumerator(Path(Newstat), X32SyscallBit + 4)
      case 5 => Enumerator(Path(Newfstat), X32SyscallBit + 5)
      case 6 => Enumerator(Path(Newlstat), X32SyscallBit + 6)
      case 7 => Enumerator(Event(Poll), X32SyscallBit + 7)
      case 8 => Enumerator(Io(Lseek), X32SyscallBit + 8)
      case 9 => Enumerator(Mem(Mmap), X32SyscallBit + 9)
      case 10 => Enumerator(Mem(Mprotect), X32SyscallBit + 10)
      case 11 => Enumerator(Mem(Munmap), X32SyscallBit + 11)
      case 12 => Enumerator(Mem(Brk), X32SyscallBit + 12)
      case 13 => Enumerator(Sig(RtSigprocmask), X32SyscallBit + 14)
      case 14 => Enumerator(Io(Pread64), X32SyscallBit + 17)
      case _ => Enumerator(Io(Pwrite64), X32SyscallBit + 18)
    else if i < 32 then
      match i
      case 16 => Enumerator(Path(Access), X32SyscallBit + 21)
      case 17 => Enumerator(Io(Pipe), X32SyscallBit + 22)
      case 18 => Enumerator(Event(Select), X32SyscallBit + 23)
      case 19 => Enumerator(Sched(SchedYield), X32SyscallBit + 24)
      case 20 => Enumerator(Mem(Mremap), X32SyscallBit + 25)
      case 21 => Enumerator(Mem(Msync), X32SyscallBit + 26)
      case 22 => Enumerator(Mem(Mincore), X32SyscallBit + 27)
      case 23 => Enumerator(Mem(Madvise), X32SyscallBit + 28)
      case 24 => Enumerator(Ipc(Shmget), X32SyscallBit + 29)
      case 25 => Enumerator(Ipc(Shmat), X32SyscallBit + 30)
      case 26 => Enumerator(Ipc(Shmctl), X32SyscallBit + 31)
      case 27 => Enumerator(Io(Dup), X32SyscallBit + 32)
      case 28 => Enumerator(Io(Dup2), X32SyscallBit + 33)
      case 29 => Enumerator(Sig(Pause), X32SyscallBit + 34)
      case 30 => Enumerator(Clock(Nanosleep), X32SyscallBit + 35)
      case _ => Enumerator(Clock(Getitimer), X32SyscallBit + 36)
    else if i < 48 then
      match i
      case 32 => Enumerator(Clock(Alarm), X32SyscallBit + 37)
      case 33 => Enumerator(Clock(Setitimer), X32SyscallBit + 38)
      case 34 => Enumerator(Proc(Getpid), X32SyscallBit + 39)
      case 35 => Enumerator(Io(Sendfile64), X32SyscallBit + 40)
      case 36 => Enumerator(Net(Socket), X32SyscallBit + 41)
      case 37 => Enumerator(Net(Connect), X32SyscallBit + 42)
      case 38 => Enumerator(Net(Accept), X32SyscallBit + 43)
      case 39 => Enumerator(Net(Sendto), X32SyscallBit + 44)
      case 40 => Enumerator(Net(Shutdown), X32SyscallBit + 48)
      case 41 => Enumerator(Net(Bind), X32SyscallBit + 49)
      case 42 => Enumerator(Net(Listen), X32SyscallBit + 50)
      case 43 => Enumerator(Net(Getsockname), X32SyscallBit + 51)
      case 44 => Enumerator(Net(Getpeername), X32SyscallBit + 52)
      case 45 => Enumerator(Net(Socketpair), X32SyscallBit + 53)
      case 46 => Enumerator(Proc(Clone), X32SyscallBit + 56)
      case _ => Enumerator(Proc(Fork), X32SyscallBit + 57)
    else if i < 64 then
      match i
      case 48 => Enumerator(Proc(Vfork), X32SyscallBit + 58)
      case 49 => Enumerator(Proc(Exit), X32SyscallBit + 60)
      case 50 => Enumerator(Proc(Wait4), X32SyscallBit + 61)
      case 51 => Enumerator(Proc(Kill), X32SyscallBit + 62)
      case 52 => Enumerator(Admin(Uname), X32SyscallBit + 63)
      case 53 => Enumerator(Ipc(Semget), X32SyscallBit + 64)
      case 54 => Enumerator(Ipc(Semop), X32SyscallBit + 65)
      case 55 => Enumerator(Ipc(Semctl), X32SyscallBit + 66)
      case 56 => Enumerator(Ipc(Shmdt), X32SyscallBit + 67)
      case 57 => Enumerator(Ipc(Msgget), X32SyscallBit + 68)
      case 58 => Enumerator(Ipc(Msgsnd), X32SyscallBit + 69)
      case 59 => Enumerator(Ipc(Msgrcv), X32SyscallBit + 70)
      case 60 => Enumerator(Ipc(Msgctl), X32SyscallBit + 71)
      case 61 => Enumerator(Io(Fcntl), X32SyscallBit + 72)
      case 62 => Enumerator(Io(Flock), X32SyscallBit + 73)
      case _ => Enumerator(Io(Fsync), X32SyscallBit + 74)
    else if i < 80 then
      match i
      case 64 => Enumerator(Io(Fdatasync), X32SyscallBit + 75)
      case 65 => Enumerator(Path(Truncate), X32SyscallBit + 76)
      case 66 => Enumerator(Path(Ftruncate), X32SyscallBit + 77)
      case 67 => Enumerator(Path(Getdents), X32SyscallBit + 78)
      case 68 => Enumerator(Path(Getcwd), X32SyscallBit + 79)
      case 69 => Enumerator(Path(Chdir), X32SyscallBit + 80)
      case 70 => Enumerator(Path(Fchdir), X32SyscallBit + 81)
      case 71 => Enumerator(Path(Rename), X32SyscallBit + 82)
      case 72 => Enumerator(Path(Mkdir), X32SyscallBit + 83)
      case 73 => Enumerator(Path(Rmdir), X32SyscallBit + 84)
      case 74 => Enumerator(Io(Creat), X32SyscallBit + 85)
      case 75 => Enumerator(Path(Link), X32SyscallBit + 86)
      case 76 => Enumerator(Path(Unlink), X32SyscallBit + 87)
      case 77 => Enumerator(Path(Symlink), X32SyscallBit + 88)
      case 78 => Enumerator(Path(Readlink), X32SyscallBit + 89)
      case _ => Enumerator(Path(Chmod), X32SyscallBit + 90)
    else if i < 96 then
      match i
      case 80 => Enumerator(Path(Fchmod), X32SyscallBit + 91)
      case 81 => Enumerator(Path(Chown), X32SyscallBit + 92)
      case 82 => Enumerator(Path(Fchown), X32SyscallBit + 93)
      case 83 => Enumerator(Path(Lchown), X32SyscallBit + 94)
      case 84 => Enumerator(Path(Umask), X32SyscallBit + 95)
      case 85 => Enumerator(Clock(Gettimeofday), X32SyscallBit + 96)
      case 86 => Enumerator(Cred(Getrlimit), X32SyscallBit + 97)
      case 87 => Enumerator(Cred(Getrusage), X32SyscallBit + 98)
      case 88 => Enumerator(Admin(Sysinfo), X32SyscallBit + 99)
      case 89 => Enumerator(Cred(Times), X32SyscallBit + 100)
      case 90 => Enumerator(Cred(Getuid), X32SyscallBit + 102)
      case 91 => Enumerator(Admin(Syslog), X32SyscallBit + 103)
      case 92 => Enumerator(Cred(Getgid), X32SyscallBit + 104)
      case 93 => Enumerator(Cred(Setuid), X32SyscallBit + 105)
      case 94 => Enumerator(Cred(Setgid), X32SyscallBit + 106)
      case _ => Enumerator(Cred(Geteuid), X32SyscallBit + 107)
    else if i < 112 then
      match i
      case 96 => Enumerator(Cred(Getegid), X32SyscallBit + 108)
      case 97 => Enumerator(Proc(Setpgid), X32SyscallBit + 109)
      case 98 => Enumerator(Proc(Getppid), X32SyscallBit + 110)
      case 99 => Enumerator(Proc(Getpgrp), X32SyscallBit + 111)
      case 100 => Enumerator(Proc(Setsid), X32SyscallBit + 112)
      case 101 => Enumerator(Cred(Setreuid), X32SyscallBit + 113)
      case 102 => Enumerator(Cred(Setregid), X32SyscallBit + 114)
      case 103 => Enumerator(Cred(Getgroups), X32SyscallBit + 115)
      case 104 => Enumerator(Cred(Setgroups), X32SyscallBit + 116)
      case 105 => Enumerator(Cred(Setresuid), X32SyscallBit + 117)
      case 106 => Enumerator(Cred(Getresuid), X32SyscallBit + 118)
      case 107 => Enumerator(Cred(Setresgid), X32SyscallBit + 119)
      case 108 => Enumerator(Cred(Getresgid), X32SyscallBit + 120)
      case 109 => Enumerator(Proc(Getpgid), X32SyscallBit + 121)
      case 110 => Enumerator(Cred(Setfsuid), X32SyscallBit + 122)
      case _ => Enumerator(Cred(Setfsgid), X32SyscallBit + 123)
    else if i < 128 then
      match i
      case 112 => Enumerator(Proc(Getsid), X32SyscallBit + 124)
      case 113 => Enumerator(Cred(Capget), X32SyscallBit + 125)
      case 114 => Enumerator(Cred(Capset), X32SyscallBit + 126)
      case 115 => Enumerator(Sig(RtSigsuspend), X32SyscallBit + 130)
      case 116 => Enumerator(Path(Utime), X32SyscallBit + 132)
      case 117 => Enumerator(Path(Mknod), X32SyscallBit + 133)
      case 118 => Enumerator(Proc(Personality), X32SyscallBit + 135)
      case 119 => Enumerator(Fs(Ustat), X32SyscallBit + 136)
      case 120 => Enumerator(Fs(Statfs), X32SyscallBit + 137)
      case 121 => Enumerator(Fs(Fstatfs), X32SyscallBit + 138)
      case 122 => Enumerator(Fs(Sysfs), X32SyscallBit + 139)
      case 123 => Enumerator(Sched(Getpriority), X32SyscallBit + 140)
      case 124 => Enumerator(Sched(Setpriority), X32SyscallBit + 141)
      case 125 => Enumerator(Sched(SchedSetparam), X32SyscallBit + 142)
      case 126 => Enumerator(Sched(SchedGetparam), X32SyscallBit + 143)
      case _ => Enumerator(Sched(SchedSetscheduler), X32SyscallBit + 144)
    else if i < 144 then
      match i
      case 128 => Enumerator(Sched(SchedGetscheduler), X32SyscallBit + 145)
      case 129 => Enumerator(Sched(SchedGetPriorityMax), X32SyscallBit + 146)
      case 130 => Enumerator(Sched(SchedGetPriorityMin), X32SyscallBit + 147)
      case 131 => Enumerator(Sched(SchedRrGetInterval), X32SyscallBit + 148)
      case 132 => Enumerator(Mem(Mlock), X32SyscallBit + 149)
      case 133 => Enumerator(Mem(Munlock), X32SyscallBit + 150)
      case 134 => Enumerator(Mem(Mlockall), X32SyscallBit + 151)
      case 135 => Enumerator(Mem(Munlockall), X32SyscallBit + 152)
      case 136 => Enumerator(Admin(Vhangup), X32SyscallBit + 153)
      case 137 => Enumerator(Proc(ModifyLdt), X32SyscallBit + 154)
      case 138 => Enumerator(Fs(PivotRoot), X32SyscallBit + 155)
      case 139 => Enumerator(Admin(Sysctl), X32SyscallBit + 156)
      case 140 => Enumerator(Proc(Prctl), X32SyscallBit + 157)
      case 141 => Enumerator(Proc(ArchPrctl), X32SyscallBit + 158)
      case 142 => Enumerator(Clock(Adjtimex), X32SyscallBit + 159)
      case _ => Enumerator(Cred(Setrlimit), X32SyscallBit + 160)
    else if i < 160 then
      match i
      case 144 => Enumerator(Fs(Chroot), X32SyscallBit + 161)
      case 145 => Enumerator(Io(Sync), X32SyscallBit + 162)
      case 146 => Enumerator(Admin(Acct), X32SyscallBit + 163)
      case 147 => Enumerator(Clock(Settimeofday), X32SyscallBit + 164)
      case 148 => Enumerator(Fs(Mount), X32SyscallBit + 165)
      case 149 => Enumerator(Fs(Umount), X32SyscallBit + 166)
      case 150 => Enumerator(Fs(Swapon), X32SyscallBit + 167)
      case 151 => Enumerator(Fs(Swapoff), X32SyscallBit + 168)
      case 152 => Enumerator(Admin(Reboot), X32SyscallBit + 169)
      case 153 => Enumerator(Admin(Sethostname), X32SyscallBit + 170)
      case 154 => Enumerator(Admin(Setdomainname), X32SyscallBit + 171)
      case 155 => Enumerator(Proc(Iopl), X32SyscallBit + 172)
      case 156 => Enumerator(Proc(Ioperm), X32SyscallBit + 173)
      case 157 => Enumerator(Admin(InitModule), X32SyscallBit + 175)
      case 158 => Enumerator(Admin(DeleteModule), X32SyscallBit + 176)
      case _ => Enumerator(Fs(Quotactl), X32SyscallBit + 179)
    else if i < 176 then
      match i
      case 160 => Enumerator(Proc(Gettid), X32SyscallBit + 186)
      case 161 => Enumerator(Io(Readahead), X32SyscallBit + 187)
      case 162 => Enumerator(Fs(Setxattr), X32SyscallBit + 188)
      case 163 => Enumerator(Fs(Lsetxattr), X32SyscallBit + 189)
      case 164 => Enumerator(Fs(Fsetxattr), X32SyscallBit + 190)
      case 165 => Enumerator(Fs(Getxattr), X32SyscallBit + 191)
      case 166 => Enumerator(Fs(Lgetxattr), X32SyscallBit + 192)
      case 167 => Enumerator(Fs(Fgetxattr), X32SyscallBit + 193)
      case 168 => Enumerator(Fs(Listxattr), X32SyscallBit + 194)
      case 169 => Enumerator(Fs(Llistxattr), X32SyscallBit + 195)
      case 170 => Enumerator(Fs(Flistxattr), X32SyscallBit + 196)
      case 171 => Enumerator(Fs(Removexattr), X32SyscallBit + 197)
      case 172 => Enumerator(Fs(Lremovexattr), X32SyscallBit + 198)
      case 173 => Enumerator(Fs(Fremovexattr), X32SyscallBit + 199)
      case 174 => Enumerator(Proc(Tkill), X32SyscallBit + 200)
      case _ => Enumerator(Clock(Time), X32SyscallBit + 201)
    else if i < 192 then
      match i
      case 176 => Enumerator(Proc(Futex), X32SyscallBit + 202)
      case 177 => Enumerator(Sched(SchedSetaffinity), X32SyscallBit + 203)
      case 178 => Enumerator(Sched(SchedGetaffinity), X32SyscallBit + 204)
      case 179 => Enumerator(Event(IoSetup), X32SyscallBit + 206)
      case 180 => Enumerator(Event(IoDestroy), X32SyscallBit + 207)
      case 181 => Enumerator(Event(IoGetevents), X32SyscallBit + 208)
      case 182 => Enumerator(Event(IoSubmit), X32SyscallBit + 209)
      case 183 => Enumerator(Event(IoCancel), X32SyscallBit + 210)
      case 184 => Enumerator(Fs(LookupDcookie), X32SyscallBit + 212)
      case 185 => Enumerator(Event(EpollCreate), X32SyscallBit + 213)
      case 186 => Enumerator(Mem(RemapFilePages), X32SyscallBit + 216)
      case 187 => Enumerator(Path(Getdents64), X32SyscallBit + 217)
      case 188 => Enumerator(Proc(SetTidAddress), X32SyscallBit + 218)
      case 189 => Enumerator(Proc(RestartSyscall), X32SyscallBit + 219)
      case 190 => Enumerator(Ipc(Semtimedop), X32SyscallBit + 220)
      case _ => Enumerator(Io(Fadvise64), X32SyscallBit + 221)
    else if i < 208 then
      match i
      case 192 => Enumerator(Clock(TimerSettime), X32SyscallBit + 223)
      case 193 => Enumerator(Clock(TimerGettime), X32SyscallBit + 224)
      case 194 => Enumerator(Clock(TimerGetoverrun), X32SyscallBit + 225)
      case 195 => Enumerator(Clock(TimerDelete), X32SyscallBit + 226)
      case 196 => Enumerator(Clock(ClockSettime), X32SyscallBit + 227)
      case 197 => Enumerator(Clock(ClockGettime), X32SyscallBit + 228)
      case 198 => Enumerator(Clock(ClockGetres), X32SyscallBit + 229)
      case 199 => Enumerator(Clock(ClockNanosleep), X32SyscallBit + 230)
      case 200 => Enumerator(Proc(ExitGroup), X32SyscallBit + 231)
      case 201 => Enumerator(Event(EpollWait), X32SyscallBit + 232)
      case 202 => Enumerator(Event(EpollCtl), X32SyscallBit + 233)
      case 203 => Enumerator(Proc(Tgkill), X32SyscallBit + 234)
      case 204 => Enumerator(Path(Utimes), X32SyscallBit + 235)
      case 205 => Enumerator(Mem(Mbind), X32SyscallBit + 237)
      case 206 => Enumerator(Mem(SetMempolicy), X32SyscallBit + 238)
      case _ => Enumerator(Mem(GetMempolicy), X32SyscallBit + 239)
    else if i < 224 then
      match i
      case 208 => Enumerator(Ipc(MqOpen), X32SyscallBit + 240)
      case 209 => Enumerator(Ipc(MqUnlink), X32SyscallBit + 241)
      case 210 => Enumerator(Ipc(MqTimedsend), X32SyscallBit + 242)
      case 211 => Enumerator(Ipc(MqTimedreceive), X32SyscallBit + 243)
      case 212 => Enumerator(Ipc(MqGetsetattr), X32SyscallBit + 245)
      case 213 => Enumerator(Admin(AddKey), X32SyscallBit + 248)
      case 214 => Enumerator(Admin(RequestKey), X32SyscallBit + 249)
      case 215 => Enumerator(Admin(Keyctl), X32SyscallBit + 250)
      case 216 => Enumerator(Sched(IoprioSet), X32SyscallBit + 251)
      case 217 => Enumerator(Sched(IoprioGet), X32SyscallBit + 252)
      case 218 => Enumerator(Event(InotifyInit), X32SyscallBit + 253)
      case 219 => Enumerator(Event(InotifyAddWatch), X32SyscallBit + 254)
      case 220 => Enumerator(Event(InotifyRmWatch), X32SyscallBit + 255)
      case 221 => Enumerator(Mem(MigratePages), X32SyscallBit + 256)
      case 222 => Enumerator(Io(Openat), X32SyscallBit + 257)
      case _ => Enumerator(Path(Mkdirat), X32SyscallBit + 258)
    else if i < 240 then
      match i
      case 224 => Enumerator(Path(Mknodat), X32SyscallBit + 259)
      case 225 => Enumerator(Path(Fchownat), X32SyscallBit + 260)
      case 226 => Enumerator(Path(Futimesat), X32SyscallBit + 261)
      case 227 => Enumerator(Path(Newfstatat), X32SyscallBit + 262)
      case 228 => Enumerator(Path(Unlinkat), X32SyscallBit + 263)
      case 229 => Enumerator(Path(Renameat), X32SyscallBit + 264)
      case 230 => Enumerator(Path(Linkat), X32SyscallBit + 265)
      case 231 => Enumerator(Path(Symlinkat), X32SyscallBit + 266)
      case 232 => Enumerator(Path(Readlinkat), X32SyscallBit + 267)
      case 233 => Enumerator(Path(Fchmodat), X32SyscallBit + 268)
      case 234 => Enumerator(Path(Faccessat), X32SyscallBit + 269)
      case 235 => Enumerator(Event(Pselect6), X32SyscallBit + 270)
      case 236 => Enumerator(Event(Ppoll), X32SyscallBit + 271)
      case 237 => Enumerator(Proc(Unshare), X32SyscallBit + 272)
      case 238 => Enumerator(Io(Splice), X32SyscallBit + 275)
      case _ => Enumerator(Io(Tee), X32SyscallBit + 276)
    else if i < 256 then
      match i
      case 240 => Enumerator(Io(SyncFileRange), X32SyscallBit + 277)
      case 241 => Enumerator(Sig(RtSigaction), X32SyscallBit + 512)
      case 242 => Enumerator(Sig(RtSigreturn), X32SyscallBit + 513)
      case 243 => Enumerator(Io(Ioctl), X32SyscallBit + 514)
      case 244 => Enumerator(Io(Readv), X32SyscallBit + 515)
      case 245 => Enumerator(Io(Writev), X32SyscallBit + 516)
      case 246 => Enumerator(Net(Recvfrom), X32SyscallBit + 517)
      case 247 => Enumerator(Net(Sendmsg), X32SyscallBit + 518)
      case 248 => Enumerator(Net(Recvmsg), X32SyscallBit + 519)
      case 249 => Enumerator(Proc(Execve), X32SyscallBit + 520)
      case 250 => Enumerator(Proc(Ptrace), X32SyscallBit + 521)
      case 251 => Enumerator(Sig(RtSigpending), X32SyscallBit + 522)
      case 252 => Enumerator(Sig(RtSigtimedwait), X32SyscallBit + 523)
      case 253 => Enumerator(Sig(RtSigqueueinfo), X32SyscallBit + 524)
      case 254 => Enumerator(Sig(Sigaltstack), X32SyscallBit + 525)
      case _ => Enumerator(Clock(TimerCreate), X32SyscallBit + 526)
    else
      match i
      case 256 => Enumerator(Ipc(MqNotify), X32SyscallBit + 527)
      case 257 => Enumerator(Proc(KexecLoad), X32SyscallBit + 528)
      case 258 => Enumerator(Proc(Waitid), X32SyscallBit + 529)
      case 259 => Enumerator(Proc(SetRobustList), X32SyscallBit + 530)
      case 260 => Enumerator(Proc(GetRobustList), X32SyscallBit + 531)
      case 261 => Enumerator(Io(Vmsplice), X32SyscallBit + 532)
      case 262 => Enumerator(Mem(MovePages), X32SyscallBit + 533)
      case 263 => Enumerator(Io(Preadv), X32SyscallBit + 534)
      case 264 => Enumerator(Io(Pwritev), X32SyscallBit + 535)
      case 265 => Enumerator(Sig(RtTgsigqueueinfo), X32SyscallBit + 536)
      case 266 => Enumerator(Net(Recvmmsg), X32SyscallBit + 537)
      case 267 => Enumerator(Net(Sendmmsg), X32SyscallBit + 538)
      case 268 => Enumerator(Mem(ProcessVmReadv), X32SyscallBit + 539)
      case 269 => Enumerator(Mem(ProcessVmWritev), X32SyscallBit + 540)
      case 270 => Enumerator(Net(Setsockopt), X32SyscallBit + 541)
      case _ => Enumerator(Net(Getsockopt), X32SyscallBit + 542)
  }

  /** `enum amd64_x32_syscall` as declared: its enumerators in source order. */
  function X32Declaration(): seq<Enumerator>
  {
    seq(X32EnumeratorCount, i requires 0 <= i < X32EnumeratorCount => X32Entry(i))
  }

  /** The position in the declaration of the enumerator with offset
      `offset`: the offset less the number of unused offsets below it. */
  function X32Position(offset: nat): nat
  {
    if offset < 14 then offset
    else if offset < 17 then offset - 1
    else if offset < 21 then offset - 3
    else if offset < 48 then offset - 5
    else if offset < 56 then offset - 8
    else if offset < 60 then offset - 10
    else if offset < 102 then offset - 11
    else if offset < 130 then offset - 12
    else if offset < 132 then offset - 15
    else if offset < 135 then offset - 16
    else if offset < 175 then offset - 17
    else if offset < 179 then offset - 18
    else if offset < 186 then offset - 20
    else if offset < 206 then offset - 26
    else if offset < 212 then offset - 27
    else if offset < 216 then offset - 28
    else if offset < 223 then offset - 30
    else if offset < 237 then offset - 31
    else if offset < 245 then offset - 32
    else if offset < 248 then offset - 33
    else if offset < 275 then offset - 35
    else if offset < 512 then offset - 37
    else offset - 271
  }

  /** The enumerator at position `i` has the offset the encoder gives its
      name, and the next enumerator, if any, has a larger value. */
  predicate X32EntryFacts(i: int)
    requires 0 <= i < X32EnumeratorCount
  {
    && X32Entry(i).value - X32SyscallBit >= 0
    && X32Offset(X32Entry(i).name) == Some(X32Entry(i).value - X32SyscallBit)
    && (i + 1 < X32EnumeratorCount ==> X32Entry(i).value < X32Entry(i + 1).value)
  }

  /** If `offset` decodes to `s`, the declaration lists `s` with that offset
      at position `X32Position(offset)`. */
  predicate X32Positioned(offset: nat, s: Syscall)
  {
    DecodeX32Offset(offset) == Some(s) ==>
      && X32Position(offset) < X32EnumeratorCount
      && X32Entry(X32Position(offset)) == Enumerator(s, X32SyscallBit + offset)
  }

  // The x32 declaration agrees with the encoder and increases at positions `lo` to `hi`.
  // Each `X32Declared<lo>To<hi>` covers one small range, so that each proof
  // stays cheap.

  lemma X32Declared0To3(i: int)
    requires 0 <= i < 4
    ensures X32EntryFacts(i)
  {
  }

  lemma X32Declared4To7(i: int)
    requires 4 <= i < 8
    ensures X32EntryFacts(i)
  {
  }

  lemma X32Declared8To11(i: int)
    requires 8 <= i < 12
    ensures X32EntryFacts(i)
  {
  }

  lemma X32Declared12To15(i: int)
    requires 12 <= i < 16
    ensures X32EntryFacts(i)
  {
  }

  lemma X32Declared16To19(i: int)
    requires 16 <= i < 20
    ensures X32EntryFacts(i)
  {
  }

  lemma X32Declared20To23(i: int)
    requires 20 <= i < 24
    ensures X32EntryFacts(i)
  {
  }

  lemma X32Declared24To27(i: int)
    requires 24 <= i < 28
    ensures X32EntryFacts(i)
  {
  }

  lemma X32Declared28To31(i: int)
    requires 28 <= i < 32
    ensures X32EntryFacts(i)
  {
  }

  lemma X32Declared32To35(i: int)
    requires 32 <= i < 36
    ensures X32EntryFacts(i)
  {
  }

  lemma X32Declared36To39(i: int)
    requires 36 <= i < 40
    ensures X32EntryFacts(i)
  {
  }

  lemma X32Declared40To43(i: int)
    requires 40 <= i < 44
    ensures X32EntryFacts(i)
  {
  }

  lemma X32Declared44To47(i: int)
    requires 44 <= i < 48
    ensures X32EntryFacts(i)
  {
  }

  lemma X32Declared48To51(i: int)
    requires 48 <= i < 52
    ensures X32EntryFacts(i)
  {
  }

  lemma X32Declared52To55(i: int)
    requires 52 <= i < 56
    ensures X32EntryFacts(i)
  {
  }

  lemma X32Declared56To59(i: int)
    requires 56 <= i < 60
    ensures X32EntryFacts(i)
  {
  }

  lemma X32Declared60To63(i: int)
    requires 60 <= i < 64
    ensures X32EntryFacts(i)
  {
  }

  lemma X32Declared64To67(i: int)
    requires 64 <= i < 68
    ensures X32EntryFacts(i)
  {
  }

  lemma X32Declared68To71(i: int)
    requires 68 <= i < 72
    ensures X32EntryFacts(i)
  {
  }

  lemma X32Declared72To75(i: int)
    requires 72 <= i < 76
    ensures X32EntryFacts(i)
  {
  }

  lemma X32Declared76To79(i: int)
    requires 76 <= i < 80
    ensures X32EntryFacts(i)
  {
  }

  lemma X32Declared80To83(i: int)
    requires 80 <= i < 84
    ensures X32EntryFacts(i)
  {
  }

  lemma X32Declared84To87(i: int)
    requires 84 <= i < 88
    ensures X32EntryFacts(i)
  {
  }

  lemma X32Declared88To91(i: int)
    requires 88 <= i < 92
    ensures X32EntryFacts(i)
  {
  }

  lemma X32Declared92To95(i: int)
    requires 92 <= i < 96
    ensures X32EntryFacts(i)
  {
  }

  lemma X32Declared96To99(i: int)
    requires 96 <= i < 100
    ensures X32EntryFacts(i)
  {
  }

  lemma X32Declared100To103(i: int)
    requires 100 <= i < 104
    ensures X32EntryFacts(i)
  {
  }

  lemma X32Declared104To107(i: int)
    requires 104 <= i < 108
    ensures X32EntryFacts(i)
  {
  }

  lemma X32Declared108To111(i: int)
    requires 108 <= i < 112
    ensures X32EntryFacts(i)
  {
  }

  lemma X32Declared112To115(i: int)
    requires 112 <= i < 116
    ensures X32EntryFacts(i)
  {
  }

  lemma X32Declared116To119(i: int)
    requires 116 <= i < 120
    ensures X32EntryFacts(i)
  {
  }

  lemma X32Declared120To123(i: int)
    requires 120 <= i < 124
    ensures X32EntryFacts(i)
  {
  }

  lemma X32Declared124To127(i: int)
    requires 124 <= i < 128
    ensures X32EntryFacts(i)
  {
  }

  lemma X32Declared128To131(i: int)
    requires 128 <= i < 132
    ensures X32EntryFacts(i)
  {
  }

  lemma X32Declared132To135(i: int)
    requires 132 <= i < 136
    ensures X32EntryFacts(i)
  {
  }

  lemma X32Declared136To139(i: int)
    requires 136 <= i < 140
    ensures X32EntryFacts(i)
  {
  }

  lemma X32Declared140To143(i: int)
    requires 140 <= i < 144
    ensures X32EntryFacts(i)
  {
  }

  lemma X32Declared144To147(i: int)
    requires 144 <= i < 148
    ensures X32EntryFacts(i)
  {
  }

  lemma X32Declared148To151(i: int)
    requires 148 <= i < 152
    ensures X32EntryFacts(i)
  {
  }

  lemma X32Declared152To155(i: int)
    requires 152 <= i < 156
    ensures X32EntryFacts(i)
  {
  }

  lemma X32Declared156To159(i: int)
    requires 156 <= i < 160
    ensures X32EntryFacts(i)
  {
  }

  lemma X32Declared160To163(i: int)
    requires 160 <= i < 164
    ensures X32EntryFacts(i)
  {
  }

  lemma X32Declared164To167(i: int)
    requires 164 <= i < 168
    ensures X32EntryFacts(i)
  {
  }

  lemma X32Declared168To171(i: int)
    requires 168 <= i < 172
    ensures X32EntryFacts(i)
  {
  }

  lemma X32Declared172To175(i: int)
    requires 172 <= i < 176
    ensures X32EntryFacts(i)
  {
  }

  lemma X32Declared176To179(i: int)
    requires 176 <= i < 180
    ensures X32EntryFacts(i)
  {
  }

  lemma X32Declared180To183(i: int)
    requires 180 <= i < 184
    ensures X32EntryFacts(i)
  {
  }

  lemma X32Declared184To187(i: int)
    requires 184 <= i < 188
    ensures X32EntryFacts(i)
  {
  }

  lemma X32Declared188To191(i: int)
    requires 188 <= i < 192
    ensures X32EntryFacts(i)
  {
  }

  lemma X32Declared192To195(i: int)
    requires 192 <= i < 196
    ensures X32EntryFacts(i)
  {
  }

  lemma X32Declared196To199(i: int)
    requires 196 <= i < 200
    ensures X32EntryFacts(i)
  {
  }

  lemma X32Declared200To203(i: int)
    requires 200 <= i < 204
    ensures X32EntryFacts(i)
  {
  }

  lemma X32Declared204To207(i: int)
    requires 204 <= i < 208
    ensures X32EntryFacts(i)
  {
  }

  lemma X32Declared208To211(i: int)
    requires 208 <= i < 212
    ensures X32EntryFacts(i)
  {
  }

  lemma X32Declared212To215(i: int)
    requires 212 <= i < 216
    ensures X32EntryFacts(i)
  {
  }

  lemma X32Declared216To219(i: int)
    requires 216 <= i < 220
    ensures X32EntryFacts(i)
  {
  }

  lemma X32Declared220To223(i: int)
    requires 220 <= i < 224
    ensures X32EntryFacts(i)
  {
  }

  lemma X32Declared224To227(i: int)
    requires 224 <= i < 228
    ensures X32EntryFacts(i)
  {
  }

  lemma X32Declared228To231(i: int)
    requires 228 <= i < 232
    ensures X32EntryFacts(i)
  {
  }

  lemma X32Declared232To235(i: int)
    requires 232 <= i < 236
    ensures X32EntryFacts(i)
  {
  }

  lemma X32Declared236To239(i: int)
    requires 236 <= i < 240
    ensures X32EntryFacts(i)
  {
  }

  lemma X32Declared240To243(i: int)
    requires 240 <= i < 244
    ensures X32EntryFacts(i)
  {
  }

  lemma X32Declared244To247(i: int)
    requires 244 <= i < 248
    ensures X32EntryFacts(i)
  {
  }

  lemma X32Declared248To251(i: int)
    requires 248 <= i < 252
    ensures X32EntryFacts(i)
  {
  }

  lemma X32Declared252To255(i: int)
    requires 252 <= i < 256
    ensures X32EntryFacts(i)
  {
  }

  lemma X32Declared256To259(i: int)
    requires 256 <= i < 260
    ensures X32EntryFacts(i)
  {
  }

  lemma X32Declared260To263(i: int)
    requires 260 <= i < 264
    ensures X32EntryFacts(i)
  {
  }

  lemma X32Declared264To267(i: int)
    requires 264 <= i < 268
    ensures X32EntryFacts(i)
  {
  }

  lemma X32Declared268To271(i: int)
    requires 268 <= i < 272
    ensures X32EntryFacts(i)
  {
  }

  // The x32 declaration lists the decoded name at the offsets `lo` to `hi`.
  // Each `X32Positions<lo>To<hi>` covers one small range, so that each proof
  // stays cheap.

  lemma X32Positions0To7(offset: nat, s: Syscall)
    requires 0 <= offset < 8
    ensures X32Positioned(offset, s)
  {
  }

  lemma X32Positions8To15(offset: nat, s: Syscall)
    requires 8 <= offset < 16
    ensures X32Positioned(offset, s)
  {
  }

  lemma X32Positions16To23(offset: nat, s: Syscall)
    requires 16 <= offset < 24
    ensures X32Positioned(offset, s)
  {
  }

  lemma X32Positions24To31(offset: nat, s: Syscall)
    requires 24 <= offset < 32
    ensures X32Positioned(offset, s)
  {
  }

  lemma X32Positions32To39(offset: nat, s: Syscall)
    requires 32 <= offset < 40
    ensures X32Positioned(offset, s)
  {
  }

  lemma X32Positions40To47(offset: nat, s: Syscall)
    requires 40 <= offset < 48
    ensures X32Positioned(offset, s)
  {
  }

  lemma X32Positions48To55(offset: nat, s: Syscall)
    requires 48 <= offset < 56
    ensures X32Positioned(offset, s)
  {
  }

  lemma X32Positions56To63(offset: nat, s: Syscall)
    requires 56 <= offset < 64
    ensures X32Positioned(offset, s)
  {
  }

  lemma X32Positions64To71(offset: nat, s: Syscall)
    requires 64 <= offset < 72
    ensures X32Positioned(offset, s)
  {
  }

  lemma X32Positions72To79(offset: nat, s: Syscall)
    requires 72 <= offset < 80
    ensures X32Positioned(offset, s)
  {
  }

  lemma X32Positions80To87(offset: nat, s: Syscall)
    requires 80 <= offset < 88
    ensures X32Positioned(offset, s)
  {
  }

  lemma X32Positions88To95(offset: nat, s: Syscall)
    requires 88 <= offset < 96
    ensures X32Positioned(offset, s)
  {
  }

  lemma X32Positions96To103(offset: nat, s: Syscall)
    requires 96 <= offset < 104
    ensures X32Positioned(offset, s)
  {
  }

  lemma X32Positions104To111(offset: nat, s: Syscall)
    requires 104 <= offset < 112
    ensures X32Positioned(offset, s)
  {
  }

  lemma X32Positions112To119(offset: nat, s: Syscall)
    requires 112 <= offset < 120
    ensures X32Positioned(offset, s)
  {
  }

  lemma X32Positions120To127(offset: nat, s: Syscall)
    requires 120 <= offset < 128
    ensures X32Positioned(offset, s)
  {
  }

  lemma X32Positions128To135(offset: nat, s: Syscall)
    requires 128 <= offset < 136
    ensures X32Positioned(offset, s)
  {
  }

  lemma X32Positions136To143(offset: nat, s: Syscall)
    requires 136 <= offset < 144
    ensures X32Positioned(offset, s)
  {
  }

  lemma X32Positions144To151(offset: nat, s: Syscall)
    requires 144 <= offset < 152
    ensures X32Positioned(offset, s)
  {
  }

  lemma X32Positions152To159(offset: nat, s: Syscall)
    requires 152 <= offset < 160
    ensures X32Positioned(offset, s)
  {
  }

  lemma X32Positions160To167(offset: nat, s: Syscall)
    requires 160 <= offset < 168
    ensures X32Positioned(offset, s)
  {
  }

  lemma X32Positions168To175(offset: nat, s: Syscall)
    requires 168 <= offset < 176
    ensures X32Positioned(offset, s)
  {
  }

  lemma X32Positions176To183(offset: nat, s: Syscall)
    requires 176 <= offset < 184
    ensures X32Positioned(offset, s)
  {
  }

  lemma X32Positions184To191(offset: nat, s: Syscall)
    requires 184 <= offset < 192
    ensures X32Positioned(offset, s)
  {
  }

  lemma X32Positions192To199(offset: nat, s: Syscall)
    requires 192 <= offset < 200
    ensures X32Positioned(offset, s)
  {
  }

  lemma X32Positions200To207(offset: nat, s: Syscall)
    requires 200 <= offset < 208
    ensures X32Positioned(offset, s)
  {
  }

  lemma X32Positions208To215(offset: nat, s: Syscall)
    requires 208 <= offset < 216
    ensures X32Positioned(offset, s)
  {
  }

  lemma X32Positions216To223(offset: nat, s: Syscall)
    requires 216 <= offset < 224
    ensures X32Positioned(offset, s)
  {
  }

  lemma X32Positions224To231(offset: nat, s: Syscall)
    requires 224 <= offset < 232
    ensures X32Positioned(offset, s)
  {
  }

  lemma X32Positions232To239(offset: nat, s: Syscall)
    requires 232 <= offset < 240
    ensures X32Positioned(offset, s)
  {
  }

  lemma X32Positions240To247(offset: nat, s: Syscall)
    requires 240 <= offset < 248
    ensures X32Positioned(offset, s)
  {
  }

  lemma X32Positions248To255(offset: nat, s: Syscall)
    requires 248 <= offset < 256
    ensures X32Positioned(offset, s)
  {
  }

  lemma X32Positions256To263(offset: nat, s: Syscall)
    requires 256 <= offset < 264
    ensures X32Positioned(offset, s)
  {
  }

  lemma X32Positions264To271(offset: nat, s: Syscall)
    requires 264 <= offset < 272
    ensures X32Positioned(offset, s)
  {
  }

  lemma X32Positions272To277(offset: nat, s: Syscall)
    requires 272 <= offset < 278
    ensures X32Positioned(offset, s)
  {
  }

  lemma X32Positions512To519(offset: nat, s: Syscall)
    requires 512 <= offset < 520
    ensures X32Positioned(offset, s)
  {
  }

  lemma X32Positions520To527(offset: nat, s: Syscall)
    requires 520 <= offset < 528
    ensures X32Positioned(offset, s)
  {
  }

  lemma X32Positions528To535(offset: nat, s: Syscall)
    requires 528 <= offset < 536
    ensures X32Positioned(offset, s)
  {
  }

  lemma X32Positions536To542(offset: nat, s: Syscall)
    requires 536 <= offset < 543
    ensures X32Positioned(offset, s)
  {
  }

  /** Each enumerator of the declaration has the offset the encoder gives
      its name, and the values increase in source order. */
  lemma X32DeclarationFacts(i: int)
    requires 0 <= i < X32EnumeratorCount
    ensures X32EntryFacts(i)
  {
    if i < 4 {
      X32Declared0To3(i);
    } else if i < 8 {
      X32Declared4To7(i);
    } else if i < 12 {
      X32Declared8To11(i);
    } else if i < 16 {
      X32Declared12To15(i);
    } else if i < 20 {
      X32Declared16To19(i);
    } else if i < 24 {
      X32Declared20To23(i);
    } else if i < 28 {
      X32Declared24To27(i);
    } else if i < 32 {
      X32Declared28To31(i);
    } else if i < 36 {
      X32Declared32To35(i);
    } else if i < 40 {
      X32Declared36To39(i);
    } else if i < 44 {
      X32Declared40To43(i);
    } else if i < 48 {
      X32Declared44To47(i);
    } else if i < 52 {
      X32Declared48To51(i);
    } else if i < 56 {
      X32Declared52To55(i);
    } else if i < 60 {
      X32Declared56To59(i);
    } else if i < 64 {
      X32Declared60To63(i);
    } else if i < 68 {
      X32Declared64To67(i);
    } else if i < 72 {
      X32Declared68To71(i);
    } else if i < 76 {
      X32Declared72To75(i);
    } else if i < 80 {
      X32Declared76To79(i);
    } else if i < 84 {
      X32Declared80To83(i);
    } else if i < 88 {
      X32Declared84To87(i);
    } else if i < 92 {
      X32Declared88To91(i);
    } else if i < 96 {
      X32Declared92To95(i);
    } else if i < 100 {
      X32Declared96To99(i);
    } else if i < 104 {
      X32Declared100To103(i);
    } else if i < 108 {
      X32Declared104To107(i);
    } else if i < 112 {
      X32Declared108To111(i);
    } else if i < 116 {
      X32Declared112To115(i);
    } else if i < 120 {
      X32Declared116To119(i);
    } else if i < 124 {
      X32Declared120To123(i);
    } else if i < 128 {
      X32Declared124To127(i);
    } else if i < 132 {
      X32Declared128To131(i);
    } else if i < 136 {
      X32Declared132To135(i);
    } else if i < 140 {
      X32Declared136To139(i);
    } else if i < 144 {
      X32Declared140To143(i);
    } else if i < 148 {
      X32Declared144To147(i);
    } else if i < 152 {
      X32Declared148To151(i);
    } else if i < 156 {
      X32Declared152To155(i);
    } else if i < 160 {
      X32Declared156To159(i);
    } else if i < 164 {
      X32Declared160To163(i);
    } else if i < 168 {
      X32Declared164To167(i);
    } else if i < 172 {
      X32Declared168To171(i);
    } else if i < 176 {
      X32Declared172To175(i);
    } else if i < 180 {
      X32Declared176To179(i);
    } else if i < 184 {
      X32Declared180To183(i);
    } else if i < 188 {
      X32Declared184To187(i);
    } else if i < 192 {
      X32Declared188To191(i);
    } else if i < 196 {
      X32Declared192To195(i);
    } else if i < 200 {
      X32Declared196To199(i);
    } else if i < 204 {
      X32Declared200To203(i);
    } else if i < 208 {
      X32Declared204To207(i);
    } else if i < 212 {
      X32Declared208To211(i);
    } else if i < 216 {
      X32Declared212To215(i);
    } else if i < 220 {
      X32Declared216To219(i);
    } else if i < 224 {
      X32Declared220To223(i);
    } else if i < 228 {
      X32Declared224To227(i);
    } else if i < 232 {
      X32Declared228To231(i);
    } else if i < 236 {
      X32Declared232To235(i);
    } else if i < 240 {
      X32Declared236To239(i);
    } else if i < 244 {
      X32Declared240To243(i);
    } else if i < 248 {
      X32Declared244To247(i);
    } else if i < 252 {
      X32Declared248To251(i);
    } else if i < 256 {
      X32Declared252To255(i);
    } else if i < 260 {
      X32Declared256To259(i);
    } else if i < 264 {
      X32Declared260To263(i);
    } else if i < 268 {
      X32Declared264To267(i);
    } else {
      X32Declared268To271(i);
    }
  }

  /** The declaration lists its enumerators in increasing order of value. */
  lemma X32DeclarationIncreasing()
    ensures Increasing(X32Declaration())
  {
    forall i | 0 <= i < |X32Declaration()| - 1
      ensures X32Declaration()[i].value < X32Declaration()[i + 1].value
    {
      X32DeclarationFacts(i);
    }
  }

  /** Every number the decoder maps is found, with the same name, by a scan
      of the declaration. */
  lemma X32DeclarationListsDecoded(n: nat)
    ensures DecodeX32(n).Some? ==> Lookup(X32Declaration(), n) == DecodeX32(n)
  {
    if DecodeX32(n).Some? {
      X32DeclarationIncreasing();
      var offset := n - X32SyscallBit;
      X32OffsetUnmappedIff(offset);
      var s := DecodeX32(n).value;
      if offset < 8 {
        X32Positions0To7(offset, s);
      } else if offset < 16 {
        X32Positions8To15(offset, s);
      } else if offset < 24 {
        X32Positions16To23(offset, s);
      } else if offset < 32 {
        X32Positions24To31(offset, s);
      } else if offset < 40 {
        X32Positions32To39(offset, s);
      } else if offset < 48 {
        X32Positions40To47(offset, s);
      } else if offset < 56 {
        X32Positions48To55(offset, s);
      } else if offset < 64 {
        X32Positions56To63(offset, s);
      } else if offset < 72 {
        X32Positions64To71(offset, s);
      } else if offset < 80 {
        X32Positions72To79(offset, s);
      } else if offset < 88 {
        X32Positions80To87(offset, s);
      } else if offset < 96 {
        X32Positions88To95(offset, s);
      } else if offset < 104 {
        X32Positions96To103(offset, s);
      } else if offset < 112 {
        X32Positions104To111(offset, s);
      } else if offset < 120 {
        X32Positions112To119(offset, s);
      } else if offset < 128 {
        X32Positions120To127(offset, s);
      } else if offset < 136 {
        X32Positions128To135(offset, s);
      } else if offset < 144 {
        X32Positions136To143(offset, s);
      } else if offset < 152 {
        X32Positions144To151(offset, s);
      } else if offset < 160 {
        X32Positions152To159(offset, s);
      } else if offset < 168 {
        X32Positions160To167(offset, s);
      } else if offset < 176 {
        X32Positions168To175(offset, s);
      } else if offset < 184 {
        X32Positions176To183(offset, s);
      } else if offset < 192 {
        X32Positions184To191(offset, s);
      } else if offset < 200 {
        X32Positions192To199(offset, s);
      } else if offset < 208 {
        X32Positions200To207(offset, s);
      } else if offset < 216 {
        X32Positions208To215(offset, s);
      } else if offset < 224 {
        X32Positions216To223(offset, s);
      } else if offset < 232 {
        X32Positions224To231(offset, s);
      } else if offset < 240 {
        X32Positions232To239(offset, s);
      } else if offset < 248 {
        X32Positions240To247(offset, s);
      } else if offset < 256 {
        X32Positions248To255(offset, s);
      } else if offset < 264 {
        X32Positions256To263(offset, s);
      } else if offset < 272 {
        X32Positions264To271(offset, s);
      } else if offset < 278 {
        X32Positions272To277(offset, s);
      } else if offset < 520 {
        X32Positions512To519(offset, s);
      } else if offset < 528 {
        X32Positions520To527(offset, s);
      } else if offset < 536 {
        X32Positions528To535(offset, s);
      } else {
        X32Positions536To542(offset, s);
      }
      LookupFinds(X32Declaration(), X32Position(offset));
    }
  }

  /** Each enumerator's value decodes to its name. */
  lemma X32EntryDecodes(i: int)
    requires 0 <= i < X32EnumeratorCount
    ensures DecodeX32(X32Entry(i).value) == Some(X32Entry(i).name)
  {
    X32DeclarationFacts(i);
    var e := X32Entry(i);
    assert X32Num(e.name) == Some(e.value);
    X32DecodeIff(e.value, e.name);
  }

  /** Every number a scan of the declaration finds is mapped by the decoder
      to the same name. */
  lemma X32DeclarationOnlyDecoded(n: nat)
    ensures Lookup(X32Declaration(), n).Some? ==> DecodeX32(n) == Lookup(X32Declaration(), n)
  {
    if Lookup(X32Declaration(), n).Some? {
      var s := Lookup(X32Declaration(), n).value;
      var i :| 0 <= i < |X32Declaration()| && X32Declaration()[i] == Enumerator(s, n);
      X32EntryDecodes(i);
    }
  }

  /** The decoder answers what a scan of the declaration in source order
      answers, for every number. */
  lemma X32DecodeIsLookup(n: nat)
    ensures DecodeX32(n) == Lookup(X32Declaration(), n)
  {
    X32DeclarationListsDecoded(n);
    X32DeclarationOnlyDecoded(n);
  }
}
