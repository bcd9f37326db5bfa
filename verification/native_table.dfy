/** The native amd64 numbering, `enum amd64_syscall`: the raw number a 64-bit
    tracee reports for each system call, and the decoder record/replay uses to
    turn a reported number back into a name. */
module NativeTable {
  import opened Wrappers
  import opened Syscalls
  import opened Enumerations

  /** The largest native number, that of `amd64_sys_getrandom`. */
  const MaxNativeNum: nat := 318

  /** The numbers up to `MaxNativeNum` that no native enumerator takes. */
  predicate IsNativeGap(n: nat)
  {
    || n == 134 || n == 174 || 177 <= n <= 178 || 181 <= n <= 185
    || n == 205 || n == 211 || 214 <= n <= 215 || n == 236
    || 280 <= n <= 292 || 294 <= n <= 317
  }

  /** The names that only the x32 enum lists. */
  const X32OnlyNames: set<Syscall> :=
    {Io(Preadv), Io(Pwritev), Sig(RtTgsigqueueinfo), Net(Recvmmsg),
     Net(Sendmmsg), Mem(ProcessVmReadv), Mem(ProcessVmWritev)}

  /** The value of the native enumerator for `s`, or `None` when the native
      enum has no enumerator for it. */
  function NativeNum(s: Syscall): Option<nat>
  {
    match s
    case Io(Read) => Some(0)
    case Io(Write) => Some(1)
    case Io(Open) => Some(2)
    case Io(Close) => Some(3)
    case Path(Newstat) => Some(4)
    case Path(Newfstat) => Some(5)
    case Path(Newlstat) => Some(6)
    case Event(Poll) => Some(7)
    case Io(Lseek) => Some(8)
    case Mem(Mmap) => Some(9)
    case Mem(Mprotect) => Some(10)
    case Mem(Munmap) => Some(11)
    case Mem(Brk) => Some(12)
    case Sig(RtSigaction) => Some(13)
    case Sig(RtSigprocmask) => Some(14)
    case Sig(RtSigreturn) => Some(15)
    case Io(Ioctl) => Some(16)
    case Io(Pread64) => Some(17)
    case Io(Pwrite64) => Some(18)
    case Io(Readv) => Some(19)
    case Io(Writev) => Some(20)
    case Path(Access) => Some(21)
    case Io(Pipe) => Some(22)
    case Event(Select) => Some(23)
    case Sched(SchedYield) => Some(24)
    case Mem(Mremap) => Some(25)
    case Mem(Msync) => Some(26)
    case Mem(Mincore) => Some(27)
    case Mem(Madvise) => Some(28)
    case Ipc(Shmget) => Some(29)
    case Ipc(Shmat) => Some(30)
    case Ipc(Shmctl) => Some(31)
    case Io(Dup) => Some(32)
    case Io(Dup2) => Some(33)
    case Sig(Pause) => Some(34)
    case Clock(Nanosleep) => Some(35)
    case Clock(Getitimer) => Some(36)
    case Clock(Alarm) => Some(37)
    case Clock(Setitimer) => Some(38)
    case Proc(Getpid) => Some(39)
    case Io(Sendfile64) => Some(40)
    case Net(Socket) => Some(41)
    case Net(Connect) => Some(42)
    case Net(Accept) => Some(43)
    case Net(Sendto) => Some(44)
    case Net(Recvfrom) => Some(45)
    case Net(Sendmsg) => Some(46)
    case Net(Recvmsg) => Some(47)
    case Net(Shutdown) => Some(48)
    case Net(Bind) => Some(49)
    case Net(Listen) => Some(50)
    case Net(Getsockname) => Some(51)
    case Net(Getpeername) => Some(52)
    case Net(Socketpair) => Some(53)
    case Net(Setsockopt) => Some(54)
    case Net(Getsockopt) => Some(55)
    case Proc(Clone) => Some(56)
    case Proc(Fork) => Some(57)
    case Proc(Vfork) => Some(58)
    case Proc(Execve) => Some(59)
    case Proc(Exit) => Some(60)
    case Proc(Wait4) => Some(61)
    case Proc(Kill) => Some(62)
    case Admin(Uname) => Some(63)
    case Ipc(Semget) => Some(64)
    case Ipc(Semop) => Some(65)
    case Ipc(Semctl) => Some(66)
    case Ipc(Shmdt) => Some(67)
    case Ipc(Msgget) => Some(68)
    case Ipc(Msgsnd) => Some(69)
    case Ipc(Msgrcv) => Some(70)
    case Ipc(Msgctl) => Some(71)
    case Io(Fcntl) => Some(72)
    case Io(Flock) => Some(73)
    case Io(Fsync) => Some(74)
    case Io(Fdatasync) => Some(75)
    case Path(Truncate) => Some(76)
    case Path(Ftruncate) => Some(77)
    case Path(Getdents) => Some(78)
    case Path(Getcwd) => Some(79)
    case Path(Chdir) => Some(80)
    case Path(Fchdir) => Some(81)
    case Path(Rename) => Some(82)
    case Path(Mkdir) => Some(83)
    case Path(Rmdir) => Some(84)
    case Io(Creat) => Some(85)
    case Path(Link) => Some(86)
    case Path(Unlink) => Some(87)
    case Path(Symlink) => Some(88)
    case Path(Readlink) => Some(89)
    case Path(Chmod) => Some(90)
    case Path(Fchmod) => Some(91)
    case Path(Chown) => Some(92)
    case Path(Fchown) => Some(93)
    case Path(Lchown) => Some(94)
    case Path(Umask) => Some(95)
    case Clock(Gettimeofday) => Some(96)
    case Cred(Getrlimit) => Some(97)
    case Cred(Getrusage) => Some(98)
    case Admin(Sysinfo) => Some(99)
    case Cred(Times) => Some(100)
    case Proc(Ptrace) => Some(101)
    case Cred(Getuid) => Some(102)
    case Admin(Syslog) => Some(103)
    case Cred(Getgid) => Some(104)
    case Cred(Setuid) => Some(105)
    case Cred(Setgid) => Some(106)
    case Cred(Geteuid) => Some(107)
    case Cred(Getegid) => Some(108)
    case Proc(Setpgid) => Some(109)
    case Proc(Getppid) => Some(110)
    case Proc(Getpgrp) => Some(111)
    case Proc(Setsid) => Some(112)
    case Cred(Setreuid) => Some(113)
    case Cred(Setregid) => Some(114)
    case Cred(Getgroups) => Some(115)
    case Cred(Setgroups) => Some(116)
    case Cred(Setresuid) => Some(117)
    case Cred(Getresuid) => Some(118)
    case Cred(Setresgid) => Some(119)
    case Cred(Getresgid) => Some(120)
    case Proc(Getpgid) => Some(121)
    case Cred(Setfsuid) => Some(122)
    case Cred(Setfsgid) => Some(123)
    case Proc(Getsid) => Some(124)
    case Cred(Capget) => Some(125)
    case Cred(Capset) => Some(126)
    case Sig(RtSigpending) => Some(127)
    case Sig(RtSigtimedwait) => Some(128)
    case Sig(RtSigqueueinfo) => Some(129)
    case Sig(RtSigsuspend) => Some(130)
    case Sig(Sigaltstack) => Some(131)
    case Path(Utime) => Some(132)
    case Path(Mknod) => Some(133)
    case Proc(Personality) => Some(135)
    case Fs(Ustat) => Some(136)
    case Fs(Statfs) => Some(137)
    case Fs(Fstatfs) => Some(138)
    case Fs(Sysfs) => Some(139)
    case Sched(Getpriority) => Some(140)
    case Sched(Setpriority) => Some(141)
    case Sched(SchedSetparam) => Some(142)
    case Sched(SchedGetparam) => Some(143)
    case Sched(SchedSetscheduler) => Some(144)
    case Sched(SchedGetscheduler) => Some(145)
    case Sched(SchedGetPriorityMax) => Some(146)
    case Sched(SchedGetPriorityMin) => Some(147)
    case Sched(SchedRrGetInterval) => Some(148)
    case Mem(Mlock) => Some(149)
    case Mem(Munlock) => Some(150)
    case Mem(Mlockall) => Some(151)
    case Mem(Munlockall) => Some(152)
    case Admin(Vhangup) => Some(153)
    case Proc(ModifyLdt) => Some(154)
    case Fs(PivotRoot) => Some(155)
    case Admin(Sysctl) => Some(156)
    case Proc(Prctl) => Some(157)
    case Proc(ArchPrctl) => Some(158)
    case Clock(Adjtimex) => Some(159)
    case Cred(Setrlimit) => Some(160)
    case Fs(Chroot) => Some(161)
    case Io(Sync) => Some(162)
    case Admin(Acct) => Some(163)
    case Clock(Settimeofday) => Some(164)
    case Fs(Mount) => Some(165)
    case Fs(Umount) => Some(166)
    case Fs(Swapon) => Some(167)
    case Fs(Swapoff) => Some(168)
    case Admin(Reboot) => Some(169)
    case Admin(Sethostname) => Some(170)
    case Admin(Setdomainname) => Some(171)
    case Proc(Iopl) => Some(172)
    case Proc(Ioperm) => Some(173)
    case Admin(InitModule) => Some(175)
    case Admin(DeleteModule) => Some(176)
    case Fs(Quotactl) => Some(179)
    case Fs(Nfsservctl) => Some(180)
    case Proc(Gettid) => Some(186)
    case Io(Readahead) => Some(187)
    case Fs(Setxattr) => Some(188)
    case Fs(Lsetxattr) => Some(189)
    case Fs(Fsetxattr) => Some(190)
    case Fs(Getxattr) => Some(191)
    case Fs(Lgetxattr) => Some(192)
    case Fs(Fgetxattr) => Some(193)
    case Fs(Listxattr) => Some(194)
    case Fs(Llistxattr) => Some(195)
    case Fs(Flistxattr) => Some(196)
    case Fs(Removexattr) => Some(197)
    case Fs(Lremovexattr) => Some(198)
    case Fs(Fremovexattr) => Some(199)
    case Proc(Tkill) => Some(200)
    case Clock(Time) => Some(201)
    case Proc(Futex) => Some(202)
    case Sched(SchedSetaffinity) => Some(203)
    case Sched(SchedGetaffinity) => Some(204)
    case Event(IoSetup) => Some(206)
    case Event(IoDestroy) => Some(207)
    case Event(IoGetevents) => Some(208)
    case Event(IoSubmit) => Some(209)
    case Event(IoCancel) => Some(210)
    case Fs(LookupDcookie) => Some(212)
    case Event(EpollCreate) => Some(213)
    case Mem(RemapFilePages) => Some(216)
    case Path(Getdents64) => Some(217)
    case Proc(SetTidAddress) => Some(218)
    case Proc(RestartSyscall) => Some(219)
    case Ipc(Semtimedop) => Some(220)
    case Io(Fadvise64) => Some(221)
    case Clock(TimerCreate) => Some(222)
    case Clock(TimerSettime) => Some(223)
    case Clock(TimerGettime) => Some(224)
    case Clock(TimerGetoverrun) => Some(225)
    case Clock(TimerDelete) => Some(226)
    case Clock(ClockSettime) => Some(227)
    case Clock(ClockGettime) => Some(228)
    case Clock(ClockGetres) => Some(229)
    case Clock(ClockNanosleep) => Some(230)
    case Proc(ExitGroup) => Some(231)
    case Event(EpollWait) => Some(232)
    case Event(EpollCtl) => Some(233)
    case Proc(Tgkill) => Some(234)
    case Path(Utimes) => Some(235)
    case Mem(Mbind) => Some(237)
    case Mem(SetMempolicy) => Some(238)
    case Mem(GetMempolicy) => Some(239)
    case Ipc(MqOpen) => Some(240)
    case Ipc(MqUnlink) => Some(241)
    case Ipc(MqTimedsend) => Some(242)
    case Ipc(MqTimedreceive) => Some(243)
    case Ipc(MqNotify) => Some(244)
    case Ipc(MqGetsetattr) => Some(245)
    case Proc(KexecLoad) => Some(246)
    case Proc(Waitid) => Some(247)
    case Admin(AddKey) => Some(248)
    case Admin(RequestKey) => Some(249)
    case Admin(Keyctl) => Some(250)
    case Sched(IoprioSet) => Some(251)
    case Sched(IoprioGet) => Some(252)
    case Event(InotifyInit) => Some(253)
    case Event(InotifyAddWatch) => Some(254)
    case Event(InotifyRmWatch) => Some(255)
    case Mem(MigratePages) => Some(256)
    case Io(Openat) => Some(257)
    case Path(Mkdirat) => Some(258)
    case Path(Mknodat) => Some(259)
    case Path(Fchownat) => Some(260)
    case Path(Futimesat) => Some(261)
    case Path(Newfstatat) => Some(262)
    case Path(Unlinkat) => Some(263)
    case Path(Renameat) => Some(264)
    case Path(Linkat) => Some(265)
    case Path(Symlinkat) => Some(266)
    case Path(Readlinkat) => Some(267)
    case Path(Fchmodat) => Some(268)
    case Path(Faccessat) => Some(269)
    case Event(Pselect6) => Some(270)
    case Event(Ppoll) => Some(271)
    case Proc(Unshare) => Some(272)
    case Proc(SetRobustList) => Some(273)
    case Proc(GetRobustList) => Some(274)
    case Io(Splice) => Some(275)
    case Io(Tee) => Some(276)
    case Io(SyncFileRange) => Some(277)
    case Io(Vmsplice) => Some(278)
    case Mem(MovePages) => Some(279)
    case Io(Pipe2) => Some(293)
    case Admin(Getrandom) => Some(318)
    case Io(Preadv) => None
    case Io(Pwritev) => None
    case Sig(RtTgsigqueueinfo) => None
    case Net(Recvmmsg) => None
    case Net(Sendmmsg) => None
    case Mem(ProcessVmReadv) => None
    case Mem(ProcessVmWritev) => None
  }

  /** The name whose native enumerator has the value `n`, or `None` when no
      enumerator has that value. The table is searched in blocks of 32
      numbers. */
  function DecodeNative(n: nat): Option<Syscall>
  {
    if n < 32 then
      match n
      case 0 => Some(Io(Read))
      case 1 => Some(Io(Write))
      case 2 => Some(Io(Open))
      case 3 => Some(Io(Close))
      case 4 => Some(Path(Newstat))
      case 5 => Some(Path(Newfstat))
      case 6 => Some(Path(Newlstat))
      case 7 => Some(Event(Poll))
      case 8 => Some(Io(Lseek))
      case 9 => Some(Mem(Mmap))
      case 10 => Some(Mem(Mprotect))
      case 11 => Some(Mem(Munmap))
      case 12 => Some(Mem(Brk))
      case 13 => Some(Sig(RtSigaction))
      case 14 => Some(Sig(RtSigprocmask))
      case 15 => Some(Sig(RtSigreturn))
      case 16 => Some(Io(Ioctl))
      case 17 => Some(Io(Pread64))
      case 18 => Some(Io(Pwrite64))
      case 19 => Some(Io(Readv))
      case 20 => Some(Io(Writev))
      case 21 => Some(Path(Access))
      case 22 => Some(Io(Pipe))
      case 23 => Some(Event(Select))
      case 24 => Some(Sched(SchedYield))
      case 25 => Some(Mem(Mremap))
      case 26 => Some(Mem(Msync))
      case 27 => Some(Mem(Mincore))
      case 28 => Some(Mem(Madvise))
      case 29 => Some(Ipc(Shmget))
      case 30 => Some(Ipc(Shmat))
      case 31 => Some(Ipc(Shmctl))
      case _ => None
    else if n < 64 then
      match n
      case 32 => Some(Io(Dup))
      case 33 => Some(Io(Dup2))
      case 34 => Some(Sig(Pause))
      case 35 => Some(Clock(Nanosleep))
      case 36 => Some(Clock(Getitimer))
      case 37 => Some(Clock(Alarm))
      case 38 => Some(Clock(Setitimer))
      case 39 => Some(Proc(Getpid))
      case 40 => Some(Io(Sendfile64))
      case 41 => Some(Net(Socket))
      case 42 => Some(Net(Connect))
      case 43 => Some(Net(Accept))
      case 44 => Some(Net(Sendto))
      case 45 => Some(Net(Recvfrom))
      case 46 => Some(Net(Sendmsg))
      case 47 => Some(Net(Recvmsg))
      case 48 => Some(Net(Shutdown))
      case 49 => Some(Net(Bind))
      case 50 => Some(Net(Listen))
      case 51 => Some(Net(Getsockname))
      case 52 => Some(Net(Getpeername))
      case 53 => Some(Net(Socketpair))
      case 54 => Some(Net(Setsockopt))
      case 55 => Some(Net(Getsockopt))
      case 56 => Some(Proc(Clone))
      case 57 => Some(Proc(Fork))
      case 58 => Some(Proc(Vfork))
      case 59 => Some(Proc(Execve))
      case 60 => Some(Proc(Exit))
      case 61 => Some(Proc(Wait4))
      case 62 => Some(Proc(Kill))
      case 63 => Some(Admin(Uname))
      case _ => None
    else if n < 96 then
      match n
      case 64 => Some(Ipc(Semget))
      case 65 => Some(Ipc(Semop))
      case 66 => Some(Ipc(Semctl))
      case 67 => Some(Ipc(Shmdt))
      case 68 => Some(Ipc(Msgget))
      case 69 => Some(Ipc(Msgsnd))
      case 70 => Some(Ipc(Msgrcv))
      case 71 => Some(Ipc(Msgctl))
      case 72 => Some(Io(Fcntl))
      case 73 => Some(Io(Flock))
      case 74 => Some(Io(Fsync))
      case 75 => Some(Io(Fdatasync))
      case 76 => Some(Path(Truncate))
      case 77 => Some(Path(Ftruncate))
      case 78 => Some(Path(Getdents))
      case 79 => Some(Path(Getcwd))
      case 80 => Some(Path(Chdir))
      case 81 => Some(Path(Fchdir))
      case 82 => Some(Path(Rename))
      case 83 => Some(Path(Mkdir))
      case 84 => Some(Path(Rmdir))
      case 85 => Some(Io(Creat))
      case 86 => Some(Path(Link))
      case 87 => Some(Path(Unlink))
      case 88 => Some(Path(Symlink))
      case 89 => Some(Path(Readlink))
      case 90 => Some(Path(Chmod))
      case 91 => Some(Path(Fchmod))
      case 92 => Some(Path(Chown))
      case 93 => Some(Path(Fchown))
      case 94 => Some(Path(Lchown))
      case 95 => Some(Path(Umask))
      case _ => None
    else if n < 128 then
      match n
      case 96 => Some(Clock(Gettimeofday))
      case 97 => Some(Cred(Getrlimit))
      case 98 => Some(Cred(Getrusage))
      case 99 => Some(Admin(Sysinfo))
      case 100 => Some(Cred(Times))
      case 101 => Some(Proc(Ptrace))
      case 102 => Some(Cred(Getuid))
      case 103 => Some(Admin(Syslog))
      case 104 => Some(Cred(Getgid))
      case 105 => Some(Cred(Setuid))
      case 106 => Some(Cred(Setgid))
      case 107 => Some(Cred(Geteuid))
      case 108 => Some(Cred(Getegid))
      case 109 => Some(Proc(Setpgid))
      case 110 => Some(Proc(Getppid))
      case 111 => Some(Proc(Getpgrp))
      case 112 => Some(Proc(Setsid))
      case 113 => Some(Cred(Setreuid))
      case 114 => Some(Cred(Setregid))
      case 115 => Some(Cred(Getgroups))
      case 116 => Some(Cred(Setgroups))
      case 117 => Some(Cred(Setresuid))
      case 118 => Some(Cred(Getresuid))
      case 119 => Some(Cred(Setresgid))
      case 120 => Some(Cred(Getresgid))
      case 121 => Some(Proc(Getpgid))
      case 122 => Some(Cred(Setfsuid))
      case 123 => Some(Cred(Setfsgid))
      case 124 => Some(Proc(Getsid))
      case 125 => Some(Cred(Capget))
      case 126 => Some(Cred(Capset))
      case 127 => Some(Sig(RtSigpending))
      case _ => None
    else if n < 160 then
      match n
      case 128 => Some(Sig(RtSigtimedwait))
      case 129 => Some(Sig(RtSigqueueinfo))
      case 130 => Some(Sig(RtSigsuspend))
      case 131 => Some(Sig(Sigaltstack))
      case 132 => Some(Path(Utime))
      case 133 => Some(Path(Mknod))
      case 135 => Some(Proc(Personality))
      case 136 => Some(Fs(Ustat))
      case 137 => Some(Fs(Statfs))
      case 138 => Some(Fs(Fstatfs))
      case 139 => Some(Fs(Sysfs))
      case 140 => Some(Sched(Getpriority))
      case 141 => Some(Sched(Setpriority))
      case 142 => Some(Sched(SchedSetparam))
      case 143 => Some(Sched(SchedGetparam))
      case 144 => Some(Sched(SchedSetscheduler))
      case 145 => Some(Sched(SchedGetscheduler))
      case 146 => Some(Sched(SchedGetPriorityMax))
      case 147 => Some(Sched(SchedGetPriorityMin))
      case 148 => Some(Sched(SchedRrGetInterval))
      case 149 => Some(Mem(Mlock))
      case 150 => Some(Mem(Munlock))
      case 151 => Some(Mem(Mlockall))
      case 152 => Some(Mem(Munlockall))
      case 153 => Some(Admin(Vhangup))
      case 154 => Some(Proc(ModifyLdt))
      case 155 => Some(Fs(PivotRoot))
      case 156 => Some(Admin(Sysctl))
      case 157 => Some(Proc(Prctl))
      case 158 => Some(Proc(ArchPrctl))
      case 159 => Some(Clock(Adjtimex))
      case _ => None
    else if n < 192 then
      match n
      case 160 => Some(Cred(Setrlimit))
      case 161 => Some(Fs(Chroot))
      case 162 => Some(Io(Sync))
      case 163 => Some(Admin(Acct))
      case 164 => Some(Clock(Settimeofday))
      case 165 => Some(Fs(Mount))
      case 166 => Some(Fs(Umount))
      case 167 => Some(Fs(Swapon))
      case 168 => Some(Fs(Swapoff))
      case 169 => Some(Admin(Reboot))
      case 170 => Some(Admin(Sethostname))
      case 171 => Some(Admin(Setdomainname))
      case 172 => Some(Proc(Iopl))
      case 173 => Some(Proc(Ioperm))
      case 175 => Some(Admin(InitModule))
      case 176 => Some(Admin(DeleteModule))
      case 179 => Some(Fs(Quotactl))
      case 180 => Some(Fs(Nfsservctl))
      case 186 => Some(Proc(Gettid))
      case 187 => Some(Io(Readahead))
      case 188 => Some(Fs(Setxattr))
      case 189 => Some(Fs(Lsetxattr))
      case 190 => Some(Fs(Fsetxattr))
      case 191 => Some(Fs(Getxattr))
      case _ => None
    else if n < 224 then
      match n
      case 192 => Some(Fs(Lgetxattr))
      case 193 => Some(Fs(Fgetxattr))
      case 194 => Some(Fs(Listxattr))
      case 195 => Some(Fs(Llistxattr))
      case 196 => Some(Fs(Flistxattr))
      case 197 => Some(Fs(Removexattr))
      case 198 => Some(Fs(Lremovexattr))
      case 199 => Some(Fs(Fremovexattr))
      case 200 => Some(Proc(Tkill))
      case 201 => Some(Clock(Time))
      case 202 => Some(Proc(Futex))
      case 203 => Some(Sched(SchedSetaffinity))
      case 204 => Some(Sched(SchedGetaffinity))
      case 206 => Some(Event(IoSetup))
      case 207 => Some(Event(IoDestroy))
      case 208 => Some(Event(IoGetevents))
      case 209 => Some(Event(IoSubmit))
      case 210 => Some(Event(IoCancel))
      case 212 => Some(Fs(LookupDcookie))
      case 213 => Some(Event(EpollCreate))
      case 216 => Some(Mem(RemapFilePages))
      case 217 => Some(Path(Getdents64))
      case 218 => Some(Proc(SetTidAddress))
      case 219 => Some(Proc(RestartSyscall))
      case 220 => Some(Ipc(Semtimedop))
      case 221 => Some(Io(Fadvise64))
      case 222 => Some(Clock(TimerCreate))
      case 223 => Some(Clock(TimerSettime))
      case _ => None
    else if n < 256 then
      match n
      case 224 => Some(Clock(TimerGettime))
      case 225 => Some(Clock(TimerGetoverrun))
      case 226 => Some(Clock(TimerDelete))
      case 227 => Some(Clock(ClockSettime))
      case 228 => Some(Clock(ClockGettime))
      case 229 => Some(Clock(ClockGetres))
      case 230 => Some(Clock(ClockNanosleep))
      case 231 => Some(Proc(ExitGroup))
      case 232 => Some(Event(EpollWait))
      case 233 => Some(Event(EpollCtl))
      case 234 => Some(Proc(Tgkill))
      case 235 => Some(Path(Utimes))
      case 237 => Some(Mem(Mbind))
      case 238 => Some(Mem(SetMempolicy))
      case 239 => Some(Mem(GetMempolicy))
      case 240 => Some(Ipc(MqOpen))
      case 241 => Some(Ipc(MqUnlink))
      case 242 => Some(Ipc(MqTimedsend))
      case 243 => Some(Ipc(MqTimedreceive))
      case 244 => Some(Ipc(MqNotify))
      case 245 => Some(Ipc(MqGetsetattr))
      case 246 => Some(Proc(KexecLoad))
      case 247 => Some(Proc(Waitid))
      case 248 => Some(Admin(AddKey))
      case 249 => Some(Admin(RequestKey))
      case 250 => Some(Admin(Keyctl))
      case 251 => Some(Sched(IoprioSet))
      case 252 => Some(Sched(IoprioGet))
      case 253 => Some(Event(InotifyInit))
      case 254 => Some(Event(InotifyAddWatch))
      case 255 => Some(Event(InotifyRmWatch))
      case _ => None
    else if n < 288 then
      match n
      case 256 => Some(Mem(MigratePages))
      case 257 => Some(Io(Openat))
      case 258 => Some(Path(Mkdirat))
      case 259 => Some(Path(Mknodat))
      case 260 => Some(Path(Fchownat))
      case 261 => Some(Path(Futimesat))
      case 262 => Some(Path(Newfstatat))
      case 263 => Some(Path(Unlinkat))
      case 264 => Some(Path(Renameat))
      case 265 => Some(Path(Linkat))
      case 266 => Some(Path(Symlinkat))
      case 267 => Some(Path(Readlinkat))
      case 268 => Some(Path(Fchmodat))
      case 269 => Some(Path(Faccessat))
      case 270 => Some(Event(Pselect6))
      case 271 => Some(Event(Ppoll))
      case 272 => Some(Proc(Unshare))
      case 273 => Some(Proc(SetRobustList))
      case 274 => Some(Proc(GetRobustList))
      case 275 => Some(Io(Splice))
      case 276 => Some(Io(Tee))
      case 277 => Some(Io(SyncFileRange))
      case 278 => Some(Io(Vmsplice))
      case 279 => Some(Mem(MovePages))
      case _ => None
    else if n < 320 then
      match n
      case 293 => Some(Io(Pipe2))
      case 318 => Some(Admin(Getrandom))
      case _ => None
    else
      None
  }

  /** One name's native entry is consistent: its number decodes back to it,
      and it has a number unless it is x32-only. */
  predicate NativeEntryAgrees(s: Syscall)
  {
    && (NativeNum(s).Some? ==> DecodeNative(NativeNum(s).value) == Some(s))
    && (NativeNum(s).None? <==> s in X32OnlyNames)
  }

  /** The decoder is consistent at `n`: if it answers `s`, then `n` is the
      native number of `s`. */
  predicate NativeDecodeAgrees(n: nat, s: Syscall)
  {
    DecodeNative(n) == Some(s) ==> NativeNum(s) == Some(n)
  }

  // The native entries agree with the decoder, one lemma per group of names.

  lemma NativeEntriesIo(c: IoCall)
    ensures NativeEntryAgrees(Io(c))
  {
    match c
    case Read =>
    case Write =>
    case Open =>
    case Close =>
    case Lseek =>
    case Pread64 =>
    case Pwrite64 =>
    case Readv =>
    case Writev =>
    case Preadv =>
    case Pwritev =>
    case Pipe =>
    case Pipe2 =>
    case Dup =>
    case Dup2 =>
    case Fcntl =>
    case Flock =>
    case Fsync =>
    case Fdatasync =>
    case Ioctl =>
    case Sendfile64 =>
    case Readahead =>
    case Fadvise64 =>
    case Splice =>
    case Tee =>
    case Vmsplice =>
    case SyncFileRange =>
    case Creat =>
    case Openat =>
    case Sync =>
  }

  lemma NativeEntriesEvent(c: EventCall)
    ensures NativeEntryAgrees(Event(c))
  {
    match c
    case Select =>
    case Poll =>
    case Pselect6 =>
    case Ppoll =>
    case EpollCreate =>
    case EpollWait =>
    case EpollCtl =>
    case InotifyInit =>
    case InotifyAddWatch =>
    case InotifyRmWatch =>
    case IoSetup =>
    case IoDestroy =>
    case IoGetevents =>
    case IoSubmit =>
    case IoCancel =>
  }

  lemma NativeEntriesPath(c: PathCall)
    ensures NativeEntryAgrees(Path(c))
  {
    match c
    case Newstat =>
    case Newfstat =>
    case Newlstat =>
    case Access =>
    case Truncate =>
    case Ftruncate =>
    case Getdents =>
    case Getdents64 =>
    case Getcwd =>
    case Chdir =>
    case Fchdir =>
    case Rename =>
    case Mkdir =>
    case Rmdir =>
    case Link =>
    case Unlink =>
    case Symlink =>
    case Readlink =>
    case Chmod =>
    case Fchmod =>
    case Chown =>
    case Fchown =>
    case Lchown =>
    case Umask =>
    case Utime =>
    case Utimes =>
    case Mknod =>
    case Mkdirat =>
    case Mknodat =>
    case Fchownat =>
    case Futimesat =>
    case Newfstatat =>
    case Unlinkat =>
    case Renameat =>
    case Linkat =>
    case Symlinkat =>
    case Readlinkat =>
    case Fchmodat =>
    case Faccessat =>
  }

  lemma NativeEntriesFs(c: FsCall)
    ensures NativeEntryAgrees(Fs(c))
  {
    match c
    case Statfs =>
    case Fstatfs =>
    case Ustat =>
    case Sysfs =>
    case Chroot =>
    case PivotRoot =>
    case Mount =>
    case Umount =>
    case Swapon =>
    case Swapoff =>
    case Quotactl =>
    case Nfsservctl =>
    case LookupDcookie =>
    case Setxattr =>
    case Lsetxattr =>
    case Fsetxattr =>
    case Getxattr =>
    case Lgetxattr =>
    case Fgetxattr =>
    case Listxattr =>
    case Llistxattr =>
    case Flistxattr =>
    case Removexattr =>
    case Lremovexattr =>
    case Fremovexattr =>
  }

  lemma NativeEntriesMem(c: MemCall)
    ensures NativeEntryAgrees(Mem(c))
  {
    match c
    case Mmap =>
    case Mprotect =>
    case Munmap =>
    case Brk =>
    case Mremap =>
    case Msync =>
    case Mincore =>
    case Madvise =>
    case Mlock =>
    case Munlock =>
    case Mlockall =>
    case Munlockall =>
    case RemapFilePages =>
    case Mbind =>
    case SetMempolicy =>
    case GetMempolicy =>
    case MigratePages =>
    case MovePages =>
    case ProcessVmReadv =>
    case ProcessVmWritev =>
  }

  lemma NativeEntriesProc(c: ProcCall)
    ensures NativeEntryAgrees(Proc(c))
  {
    match c
    case Clone =>
    case Fork =>
    case Vfork =>
    case Execve =>
    case Exit =>
    case ExitGroup =>
    case Wait4 =>
    case Waitid =>
    case Kill =>
    case Tkill =>
    case Tgkill =>
    case Getpid =>
    case Getppid =>
    case Gettid =>
    case Getpgrp =>
    case Getpgid =>
    case Setpgid =>
    case Getsid =>
    case Setsid =>
    case Personality =>
    case Ptrace =>
    case Prctl =>
    case ArchPrctl =>
    case ModifyLdt =>
    case Iopl =>
    case Ioperm =>
    case SetTidAddress =>
    case RestartSyscall =>
    case Unshare =>
    case SetRobustList =>
    case GetRobustList =>
    case Futex =>
    case KexecLoad =>
  }

  lemma NativeEntriesCred(c: CredCall)
    ensures NativeEntryAgrees(Cred(c))
  {
    match c
    case Getuid =>
    case Geteuid =>
    case Getgid =>
    case Getegid =>
    case Setuid =>
    case Setgid =>
    case Setreuid =>
    case Setregid =>
    case Setresuid =>
    case Getresuid =>
    case Setresgid =>
    case Getresgid =>
    case Setfsuid =>
    case Setfsgid =>
    case Getgroups =>
    case Setgroups =>
    case Capget =>
    case Capset =>
    case Getrlimit =>
    case Setrlimit =>
    case Getrusage =>
    case Times =>
  }

  lemma NativeEntriesSched(c: SchedCall)
    ensures NativeEntryAgrees(Sched(c))
  {
    match c
    case SchedYield =>
    case SchedSetparam =>
    case SchedGetparam =>
    case SchedSetscheduler =>
    case SchedGetscheduler =>
    case SchedGetPriorityMax =>
    case SchedGetPriorityMin =>
    case SchedRrGetInterval =>
    case SchedSetaffinity =>
    case SchedGetaffinity =>
    case Getpriority =>
    case Setpriority =>
    case IoprioSet =>
    case IoprioGet =>
  }

  lemma NativeEntriesSig(c: SigCall)
    ensures NativeEntryAgrees(Sig(c))
  {
    match c
    case RtSigaction =>
    case RtSigprocmask =>
    case RtSigreturn =>
    case RtSigpending =>
    case RtSigtimedwait =>
    case RtSigqueueinfo =>
    case RtSigsuspend =>
    case RtTgsigqueueinfo =>
    case Sigaltstack =>
    case Pause =>
  }

  lemma NativeEntriesClock(c: ClockCall)
    ensures NativeEntryAgrees(Clock(c))
  {
    match c
    case Nanosleep =>
    case Getitimer =>
    case Setitimer =>
    case Alarm =>
    case Gettimeofday =>
    case Settimeofday =>
    case Time =>
    case Adjtimex =>
    case TimerCreate =>
    case TimerSettime =>
    case TimerGettime =>
    case TimerGetoverrun =>
    case TimerDelete =>
    case ClockSettime =>
    case ClockGettime =>
    case ClockGetres =>
    case ClockNanosleep =>
  }

  lemma NativeEntriesIpc(c: IpcCall)
    ensures NativeEntryAgrees(Ipc(c))
  {
    match c
    case Shmget =>
    case Shmat =>
    case Shmctl =>
    case Shmdt =>
    case Semget =>
    case Semop =>
    case Semctl =>
    case Semtimedop =>
    case Msgget =>
    case Msgsnd =>
    case Msgrcv =>
    case Msgctl =>
    case MqOpen =>
    case MqUnlink =>
    case MqTimedsend =>
    case MqTimedreceive =>
    case MqNotify =>
    case MqGetsetattr =>
  }

  lemma NativeEntriesNet(c: NetCall)
    ensures NativeEntryAgrees(Net(c))
  {
    match c
    case Socket =>
    case Connect =>
    case Accept =>
    case Sendto =>
    case Recvfrom =>
    case Sendmsg =>
    case Recvmsg =>
    case Shutdown =>
    case Bind =>
    case Listen =>
    case Getsockname =>
    case Getpeername =>
    case Socketpair =>
    case Setsockopt =>
    case Getsockopt =>
    case Recvmmsg =>
    case Sendmmsg =>
  }

  lemma NativeEntriesAdmin(c: AdminCall)
    ensures NativeEntryAgrees(Admin(c))
  {
    match c
    case Uname =>
    case Sysinfo =>
    case Syslog =>
    case Sysctl =>
    case Reboot =>
    case Sethostname =>
    case Setdomainname =>
    case Acct =>
    case Vhangup =>
    case InitModule =>
    case DeleteModule =>
    case AddKey =>
    case RequestKey =>
    case Keyctl =>
    case Getrandom =>
  }

  // Decoding agrees with the encoder on the native numbers `lo` to `hi`.
  // Each `NativeDecodes<lo>To<hi>` covers one small range, so that each proof
  // stays cheap.

  lemma NativeDecodes0To7(n: nat, s: Syscall)
    requires 0 <= n < 8
    ensures NativeDecodeAgrees(n, s)
  {
  }

  lemma NativeDecodes8To15(n: nat, s: Syscall)
    requires 8 <= n < 16
    ensures NativeDecodeAgrees(n, s)
  {
  }

  lemma NativeDecodes16To23(n: nat, s: Syscall)
    requires 16 <= n < 24
    ensures NativeDecodeAgrees(n, s)
  {
  }

  lemma NativeDecodes24To31(n: nat, s: Syscall)
    requires 24 <= n < 32
    ensures NativeDecodeAgrees(n, s)
  {
  }

  lemma NativeDecodes32To39(n: nat, s: Syscall)
    requires 32 <= n < 40
    ensures NativeDecodeAgrees(n, s)
  {
  }

  lemma NativeDecodes40To47(n: nat, s: Syscall)
    requires 40 <= n < 48
    ensures NativeDecodeAgrees(n, s)
  {
  }

  lemma NativeDecodes48To55(n: nat, s: Syscall)
    requires 48 <= n < 56
    ensures NativeDecodeAgrees(n, s)
  {
  }

  lemma NativeDecodes56To63(n: nat, s: Syscall)
    requires 56 <= n < 64
    ensures NativeDecodeAgrees(n, s)
  {
  }

  lemma NativeDecodes64To71(n: nat, s: Syscall)
    requires 64 <= n < 72
    ensures NativeDecodeAgrees(n, s)
  {
  }

  lemma NativeDecodes72To79(n: nat, s: Syscall)
    requires 72 <= n < 80
    ensures NativeDecodeAgrees(n, s)
  {
  }

  lemma NativeDecodes80To87(n: nat, s: Syscall)
    requires 80 <= n < 88
    ensures NativeDecodeAgrees(n, s)
  {
  }

  lemma NativeDecodes88To95(n: nat, s: Syscall)
    requires 88 <= n < 96
    ensures NativeDecodeAgrees(n, s)
  {
  }

  lemma NativeDecodes96To103(n: nat, s: Syscall)
    requires 96 <= n < 104
    ensures NativeDecodeAgrees(n, s)
  {
  }

  lemma NativeDecodes104To111(n: nat, s: Syscall)
    requires 104 <= n < 112
    ensures NativeDecodeAgrees(n, s)
  {
  }

  lemma NativeDecodes112To119(n: nat, s: Syscall)
    requires 112 <= n < 120
    ensures NativeDecodeAgrees(n, s)
  {
  }

  lemma NativeDecodes120To127(n: nat, s: Syscall)
    requires 120 <= n < 128
    ensures NativeDecodeAgrees(n, s)
  {
  }

  lemma NativeDecodes128To135(n: nat, s: Syscall)
    requires 128 <= n < 136
    ensures NativeDecodeAgrees(n, s)
  {
  }

  lemma NativeDecodes136To143(n: nat, s: Syscall)
    requires 136 <= n < 144
    ensures NativeDecodeAgrees(n, s)
  {
  }

  lemma NativeDecodes144To151(n: nat, s: Syscall)
    requires 144 <= n < 152
    ensures NativeDecodeAgrees(n, s)
  {
  }

  lemma NativeDecodes152To159(n: nat, s: Syscall)
    requires 152 <= n < 160
    ensures NativeDecodeAgrees(n, s)
  {
  }

  lemma NativeDecodes160To167(n: nat, s: Syscall)
    requires 160 <= n < 168
    ensures NativeDecodeAgrees(n, s)
  {
  }

  lemma NativeDecodes168To175(n: nat, s: Syscall)
    requires 168 <= n < 176
    ensures NativeDecodeAgrees(n, s)
  {
  }

  lemma NativeDecodes176To183(n: nat, s: Syscall)
    requires 176 <= n < 184
    ensures NativeDecodeAgrees(n, s)
  {
  }

  lemma NativeDecodes184To191(n: nat, s: Syscall)
    requires 184 <= n < 192
    ensures NativeDecodeAgrees(n, s)
  {
  }

  lemma NativeDecodes192To199(n: nat, s: Syscall)
    requires 192 <= n < 200
    ensures NativeDecodeAgrees(n, s)
  {
  }

  lemma NativeDecodes200To207(n: nat, s: Syscall)
    requires 200 <= n < 208
    ensures NativeDecodeAgrees(n, s)
  {
  }

  lemma NativeDecodes208To215(n: nat, s: Syscall)
    requires 208 <= n < 216
    ensures NativeDecodeAgrees(n, s)
  {
  }

  lemma NativeDecodes216To223(n: nat, s: Syscall)
    requires 216 <= n < 224
    ensures NativeDecodeAgrees(n, s)
  {
  }

  lemma NativeDecodes224To231(n: nat, s: Syscall)
    requires 224 <= n < 232
    ensures NativeDecodeAgrees(n, s)
  {
  }

  lemma NativeDecodes232To239(n: nat, s: Syscall)
    requires 232 <= n < 240
    ensures NativeDecodeAgrees(n, s)
  {
  }

  lemma NativeDecodes240To247(n: nat, s: Syscall)
    requires 240 <= n < 248
    ensures NativeDecodeAgrees(n, s)
  {
  }

  lemma NativeDecodes248To255(n: nat, s: Syscall)
    requires 248 <= n < 256
    ensures NativeDecodeAgrees(n, s)
  {
  }

  lemma NativeDecodes256To263(n: nat, s: Syscall)
    requires 256 <= n < 264
    ensures NativeDecodeAgrees(n, s)
  {
  }

  lemma NativeDecodes264To271(n: nat, s: Syscall)
    requires 264 <= n < 272
    ensures NativeDecodeAgrees(n, s)
  {
  }

  lemma NativeDecodes272To279(n: nat, s: Syscall)
    requires 272 <= n < 280
    ensures NativeDecodeAgrees(n, s)
  {
  }

  lemma NativeDecodes280To287(n: nat, s: Syscall)
    requires 280 <= n < 288
    ensures NativeDecodeAgrees(n, s)
  {
  }

  lemma NativeDecodes288To295(n: nat, s: Syscall)
    requires 288 <= n < 296
    ensures NativeDecodeAgrees(n, s)
  {
  }

  lemma NativeDecodes296To303(n: nat, s: Syscall)
    requires 296 <= n < 304
    ensures NativeDecodeAgrees(n, s)
  {
  }

  lemma NativeDecodes304To311(n: nat, s: Syscall)
    requires 304 <= n < 312
    ensures NativeDecodeAgrees(n, s)
  {
  }

  lemma NativeDecodes312To319(n: nat, s: Syscall)
    requires 312 <= n < 320
    ensures NativeDecodeAgrees(n, s)
  {
  }

  /** Encoding a name and decoding the number gives the name back, and the
      only names without a native number are the x32-only ones. */
  lemma NativeRoundTrip(s: Syscall)
    ensures NativeNum(s).Some? ==> DecodeNative(NativeNum(s).value) == Some(s)
    ensures NativeNum(s).None? <==> s in X32OnlyNames
  {
    match s
    case Io(c) => NativeEntriesIo(c);
    case Event(c) => NativeEntriesEvent(c);
    case Path(c) => NativeEntriesPath(c);
    case Fs(c) => NativeEntriesFs(c);
    case Mem(c) => NativeEntriesMem(c);
    case Proc(c) => NativeEntriesProc(c);
    case Cred(c) => NativeEntriesCred(c);
    case Sched(c) => NativeEntriesSched(c);
    case Sig(c) => NativeEntriesSig(c);
    case Clock(c) => NativeEntriesClock(c);
    case Ipc(c) => NativeEntriesIpc(c);
    case Net(c) => NativeEntriesNet(c);
    case Admin(c) => NativeEntriesAdmin(c);
  }

  /** Decoding a number and encoding the name gives the number back: the
      decoder never answers with a name whose enumerator has another value. */
  lemma NativeDecodeSound(n: nat)
    ensures DecodeNative(n).Some? ==> NativeNum(DecodeNative(n).value) == Some(n)
  {
    if DecodeNative(n).Some? {
      NativeUnmappedIff(n);
      var s := DecodeNative(n).value;
      if n < 8 {
        NativeDecodes0To7(n, s);
      } else if n < 16 {
        NativeDecodes8To15(n, s);
      } else if n < 24 {
        NativeDecodes16To23(n, s);
      } else if n < 32 {
        NativeDecodes24To31(n, s);
      } else if n < 40 {
        NativeDecodes32To39(n, s);
      } else if n < 48 {
        NativeDecodes40To47(n, s);
      } else if n < 56 {
        NativeDecodes48To55(n, s);
      } else if n < 64 {
        NativeDecodes56To63(n, s);
      } else if n < 72 {
        NativeDecodes64To71(n, s);
      } else if n < 80 {
        NativeDecodes72To79(n, s);
      } else if n < 88 {
        NativeDecodes80To87(n, s);
      } else if n < 96 {
        NativeDecodes88To95(n, s);
      } else if n < 104 {
        NativeDecodes96To103(n, s);
      } else if n < 112 {
        NativeDecodes104To111(n, s);
      } else if n < 120 {
        NativeDecodes112To119(n, s);
      } else if n < 128 {
        NativeDecodes120To127(n, s);
      } else if n < 136 {
        NativeDecodes128To135(n, s);
      } else if n < 144 {
        NativeDecodes136To143(n, s);
      } else if n < 152 {
        NativeDecodes144To151(n, s);
      } else if n < 160 {
        NativeDecodes152To159(n, s);
      } else if n < 168 {
        NativeDecodes160To167(n, s);
      } else if n < 176 {
        NativeDecodes168To175(n, s);
      } else if n < 184 {
        NativeDecodes176To183(n, s);
      } else if n < 192 {
        NativeDecodes184To191(n, s);
      } else if n < 200 {
        NativeDecodes192To199(n, s);
      } else if n < 208 {
        NativeDecodes200To207(n, s);
      } else if n < 216 {
        NativeDecodes208To215(n, s);
      } else if n < 224 {
        NativeDecodes216To223(n, s);
      } else if n < 232 {
        NativeDecodes224To231(n, s);
      } else if n < 240 {
        NativeDecodes232To239(n, s);
      } else if n < 248 {
        NativeDecodes240To247(n, s);
      } else if n < 256 {
        NativeDecodes248To255(n, s);
      } else if n < 264 {
        NativeDecodes256To263(n, s);
      } else if n < 272 {
        NativeDecodes264To271(n, s);
      } else if n < 280 {
        NativeDecodes272To279(n, s);
      } else if n < 288 {
        NativeDecodes280To287(n, s);
      } else if n < 296 {
        NativeDecodes288To295(n, s);
      } else if n < 304 {
        NativeDecodes296To303(n, s);
      } else if n < 312 {
        NativeDecodes304To311(n, s);
      } else {
        NativeDecodes312To319(n, s);
      }
    }
  }

  /** The decoder is exactly the inverse of the enum. */
  lemma NativeDecodeIff(n: nat, s: Syscall)
    ensures DecodeNative(n) == Some(s) <==> NativeNum(s) == Some(n)
  {
    NativeRoundTrip(s);
    NativeDecodeSound(n);
  }

  /** No two native enumerators share a value. */
  lemma NativeInjective(a: Syscall, b: Syscall)
    requires NativeNum(a).Some? && NativeNum(a) == NativeNum(b)
    ensures a == b
  {
    NativeRoundTrip(a);
    NativeRoundTrip(b);
  }

  /** A number decodes to nothing exactly when it is one of the gaps of the
      enum or lies above its largest value. */
  lemma NativeUnmappedIff(n: nat)
    ensures DecodeNative(n).None? <==> (n > MaxNativeNum || IsNativeGap(n))
  {
  }

  /** Every native number is at most `MaxNativeNum` and is not a gap. */
  lemma NativeNumInRange(s: Syscall)
    ensures NativeNum(s).Some? ==> NativeNum(s).value <= MaxNativeNum
    ensures NativeNum(s).Some? ==> !IsNativeGap(NativeNum(s).value)
  {
    NativeRoundTrip(s);
    if NativeNum(s).Some? {
      NativeUnmappedIff(NativeNum(s).value);
    }
  }

  /** The number of enumerators `enum amd64_syscall` declares. */
  const NativeEnumeratorCount: nat := 268

  /** The enumerator declared at position `i` of `enum amd64_syscall`,
      counting from 0 in source order. */
  function NativeEntry(i: int): Enumerator
    requires 0 <= i < NativeEnumeratorCount
  {
    if i < 16 then
      match i
      case 0 => Enumerator(Io(Read), 0)
      case 1 => Enumerator(Io(Write), 1)
      case 2 => Enumerator(Io(Open), 2)
      case 3 => Enumerator(Io(Close), 3)
      case 4 => Enumerator(Path(Newstat), 4)
      case 5 => Enumerator(Path(Newfstat), 5)
      case 6 => Enumerator(Path(Newlstat), 6)
      case 7 => Enumerator(Event(Poll), 7)
      case 8 => Enumerator(Io(Lseek), 8)
      case 9 => Enumerator(Mem(Mmap), 9)
      case 10 => Enumerator(Mem(Mprotect), 10)
      case 11 => Enumerator(Mem(Munmap), 11)
      case 12 => Enumerator(Mem(Brk), 12)
      case 13 => Enumerator(Sig(RtSigaction), 13)
      case 14 => Enumerator(Sig(RtSigprocmask), 14)
      case _ => Enumerator(Sig(RtSigreturn), 15)
    else if i < 32 then
      match i
      case 16 => Enumerator(Io(Ioctl), 16)
      case 17 => Enumerator(Io(Pread64), 17)
      case 18 => Enumerator(Io(Pwrite64), 18)
      case 19 => Enumerator(Io(Readv), 19)
      case 20 => Enumerator(Io(Writev), 20)
      case 21 => Enumerator(Path(Access), 21)
      case 22 => Enumerator(Io(Pipe), 22)
      case 23 => Enumerator(Event(Select), 23)
      case 24 => Enumerator(Sched(SchedYield), 24)
      case 25 => Enumerator(Mem(Mremap), 25)
      case 26 => Enumerator(Mem(Msync), 26)
      case 27 => Enumerator(Mem(Mincore), 27)
      case 28 => Enumerator(Mem(Madvise), 28)
      case 29 => Enumerator(Ipc(Shmget), 29)
      case 30 => Enumerator(Ipc(Shmat), 30)
      case _ => Enumerator(Ipc(Shmctl), 31)
    else if i < 48 then
      match i
      case 32 => Enumerator(Io(Dup), 32)
      case 33 => Enumerator(Io(Dup2), 33)
      case 34 => Enumerator(Sig(Pause), 34)
      case 35 => Enumerator(Clock(Nanosleep), 35)
      case 36 => Enumerator(Clock(Getitimer), 36)
      case 37 => Enumerator(Clock(Alarm), 37)
      case 38 => Enumerator(Clock(Setitimer), 38)
      case 39 => Enumerator(Proc(Getpid), 39)
      case 40 => Enumerator(Io(Sendfile64), 40)
      case 41 => Enumerator(Net(Socket), 41)
      case 42 => Enumerator(Net(Connect), 42)
      case 43 => Enumerator(Net(Accept), 43)
      case 44 => Enumerator(Net(Sendto), 44)
      case 45 => Enumerator(Net(Recvfrom), 45)
      case 46 => Enumerator(Net(Sendmsg), 46)
      case _ => Enumerator(Net(Recvmsg), 47)
    else if i < 64 then
      match i
      case 48 => Enumerator(Net(Shutdown), 48)
      case 49 => Enumerator(Net(Bind), 49)
      case 50 => Enumerator(Net(Listen), 50)
      case 51 => Enumerator(Net(Getsockname), 51)
      case 52 => Enumerator(Net(Getpeername), 52)
      case 53 => Enumerator(Net(Socketpair), 53)
      case 54 => Enumerator(Net(Setsockopt), 54)
      case 55 => Enumerator(Net(Getsockopt), 55)
      case 56 => Enumerator(Proc(Clone), 56)
      case 57 => Enumerator(Proc(Fork), 57)
      case 58 => Enumerator(Proc(Vfork), 58)
      case 59 => Enumerator(Proc(Execve), 59)
      case 60 => Enumerator(Proc(Exit), 60)
      case 61 => Enumerator(Proc(Wait4), 61)
      case 62 => Enumerator(Proc(Kill), 62)
      case _ => Enumerator(Admin(Uname), 63)
    else if i < 80 then
      match i
      case 64 => Enumerator(Ipc(Semget), 64)
      case 65 => Enumerator(Ipc(Semop), 65)
      case 66 => Enumerator(Ipc(Semctl), 66)
      case 67 => Enumerator(Ipc(Shmdt), 67)
      case 68 => Enumerator(Ipc(Msgget), 68)
      case 69 => Enumerator(Ipc(Msgsnd), 69)
      case 70 => Enumerator(Ipc(Msgrcv), 70)
      case 71 => Enumerator(Ipc(Msgctl), 71)
      case 72 => Enumerator(Io(Fcntl), 72)
      case 73 => Enumerator(Io(Flock), 73)
      case 74 => Enumerator(Io(Fsync), 74)
      case 75 => Enumerator(Io(Fdatasync), 75)
      case 76 => Enumerator(Path(Truncate), 76)
      case 77 => Enumerator(Path(Ftruncate), 77)
      case 78 => Enumerator(Path(Getdents), 78)
      case _ => Enumerator(Path(Getcwd), 79)
    else if i < 96 then
      match i
      case 80 => Enumerator(Path(Chdir), 80)
      case 81 => Enumerator(Path(Fchdir), 81)
      case 82 => Enumerator(Path(Rename), 82)
      case 83 => Enumerator(Path(Mkdir), 83)
      case 84 => Enumerator(Path(Rmdir), 84)
      case 85 => Enumerator(Io(Creat), 85)
      case 86 => Enumerator(Path(Link), 86)
      case 87 => Enumerator(Path(Unlink), 87)
      case 88 => Enumerator(Path(Symlink), 88)
      case 89 => Enumerator(Path(Readlink), 89)
      case 90 => Enumerator(Path(Chmod), 90)
      case 91 => Enumerator(Path(Fchmod), 91)
      case 92 => Enumerator(Path(Chown), 92)
      case 93 => Enumerator(Path(Fchown), 93)
      case 94 => Enumerator(Path(Lchown), 94)
      case _ => Enumerator(Path(Umask), 95)
    else if i < 112 then
      match i
      case 96 => Enumerator(Clock(Gettimeofday), 96)
      case 97 => Enumerator(Cred(Getrlimit), 97)
      case 98 => Enumerator(Cred(Getrusage), 98)
      case 99 => Enumerator(Admin(Sysinfo), 99)
      case 100 => Enumerator(Cred(Times), 100)
      case 101 => Enumerator(Proc(Ptrace), 101)
      case 102 => Enumerator(Cred(Getuid), 102)
      case 103 => Enumerator(Admin(Syslog), 103)
      case 104 => Enumerator(Cred(Getgid), 104)
      case 105 => Enumerator(Cred(Setuid), 105)
      case 106 => Enumerator(Cred(Setgid), 106)
      case 107 => Enumerator(Cred(Geteuid), 107)
      case 108 => Enumerator(Cred(Getegid), 108)
      case 109 => Enumerator(Proc(Setpgid), 109)
      case 110 => Enumerator(Proc(Getppid), 110)
      case _ => Enumerator(Proc(Getpgrp), 111)
    else if i < 128 then
      match i
      case 112 => Enumerator(Proc(Setsid), 112)
      case 113 => Enumerator(Cred(Setreuid), 113)
      case 114 => Enumerator(Cred(Setregid), 114)
      case 115 => Enumerator(Cred(Getgroups), 115)
      case 116 => Enumerator(Cred(Setgroups), 116)
      case 117 => Enumerator(Cred(Setresuid), 117)
      case 118 => Enumerator(Cred(Getresuid), 118)
      case 119 => Enumerator(Cred(Setresgid), 119)
      case 120 => Enumerator(Cred(Getresgid), 120)
      case 121 => Enumerator(Proc(Getpgid), 121)
      case 122 => Enumerator(Cred(Setfsuid), 122)
      case 123 => Enumerator(Cred(Setfsgid), 123)
      case 124 => Enumerator(Proc(Getsid), 124)
      case 125 => Enumerator(Cred(Capget), 125)
      case 126 => Enumerator(Cred(Capset), 126)
      case _ => Enumerator(Sig(RtSigpending), 127)
    else if i < 144 then
      match i
      case 128 => Enumerator(Sig(RtSigtimedwait), 128)
      case 129 => Enumerator(Sig(RtSigqueueinfo), 129)
      case 130 => Enumerator(Sig(RtSigsuspend), 130)
      case 131 => Enumerator(Sig(Sigaltstack), 131)
      case 132 => Enumerator(Path(Utime), 132)
      case 133 => Enumerator(Path(Mknod), 133)
      case 134 => Enumerator(Proc(Personality), 135)
      case 135 => Enumerator(Fs(Ustat), 136)
      case 136 => Enumerator(Fs(Statfs), 137)
      case 137 => Enumerator(Fs(Fstatfs), 138)
      case 138 => Enumerator(Fs(Sysfs), 139)
      case 139 => Enumerator(Sched(Getpriority), 140)
      case 140 => Enumerator(Sched(Setpriority), 141)
      case 141 => Enumerator(Sched(SchedSetparam), 142)
      case 142 => Enumerator(Sched(SchedGetparam), 143)
      case _ => Enumerator(Sched(SchedSetscheduler), 144)
    else if i < 160 then
      match i
      case 144 => Enumerator(Sched(SchedGetscheduler), 145)
      case 145 => Enumerator(Sched(SchedGetPriorityMax), 146)
      case 146 => Enumerator(Sched(SchedGetPriorityMin), 147)
      case 147 => Enumerator(Sched(SchedRrGetInterval), 148)
      case 148 => Enumerator(Mem(Mlock), 149)
      case 149 => Enumerator(Mem(Munlock), 150)
      case 150 => Enumerator(Mem(Mlockall), 151)
      case 151 => Enumerator(Mem(Munlockall), 152)
      case 152 => Enumerator(Admin(Vhangup), 153)
      case 153 => Enumerator(Proc(ModifyLdt), 154)
      case 154 => Enumerator(Fs(PivotRoot), 155)
      case 155 => Enumerator(Admin(Sysctl), 156)
      case 156 => Enumerator(Proc(Prctl), 157)
      case 157 => Enumerator(Proc(ArchPrctl), 158)
      case 158 => Enumerator(Clock(Adjtimex), 159)
      case _ => Enumerator(Cred(Setrlimit), 160)
    else if i < 176 then
      match i
      case 160 => Enumerator(Fs(Chroot), 161)
      case 161 => Enumerator(Io(Sync), 162)
      case 162 => Enumerator(Admin(Acct), 163)
      case 163 => Enumerator(Clock(Settimeofday), 164)
      case 164 => Enumerator(Fs(Mount), 165)
      case 165 => Enumerator(Fs(Umount), 166)
      case 166 => Enumerator(Fs(Swapon), 167)
      case 167 => Enumerator(Fs(Swapoff), 168)
      case 168 => Enumerator(Admin(Reboot), 169)
      case 169 => Enumerator(Admin(Sethostname), 170)
      case 170 => Enumerator(Admin(Setdomainname), 171)
      case 171 => Enumerator(Proc(Iopl), 172)
      case 172 => Enumerator(Proc(Ioperm), 173)
      case 173 => Enumerator(Admin(InitModule), 175)
      case 174 => Enumerator(Admin(DeleteModule), 176)
      case _ => Enumerator(Fs(Quotactl), 179)
    else if i < 192 then
      match i
      case 176 => Enumerator(Fs(Nfsservctl), 180)
      case 177 => Enumerator(Proc(Gettid), 186)
      case 178 => Enumerator(Io(Readahead), 187)
      case 179 => Enumerator(Fs(Setxattr), 188)
      case 180 => Enumerator(Fs(Lsetxattr), 189)
      case 181 => Enumerator(Fs(Fsetxattr), 190)
      case 182 => Enumerator(Fs(Getxattr), 191)
      case 183 => Enumerator(Fs(Lgetxattr), 192)
      case 184 => Enumerator(Fs(Fgetxattr), 193)
      case 185 => Enumerator(Fs(Listxattr), 194)
      case 186 => Enumerator(Fs(Llistxattr), 195)
      case 187 => Enumerator(Fs(Flistxattr), 196)
      case 188 => Enumerator(Fs(Removexattr), 197)
      case 189 => Enumerator(Fs(Lremovexattr), 198)
      case 190 => Enumerator(Fs(Fremovexattr), 199)
      case _ => Enumerator(Proc(Tkill), 200)
    else if i < 208 then
      match i
      case 192 => Enumerator(Clock(Time), 201)
      case 193 => Enumerator(Proc(Futex), 202)
      case 194 => Enumerator(Sched(SchedSetaffinity), 203)
      case 195 => Enumerator(Sched(SchedGetaffinity), 204)
      case 196 => Enumerator(Event(IoSetup), 206)
      case 197 => Enumerator(Event(IoDestroy), 207)
      case 198 => Enumerator(Event(IoGetevents), 208)
      case 199 => Enumerator(Event(IoSubmit), 209)
      case 200 => Enumerator(Event(IoCancel), 210)
      case 201 => Enumerator(Fs(LookupDcookie), 212)
      case 202 => Enumerator(Event(EpollCreate), 213)
      case 203 => Enumerator(Mem(RemapFilePages), 216)
      case 204 => Enumerator(Path(Getdents64), 217)
      case 205 => Enumerator(Proc(SetTidAddress), 218)
      case 206 => Enumerator(Proc(RestartSyscall), 219)
      case _ => Enumerator(Ipc(Semtimedop), 220)
    else if i < 224 then
      match i
      case 208 => Enumerator(Io(Fadvise64), 221)
      case 209 => Enumerator(Clock(TimerCreate), 222)
      case 210 => Enumerator(Clock(TimerSettime), 223)
      case 211 => Enumerator(Clock(TimerGettime), 224)
      case 212 => Enumerator(Clock(TimerGetoverrun), 225)
      case 213 => Enumerator(Clock(TimerDelete), 226)
      case 214 => Enumerator(Clock(ClockSettime), 227)
      case 215 => Enumerator(Clock(ClockGettime), 228)
      case 216 => Enumerator(Clock(ClockGetres), 229)
      case 217 => Enumerator(Clock(ClockNanosleep), 230)
      case 218 => Enumerator(Proc(ExitGroup), 231)
      case 219 => Enumerator(Event(EpollWait), 232)
      case 220 => Enumerator(Event(EpollCtl), 233)
      case 221 => Enumerator(Proc(Tgkill), 234)
      case 222 => Enumerator(Path(Utimes), 235)
      case _ => Enumerator(Mem(Mbind), 237)
    else if i < 240 then
      match i
      case 224 => Enumerator(Mem(SetMempolicy), 238)
      case 225 => Enumerator(Mem(GetMempolicy), 239)
      case 226 => Enumerator(Ipc(MqOpen), 240)
      case 227 => Enumerator(Ipc(MqUnlink), 241)
      case 228 => Enumerator(Ipc(MqTimedsend), 242)
      case 229 => Enumerator(Ipc(MqTimedreceive), 243)
      case 230 => Enumerator(Ipc(MqNotify), 244)
      case 231 => Enumerator(Ipc(MqGetsetattr), 245)
      case 232 => Enumerator(Proc(KexecLoad), 246)
      case 233 => Enumerator(Proc(Waitid), 247)
      case 234 => Enumerator(Admin(AddKey), 248)
      case 235 => Enumerator(Admin(RequestKey), 249)
      case 236 => Enumerator(Admin(Keyctl), 250)
      case 237 => Enumerator(Sched(IoprioSet), 251)
      case 238 => Enumerator(Sched(IoprioGet), 252)
      case _ => Enumerator(Event(InotifyInit), 253)
    else if i < 256 then
      match i
      case 240 => Enumerator(Event(InotifyAddWatch), 254)
      case 241 => Enumerator(Event(InotifyRmWatch), 255)
      case 242 => Enumerator(Mem(MigratePages), 256)
      case 243 => Enumerator(Io(Openat), 257)
      case 244 => Enumerator(Path(Mkdirat), 258)
      case 245 => Enumerator(Path(Mknodat), 259)
      case 246 => Enumerator(Path(Fchownat), 260)
      case 247 => Enumerator(Path(Futimesat), 261)
      case 248 => Enumerator(Path(Newfstatat), 262)
      case 249 => Enumerator(Path(Unlinkat), 263)
      case 250 => Enumerator(Path(Renameat), 264)
      case 251 => Enumerator(Path(Linkat), 265)
      case 252 => Enumerator(Path(Symlinkat), 266)
      case 253 => Enumerator(Path(Readlinkat), 267)
      case 254 => Enumerator(Path(Fchmodat), 268)
      case _ => Enumerator(Path(Faccessat), 269)
    else
      match i
      case 256 => Enumerator(Event(Pselect6), 270)
      case 257 => Enumerator(Event(Ppoll), 271)
      case 258 => Enumerator(Proc(Unshare), 272)
      case 259 => Enumerator(Proc(SetRobustList), 273)
      case 260 => Enumerator(Proc(GetRobustList), 274)
      case 261 => Enumerator(Io(Splice), 275)
      case 262 => Enumerator(Io(Tee), 276)
      case 263 => Enumerator(Io(SyncFileRange), 277)
      case 264 => Enumerator(Io(Vmsplice), 278)
      case 265 => Enumerator(Mem(MovePages), 279)
      case 266 => Enumerator(Io(Pipe2), 293)
      case _ => Enumerator(Admin(Getrandom), 318)
  }

  /** `enum amd64_syscall` as declared: its enumerators in source order. */
  function NativeDeclaration(): seq<Enumerator>
  {
    seq(NativeEnumeratorCount, i requires 0 <= i < NativeEnumeratorCount => NativeEntry(i))
  }

  /** The position in the declaration of the enumerator with value `n`: `n`
      less the number of gaps below it. */
  function NativePosition(n: nat): nat
  {
    if n < 135 then n
    else if n < 175 then n - 1
    else if n < 179 then n - 2
    else if n < 186 then n - 4
    else if n < 206 then n - 9
    else if n < 212 then n - 10
    else if n < 216 then n - 11
    else if n < 237 then n - 13
    else if n < 293 then n - 14
    else if n < 318 then n - 27
    else n - 51
  }

  /** The enumerator at position `i` is the one the decoder gives for its value, and the
      next enumerator, if any, has a larger value. */
  predicate NativeEntryFacts(i: nat)
    requires i < NativeEnumeratorCount
  {
    && DecodeNative(NativeEntry(i).value) == Some(NativeEntry(i).name)
    && (i + 1 < NativeEnumeratorCount ==> NativeEntry(i).value < NativeEntry(i + 1).value)
  }

  /** If `n` decodes to `s`, the declaration lists `s` with value `n` at
      position `NativePosition(n)`. */
  predicate NativePositioned(n: nat, s: Syscall)
  {
    DecodeNative(n) == Some(s) ==>
      && NativePosition(n) < NativeEnumeratorCount
      && NativeEntry(NativePosition(n)) == Enumerator(s, n)
  }

  // The native declaration agrees with the decoder and increases at positions `lo` to `hi`.
  // Each `NativeDeclared<lo>To<hi>` covers one small range, so that each proof
  // stays cheap.

  lemma NativeDeclared0To7(i: int)
    requires 0 <= i < 8
    ensures NativeEntryFacts(i)
  {
  }

  lemma NativeDeclared8To15(i: int)
    requires 8 <= i < 16
    ensures NativeEntryFacts(i)
  {
  }

  lemma NativeDeclared16To23(i: int)
    requires 16 <= i < 24
    ensures NativeEntryFacts(i)
  {
  }

  lemma NativeDeclared24To31(i: int)
    requires 24 <= i < 32
    ensures NativeEntryFacts(i)
  {
  }

  lemma NativeDeclared32To39(i: int)
    requires 32 <= i < 40
    ensures NativeEntryFacts(i)
  {
  }

  lemma NativeDeclared40To47(i: int)
    requires 40 <= i < 48
    ensures NativeEntryFacts(i)
  {
  }

  lemma NativeDeclared48To55(i: int)
    requires 48 <= i < 56
    ensures NativeEntryFacts(i)
  {
  }

  lemma NativeDeclared56To63(i: int)
    requires 56 <= i < 64
    ensures NativeEntryFacts(i)
  {
  }

  lemma NativeDeclared64To71(i: int)
    requires 64 <= i < 72
    ensures NativeEntryFacts(i)
  {
  }

  lemma NativeDeclared72To79(i: int)
    requires 72 <= i < 80
    ensures NativeEntryFacts(i)
  {
  }

  lemma NativeDeclared80To87(i: int)
    requires 80 <= i < 88
    ensures NativeEntryFacts(i)
  {
  }

  lemma NativeDeclared88To95(i: int)
    requires 88 <= i < 96
    ensures NativeEntryFacts(i)
  {
  }

  lemma NativeDeclared96To103(i: int)
    requires 96 <= i < 104
    ensures NativeEntryFacts(i)
  {
  }

  lemma NativeDeclared104To111(i: int)
    requires 104 <= i < 112
    ensures NativeEntryFacts(i)
  {
  }

  lemma NativeDeclared112To119(i: int)
    requires 112 <= i < 120
    ensures NativeEntryFacts(i)
  {
  }

  lemma NativeDeclared120To127(i: int)
    requires 120 <= i < 128
    ensures NativeEntryFacts(i)
  {
  }

  lemma NativeDeclared128To135(i: int)
    requires 128 <= i < 136
    ensures NativeEntryFacts(i)
  {
  }

  lemma NativeDeclared136To143(i: int)
    requires 136 <= i < 144
    ensures NativeEntryFacts(i)
  {
  }

  lemma NativeDeclared144To151(i: int)
    requires 144 <= i < 152
    ensures NativeEntryFacts(i)
  {
  }

  lemma NativeDeclared152To159(i: int)
    requires 152 <= i < 160
    ensures NativeEntryFacts(i)
  {
  }

  lemma NativeDeclared160To167(i: int)
    requires 160 <= i < 168
    ensures NativeEntryFacts(i)
  {
  }

  lemma NativeDeclared168To175(i: int)
    requires 168 <= i < 176
    ensures NativeEntryFacts(i)
  {
  }

  lemma NativeDeclared176To183(i: int)
    requires 176 <= i < 184
    ensures NativeEntryFacts(i)
  {
  }

  lemma NativeDeclared184To191(i: int)
    requires 184 <= i < 192
    ensures NativeEntryFacts(i)
  {
  }

  lemma NativeDeclared192To199(i: int)
    requires 192 <= i < 200
    ensures NativeEntryFacts(i)
  {
  }

  lemma NativeDeclared200To207(i: int)
    requires 200 <= i < 208
    ensures NativeEntryFacts(i)
  {
  }

  lemma NativeDeclared208To215(i: int)
    requires 208 <= i < 216
    ensures NativeEntryFacts(i)
  {
  }

  lemma NativeDeclared216To223(i: int)
    requires 216 <= i < 224
    ensures NativeEntryFacts(i)
  {
  }

  lemma NativeDeclared224To231(i: int)
    requires 224 <= i < 232
    ensures NativeEntryFacts(i)
  {
  }

  lemma NativeDeclared232To239(i: int)
    requires 232 <= i < 240
    ensures NativeEntryFacts(i)
  {
  }

  lemma NativeDeclared240To247(i: int)
    requires 240 <= i < 248
    ensures NativeEntryFacts(i)
  {
  }

  lemma NativeDeclared248To255(i: int)
    requires 248 <= i < 256
    ensures NativeEntryFacts(i)
  {
  }

  lemma NativeDeclared256To263(i: int)
    requires 256 <= i < 264
    ensures NativeEntryFacts(i)
  {
  }

  lemma NativeDeclared264To267(i: int)
    requires 264 <= i < 268
    ensures NativeEntryFacts(i)
  {
  }

  // The native declaration lists the decoded name at the numbers `lo` to `hi`.
  // Each `NativePositions<lo>To<hi>` covers one small range, so that each proof
  // stays cheap.

  lemma NativePositions0To7(n: nat, s: Syscall)
    requires 0 <= n < 8
    ensures NativePositioned(n, s)
  {
  }

  lemma NativePositions8To15(n: nat, s: Syscall)
    requires 8 <= n < 16
    ensures NativePositioned(n, s)
  {
  }

  lemma NativePositions16To23(n: nat, s: Syscall)
    requires 16 <= n < 24
    ensures NativePositioned(n, s)
  {
  }

  lemma NativePositions24To31(n: nat, s: Syscall)
    requires 24 <= n < 32
    ensures NativePositioned(n, s)
  {
  }

  lemma NativePositions32To39(n: nat, s: Syscall)
    requires 32 <= n < 40
    ensures NativePositioned(n, s)
  {
  }

  lemma NativePositions40To47(n: nat, s: Syscall)
    requires 40 <= n < 48
    ensures NativePositioned(n, s)
  {
  }

  lemma NativePositions48To55(n: nat, s: Syscall)
    requires 48 <= n < 56
    ensures NativePositioned(n, s)
  {
  }

  lemma NativePositions56To63(n: nat, s: Syscall)
    requires 56 <= n < 64
    ensures NativePositioned(n, s)
  {
  }

  lemma NativePositions64To71(n: nat, s: Syscall)
    requires 64 <= n < 72
    ensures NativePositioned(n, s)
  {
  }

  lemma NativePositions72To79(n: nat, s: Syscall)
    requires 72 <= n < 80
    ensures NativePositioned(n, s)
  {
  }

  lemma NativePositions80To87(n: nat, s: Syscall)
    requires 80 <= n < 88
    ensures NativePositioned(n, s)
  {
  }

  lemma NativePositions88To95(n: nat, s: Syscall)
    requires 88 <= n < 96
    ensures NativePositioned(n, s)
  {
  }

  lemma NativePositions96To103(n: nat, s: Syscall)
    requires 96 <= n < 104
    ensures NativePositioned(n, s)
  {
  }

  lemma NativePositions104To111(n: nat, s: Syscall)
    requires 104 <= n < 112
    ensures NativePositioned(n, s)
  {
  }

  lemma NativePositions112To119(n: nat, s: Syscall)
    requires 112 <= n < 120
    ensures NativePositioned(n, s)
  {
  }

  lemma NativePositions120To127(n: nat, s: Syscall)
    requires 120 <= n < 128
    ensures NativePositioned(n, s)
  {
  }

  lemma NativePositions128To135(n: nat, s: Syscall)
    requires 128 <= n < 136
    ensures NativePositioned(n, s)
  {
  }

  lemma NativePositions136To143(n: nat, s: Syscall)
    requires 136 <= n < 144
    ensures NativePositioned(n, s)
  {
  }

  lemma NativePositions144To151(n: nat, s: Syscall)
    requires 144 <= n < 152
    ensures NativePositioned(n, s)
  {
  }

  lemma NativePositions152To159(n: nat, s: Syscall)
    requires 152 <= n < 160
    ensures NativePositioned(n, s)
  {
  }

  lemma NativePositions160To167(n: nat, s: Syscall)
    requires 160 <= n < 168
    ensures NativePositioned(n, s)
  {
  }

  lemma NativePositions168To175(n: nat, s: Syscall)
    requires 168 <= n < 176
    ensures NativePositioned(n, s)
  {
  }

  lemma NativePositions176To183(n: nat, s: Syscall)
    requires 176 <= n < 184
    ensures NativePositioned(n, s)
  {
  }

  lemma NativePositions184To191(n: nat, s: Syscall)
    requires 184 <= n < 192
    ensures NativePositioned(n, s)
  {
  }

  lemma NativePositions192To199(n: nat, s: Syscall)
    requires 192 <= n < 200
    ensures NativePositioned(n, s)
  {
  }

  lemma NativePositions200To207(n: nat, s: Syscall)
    requires 200 <= n < 208
    ensures NativePositioned(n, s)
  {
  }

  lemma NativePositions208To215(n: nat, s: Syscall)
    requires 208 <= n < 216
    ensures NativePositioned(n, s)
  {
  }

  lemma NativePositions216To223(n: nat, s: Syscall)
    requires 216 <= n < 224
    ensures NativePositioned(n, s)
  {
  }

  lemma NativePositions224To231(n: nat, s: Syscall)
    requires 224 <= n < 232
    ensures NativePositioned(n, s)
  {
  }

  lemma NativePositions232To239(n: nat, s: Syscall)
    requires 232 <= n < 240
    ensures NativePositioned(n, s)
  {
  }

  lemma NativePositions240To247(n: nat, s: Syscall)
    requires 240 <= n < 248
    ensures NativePositioned(n, s)
  {
  }

  lemma NativePositions248To255(n: nat, s: Syscall)
    requires 248 <= n < 256
    ensures NativePositioned(n, s)
  {
  }

  lemma NativePositions256To263(n: nat, s: Syscall)
    requires 256 <= n < 264
    ensures NativePositioned(n, s)
  {
  }

  lemma NativePositions264To271(n: nat, s: Syscall)
    requires 264 <= n < 272
    ensures NativePositioned(n, s)
  {
  }

  lemma NativePositions272To279(n: nat, s: Syscall)
    requires 272 <= n < 280
    ensures NativePositioned(n, s)
  {
  }

  lemma NativePositions280To287(n: nat, s: Syscall)
    requires 280 <= n < 288
    ensures NativePositioned(n, s)
  {
  }

  lemma NativePositions288To295(n: nat, s: Syscall)
    requires 288 <= n < 296
    ensures NativePositioned(n, s)
  {
  }

  lemma NativePositions296To303(n: nat, s: Syscall)
    requires 296 <= n < 304
    ensures NativePositioned(n, s)
  {
  }

  lemma NativePositions304To311(n: nat, s: Syscall)
    requires 304 <= n < 312
    ensures NativePositioned(n, s)
  {
  }

  lemma NativePositions312To319(n: nat, s: Syscall)
    requires 312 <= n < 320
    ensures NativePositioned(n, s)
  {
  }

  /** Each enumerator of the declaration is the one the encoder gives, and
      the values increase in source order. */
  lemma NativeDeclarationFacts(i: nat)
    requires i < NativeEnumeratorCount
    ensures NativeEntryFacts(i)
  {
    if i < 8 {
      NativeDeclared0To7(i);
    } else if i < 16 {
      NativeDeclared8To15(i);
    } else if i < 24 {
      NativeDeclared16To23(i);
    } else if i < 32 {
      NativeDeclared24To31(i);
    } else if i < 40 {
      NativeDeclared32To39(i);
    } else if i < 48 {
      NativeDeclared40To47(i);
    } else if i < 56 {
      NativeDeclared48To55(i);
    } else if i < 64 {
      NativeDeclared56To63(i);
    } else if i < 72 {
      NativeDeclared64To71(i);
    } else if i < 80 {
      NativeDeclared72To79(i);
    } else if i < 88 {
      NativeDeclared80To87(i);
    } else if i < 96 {
      NativeDeclared88To95(i);
    } else if i < 104 {
      NativeDeclared96To103(i);
    } else if i < 112 {
      NativeDeclared104To111(i);
    } else if i < 120 {
      NativeDeclared112To119(i);
    } else if i < 128 {
      NativeDeclared120To127(i);
    } else if i < 136 {
      NativeDeclared128To135(i);
    } else if i < 144 {
      NativeDeclared136To143(i);
    } else if i < 152 {
      NativeDeclared144To151(i);
    } else if i < 160 {
      NativeDeclared152To159(i);
    } else if i < 168 {
      NativeDeclared160To167(i);
    } else if i < 176 {
      NativeDeclared168To175(i);
    } else if i < 184 {
      NativeDeclared176To183(i);
    } else if i < 192 {
      NativeDeclared184To191(i);
    } else if i < 200 {
      NativeDeclared192To199(i);
    } else if i < 208 {
      NativeDeclared200To207(i);
    } else if i < 216 {
      NativeDeclared208To215(i);
    } else if i < 224 {
      NativeDeclared216To223(i);
    } else if i < 232 {
      NativeDeclared224To231(i);
    } else if i < 240 {
      NativeDeclared232To239(i);
    } else if i < 248 {
      NativeDeclared240To247(i);
    } else if i < 256 {
      NativeDeclared248To255(i);
    } else if i < 264 {
      NativeDeclared256To263(i);
    } else {
      NativeDeclared264To267(i);
    }
  }

  /** The declaration lists its enumerators in increasing order of value. */
  lemma NativeDeclarationIncreasing()
    ensures Increasing(NativeDeclaration())
  {
    forall i | 0 <= i < |NativeDeclaration()| - 1
      ensures NativeDeclaration()[i].value < NativeDeclaration()[i + 1].value
    {
      NativeDeclarationFacts(i);
    }
  }

  /** Every number the decoder maps is found, with the same name, by a scan
      of the declaration. */
  lemma NativeDeclarationListsDecoded(n: nat)
    ensures DecodeNative(n).Some? ==> Lookup(NativeDeclaration(), n) == DecodeNative(n)
  {
    if DecodeNative(n).Some? {
      NativeDeclarationIncreasing();
      NativeUnmappedIff(n);
      var s := DecodeNative(n).value;
      if n < 8 {
        NativePositions0To7(n, s);
      } else if n < 16 {
        NativePositions8To15(n, s);
      } else if n < 24 {
        NativePositions16To23(n, s);
      } else if n < 32 {
        NativePositions24To31(n, s);
      } else if n < 40 {
        NativePositions32To39(n, s);
      } else if n < 48 {
        NativePositions40To47(n, s);
      } else if n < 56 {
        NativePositions48To55(n, s);
      } else if n < 64 {
        NativePositions56To63(n, s);
      } else if n < 72 {
        NativePositions64To71(n, s);
      } else if n < 80 {
        NativePositions72To79(n, s);
      } else if n < 88 {
        NativePositions80To87(n, s);
      } else if n < 96 {
        NativePositions88To95(n, s);
      } else if n < 104 {
        NativePositions96To103(n, s);
      } else if n < 112 {
        NativePositions104To111(n, s);
      } else if n < 120 {
        NativePositions112To119(n, s);
      } else if n < 128 {
        NativePositions120To127(n, s);
      } else if n < 136 {
        NativePositions128To135(n, s);
      } else if n < 144 {
        NativePositions136To143(n, s);
      } else if n < 152 {
        NativePositions144To151(n, s);
      } else if n < 160 {
        NativePositions152To159(n, s);
      } else if n < 168 {
        NativePositions160To167(n, s);
      } else if n < 176 {
        NativePositions168To175(n, s);
      } else if n < 184 {
        NativePositions176To183(n, s);
      } else if n < 192 {
        NativePositions184To191(n, s);
      } else if n < 200 {
        NativePositions192To199(n, s);
      } else if n < 208 {
        NativePositions200To207(n, s);
      } else if n < 216 {
        NativePositions208To215(n, s);
      } else if n < 224 {
        NativePositions216To223(n, s);
      } else if n < 232 {
        NativePositions224To231(n, s);
      } else if n < 240 {
        NativePositions232To239(n, s);
      } else if n < 248 {
        NativePositions240To247(n, s);
      } else if n < 256 {
        NativePositions248To255(n, s);
      } else if n < 264 {
        NativePositions256To263(n, s);
      } else if n < 272 {
        NativePositions264To271(n, s);
      } else if n < 280 {
        NativePositions272To279(n, s);
      } else if n < 288 {
        NativePositions280To287(n, s);
      } else if n < 296 {
        NativePositions288To295(n, s);
      } else if n < 304 {
        NativePositions296To303(n, s);
      } else if n < 312 {
        NativePositions304To311(n, s);
      } else {
        NativePositions312To319(n, s);
      }
      LookupFinds(NativeDeclaration(), NativePosition(n));
    }
  }

  /** Every number a scan of the declaration finds is mapped by the decoder
      to the same name. */
  lemma NativeDeclarationOnlyDecoded(n: nat)
    ensures Lookup(NativeDeclaration(), n).Some? ==> DecodeNative(n) == Lookup(NativeDeclaration(), n)
  {
    if Lookup(NativeDeclaration(), n).Some? {
      var s := Lookup(NativeDeclaration(), n).value;
      var i :| 0 <= i < |NativeDeclaration()| && NativeDeclaration()[i] == Enumerator(s, n);
      NativeDeclarationFacts(i);
    }
  }

  /** The decoder answers what a scan of the declaration in source order
      answers, for every number. */
  lemma NativeDecodeIsLookup(n: nat)
    ensures DecodeNative(n) == Lookup(NativeDeclaration(), n)
  {
    NativeDeclarationListsDecoded(n);
    NativeDeclarationOnlyDecoded(n);
  }
}
