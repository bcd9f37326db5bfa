/** The register numbering GNU/Linux adds on top of the amd64 register file:
    one extra register, `orig_rax`, that controls system call restarting. */
module LinuxRegisters {
  import opened Wrappers

  /** `AMD64_LINUX_ORIG_RAX_REGNUM`, given the number of the last
      architectural register `AMD64_GSBASE_REGNUM`, whose value is defined
      outside this header. */
  function OrigRaxRegnum(gsbaseRegnum: nat): nat
  {
    gsbaseRegnum + 1
  }

  /** `AMD64_LINUX_NUM_REGS`: the size of the GNU/Linux register file. */
  function NumRegs(gsbaseRegnum: nat): nat
  {
    OrigRaxRegnum(gsbaseRegnum) + 1
  }

  /** The register numbers that exist on GNU/Linux are exactly the
      architectural ones, up to and including `gsbase`, and `orig_rax`;
      `orig_rax` is the last of them and no architectural register. */
  lemma OrigRaxIsLastRegister(gsbaseRegnum: nat, regnum: nat)
    ensures regnum < NumRegs(gsbaseRegnum) <==>
      (regnum <= gsbaseRegnum || regnum == OrigRaxRegnum(gsbaseRegnum))
    ensures OrigRaxRegnum(gsbaseRegnum) == NumRegs(gsbaseRegnum) - 1
    ensures OrigRaxRegnum(gsbaseRegnum) > gsbaseRegnum
  {
  }

  /** The 64-bit contents of a register read as a two's-complement signed
      value. */
  function AsSigned64(bits: nat): (v: int)
    requires bits < 0x1_0000_0000_0000_0000
    ensures -0x8000_0000_0000_0000 <= v < 0x8000_0000_0000_0000
    ensures (v - bits) % 0x1_0000_0000_0000_0000 == 0
  {
    if bits < 0x8000_0000_0000_0000 then bits else bits - 0x1_0000_0000_0000_0000
  }

  /** The system call the kernel is to restart, given the contents of
      `orig_rax`: the stored number when it is non-negative, nothing
      otherwise. */
  function PendingRestart(origRax: nat): (r: Option<nat>)
    requires origRax < 0x1_0000_0000_0000_0000
    ensures r.Some? <==> origRax < 0x8000_0000_0000_0000
    ensures r.Some? ==> r.value == origRax
  {
    var v := AsSigned64(origRax);
    if v >= 0 then Some(v) else None
  }

  /** The value the kernel stores when it does not intend to restart
      anything, -1 as 64 bits, means "no restart". */
  lemma MinusOneMeansNoRestart()
    ensures PendingRestart(0xFFFF_FFFF_FFFF_FFFF) == None
    ensures AsSigned64(0xFFFF_FFFF_FFFF_FFFF) == -1
  {
  }

  /** The target descriptions the header declares, one per ABI and set of
      enabled register extensions. They are only named here; their register
      lists are defined elsewhere. */
  datatype LinuxTargetDescription =
    | Amd64Linux | Amd64AvxLinux | Amd64MpxLinux | Amd64AvxMpxLinux
    | Amd64AvxAvx512Linux | Amd64AvxMpxAvx512PkuLinux
    | X32Linux | X32AvxLinux | X32AvxAvx512Linux
}
