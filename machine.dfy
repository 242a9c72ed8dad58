/** Machine-level types shared by the kernel components. */
module Machine {

  type u8 = x: int | 0 <= x < 0x100
  type u16 = x: int | 0 <= x < 0x1_0000
  type u32 = x: int | 0 <= x < 0x1_0000_0000

  /** A fatal kernel error (`panic!`, a failed `assert!` or `expect`), with its message. */
  datatype Panic = Panic(message: string)
}
