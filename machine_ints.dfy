/** The fixed-width integer types of the firmware, as subsets of Dafny's unbounded `int`. */
module MachineInts {

  const TWO_16: int := 0x1_0000
  const TWO_32: int := 0x1_0000_0000

  type uint8 = x: int | 0 <= x < 0x100
  type uint16 = x: int | 0 <= x < 0x1_0000
  type uint32 = x: int | 0 <= x < 0x1_0000_0000
  type int32 = x: int | -0x8000_0000 <= x < 0x8000_0000
}
