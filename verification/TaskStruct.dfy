/** Where the fields of struct task_struct lie in a PCB. */
module TaskStructs {
  // self_kstack and pid come first; pid is padded to 4 bytes, priority and ticks to 4 together.
  const STATUS := 8
  const NAME := STATUS + 4
  const PRIORITY := NAME + 16
  const ELAPSED := PRIORITY + 4
  const GENERAL_TAG := ELAPSED + 4
  const ALL_TAG := GENERAL_TAG + 8
  const PGDIR := ALL_TAG + 8
  const VADDR := PGDIR + 4
  const U_DESCS := VADDR + 12
  const STACK_MAGIC := U_DESCS + 7 * 24

  lemma Offsets()
    ensures GENERAL_TAG == 36 && ALL_TAG == 44 && U_DESCS == 68 && STACK_MAGIC == 236
  {
  }
}
