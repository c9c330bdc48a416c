/** The build-time constants of the driver. Their values are not fixed: every result holds
    for all of them within the stated types. */
module Config {
  import opened Words

  type AlignedSize = n: nat | PowerOfTwo(n) && n < 0x1000_0000_0000_0000 witness 4096

  const MAX_PAGE_SIZE: AlignedSize
  const STACK_SIZE: AlignedSize

  type TlsSize = n: nat | 0 < n < 0x1000_0000_0000_0000 && n % MAX_PAGE_SIZE == 0 witness MAX_PAGE_SIZE

  const THREAD_LOCAL_STORAGE_SIZE: TlsSize

  const MAX_NUM_MODULES: nat

  /** sizeof(struct thread_context_t) */
  const CONTEXT_SIZE: ObjectSize

  type ObjectSize = n: nat | n < 0x1000_0000_0000_0000

  /** The page size of the UEFI firmware interface. */
  const EFI_PAGE_SIZE: nat := 4096

  /** platform_num_cpus returns a signed 64-bit integer. */
  type CpuCount = n: nat | n < 0x8000_0000_0000_0000
}
