/** The core requirements of an atom, as flags, and the masks that several files of the driver use. */
module CoreReqs {
  type CoreReq = bv32

  const REQ_FS: CoreReq := 0x1
  const REQ_CS: CoreReq := 0x2
  const REQ_T: CoreReq := 0x4
  const REQ_EVENT_COALESCE: CoreReq := 0x20
  const REQ_COHERENT_GROUP: CoreReq := 0x40
  const REQ_EXTERNAL_RESOURCES: CoreReq := 0x100
  const REQ_SOFT_JOB: CoreReq := 0x200
  const REQ_ONLY_COMPUTE: CoreReq := 0x400
  const REQ_SPECIFIC_COHERENT_GROUP: CoreReq := 0x800
  const REQ_EVENT_ONLY_ON_FAILURE: CoreReq := 0x1000
  const REQ_EVENT_NEVER: CoreReq := 0x4000

  const REQ_ATOM_TYPE: CoreReq := 0x61F
  const REQ_SOFT_JOB_TYPE: CoreReq := 0x21F
  const REQ_SOFT_FENCE_WAIT: CoreReq := 0x203
  const REQ_SOFT_REPLAY: CoreReq := 0x204

  predicate Bit(r: CoreReq, n: nat)
    requires n < 32
  {
    (r >> n) & 1 == 1
  }
}
