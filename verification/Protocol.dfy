/** Numbers of the IPC protocol, as src/pdu.h, src/registry.c and src/dtv_io.c define them. */
module Protocol {
  import opened Base

  const SERVICE_REGISTRY: byte := 0x00
  const SERVICE_DTV: byte := 0x01  // doc/ipc.txt says 0x64

  const PROTOCOL_VERSION: u32 := 1
  const PDU_MAX_NUM_SERVICES := 256
  const PDU_MAX_NUM_OPCODES := 256

  const OPCODE_ERROR: byte := 0x00
  const OPCODE_REGISTER_MODULE: byte := 0x01
  const OPCODE_UNREGISTER_MODULE: byte := 0x02
  const OPCODE_SET_SOURCE: byte := 0x02
  const OPCODE_GET_PROGRAMS: byte := 0x08
  const OPCODE_CHANNEL_SCANNED: byte := 0x81
  const OPCODE_SCANNED_COMPLETE: byte := 0x82
  const OPCODE_SCAN_STOPPED: byte := 0x83
  const OPCODE_EIT_BROADCASTED: byte := 0x84

  const ERROR_NONE: byte := 0
  const ERROR_FAIL: byte := 1
  const ERROR_NOMEM: byte := 3
  const ERROR_UNSUPPORTED: byte := 6
  const ERROR_PARM_INVALID: byte := 7
}
