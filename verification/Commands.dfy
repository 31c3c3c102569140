/** SCSI commands as the driver sees them, and the scratch area it keeps in each one. */
module Commands {
  import opened Basics

  const REQUEST_SENSE: byte := 0x03
  const ILLEGAL_STATUS_BYTE: byte := 0xff

  /** One entry of a command's scatter-gather list. */
  datatype Segment = Segment(addr: nat, len: nat)

  /** The `SCp` scratchpad: position in the scatter-gather list, status and message bytes,
      and the disconnect permission (`phase`). */
  datatype Scp = Scp(
    buffer: nat, buffersResidual: nat, ptr: int, thisResidual: nat,
    status: byte, message: byte, phase: bool)

  /** What the driver stores in `result` before it calls `scsi_done`. */
  datatype Result =
    | Ongoing                                // 0
    | NoConnect                              // DID_NO_CONNECT
    | Aborted                                // DID_ABORT
    | WasReset                               // DID_RESET
    | SenseFailed                            // DID_ERROR, for a REQUEST SENSE that did not end GOOD
    | Finished(message: byte, status: byte)  // DID_OK with the message and status bytes

  class Cmd {
    const id: Target
    const lun: Lun
    const opcode: byte          // cmnd[0]
    const toDevice: bool        // sc_data_direction == DMA_TO_DEVICE
    const tape: bool            // device->type == 1
    const sg: seq<Segment>      // empty iff scsi_bufflen(cmd) == 0
    var hostScribble: Cmd?      // link to the next command of the queue this one is in
    var scp: Scp
    var result: Result

    constructor (id: Target, lun: Lun, opcode: byte, toDevice: bool, tape: bool, sg: seq<Segment>)
      ensures this.id == id && this.lun == lun && this.opcode == opcode
      ensures this.toDevice == toDevice && this.tape == tape && this.sg == sg
    {
      this.id, this.lun, this.opcode := id, lun, opcode;
      this.toDevice, this.tape, this.sg := toDevice, tape, sg;
      hostScribble := null;
      scp := Scp(0, 0, 0, 0, 0, 0, false);
      result := Ongoing;
    }
  }

  type Unit = (Target, Lun)

  function UnitOf(c: Cmd): Unit {
    (c.id, c.lun)
  }

  predicate IsSense(c: Cmd) {
    c.opcode == REQUEST_SENSE
  }
}
