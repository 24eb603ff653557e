/**
 * The serial port (SB data, SC control). There is no link partner: a transfer requested with
 * the internal clock completes at the next update, and the sent byte is latched for the host
 * to collect.
 */
module Serial {
  import opened Wrappers

  datatype SerialState = SerialState(data: bv8, control: bv8, byte: Option<bv8>)

  /** `update`: control 0x81 (start, internal clock) latches the data byte and drops the start bit. */
  function Updated(s: SerialState): (r: SerialState)
    ensures s.control == 0x81 ==> r == SerialState(s.data, 0x01, Some(s.data))
    ensures s.control != 0x81 ==> r == s
  {
    if s.control == 0x81 then s.(control := 0x01, byte := Some(s.data)) else s
  }

  /** A transfer completes once: a second update right after the first changes nothing. */
  lemma UpdateIdempotent(s: SerialState)
    ensures Updated(Updated(s)) == Updated(s)
  {
  }

  /** Once the byte is collected, the next update leaves the latch empty unless a new transfer was requested. */
  lemma NoTransferNoByte(data: bv8, control: bv8)
    requires control != 0x81
    ensures Updated(SerialState(data, control, None)).byte == None
  {
  }

  class SerialTransfer {
    var data: bv8
    var control: bv8
    var byte: Option<bv8>

    function State(): SerialState
      reads this
    {
      SerialState(data, control, byte)
    }

    constructor ()
      ensures State() == SerialState(0, 0x7E, None)
    {
      data, control, byte := 0, 0x7E, None;
    }

    method Update()
      modifies this
      ensures State() == Updated(old(State()))
    {
      if control == 0x81 {
        control := 0x01;
        byte := Some(data);
      }
    }

    /** Hands out the latched byte, if any, and empties the latch. */
    method TakeByte() returns (r: Option<bv8>)
      modifies this`byte
      ensures r == old(byte) && byte == None
    {
      r := byte;
      byte := None;
    }
  }

  /** Taking the byte twice in a row gives it once, then nothing. */
  method TakeTwice(port: SerialTransfer) returns (first: Option<bv8>, second: Option<bv8>)
    modifies port
    ensures first == old(port.byte) && second == None
  {
    first := port.TakeByte();
    second := port.TakeByte();
  }
}
