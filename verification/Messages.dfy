/** Bytes, flag bytes and the generic MQTT message. */
module Messages {
  type byte = b: int | 0 <= b < 256

  /** A message: its first header byte, and everything after the remaining-length field. */
  datatype GenericMessage = GenericMessage(fixedHeader: bv8, body: seq<byte>)

  const CONNECT_TYPE: bv8 := 1
  const CONNACK_TYPE: bv8 := 2
  const PUBLISH_TYPE: bv8 := 3
  const PUBACK_TYPE: bv8 := 4
  const PUBREC_TYPE: bv8 := 5
  const PUBREL_TYPE: bv8 := 6
  const PUBREL_RESERVED: bv8 := 2
  const PUBCOMP_TYPE: bv8 := 7
  const DISCONNECT_TYPE: bv8 := 14

  const RETAIN_BIT: bv8 := 1
  const QOS_ONE: bv8 := 2
  const QOS_TWO: bv8 := 4
  const DUP_BIT: bv8 := 8

  const CLEAN_SESSION_FLAG: bv8 := 2
  const WILL_FLAG: bv8 := 4
  const WILL_QOS_ONE: bv8 := 8
  const WILL_QOS_TWO: bv8 := 16
  const WILL_RETAIN_FLAG: bv8 := 32
  const PASSWORD_FLAG: bv8 := 64
  const USER_NAME_FLAG: bv8 := 128

  function TypeOf(m: GenericMessage): bv8 {
    m.fixedHeader >> 4
  }

  predicate Has(flags: bv8, flag: bv8) {
    flags & flag != 0
  }

  function DisconnectMessage(): GenericMessage {
    GenericMessage(DISCONNECT_TYPE << 4, [])
  }
}
