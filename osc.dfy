/**
 * The outbound side of the programs: OSC messages as address plus float
 * arguments, the packet stream that assembles a bundle of them, and what one
 * loop iteration does with the bundle (send it to an endpoint, then sleep).
 */
module Osc {
  import opened Wrappers

  /** An OSC message: its address pattern and its float arguments, in order. */
  datatype Message = Message(address: string, args: seq<real>)

  /** The IpEndpointName the UdpTransmitSocket was constructed with. */
  datatype Endpoint = Endpoint(ip: string, port: int)

  /** One `transmitSocket.Send`: the bundle's messages and where they go. */
  datatype Datagram = Datagram(dest: Endpoint, bundle: seq<Message>)

  /** What one iteration of a `while (1)` loop does: at most one send, then `Sleep(sleepTime)`. */
  datatype TickEffect = TickEffect(sent: Option<Datagram>, sleepTime: int)

  datatype Phase = Fresh | InBundle | Closed

  /**
   * osc::OutboundPacketStream, as the three programs use it: one immediate
   * bundle, messages opened, filled with floats and closed inside it.
   * `elements` holds the completed messages in append order; while
   * `inMessage` holds, `address` and `args` are the message between
   * BeginMessage and EndMessage.
   */
  class PacketStream {
    var phase: Phase
    var elements: seq<Message>
    var inMessage: bool
    var address: string
    var args: seq<real>

    constructor ()
      ensures phase == Fresh && elements == [] && !inMessage
    {
      phase, elements, inMessage, address, args := Fresh, [], false, "", [];
    }

    /** `p << osc::BeginBundleImmediate` */
    method BeginBundleImmediate()
      requires phase == Fresh && !inMessage
      modifies this
      ensures phase == InBundle && elements == old(elements) && !inMessage
    {
      phase := InBundle;
    }

    /** `p << osc::BeginMessage(addressPattern)` */
    method BeginMessage(addressPattern: string)
      requires phase == InBundle && !inMessage
      modifies this
      ensures phase == InBundle && elements == old(elements)
      ensures inMessage && address == addressPattern && args == []
    {
      inMessage, address, args := true, addressPattern, [];
    }

    /** `p << x` for a float `x`: appends one argument to the open message. */
    method PushFloat(x: real)
      requires phase == InBundle && inMessage
      modifies this
      ensures phase == InBundle && elements == old(elements)
      ensures inMessage && address == old(address) && args == old(args) + [x]
    {
      args := args + [x];
    }

    /** `p << osc::EndMessage`: the open message becomes the bundle's last element. */
    method EndMessage()
      requires phase == InBundle && inMessage
      modifies this
      ensures phase == InBundle && !inMessage
      ensures elements == old(elements) + [Message(old(address), old(args))]
    {
      elements := elements + [Message(address, args)];
      inMessage := false;
    }

    /** `p << osc::EndBundle` */
    method EndBundle()
      requires phase == InBundle && !inMessage
      modifies this
      ensures phase == Closed && elements == old(elements) && !inMessage
    {
      phase := Closed;
    }
  }
}
