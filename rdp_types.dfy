/**
 * The C structures the webcam bridges share: the RDP client record
 * (guac_client together with its guac_rdp_client data), the static and
 * dynamic channel objects, Guacamole users and streams, the wStream output
 * buffer, and a record of released allocations.
 *
 * Channel objects and sockets keep traces of what was written to them, so
 * that the engine side and the Guacamole protocol side are observable.
 */
module RdpTypes {
  import opened Common

  /** wStream as used for output: a buffer of fixed capacity, written sequentially. */
  class OutStream {
    const buffer: array<byte>
    var position: nat

    ghost predicate Valid()
      reads this
    {
      position <= buffer.Length
    }

    /** Stream_Buffer up to Stream_GetPosition: the bytes written so far. */
    function Written(): (w: seq<byte>)
      reads this, buffer
      requires Valid()
      ensures |w| == position
    {
      buffer[..position]
    }

    /** Stream_New(NULL, capacity). */
    constructor (capacity: nat)
      ensures Valid() && fresh(buffer)
      ensures buffer.Length == capacity && Written() == []
    {
      buffer := new byte[capacity];
      position := 0;
    }

    /** Stream_Write: appends `src` at the current position. */
    method Write(src: seq<byte>)
      requires Valid() && position + |src| <= buffer.Length
      modifies buffer, this`position
      ensures Valid()
      ensures Written() == old(Written()) + src
    {
      var i := 0;
      while i < |src|
        invariant 0 <= i <= |src|
        invariant position == old(position) + i
        invariant buffer[..position] == old(buffer[..position]) + src[..i]
      {
        buffer[position] := src[i];
        position := position + 1;
        i := i + 1;
      }
    }
  }

  /** guac_rdp_common_svc: a static virtual channel; `writes` is what the engine was given. */
  class Svc {
    const client: RdpClient
    var data: Webcam?
    var writes: seq<seq<byte>>

    constructor (client: RdpClient)
      ensures this.client == client && data == null && writes == []
    {
      this.client := client;
      data := null;
      writes := [];
    }

    /** guac_rdp_common_svc_write: one write of the whole packet. */
    method Write(packet: seq<byte>)
      modifies this`writes
      ensures writes == old(writes) + [packet]
    {
      writes := writes + [packet];
    }
  }

  /** guac_rdp_webcam: unbound while `svc` is null, bound otherwise. */
  class Webcam {
    const client: RdpClient
    var svc: Svc?

    /** guac_rdp_webcam_alloc: a fresh webcam is unbound. */
    constructor (client: RdpClient)
      ensures this.client == client && svc == null
    {
      this.client := client;
      svc := null;
    }
  }

  /** IWTSVirtualChannel: a dynamic channel; `writes` records every Write call's bytes. */
  class VirtualChannel {
    var writes: seq<seq<byte>>

    constructor ()
      ensures writes == []
    {
      writes := [];
    }

    /** Write(channel, size, buffer, NULL): sends the first `size` bytes of `buffer`. */
    method Write(size: int, buffer: seq<byte>)
      requires 0 <= size <= |buffer|
      modifies this`writes
      ensures writes == old(writes) + [buffer[..size]]
    {
      writes := writes + [buffer[..size]];
    }
  }

  /** A guac_client whose `data` is a guac_rdp_client; only the webcam fields are kept. */
  class RdpClient {
    var webcam: Webcam?
    var webcamChannel: VirtualChannel?

    constructor ()
      ensures webcam == null && webcamChannel == null
    {
      webcam := null;
      webcamChannel := null;
    }
  }

  datatype AckStatus = Success | ServerError

  /** What a user's socket carries, in order. */
  datatype SocketEvent = Ack(stream: int, message: string, status: AckStatus) | Flush

  /** guac_user: the joining user, its client, and its socket's trace. */
  class User {
    const client: RdpClient
    var socket: seq<SocketEvent>

    constructor (client: RdpClient)
      ensures this.client == client && socket == []
    {
      this.client := client;
      socket := [];
    }
  }

  /** Which handler a guac_stream's function pointer refers to. */
  datatype Handler = NoHandler | WebcamBlobHandler | WebcamEndHandler

  /** guac_stream: an inbound stream with its handlers and `data` pointer. */
  class GuacStream {
    const index: int
    var data: RdpClient?
    var blobHandler: Handler
    var endHandler: Handler

    constructor (index: int)
      ensures this.index == index && data == null
      ensures blobHandler == NoHandler && endHandler == NoHandler
    {
      this.index := index;
      data := null;
      blobHandler := NoHandler;
      endHandler := NoHandler;
    }
  }

  /** The allocator, observed only through the order in which memory is released. */
  class Memory {
    var released: seq<object?>

    constructor ()
      ensures released == []
    {
      released := [];
    }

    /** guac_mem_free. */
    method Free(p: object?)
      modifies this
      ensures released == old(released) + [p]
    {
      released := released + [p];
    }
  }
}
