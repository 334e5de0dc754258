/**
 * The dynamic-channel webcam bridge: Guacamole "webcam" streams opened by
 * a user are accepted only while the dynamic WEBCAM channel is connected,
 * and every blob of an accepted stream is forwarded verbatim as one channel
 * write.
 */
module DynamicWebcam {
  import opened Common
  import opened RdpTypes

  /**
   * guac_rdp_webcam_handler: acks "FAIL" (server error) and installs nothing
   * while no channel is connected; otherwise points the stream at the client,
   * installs the blob and end handlers and acks "OK". Returns 0 either way.
   */
  method Handler(user: User, stream: GuacStream) returns (r: int)
    modifies stream, user`socket
    ensures r == 0
    ensures old(user.client.webcamChannel) == null ==>
      && unchanged(stream)
      && user.socket == old(user.socket) + [Ack(stream.index, "FAIL", ServerError), Flush]
    ensures old(user.client.webcamChannel) != null ==>
      && stream.data == user.client
      && stream.blobHandler == WebcamBlobHandler && stream.endHandler == WebcamEndHandler
      && user.socket == old(user.socket) + [Ack(stream.index, "OK", Success), Flush]
  {
    var rdpClient := user.client;
    if rdpClient.webcamChannel == null {
      user.socket := user.socket + [Ack(stream.index, "FAIL", ServerError)];
      user.socket := user.socket + [Flush];
      return 0;
    }
    stream.data := rdpClient;
    stream.blobHandler := WebcamBlobHandler;
    stream.endHandler := WebcamEndHandler;
    user.socket := user.socket + [Ack(stream.index, "OK", Success)];
    user.socket := user.socket + [Flush];
    return 0;
  }

  /**
   * guac_rdp_webcam_blob_handler: nothing is written while no channel is
   * connected; otherwise the blob's `length` bytes are copied into a fresh
   * stream and written to the channel in one call. Returns 0 either way.
   */
  method BlobHandler(user: User, stream: GuacStream, data: seq<byte>, length: int) returns (r: int)
    requires stream.data != null
    requires 0 <= length <= |data|
    modifies if stream.data.webcamChannel != null then {stream.data.webcamChannel} else {}
    ensures r == 0
    ensures stream.data.webcamChannel != null ==>
      stream.data.webcamChannel.writes == old(stream.data.webcamChannel.writes) + [data[..length]]
  {
    var rdpClient := stream.data;
    var channel := rdpClient.webcamChannel;
    if channel == null {
      return 0;
    }
    var out := new OutStream(length);
    out.Write(data[..length]);
    assert out.buffer[..][..out.position] == out.Written() == data[..length];
    channel.Write(out.position, out.buffer[..]);
    return 0;
  }

  /** guac_rdp_webcam_end_handler: ends the stream without touching the channel binding. */
  method EndHandler(user: User, stream: GuacStream) returns (r: int)
    ensures r == 0
    ensures unchanged(user.client) && unchanged(stream)
  {
    return 0;
  }
}
