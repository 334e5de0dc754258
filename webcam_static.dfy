/**
 * The static-channel webcam bridge ("GUACCAM"): binding and unbinding of the
 * webcam to its static virtual channel, and the frame serialiser.
 *
 * A frame is one write of a 16-byte header (four uint32 in declared order:
 * width, height, format, length, stored in host order, which is taken to be
 * little-endian) followed by the payload bytes.
 */
module StaticWebcam {
  import opened Common
  import opened RdpTypes

  const FORMAT_RGB24: int := 0
  const HEADER_SIZE: int := 16

  /** guac_rdp_webcam_frame_header. */
  datatype FrameHeader = FrameHeader(width: int, height: int, format: int, length: int)

  predicate ValidHeader(h: FrameHeader) {
    && 0 <= h.width < UINT32_LIMIT && 0 <= h.height < UINT32_LIMIT
    && 0 <= h.format < UINT32_LIMIT && 0 <= h.length < UINT32_LIMIT
  }

  /** The header's memory image. */
  function EncodeHeader(h: FrameHeader): (b: seq<byte>)
    requires ValidHeader(h)
    ensures |b| == HEADER_SIZE
  {
    LE32(h.width) + LE32(h.height) + LE32(h.format) + LE32(h.length)
  }

  /** Reads a header back from the first 16 bytes of a packet. */
  function DecodeHeader(b: seq<byte>): (h: FrameHeader)
    requires |b| >= HEADER_SIZE
    ensures ValidHeader(h)
  {
    FrameHeader(ReadLE32(b[0..4]), ReadLE32(b[4..8]), ReadLE32(b[8..12]), ReadLE32(b[12..16]))
  }

  /** The header send_frame fills in for `length` payload bytes of a width x height frame. */
  function HeaderFor(length: int, width: int, height: int): FrameHeader {
    FrameHeader(ToUint32(width), ToUint32(height), FORMAT_RGB24, ToUint32(length))
  }

  /** The receiving end's view of a packet: a header and exactly `length` payload bytes. */
  function ParseFrame(p: seq<byte>): (r: Option<(FrameHeader, seq<byte>)>)
    ensures r.Some? ==> ValidHeader(r.value.0) && |p| == HEADER_SIZE + r.value.0.length && r.value.1 == p[HEADER_SIZE..]
  {
    if |p| < HEADER_SIZE then None
    else
      var h := DecodeHeader(p);
      if |p| - HEADER_SIZE != h.length then None else Some((h, p[HEADER_SIZE..]))
  }

  lemma {:induction false} HeaderRoundTrip(h: FrameHeader, rest: seq<byte>)
    requires ValidHeader(h)
    ensures DecodeHeader(EncodeHeader(h) + rest) == h
  {
    var b := EncodeHeader(h) + rest;
    assert b[0..4] == LE32(h.width);
    assert b[4..8] == LE32(h.height);
    assert b[8..12] == LE32(h.format);
    assert b[12..16] == LE32(h.length);
    LE32RoundTrip(h.width);
    LE32RoundTrip(h.height);
    LE32RoundTrip(h.format);
    LE32RoundTrip(h.length);
  }

  /**
   * A packet built from header and payload parses back to the same header
   * (format RGB24, width and height as uint32, length = payload size) and
   * the same payload.
   */
  lemma {:induction false} FrameRoundTrip(payload: seq<byte>, width: int, height: int)
    requires |payload| < UINT32_LIMIT
    ensures var h := HeaderFor(|payload|, width, height);
      && ValidHeader(h) && h.format == FORMAT_RGB24 && h.length == |payload|
      && ParseFrame(EncodeHeader(h) + payload) == Some((h, payload))
  {
    var h := HeaderFor(|payload|, width, height);
    HeaderRoundTrip(h, payload);
    assert (EncodeHeader(h) + payload)[HEADER_SIZE..] == payload;
  }

  /** guac_rdp_webcam_connected: binds the client's webcam and the channel to each other. */
  method Connected(svc: Svc)
    requires svc.client.webcam != null
    modifies svc.client.webcam`svc, svc`data
    ensures svc.client.webcam.svc == svc && svc.data == svc.client.webcam
  {
    var webcam := svc.client.webcam;
    webcam.svc := svc;
    svc.data := webcam;
  }

  /** guac_rdp_webcam_receive: inbound bytes are discarded. */
  method Receive(svc: Svc, input: seq<byte>)
    ensures unchanged(svc) && unchanged(svc.client)
  {
  }

  /** guac_rdp_webcam_terminate: unbinds the client's webcam, if there is one. */
  method Terminate(svc: Svc)
    modifies if svc.client.webcam != null then {svc.client.webcam} else {}
    ensures svc.client.webcam == old(svc.client.webcam)
    ensures svc.client.webcam != null ==> svc.client.webcam.svc == null
  {
    var webcam := svc.client.webcam;
    if webcam != null {
      webcam.svc := null;
    }
  }

  /**
   * guac_rdp_webcam_send_frame: fails with 1 and writes nothing while unbound;
   * when bound, makes exactly one write of header and payload and returns 0,
   * and the channel stays bound to the same webcam.
   */
  method SendFrame(webcam: Webcam?, data: seq<byte>, length: int, width: int, height: int)
    returns (status: int)
    requires 0 <= length <= |data| && HEADER_SIZE + length <= INT_MAX
    modifies if webcam != null && webcam.svc != null then {webcam.svc} else {}
    ensures status == 1 <==> webcam == null || webcam.svc == null
    ensures status == 0 <==> webcam != null && webcam.svc != null
    ensures status == 0 ==>
      webcam.svc.writes == old(webcam.svc.writes) + [EncodeHeader(HeaderFor(length, width, height)) + data[..length]]
    ensures webcam != null && webcam.svc != null ==> webcam.svc.data == old(webcam.svc.data)
  {
    if webcam == null || webcam.svc == null {
      return 1;
    }
    var packetSize := HEADER_SIZE + length;
    var output := new OutStream(packetSize);
    var header := HeaderFor(length, width, height);
    output.Write(EncodeHeader(header));
    output.Write(data[..length]);
    assert output.Written() == EncodeHeader(header) + data[..length];
    webcam.svc.Write(output.Written());
    return 0;
  }
}
