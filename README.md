# guacamole-server RDP core and terminal display buffer, in Dafny

This project models five parts of the guacamole-server proxy and proves
properties of them:

- **The RDP connection-parameter resolver and projector** (`RdpSettings`,
  `RdpClientArgs`). `guac_rdp_parse_args` turns the 90-entry argument
  vector of a connecting user into a settings record.
  `guac_rdp_get_performance_flags` builds the performance bit set of
  section 2.2.1.11.1.1.1 of [MS-RDPBCGR]. `guac_rdp_push_settings` writes
  the record into the engine's configuration. The configuration is kept as
  a plain record of the fields the projection writes.
- **The session decisions of the RDP plugin** (`RdpSession`):
  - which channel plugins are loaded;
  - which credentials are requested from the connection owner;
  - the certificate verdict;
  - what the client thread does before it connects (Wake-on-LAN and
    session recording);
  - how the connection is prepared (the projection, then the RemoteApp
    channel and the static channels).
- **The static-channel webcam bridge** (`StaticWebcam`), on the shared
  structures in `RdpTypes`. It covers binding and unbinding of the webcam
  to its channel, and the frame writer. A frame is a 16-byte header (width,
  height, format, length as uint32) followed by the payload, sent in one
  write.
- **The dynamic-channel webcam bridge** (`DynamicWebcam`, `GuacVc`). A
  Guacamole stream is accepted while the dynamic WEBCAM channel is
  connected, and its blobs are forwarded one write each. The "guacvc" plugin
  publishes the channel to the client while it is open, and registers
  itself with the engine at most once.
- **The terminal display's operation buffer** (`TerminalDisplay`): a class
  holding a `height x width` array of pending operations (nothing, copy,
  set). The model covers:
  - the in-place updates `copy_columns`, `copy_rows`, `set_columns` and
    `resize`;
  - the palette and the glyph-colour rules;
  - the three flush passes, which turn pending operations into drawing
    requests.

State the C code changes in place is a Dafny class with `modifies`
clauses: the webcam, channel, stream, user, plugin and registry objects,
and the display with its `array2` buffer and its palette `array`. The C
integer behaviour is written out where it matters:
- C strings end at the first NUL;
- `atoi`-style results feed truncating division;
- `& ~0x3` clears the two low bits;
- casts to `uint32_t` and `unsigned short` wrap around.

The engine, the Guacamole protocol and the network are recorded instead of
performed:
- a channel keeps the list of its writes;
- a socket keeps its acks and flushes;
- a plugin registry is a map;
- the allocator keeps the order in which memory is released;
- the display keeps a list of drawing requests, in cell units.

Helpers whose code is not part of this model are parameters. These are the
typed argument parsers, `atoi`, the string splitter, the keymap lookup,
`guac_rdp_suggest_resolution`, `guac_terminal_has_glyph`,
`guac_terminal_colorcmp`, the FIPS state, the outcomes of the wake-up calls
and of `guac_itoa`, the outcome of the SSH steps of the SFTP set-up, and the
owner's answers. The header constants
(`RDP_DEFAULT_*`, `GUAC_WOL_*`, the clipboard limits, the terminal colour
pseudo-indices and ranges) are parameters too. `guac_terminal_fit_to_range`
is taken to be a clamp.

The build modelled has SFTP support enabled (90 arguments) and uses the
engine's setter/getter API. It is taken to define `FreeRDP_VideoCapture`, so
the webcam setting is always pushed to the engine. The names behind `GUAC_RDP_ARGV_USERNAME`,
`_PASSWORD` and `_DOMAIN` are taken to be "username", "password" and
"domain"; the header that defines them is not part of this model.

Files: `common.dfy`, `settings.dfy`, `client_args.dfy`, `rdp.dfy`,
`rdp_types.dfy`, `webcam_static.dfy`, `webcam_dynamic.dfy`, `guacvc.dfy`,
`display.dfy`.

## Model

| member | source | states |
|---|---|---|
| RdpSettings.ParseArgs | src/protocols/rdp/settings.c:743-1403 | The result is absent exactly when the argument count differs from 90. A present record satisfies every group's parse rule and the invariants `Resolved`: glyph caching off, width a multiple of 4, positive height, clipboard size within bounds, CRLF only with normalisation, a 16-bit WoL port, preconnection ID at least -1. |
| RdpSettings.ParseSecurityMode | src/protocols/rdp/settings.c:786-841 | "nla", "nla-ext", "tls", "rdp" and "vmconnect" each select their own mode, one for one. Every other string, "any" and "" included, selects ANY. |
| RdpSettings.ResolveConnection | src/protocols/rdp/settings.c:757-1046 | The connection group. The port default is the VMConnect port exactly when the mode is VMCONNECT. The preconnection ID is -1 unless a non-negative ID is given. The BLOB is absent exactly for an empty argument. Every other field is its typed parse with the documented default. |
| RdpSettings.ResolveWidth | src/protocols/rdp/settings.c:869-886 | Width is the explicit argument or `optimal_width * dpi / optimal_dpi` (truncating). A value of 0 or less becomes the default. The result is rounded down to a multiple of 4, and is not negative when the default is positive. |
| RdpSettings.ResolveHeight | src/protocols/rdp/settings.c:888-902 | Height is chosen the same way with the default fallback, but is not rounded. It is positive when the default is. |
| RdpSettings.ResolveDisplay | src/protocols/rdp/settings.c:864-1259 | The display group. DPI defaults to the suggested resolution. Width and height follow the rules above. The colour-depth default is the graphics-pipeline depth exactly when the pipeline is enabled. The keymap is the requested one if it exists, else the default. |
| RdpSettings.ParsePreconnectionId | src/protocols/rdp/settings.c:1020-1038 | The ID is -1 for an empty or negative argument, otherwise the parsed ID. It is always at least -1. |
| RdpSettings.ParsePreconnectionBlob | src/protocols/rdp/settings.c:1040-1046 | The BLOB is absent exactly when the argument is empty; otherwise it is the argument's C string. |
| RdpSettings.ParseStaticChannels | src/protocols/rdp/settings.c:960-963 | The channel list is absent exactly when the argument is empty; otherwise it is the comma split of the argument. |
| RdpSettings.ResolvePrograms | src/protocols/rdp/settings.c:940-963 | The initial program, the RemoteApp fields and the static channel list, as their parse rules say. |
| RdpSettings.FindServerLayout | src/protocols/rdp/settings.c:1093-1102 | A non-empty layout that the lookup finds is used; otherwise the default keymap's lookup is used. |
| RdpSettings.ResolvePerformance | src/protocols/rdp/settings.c:968-1016 | The performance switches as given, except that glyph caching is disabled whatever the argument says. |
| RdpSettings.ResolveDevices | src/protocols/rdp/settings.c:1048-1273 | Audio is on unless disabled. Printing, drive, touch, audio input and webcam are opt-in, with the documented names and paths. |
| RdpSettings.ResolveSftp | src/protocols/rdp/settings.c:1108-1183 | SFTP settings; the host and user default to the RDP connection's. |
| RdpSettings.ResolveRecording | src/protocols/rdp/settings.c:1185-1224 | Recording path, name and flags as their typed parses with the documented defaults. |
| RdpSettings.ParseResizeMethod | src/protocols/rdp/settings.c:1226-1249 | The method is RECONNECT exactly for "reconnect" and DISPLAY_UPDATE exactly for "display-update"; anything else is NONE. |
| RdpSettings.ResolveGateway | src/protocols/rdp/settings.c:1275-1298 | Gateway settings; the port defaults to 443. |
| RdpSettings.ClampClipboardSize | src/protocols/rdp/settings.c:1306-1324 | A size below the minimum becomes the minimum, one above the maximum becomes the maximum, and one in between is kept. So the result always lies within the bounds. |
| RdpSettings.ParseNormalizeClipboard | src/protocols/rdp/settings.c:1336-1362 | "unix" normalises to LF, "windows" to CRLF, and anything else preserves line endings. |
| RdpSettings.ResolveClipboard | src/protocols/rdp/settings.c:1305-1362 | The clipboard group: the size lies within the bounds, and CRLF implies normalisation. |
| RdpSettings.ParseWakeOnLan | src/protocols/rdp/settings.c:1364-1398 | WoL is all zero unless requested. When requested, the sub-fields are parsed and the request is dropped exactly when the MAC is empty. The UDP port is reduced to 16 bits. |
| RdpSettings.PerformanceFlags | src/protocols/rdp/settings.c:1485-1516 | For each of wallpaper, theming, full-window drag and menu animations, the DISABLE bit is set iff the switch is off. The font-smoothing and desktop-composition ENABLE bits are set iff their switch is on. No other bit is set. |
| RdpSettings.StrNDup | src/protocols/rdp/settings.c:1606-1610 | The client name passed on is a prefix of the name's C string, at most the hostname size long; a name that fits is passed whole. |
| RdpSettings.PushSession | src/protocols/rdp/settings.c:1548-1578 | Credentials, host and port, the desktop size as uint32, the keyboard layout of the keymap, connection type LAN, frame markers and fast path on. |
| RdpSettings.PushClient | src/protocols/rdp/settings.c:1606-1781 | The client name only when given; console flags; TZ requested only when a time zone is given; the load-balance info and its length only when given; OS types unspecified and desktop resize on. |
| RdpSettings.PushPerformance | src/protocols/rdp/settings.c:1566-1604 | The bit set and the six individual flags are written, and they agree with each other and with the settings. |
| RdpSettings.PushGraphics | src/protocols/rdp/settings.c:1580-1596 | With the graphics pipeline: pipeline, RemoteFX and software GDI on, and the colour depth forced to the required depth. Without it, nothing changes. |
| RdpSettings.PushRedirection | src/protocols/rdp/settings.c:1616-1643 | Audio playback and capture, video capture, display control iff the resize method is display-update, and device redirection iff audio, drive, printing or webcam is on. |
| RdpSettings.PushSecurityMode | src/protocols/rdp/settings.c:1645-1716 | The security table. Rdp is set iff the mode is RDP or ANY. Tls iff TLS, VMCONNECT or ANY. Nla iff NLA, VMCONNECT, or ANY without FIPS. Ext iff EXT_NLA. RDP also sets the legacy layer, the encryption level and the methods; VMCONNECT sets its mode. |
| RdpSettings.PushSecurity | src/protocols/rdp/settings.c:1645-1725 | The security table, plus authentication iff not disabled, the certificate flags as given, and the accepted fingerprints only when given. |
| RdpSettings.PushRemoteApp | src/protocols/rdp/settings.c:1727-1735 | With a remote application: work area, RemoteApp mode, language bar, program, directory and arguments. Without one, nothing changes. |
| RdpSettings.PushPreconnection | src/protocols/rdp/settings.c:1737-1749 | A preconnection ID or BLOB turns negotiation off and the preconnection PDU on. Each is written only when present. |
| RdpSettings.PushGateway | src/protocols/rdp/settings.c:1751-1767 | With a gateway host: gateway on, host, port as uint32, separate credentials. Without one, nothing changes. |
| RdpSettings.PushCaching | src/protocols/rdp/settings.c:1774-1778 | Bitmap cache iff not disabled, offscreen level 0 or 1, and glyph level NONE iff glyph caching is disabled, FULL otherwise. |
| RdpSettings.PushSettings | src/protocols/rdp/settings.c:1542-1788 | The configuration is `Projected`: every group is projected as its rule says. The colour depth is the pipeline's when the pipeline is enabled. Every record the resolver produces is projected with glyph support NONE. |
| RdpClientArgs.ClientArgNamesMisaligned | src/protocols/rdp/settings.c:56-158 | The advertised name table as written has 91 entries for 90 indices. "enable-webcam" sits at both the webcam and the read-only index, while touch input keeps its own. The gateway-hostname index names "read-only", and the last index names "force-lossless". |
| RdpClientArgs.CorrectedClientArgNamesAligned | src/protocols/rdp/settings.c:614-741 | The table without the second "enable-webcam" has exactly one name per index, each at the index the resolver reads. |
| RdpSession.LoadChannels | src/protocols/rdp/rdp.c:98-154 | Each plugin is requested at most once, in source order, and exactly when its setting asks. disp iff display-update resizing; rdpei iff touch; audio input iff enabled; webcam iff enabled; cliprdr unless both copy and paste are disabled; rdpdr and rdpsnd iff printing, drive, audio or webcam; rdpgfx iff the pipeline; drdynvc iff dynamic channels are supported. The result is always TRUE. |
| RdpSession.RequiredCredentials | src/protocols/rdp/rdp.c:288-311 | The username is requested iff it is unset. The domain is requested iff both username and domain are unset. The password is requested iff it is unset. There are at most three names, in the order username, domain, password. |
| RdpSession.FillRequest | src/protocols/rdp/rdp.c:276-311 | The four-entry request array holds exactly the required names from the front, followed by a NULL terminator. |
| RdpSession.Authenticate | src/protocols/rdp/rdp.c:268-332 | Nothing is requested from an owner without "required" support. Otherwise the list is sent, and awaited, only when it is not empty; then the engine's credentials become the answered ones, and otherwise they are unchanged. A credential the settings already held keeps its value, since the answers store only what was requested. The result is always TRUE. |
| RdpSession.Names | src/protocols/rdp/rdp.c:313-318 | The names of a request list, entry by entry. |
| RdpSession.VerifyCertificate | src/protocols/rdp/rdp.c:408-427 | 2 (accept for this session) iff certificate checks are ignored, 0 (reject) otherwise, and never 1. |
| RdpSession.ClientThreadStart | src/protocols/rdp/rdp.c:731-940 | WoL is attempted only when requested. A positive wait time selects wake-and-wait, with the decimal port; a failed port formatting or wake gives up. Otherwise a plain wake is sent. With SFTP on, a missing username or a failed SSH step gives up too. The thread goes on iff neither gives up, and a recording is created iff it goes on and a path is given. Output, mouse and touch are passed as the negations of their exclude flags, and keys as given. The whole trace is the wake-up call of `WakeEvents`, then the recording when one is created, so each call is made at most once. |
| RdpSession.WakeEvents | src/protocols/rdp/rdp.c:738-781 | At most one wake-up call. There is one exactly when a packet is requested and, for a positive wait time, the port text is not empty. |
| RdpSession.PreConnect | src/protocols/rdp/rdp.c:172-200 | The projection is done first, and the configuration is `Projected` exactly as `PushSettings` states it: every group, the pipeline depth, and glyph support NONE for resolved records. Then RemoteApp is loaded first when a remote application is given, then one pipe channel per static channel name, in order. |
| RdpSession.LoadStaticChannels | src/protocols/rdp/rdp.c:187-199 | RAIL when wanted, then exactly one pipe-channel load per name, in order. |
| RdpTypes.Webcam.constructor | src/protocols/rdp/channels/webcam.c:12-17 | A freshly allocated webcam is unbound. |
| RdpTypes.OutStream.Write | src/protocols/rdp/channels/webcam.c:78-79 | Appending to the output stream extends the written bytes by exactly the source bytes. |
| StaticWebcam.EncodeHeader | src/protocols/rdp/channels/webcam.h:17-25 | The header's memory image is 16 bytes. |
| StaticWebcam.DecodeHeader | src/protocols/rdp/channels/webcam.h:17-25 | Reading four little-endian uint32 gives a header whose fields are all in range. |
| StaticWebcam.HeaderRoundTrip | src/protocols/rdp/channels/webcam.h:17-25 | Decoding the bytes of an encoded header, whatever follows it, gives the header back. |
| StaticWebcam.ParseFrame | src/protocols/rdp/channels/webcam.c:68-82 | A packet parses only if it is the header followed by exactly `length` payload bytes. |
| StaticWebcam.FrameRoundTrip | src/protocols/rdp/channels/webcam.c:68-82 | The packet `send_frame` builds parses back to a header with format RGB24 (0), the uint32 width and height, and length equal to the payload size, followed by the payload verbatim. |
| StaticWebcam.Connected | src/protocols/rdp/channels/webcam.c:25-31 | The client's webcam and the channel are bound to each other. |
| StaticWebcam.Receive | src/protocols/rdp/channels/webcam.c:35-40 | Inbound bytes change nothing. |
| StaticWebcam.Terminate | src/protocols/rdp/channels/webcam.c:43-49 | The webcam is unbound only when there is one; nothing else changes. |
| StaticWebcam.SendFrame | src/protocols/rdp/channels/webcam.c:62-83 | Returns 1 with no write iff the webcam or its channel is missing. Otherwise it makes exactly one write, of header and payload, and returns 0. |
| DynamicWebcam.Handler | src/protocols/rdp/channels/webcam/webcam.c:14-34 | Without a channel: an ack "FAIL" with server error, then a flush, and the stream unchanged. With a channel: stream data and both handlers installed, then an ack "OK" with success and a flush. 0 either way. |
| DynamicWebcam.BlobHandler | src/protocols/rdp/channels/webcam/webcam.c:36-53 | No write without a channel. With one, exactly one write of the blob's `length` bytes is made. 0 either way. |
| DynamicWebcam.EndHandler | src/protocols/rdp/channels/webcam/webcam.c:55-57 | Nothing changes; the channel stays bound. |
| GuacVc.VcData | src/protocols/rdp/plugins/guacvc/guacvc.c:11-14 | Inbound data changes nothing; the result is OK. |
| GuacVc.VcClose | src/protocols/rdp/plugins/guacvc/guacvc.c:16-25 | The client's channel is cleared whichever channel closes, and the callback is released. |
| GuacVc.NewConnection | src/protocols/rdp/plugins/guacvc/guacvc.c:27-48 | The client's channel becomes the new channel, and a fresh callback is bound to it. The result is OK. |
| GuacVc.Initialize | src/protocols/rdp/plugins/guacvc/guacvc.c:50-65 | A fresh listener is stored in the plugin, and exactly one listener, named WEBCAM, is created. |
| GuacVc.Terminated | src/protocols/rdp/plugins/guacvc/guacvc.c:67-72 | The listener callback is released before the plugin. |
| GuacVc.PluginEntry | src/protocols/rdp/plugins/guacvc/guacvc.c:74-99 | A "guacvc" plugin bound to the client is registered only when none is; a later entry changes nothing. The result is OK. |
| TerminalDisplay.HashCodepoint | src/terminal/display.c:43-52 | A byte maps to itself. Anything above maps into [256, 511] with the same low byte. A non-negative codepoint lands in [0, 511]. |
| TerminalDisplay.HashCodepointCollisions | src/terminal/display.c:43-52 | A byte never collides with a larger codepoint; two larger codepoints collide iff their low bytes agree. |
| TerminalDisplay.Display.AssignColor | src/terminal/display.c:308-323 | Outside [0, 255]: 1, palette unchanged. Inside: 0, and only that entry's RGB is replaced, so the entry then looks up to the new RGB. |
| TerminalDisplay.Display.LookupColor | src/terminal/display.c:325-348 | The FOREGROUND and BACKGROUND pseudo-indices give the default colours. Other indices outside [0, 255] fail. The rest give the palette entry. |
| TerminalDisplay.Display.GlyphColors | src/terminal/display.c:58-99 | The glyph background is the looked-up shown background (the foreground under reverse video). |
| TerminalDisplay.Display.ReverseSwapsColors | src/terminal/display.c:65-73 | Without bold or half-bright, toggling reverse or cursor exchanges the two glyph colours. |
| TerminalDisplay.Display.HalfBrightHalves | src/terminal/display.c:89-94 | Half-bright without bold halves each component of the foreground it would otherwise have; the background is unaffected. |
| TerminalDisplay.Display.BoldUsesIntense | src/terminal/display.c:75-78 | Bold without half-bright draws a dark foreground in its intense counterpart. |
| TerminalDisplay.Display.SetColors | src/terminal/display.c:58-99 | The glyph colours become the colours the rules select for the attributes; the result is 0. |
| TerminalDisplay.Display.Resize | src/terminal/display.c:518-583 | No change when the size is the same. Otherwise there is a new buffer of the new size: nothing is pending in the cells the old size covered, and every other cell sets the blank fill character in the default background. The size is updated and announced. |
| TerminalDisplay.Extent | src/terminal/display.c:361-367 | The fitted range and its offset image both lie inside the display, and an in-range request is kept as is. |
| TerminalDisplay.Display.MoveColumns | src/terminal/display.c:385 | After the memmove of cells within one row, the destination cells hold the former source cells and every other cell is unchanged. |
| TerminalDisplay.Display.MarkCopiedColumns | src/terminal/display.c:388-399 | Each moved cell with nothing pending becomes a copy from (row, its source column). |
| TerminalDisplay.Display.CopyColumns | src/terminal/display.c:350-402 | A row outside the display changes nothing. Otherwise the destination of the fitted range holds the former source cells, a moved cell with nothing pending is marked as a copy from its source, and nothing else changes. |
| TerminalDisplay.Display.MoveRows | src/terminal/display.c:447-448 | After the memmove of whole rows, the destination rows hold the former source rows and every other row is unchanged, whichever way the rows overlap. |
| TerminalDisplay.Display.CopyRow | src/terminal/display.c:447-448 | One row of the memmove: the destination row takes the former cells of the source row, and every other row is unchanged. |
| TerminalDisplay.Display.MarkCopiedRows | src/terminal/display.c:451-469 | Each moved cell with nothing pending becomes a copy from (its source row, column). |
| TerminalDisplay.Display.ShiftRows | src/terminal/display.c:444-469 | The destination rows of the range hold the former source rows, marked as copies from their source where nothing was pending, and every other row is unchanged. |
| TerminalDisplay.Display.FlushBeforeRowCopy | src/terminal/display.c:441-442 | Everything pending is flushed exactly when a set is unflushed and the offset is positive. The flush leaves no set unflushed, keeps the earlier requests, and draws what flush_operations draws for the buffer as it was. Otherwise nothing changes. |
| TerminalDisplay.Display.CopyRows | src/terminal/display.c:404-472 | Pending operations are flushed first only when a set is unflushed and the offset is positive. The flush leaves no set unflushed, keeps the earlier requests, and draws what flush_operations draws for the buffer as it was on entry: copies, then fills, then glyphs, covering every pending operation. Then the destination rows of the fitted range hold the former source rows, marked as copies where nothing was pending, and nothing else changes. With no flush the requests and the unflushed-set flag are unchanged. |
| TerminalDisplay.BetweenVisits | src/terminal/display.c:494 | The columns strictly between two visited columns are never visited. |
| TerminalDisplay.Display.SetCell | src/terminal/display.c:496-505 | A flush happens exactly when the cell holds a pending copy. It leaves no set unflushed, keeps the earlier requests, and draws what flush_operations draws for the buffer as it was on entry. Then the cell becomes a set of the character and every other cell is retired by the flush or unchanged. With no flush the requests and the flag are unchanged. |
| TerminalDisplay.Display.SetEvery | src/terminal/display.c:494-509 | Every visited column (start, start + w, ... up to end) becomes a set of the character. A flush happens iff a visited cell held a copy. Other cells are unchanged or flushed. |
| TerminalDisplay.Display.SetColumns | src/terminal/display.c:474-516 | A zero-width character or a row outside the display changes nothing. Otherwise every visited column holds the character and no copy. When no visited cell held a copy, exactly those cells change and no drawing happens. The unflushed-set mark is raised for rows strictly between the first and the last. |
| TerminalDisplay.Display.CopyRectangle | src/terminal/display.c:599-657 | The rectangle found from a copy cell is at least 1x1, lies inside the display, and holds copies from the continuing source cells throughout. |
| TerminalDisplay.Display.RetireCopyRectangle | src/terminal/display.c:662-685 | Inside the rectangle, exactly the copies from the matching source cell are marked handled. |
| TerminalDisplay.Display.FlushCopyFrom | src/terminal/display.c:595-700 | From a pending copy, the matching copies of its rectangle are marked handled, nothing else changes, and exactly one request is added: a copy of at least 1x1 inside the display. Each of its destination cells held a copy from the matching source cell, and each handled cell lies in it. |
| TerminalDisplay.Display.FlushCopyAt | src/terminal/display.c:592-705 | One cell of the copy pass keeps its invariant, one cell further on: every cell is as before the pass or a handled copy, no copy is left before the cursor, every new request is a copy inside the display that reproduces its destination from the buffer before the pass, and every handled copy lies in one. |
| TerminalDisplay.Display.FlushCopy | src/terminal/display.c:585-708 | Exactly the copy cells are marked handled, so no copy is left, and earlier requests are kept. Every new request is a copy of at least 1x1 inside the display, each destination cell of which was a copy from the matching source cell. Every pending copy lies in such a request. |
| TerminalDisplay.Display.ClearRectangle | src/terminal/display.c:725-792 | The rectangle found from a cell starts at that cell's row and lies inside the display. When the first cell is absorbed, the rectangle is at least one column wide and every cell of it is absorbed. Away from the left edge a first cell that is not absorbed gives zero columns. Any row of the rectangle whose first cell is absorbed is absorbed across it. |
| TerminalDisplay.Display.RetireClearRectangle | src/terminal/display.c:796-822 | Inside the rectangle, exactly the cells the fill absorbs are marked handled. |
| TerminalDisplay.Display.FillAt | src/terminal/display.c:720-834 | From a glyph-less set, only glyph-less sets are handled, the set itself is when it absorbs itself, and one request is added: a fill inside the display in the set's looked-up shown colour. When the set absorbs itself every cell of the fill is absorbed, and every handled cell lies in the fill. Every fill made since the pass began, this one included, starts at a glyph-less set of the buffer as the pass found it and is in that set's colour. |
| TerminalDisplay.Display.FlushClearFrom | src/terminal/display.c:720-834 | A fill started at a glyph-less set keeps the clear pass's invariant one cell further on. |
| TerminalDisplay.Display.FlushClearAt | src/terminal/display.c:717-839 | One cell of the clear pass keeps its invariant: only glyph-less sets are handled, every visited set that absorbs itself is, every new request is a fill from the buffer before the pass, and every handled cell lies in a fill that absorbs it. |
| TerminalDisplay.Display.FlushClear | src/terminal/display.c:710-842 | Only glyph-less set cells are marked handled, and each that absorbs itself is. Earlier requests are kept. Every new request is a fill inside the display, started at a glyph-less set and in the colour it is shown on, and absorbs all its cells when that set absorbs itself. Every handled cell lies in a fill that absorbs it. |
| TerminalDisplay.Display.FlushSetCell | src/terminal/display.c:854-872 | A set cell is drawn as one glyph in the colours its attributes select (a space when there is no glyph) and marked handled. Other cells change nothing. |
| TerminalDisplay.Display.RowSetCellsSound | src/terminal/display.c:851-877 | Every cell the set pass lists for a row prefix lies in the prefix and holds a set. |
| TerminalDisplay.Display.RowSetCellsComplete | src/terminal/display.c:851-877 | Every set cell of a row prefix is listed. |
| TerminalDisplay.Display.RowSetCellsOrdered | src/terminal/display.c:851-877 | A row's listed cells run strictly left to right. |
| TerminalDisplay.Display.SetCellsSound | src/terminal/display.c:850-878 | Every cell listed for the first n rows lies in them and holds a set. |
| TerminalDisplay.Display.SetCellsComplete | src/terminal/display.c:850-878 | Every set cell of the first n rows is listed. |
| TerminalDisplay.Display.SetCellsOrdered | src/terminal/display.c:850-878 | The listed cells run in strict row-major order, so with the two lemmas above each set cell is listed exactly once. |
| TerminalDisplay.Display.DrawnFromAppend | src/terminal/display.c:850-878 | Glyphs drawn for one list of cells, followed by glyphs drawn for another, are the glyphs drawn for the two lists joined. |
| TerminalDisplay.Display.DrawnFromCovers | src/terminal/display.c:850-878 | When every set cell is listed, every set cell has a glyph request at its position among those drawn. |
| TerminalDisplay.Display.FlushSetRow | src/terminal/display.c:851-877 | The sets of one row are handled, and nothing else changes. The requests added are the glyphs for that row's set cells, left to right, each matching its cell. |
| TerminalDisplay.Display.FlushSetRows | src/terminal/display.c:850-878 | Every set is handled, and nothing else changes. The requests added are one glyph per set cell, in row-major order, each matching its cell. |
| TerminalDisplay.Display.FlushSet | src/terminal/display.c:844-883 | Every set cell is marked handled, and nothing else changes. The new requests are one glyph per set cell in row-major order, each in the colours and with the codepoint its cell selects, and earlier requests are kept. No set is left unflushed. |
| TerminalDisplay.Display.FillFromBeforeCopies | src/terminal/display.c:884-891 | A fill from the buffer after the copy pass is a fill from the buffer before it, since the copy pass keeps every set. |
| TerminalDisplay.Display.PassesPhased | src/terminal/display.c:884-891 | The requests of the three passes are copies, then fills, then glyphs, and never a resize. |
| TerminalDisplay.Display.CopiesKept | src/terminal/display.c:884-891 | What the copy pass's requests say of the first buffer still holds when later requests, none of them copies, follow. |
| TerminalDisplay.Display.FillsKept | src/terminal/display.c:884-891 | Every fill of the clear pass is a fill from the buffer before the copy pass. |
| TerminalDisplay.Display.GlyphsKept | src/terminal/display.c:884-891 | Every glyph of the set pass matches its cell of the buffer before the copy pass. |
| TerminalDisplay.Display.SetsDrawn | src/terminal/display.c:884-891 | Every set of the buffer before the copy pass is drawn by a glyph, or absorbed by a fill, at its position. |
| TerminalDisplay.Display.PassesCompose | src/terminal/display.c:884-891 | Three passes as their contracts state make, from the first buffer, copies, then fills, then glyphs, as FlushedFrom says, and leave every cell handled with its other contents kept. |
| TerminalDisplay.Display.FlushOperations | src/terminal/display.c:884-891 | Copies, then clears, then sets. Afterwards nothing is pending in any cell, each cell keeps its other contents, and earlier requests are kept. The new requests are copies, then fills, then glyphs, and no resize. Every copy reproduces its destination, every fill starts at a glyph-less set in its shown colour, and every glyph matches its cell, all as the buffer was before the flush. Every pending copy is in a copy request, and every set is drawn by a glyph or absorbed by a fill. |

## Left out

- The FreeRDP engine is not modelled: the connection, the event loop, GDI set-up, the pointer and update callbacks, the add-in provider, the channel-manager and registry APIs, and `guac_protocol_send_*`. Settings writes are fields of a record; channel writes, acks, listener creation and registrations are recorded as traces.
- Concurrency is not modelled: the `message_lock` around the dynamic channel write and the `rwlock` in `rdp_freerdp_load_channels` and the connection handler. A write is one atomic event.
- Logging is left out, including the height warning that prints the width argument; it does not affect any result.
- Process environment: `setenv("TZ")` is recorded as the TZ value requested (`timezoneEnv`), and its failure is not modelled.
- The legacy branch of `guac_rdp_push_settings` (without setters and getters) is left out. So is the `HAVE_RDPSETTINGS_ALLOWUNANOUNCEDORDERSFROMSERVER` write, which depends on the engine version.
- `guac_rdp_settings_free`, the audio and filesystem set-up in `guac_rdp_client_thread`, and the connection loop after the recording set-up are left out; they only allocate resources or call into the engine. Of the SFTP set-up only its aborts are modelled: a missing username, or a failing SSH step given as one parameter. The SSH user, session and filesystem themselves are not. The actual Wake-on-LAN sends are parameters, and so are their retry and timeout constants.
- `guac_rdp_webcam_load_plugin` (both variants) and `guac_rdp_webcam_free` are left out: they only call the engine's plugin and memory APIs.
- Memory management is modelled only as the release order in `vc_close` and `vc_terminated`.
- `__guac_terminal_set` (glyph rendering with Pango and Cairo, with floating-point scaling) is recorded as one `Glyph` request with the selected colours. `guac_terminal_display_set_font`, `_alloc`, `_free`, `_dup`, `_flush`, `_select`, `_clear_select`, `_reset_palette` and `get_margin_by_dpi` are left out; they only render, set up the font, or serve `_alloc`.
- The surface calls of the flush passes (`guac_common_surface_copy`, `_set`) are recorded as `CopyRect` and `FillRect` requests in cell units; pixel coordinates are not modelled.
- C integer overflow is not modelled. `optimal_width * dpi` and `16 + length` are unbounded, so the resolver needs `optimal_resolution > 0` and `SendFrame` needs `16 + length` to fit an int. The checked multiplications of the display (`guac_mem_ckd_*_or_die`) never fail in the model.
- TerminalDisplay.Display.Resize: the new buffer's operations are unspecified in C apart from the fields written. The model's new cells carry row and column 0, and the cells of the old area are stated only to be NOP.
- TerminalDisplay.Display.CopyColumns: requires `-width < offset < width` for a row inside the display, and TerminalDisplay.Display.CopyRows requires `-height < offset < height`. With a larger offset the source's fitted range reaches outside the buffer.
- TerminalDisplay.Display.SetColumns: requires a non-negative character width, and a display at least one column wide when the row is inside. With zero columns the source addresses the cell before the row.
- TerminalDisplay.Display.SetColumns: when a visited cell held a copy, the contract says only that the other cells are unchanged or flushed. With a flush in the middle of the loop, it does not state which cells were flushed or which drawing requests were made.
- TerminalDisplay.Display.SetEvery: for the same reason, its contract says only that the cells it does not visit are unchanged or flushed, and not which drawing requests a flush made.
- TerminalDisplay.Display.ClearRectangle: at the left edge, when the first cell is not absorbed, the width is left unset by the first row and decided by a later row. The contract then does not say which cells of the rectangle are absorbed, beyond rows whose first cell is. Away from the left edge the fill is zero columns wide, and FlushClear allows fills of width 0 for that reason.
- RdpSession.PreConnect: models only the settings part. An empty static channel list, which the splitter never returns for a non-empty argument, is treated as no channels, where the source's do-while would dereference it.
- RdpSession.Authenticate: requires that the answers change only the credentials that were requested. That is what the argument callbacks do, and they are not part of this model.
- RdpSession.ClientThreadStart: `guac_itoa` failing is modelled as an empty rendering of the port.
- RdpSettings.ParseArgs: the typed parsers, `atoi`, the splitter and the keymap lookup are uninterpreted parameters, so properties that depend on their inner workings (such as `atoi` of a number) are not stated.

## Findings

| source | as written | input that shows it | evidently intended | confidence | as-written member | corrected member |
|---|---|---|---|---|---|---|
| src/protocols/rdp/settings.c:132-134 | The advertised name table lists "enable-webcam" twice, so it has 91 names for the 90 indices of the index enumeration. | A client that answers every advertised name sends 91 values. The resolver rejects any count other than 90. Read by position, the values up to touch input land at their own indices. The read-only index gets the second "enable-webcam" value, and the gateway-hostname index gets the "read-only" value. Each later index gets the value of the name before it, and "normalize-clipboard" has no index. | One name per index, in index order: the table without the second "enable-webcam". | not executed | RdpClientArgs.ClientArgNamesMisaligned | RdpClientArgs.CorrectedClientArgNamesAligned |
