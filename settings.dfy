/**
 * The RDP connection-parameter resolver (argument vector to settings
 * record), the performance-flag builder, and the projection of the
 * settings record onto the engine's configuration.
 *
 * The build modelled has SFTP support enabled, so the argument vector has
 * 90 entries, one per index below. Helpers whose code is not part of this
 * model (the typed argument parsers, atoi, the keymap lookup, the string
 * splitter, the suggested DPI) are parameters, and so are the numeric and
 * string defaults that come from headers.
 */
module RdpSettings {
  import opened Common

  /* Argument indices, in the order of the index enumeration. */
  const IDX_HOSTNAME: nat := 0
  const IDX_PORT: nat := 1
  const IDX_TIMEOUT: nat := 2
  const IDX_DOMAIN: nat := 3
  const IDX_USERNAME: nat := 4
  const IDX_PASSWORD: nat := 5
  const IDX_WIDTH: nat := 6
  const IDX_HEIGHT: nat := 7
  const IDX_DPI: nat := 8
  const IDX_INITIAL_PROGRAM: nat := 9
  const IDX_COLOR_DEPTH: nat := 10
  const IDX_DISABLE_AUDIO: nat := 11
  const IDX_ENABLE_PRINTING: nat := 12
  const IDX_PRINTER_NAME: nat := 13
  const IDX_ENABLE_DRIVE: nat := 14
  const IDX_DRIVE_NAME: nat := 15
  const IDX_DRIVE_PATH: nat := 16
  const IDX_CREATE_DRIVE_PATH: nat := 17
  const IDX_DISABLE_DOWNLOAD: nat := 18
  const IDX_DISABLE_UPLOAD: nat := 19
  const IDX_CONSOLE: nat := 20
  const IDX_CONSOLE_AUDIO: nat := 21
  const IDX_SERVER_LAYOUT: nat := 22
  const IDX_SECURITY: nat := 23
  const IDX_IGNORE_CERT: nat := 24
  const IDX_CERTIFICATE_TOFU: nat := 25
  const IDX_CERTIFICATE_FINGERPRINTS: nat := 26
  const IDX_DISABLE_AUTH: nat := 27
  const IDX_REMOTE_APP: nat := 28
  const IDX_REMOTE_APP_DIR: nat := 29
  const IDX_REMOTE_APP_ARGS: nat := 30
  const IDX_STATIC_CHANNELS: nat := 31
  const IDX_CLIENT_NAME: nat := 32
  const IDX_ENABLE_WALLPAPER: nat := 33
  const IDX_ENABLE_THEMING: nat := 34
  const IDX_ENABLE_FONT_SMOOTHING: nat := 35
  const IDX_ENABLE_FULL_WINDOW_DRAG: nat := 36
  const IDX_ENABLE_DESKTOP_COMPOSITION: nat := 37
  const IDX_ENABLE_MENU_ANIMATIONS: nat := 38
  const IDX_DISABLE_BITMAP_CACHING: nat := 39
  const IDX_DISABLE_OFFSCREEN_CACHING: nat := 40
  const IDX_DISABLE_GLYPH_CACHING: nat := 41
  const IDX_DISABLE_GFX: nat := 42
  const IDX_PRECONNECTION_ID: nat := 43
  const IDX_PRECONNECTION_BLOB: nat := 44
  const IDX_TIMEZONE: nat := 45
  const IDX_ENABLE_SFTP: nat := 46
  const IDX_SFTP_HOSTNAME: nat := 47
  const IDX_SFTP_HOST_KEY: nat := 48
  const IDX_SFTP_PORT: nat := 49
  const IDX_SFTP_TIMEOUT: nat := 50
  const IDX_SFTP_USERNAME: nat := 51
  const IDX_SFTP_PASSWORD: nat := 52
  const IDX_SFTP_PRIVATE_KEY: nat := 53
  const IDX_SFTP_PASSPHRASE: nat := 54
  const IDX_SFTP_PUBLIC_KEY: nat := 55
  const IDX_SFTP_DIRECTORY: nat := 56
  const IDX_SFTP_ROOT_DIRECTORY: nat := 57
  const IDX_SFTP_SERVER_ALIVE_INTERVAL: nat := 58
  const IDX_SFTP_DISABLE_DOWNLOAD: nat := 59
  const IDX_SFTP_DISABLE_UPLOAD: nat := 60
  const IDX_RECORDING_PATH: nat := 61
  const IDX_RECORDING_NAME: nat := 62
  const IDX_RECORDING_EXCLUDE_OUTPUT: nat := 63
  const IDX_RECORDING_EXCLUDE_MOUSE: nat := 64
  const IDX_RECORDING_EXCLUDE_TOUCH: nat := 65
  const IDX_RECORDING_INCLUDE_KEYS: nat := 66
  const IDX_CREATE_RECORDING_PATH: nat := 67
  const IDX_RECORDING_WRITE_EXISTING: nat := 68
  const IDX_RESIZE_METHOD: nat := 69
  const IDX_ENABLE_AUDIO_INPUT: nat := 70
  const IDX_ENABLE_WEBCAM: nat := 71
  const IDX_ENABLE_TOUCH: nat := 72
  const IDX_READ_ONLY: nat := 73
  const IDX_GATEWAY_HOSTNAME: nat := 74
  const IDX_GATEWAY_PORT: nat := 75
  const IDX_GATEWAY_DOMAIN: nat := 76
  const IDX_GATEWAY_USERNAME: nat := 77
  const IDX_GATEWAY_PASSWORD: nat := 78
  const IDX_LOAD_BALANCE_INFO: nat := 79
  const IDX_CLIPBOARD_BUFFER_SIZE: nat := 80
  const IDX_DISABLE_COPY: nat := 81
  const IDX_DISABLE_PASTE: nat := 82
  const IDX_WOL_SEND_PACKET: nat := 83
  const IDX_WOL_MAC_ADDR: nat := 84
  const IDX_WOL_BROADCAST_ADDR: nat := 85
  const IDX_WOL_UDP_PORT: nat := 86
  const IDX_WOL_WAIT_TIME: nat := 87
  const IDX_FORCE_LOSSLESS: nat := 88
  const IDX_NORMALIZE_CLIPBOARD: nat := 89

  /** Number of entries in the index enumeration. */
  const RDP_ARGS_COUNT: nat := 90

  datatype SecurityMode =
    | SecurityRdp | SecurityTls | SecurityNla | SecurityExtendedNla | SecurityVmConnect | SecurityAny

  datatype ResizeMethod = ResizeNone | ResizeReconnect | ResizeDisplayUpdate

  /** guac_rdp_keymap, reduced to what the projection reads. */
  datatype Keymap = Keymap(name: string, freerdpKeyboardLayout: int)

  /**
   * The helpers the resolver calls but whose code is not part of this model.
   * Each typed parser receives the raw argument and the default value.
   */
  datatype ArgParsers = ArgParsers(
    boolean: (string, bool) -> bool,
    integer: (string, int) -> int,
    str: (string, Option<string>) -> Option<string>,
    atoi: string -> int,
    split: (string, char) -> seq<string>,
    keymapFind: string -> Option<Keymap>)

  /** What the user's handshake told the server. */
  datatype UserInfo = UserInfo(
    optimalWidth: int, optimalHeight: int, optimalResolution: int,
    timezone: Option<string>,
    /** guac_rdp_suggest_resolution(user). */
    suggestedResolution: int)

  /** Compile-time defaults (RDP_DEFAULT_*, GUAC_WOL_*, clipboard limits, ...). */
  datatype Defaults = Defaults(
    port: int, vmconnectPort: int, timeout: int,
    width: int, height: int, depth: int, gfxRequiredDepth: int,
    sftpTimeout: int, recordingName: string, keymap: string,
    clipboardMin: int, clipboardMax: int,
    wolBroadcast: string, wolPort: int, wolBootWaitTime: int,
    /** RDP_CLIENT_HOSTNAME_SIZE: the longest client name passed to the engine. */
    clientHostnameSize: nat)

  /* The settings record, grouped as the connection parameters are documented. */

  datatype Connection = Connection(
    hostname: Option<string>, port: int, timeout: int, security: SecurityMode,
    domain: Option<string>, username: Option<string>, password: Option<string>,
    console: bool, consoleAudio: bool,
    ignoreCertificate: bool, certificateTofu: bool, certificateFingerprints: Option<string>,
    disableAuthentication: bool, clientName: Option<string>, readOnly: bool,
    preconnectionId: int, preconnectionBlob: Option<string>, loadBalanceInfo: Option<string>)

  datatype Display = Display(
    width: int, height: int, resolution: int, colorDepth: int, enableGfx: bool,
    resizeMethod: ResizeMethod, lossless: bool,
    serverLayout: Option<Keymap>, timezone: Option<string>)

  datatype Performance = Performance(
    wallpaper: bool, theming: bool, fontSmoothing: bool, fullWindowDrag: bool,
    desktopComposition: bool, menuAnimations: bool,
    disableBitmapCaching: bool, disableOffscreenCaching: bool, disableGlyphCaching: bool)

  datatype Programs = Programs(
    initialProgram: Option<string>, remoteApp: Option<string>,
    remoteAppDir: Option<string>, remoteAppArgs: Option<string>,
    svcNames: Option<seq<string>>)

  datatype Devices = Devices(
    audioEnabled: bool, printingEnabled: bool, printerName: Option<string>,
    driveEnabled: bool, driveName: Option<string>, drivePath: Option<string>,
    createDrivePath: bool, disableDownload: bool, disableUpload: bool,
    enableTouch: bool, enableAudioInput: bool, enableWebcam: bool)

  datatype Sftp = Sftp(
    enabled: bool, hostname: Option<string>, hostKey: Option<string>, port: Option<string>,
    timeout: int, username: Option<string>, password: Option<string>,
    privateKey: Option<string>, passphrase: Option<string>, publicKey: Option<string>,
    directory: Option<string>, rootDirectory: Option<string>,
    serverAliveInterval: int, disableDownload: bool, disableUpload: bool)

  datatype Recording = Recording(
    path: Option<string>, name: Option<string>,
    excludeOutput: bool, excludeMouse: bool, excludeTouch: bool, includeKeys: bool,
    createPath: bool, writeExisting: bool)

  datatype Gateway = Gateway(
    hostname: Option<string>, port: int,
    domain: Option<string>, username: Option<string>, password: Option<string>)

  datatype Clipboard = Clipboard(
    bufferSize: int, disableCopy: bool, disablePaste: bool, normalize: bool, crlf: bool)

  /** Wake-on-LAN fields; a zero-filled record is what the resolver leaves when WoL is off. */
  datatype WakeOnLan = WakeOnLan(
    sendPacket: bool, macAddr: Option<string>, broadcastAddr: Option<string>,
    udpPort: int, waitTime: int)

  const WOL_UNSET: WakeOnLan := WakeOnLan(false, None, None, 0, 0)

  datatype Settings = Settings(
    connection: Connection, display: Display, performance: Performance,
    programs: Programs, devices: Devices, sftp: Sftp, recording: Recording,
    gateway: Gateway, clipboard: Clipboard, wol: WakeOnLan)

  /** Argument `i` of the vector (the empty string past its end, which the resolver never reaches). */
  function Arg(argv: seq<string>, i: nat): string {
    if i < |argv| then argv[i] else ""
  }

  /* guac_user_parse_args_*: the typed parse of argument `i`, with a default. */

  function ArgBool(P: ArgParsers, argv: seq<string>, i: nat, d: bool): bool {
    P.boolean(Arg(argv, i), d)
  }

  function ArgInt(P: ArgParsers, argv: seq<string>, i: nat, d: int): int {
    P.integer(Arg(argv, i), d)
  }

  function ArgStr(P: ArgParsers, argv: seq<string>, i: nat, d: Option<string>): Option<string> {
    P.str(Arg(argv, i), d)
  }

  /** The width or height candidate: the explicit argument if given, else optimal * dpi / optimal dpi. */
  function Dimension(P: ArgParsers, arg: string, optimal: int, resolution: int, optimalResolution: int): int
    requires optimalResolution > 0
  {
    if !IsEmptyArg(arg) then P.atoi(arg) else CDiv(optimal * resolution, optimalResolution)
  }

  /** Invariants every record returned by the resolver satisfies. */
  predicate Resolved(s: Settings, D: Defaults) {
    && s.performance.disableGlyphCaching
    && s.display.width % 4 == 0
    && (D.width > 0 ==> s.display.width >= 0)
    && (D.height > 0 ==> s.display.height > 0)
    && (D.clipboardMin <= D.clipboardMax ==>
          D.clipboardMin <= s.clipboard.bufferSize <= D.clipboardMax)
    && (s.clipboard.crlf ==> s.clipboard.normalize)
    && 0 <= s.wol.udpPort < UINT16_LIMIT
    && s.connection.preconnectionId >= -1
  }

  /** The security-mode chain of guac_rdp_parse_args. */
  method ParseSecurityMode(arg: string) returns (m: SecurityMode)
    ensures SecurityModeOf(CString(arg), m)
  {
    var sec := CString(arg);
    if sec == "nla" {
      m := SecurityNla;
    } else if sec == "nla-ext" {
      m := SecurityExtendedNla;
    } else if sec == "tls" {
      m := SecurityTls;
    } else if sec == "rdp" {
      m := SecurityRdp;
    } else if sec == "vmconnect" {
      m := SecurityVmConnect;
    } else if sec == "any" {
      m := SecurityAny;
    } else {
      m := SecurityAny;
    }
  }

  /**
   * Desktop width: the explicit argument or the scaled optimal width, the
   * default when that is not positive, then rounded down to a multiple of 4.
   */
  method ResolveWidth(P: ArgParsers, arg: string, user: UserInfo, resolution: int, D: Defaults)
    returns (width: int)
    requires user.optimalResolution > 0
    ensures var w := Dimension(P, arg, user.optimalWidth, resolution, user.optimalResolution);
      var w' := if w <= 0 then D.width else w;
      width % 4 == 0 && width <= w' < width + 4
    ensures D.width > 0 ==> width >= 0
  {
    width := CDiv(user.optimalWidth * resolution, user.optimalResolution);
    if !IsEmptyArg(arg) {
      width := P.atoi(arg);
    }
    if width <= 0 {
      width := D.width;
    }
    width := ClearLowTwoBits(width);
  }

  /** Desktop height: as the width, but without rounding. */
  method ResolveHeight(P: ArgParsers, arg: string, user: UserInfo, resolution: int, D: Defaults)
    returns (height: int)
    requires user.optimalResolution > 0
    ensures var h := Dimension(P, arg, user.optimalHeight, resolution, user.optimalResolution);
      height == (if h <= 0 then D.height else h)
    ensures D.height > 0 ==> height > 0
  {
    height := CDiv(user.optimalHeight * resolution, user.optimalResolution);
    if !IsEmptyArg(arg) {
      height := P.atoi(arg);
    }
    if height <= 0 {
      height := D.height;
    }
  }

  /** Preconnection ID: -1 unless a non-negative ID is given. */
  method ParsePreconnectionId(P: ArgParsers, arg: string) returns (id: int)
    ensures id >= -1
    ensures IsEmptyArg(arg) || P.atoi(arg) < 0 ==> id == -1
    ensures !IsEmptyArg(arg) && P.atoi(arg) >= 0 ==> id == P.atoi(arg)
  {
    id := -1;
    if !IsEmptyArg(arg) {
      var parsed := P.atoi(arg);
      if parsed >= 0 {
        id := parsed;
      }
    }
  }

  /** Preconnection BLOB: a copy of the argument, or none when it is empty. */
  method ParsePreconnectionBlob(arg: string) returns (blob: Option<string>)
    ensures blob.None? <==> IsEmptyArg(arg)
    ensures blob.Some? ==> blob.value == CString(arg)
  {
    blob := None;
    if !IsEmptyArg(arg) {
      blob := Some(CString(arg));
    }
  }

  /** Static channel names: the comma-separated list, or none when the argument is empty. */
  method ParseStaticChannels(P: ArgParsers, arg: string) returns (names: Option<seq<string>>)
    ensures names.None? <==> IsEmptyArg(arg)
    ensures names.Some? ==> names.value == P.split(CString(arg), ',')
  {
    names := None;
    if !IsEmptyArg(arg) {
      names := Some(P.split(CString(arg), ','));
    }
  }

  /** Keymap: the requested layout if it is known, otherwise the default keymap. */
  method FindServerLayout(P: ArgParsers, arg: string, D: Defaults) returns (k: Option<Keymap>)
    ensures !IsEmptyArg(arg) && P.keymapFind(CString(arg)).Some? ==> k == P.keymapFind(CString(arg))
    ensures IsEmptyArg(arg) || P.keymapFind(CString(arg)).None? ==> k == P.keymapFind(D.keymap)
  {
    k := None;
    if !IsEmptyArg(arg) {
      k := P.keymapFind(CString(arg));
    }
    if k.None? {
      k := P.keymapFind(D.keymap);
    }
  }

  /** Resize method: "reconnect" and "display-update" are recognised, anything else is none. */
  method ParseResizeMethod(arg: string) returns (m: ResizeMethod)
    ensures m == ResizeReconnect <==> CString(arg) == "reconnect"
    ensures m == ResizeDisplayUpdate <==> CString(arg) == "display-update"
  {
    var rm := CString(arg);
    if rm == "" {
      m := ResizeNone;
    } else if rm == "reconnect" {
      m := ResizeReconnect;
    } else if rm == "display-update" {
      m := ResizeDisplayUpdate;
    } else {
      m := ResizeNone;
    }
  }

  /** Clipboard buffer size: raised to the minimum, else lowered to the maximum. */
  method ClampClipboardSize(v: int, D: Defaults) returns (n: int)
    ensures v < D.clipboardMin ==> n == D.clipboardMin
    ensures D.clipboardMin <= v <= D.clipboardMax ==> n == v
    ensures D.clipboardMin <= v && D.clipboardMax < v ==> n == D.clipboardMax
    ensures D.clipboardMin <= D.clipboardMax ==> D.clipboardMin <= n <= D.clipboardMax
  {
    n := v;
    if n < D.clipboardMin {
      n := D.clipboardMin;
    } else if n > D.clipboardMax {
      n := D.clipboardMax;
    }
  }

  /** Line-ending normalisation: "unix" (LF), "windows" (CRLF), anything else preserves. */
  method ParseNormalizeClipboard(arg: string) returns (normalize: bool, crlf: bool)
    ensures CString(arg) == "unix" ==> normalize && !crlf
    ensures CString(arg) == "windows" ==> normalize && crlf
    ensures CString(arg) != "unix" && CString(arg) != "windows" ==> !normalize && !crlf
  {
    var mode := CString(arg);
    if mode == "unix" {
      normalize, crlf := true, false;
    } else if mode == "windows" {
      normalize, crlf := true, true;
    } else if mode == "preserve" {
      normalize, crlf := false, false;
    } else {
      normalize, crlf := false, false;
    }
  }

  /**
   * Wake-on-LAN: the sub-fields are parsed only when a packet is requested,
   * and the request is dropped when no MAC address is given.
   */
  method ParseWakeOnLan(P: ArgParsers, argv: seq<string>, D: Defaults) returns (wol: WakeOnLan)
    ensures WakeOnLanParsed(wol, P, argv, D)
    ensures wol.sendPacket ==> ArgBool(P, argv, IDX_WOL_SEND_PACKET, false) && !IsEmptyArg(Arg(argv, IDX_WOL_MAC_ADDR))
    ensures 0 <= wol.udpPort < UINT16_LIMIT
  {
    wol := WOL_UNSET.(sendPacket := ArgBool(P, argv, IDX_WOL_SEND_PACKET, false));
    if wol.sendPacket {
      if CString(Arg(argv, IDX_WOL_MAC_ADDR)) == "" {
        wol := wol.(sendPacket := false);
      }
      wol := wol.(
        macAddr := ArgStr(P, argv, IDX_WOL_MAC_ADDR, None),
        broadcastAddr := ArgStr(P, argv, IDX_WOL_BROADCAST_ADDR, Some(D.wolBroadcast)),
        udpPort := ToUint16(ArgInt(P, argv, IDX_WOL_UDP_PORT, D.wolPort)),
        waitTime := ArgInt(P, argv, IDX_WOL_WAIT_TIME, D.wolBootWaitTime));
    }
  }

  /* What each group of the settings record is, in terms of the argument vector. */

  /** The security-mode chain: five names select a mode, anything else (including "any" and "") negotiates. */
  predicate SecurityModeOf(sec: string, m: SecurityMode) {
    && (sec == "nla" <==> m == SecurityNla)
    && (sec == "nla-ext" <==> m == SecurityExtendedNla)
    && (sec == "tls" <==> m == SecurityTls)
    && (sec == "rdp" <==> m == SecurityRdp)
    && (sec == "vmconnect" <==> m == SecurityVmConnect)
    && (m == SecurityAny <==> sec !in {"nla", "nla-ext", "tls", "rdp", "vmconnect"})
  }

  predicate ConnectionParsed(c: Connection, P: ArgParsers, argv: seq<string>, D: Defaults) {
    && SecurityModeOf(CString(Arg(argv, IDX_SECURITY)), c.security)
    // the port default depends on the mode
    && c.port == ArgInt(P, argv, IDX_PORT, if c.security == SecurityVmConnect then D.vmconnectPort else D.port)
    && var id := Arg(argv, IDX_PRECONNECTION_ID);
    && (IsEmptyArg(id) || P.atoi(id) < 0 ==> c.preconnectionId == -1)
    && (!IsEmptyArg(id) && P.atoi(id) >= 0 ==> c.preconnectionId == P.atoi(id))
    && var blob := Arg(argv, IDX_PRECONNECTION_BLOB);
    && (c.preconnectionBlob.None? <==> IsEmptyArg(blob))
    && (c.preconnectionBlob.Some? ==> c.preconnectionBlob.value == CString(blob))
    && c.hostname == ArgStr(P, argv, IDX_HOSTNAME, Some(""))
    && c.timeout == ArgInt(P, argv, IDX_TIMEOUT, D.timeout)
    && c.domain == ArgStr(P, argv, IDX_DOMAIN, None)
    && c.username == ArgStr(P, argv, IDX_USERNAME, None)
    && c.password == ArgStr(P, argv, IDX_PASSWORD, None)
    && c.console == ArgBool(P, argv, IDX_CONSOLE, false)
    && c.consoleAudio == ArgBool(P, argv, IDX_CONSOLE_AUDIO, false)
    && c.ignoreCertificate == ArgBool(P, argv, IDX_IGNORE_CERT, false)
    && c.certificateTofu == ArgBool(P, argv, IDX_CERTIFICATE_TOFU, false)
    && c.certificateFingerprints == ArgStr(P, argv, IDX_CERTIFICATE_FINGERPRINTS, None)
    && c.disableAuthentication == ArgBool(P, argv, IDX_DISABLE_AUTH, false)
    && c.clientName == ArgStr(P, argv, IDX_CLIENT_NAME, Some("Guacamole RDP"))
    && c.readOnly == ArgBool(P, argv, IDX_READ_ONLY, false)
    && c.loadBalanceInfo == ArgStr(P, argv, IDX_LOAD_BALANCE_INFO, None)
  }

  predicate DisplayParsed(d: Display, P: ArgParsers, argv: seq<string>, user: UserInfo, D: Defaults)
    requires user.optimalResolution > 0
  {
    && d.resolution == ArgInt(P, argv, IDX_DPI, user.suggestedResolution)
    // width: explicit or scaled, the default when not positive, then rounded down to a multiple of 4
    && var w := Dimension(P, Arg(argv, IDX_WIDTH), user.optimalWidth, d.resolution, user.optimalResolution);
    && var w' := if w <= 0 then D.width else w;
    && d.width % 4 == 0 && d.width <= w' < d.width + 4
    // height: the same without rounding
    && var h := Dimension(P, Arg(argv, IDX_HEIGHT), user.optimalHeight, d.resolution, user.optimalResolution);
    && d.height == (if h <= 0 then D.height else h)
    // the colour-depth default depends on whether the graphics pipeline is enabled
    && d.enableGfx == !ArgBool(P, argv, IDX_DISABLE_GFX, false)
    && d.colorDepth == ArgInt(P, argv, IDX_COLOR_DEPTH, if d.enableGfx then D.gfxRequiredDepth else D.depth)
    && var rm := CString(Arg(argv, IDX_RESIZE_METHOD));
    && (d.resizeMethod == ResizeReconnect <==> rm == "reconnect")
    && (d.resizeMethod == ResizeDisplayUpdate <==> rm == "display-update")
    // the requested keymap if it exists, else the default keymap
    && var layout := Arg(argv, IDX_SERVER_LAYOUT);
    && (!IsEmptyArg(layout) && P.keymapFind(CString(layout)).Some? ==> d.serverLayout == P.keymapFind(CString(layout)))
    && (IsEmptyArg(layout) || P.keymapFind(CString(layout)).None? ==> d.serverLayout == P.keymapFind(D.keymap))
    && d.lossless == ArgBool(P, argv, IDX_FORCE_LOSSLESS, false)
    && d.timezone == ArgStr(P, argv, IDX_TIMEZONE, user.timezone)
  }

  /** The performance flags as given, except that glyph caching is always disabled. */
  predicate PerformanceParsed(p: Performance, P: ArgParsers, argv: seq<string>) {
    p == Performance(
      ArgBool(P, argv, IDX_ENABLE_WALLPAPER, false), ArgBool(P, argv, IDX_ENABLE_THEMING, false),
      ArgBool(P, argv, IDX_ENABLE_FONT_SMOOTHING, false), ArgBool(P, argv, IDX_ENABLE_FULL_WINDOW_DRAG, false),
      ArgBool(P, argv, IDX_ENABLE_DESKTOP_COMPOSITION, false), ArgBool(P, argv, IDX_ENABLE_MENU_ANIMATIONS, false),
      ArgBool(P, argv, IDX_DISABLE_BITMAP_CACHING, false), ArgBool(P, argv, IDX_DISABLE_OFFSCREEN_CACHING, false),
      true)
  }

  predicate ProgramsParsed(p: Programs, P: ArgParsers, argv: seq<string>) {
    && p.initialProgram == ArgStr(P, argv, IDX_INITIAL_PROGRAM, None)
    && p.remoteApp == ArgStr(P, argv, IDX_REMOTE_APP, None)
    && p.remoteAppDir == ArgStr(P, argv, IDX_REMOTE_APP_DIR, None)
    && p.remoteAppArgs == ArgStr(P, argv, IDX_REMOTE_APP_ARGS, None)
    && var channels := Arg(argv, IDX_STATIC_CHANNELS);
    && (p.svcNames.None? <==> IsEmptyArg(channels))
    && (p.svcNames.Some? ==> p.svcNames.value == P.split(CString(channels), ','))
  }

  /** Audio is on unless disabled; everything else is opt-in. */
  predicate DevicesParsed(d: Devices, P: ArgParsers, argv: seq<string>) {
    d == Devices(
      !ArgBool(P, argv, IDX_DISABLE_AUDIO, false),
      ArgBool(P, argv, IDX_ENABLE_PRINTING, false), ArgStr(P, argv, IDX_PRINTER_NAME, Some("Guacamole Printer")),
      ArgBool(P, argv, IDX_ENABLE_DRIVE, false), ArgStr(P, argv, IDX_DRIVE_NAME, Some("Guacamole Filesystem")),
      ArgStr(P, argv, IDX_DRIVE_PATH, Some("")), ArgBool(P, argv, IDX_CREATE_DRIVE_PATH, false),
      ArgBool(P, argv, IDX_DISABLE_DOWNLOAD, false), ArgBool(P, argv, IDX_DISABLE_UPLOAD, false),
      ArgBool(P, argv, IDX_ENABLE_TOUCH, false), ArgBool(P, argv, IDX_ENABLE_AUDIO_INPUT, false),
      ArgBool(P, argv, IDX_ENABLE_WEBCAM, false))
  }

  /** SFTP settings; the host and user default to the RDP connection's. */
  predicate SftpParsed(s: Sftp, P: ArgParsers, argv: seq<string>, D: Defaults, c: Connection) {
    && s.hostname == ArgStr(P, argv, IDX_SFTP_HOSTNAME, c.hostname)
    && s.username == ArgStr(P, argv, IDX_SFTP_USERNAME, if c.username.Some? then c.username else Some(""))
    && s.enabled == ArgBool(P, argv, IDX_ENABLE_SFTP, false)
    && s.hostKey == ArgStr(P, argv, IDX_SFTP_HOST_KEY, None)
    && s.port == ArgStr(P, argv, IDX_SFTP_PORT, Some("22"))
    && s.timeout == ArgInt(P, argv, IDX_SFTP_TIMEOUT, D.sftpTimeout)
    && s.password == ArgStr(P, argv, IDX_SFTP_PASSWORD, Some(""))
    && s.privateKey == ArgStr(P, argv, IDX_SFTP_PRIVATE_KEY, None)
    && s.passphrase == ArgStr(P, argv, IDX_SFTP_PASSPHRASE, Some(""))
    && s.publicKey == ArgStr(P, argv, IDX_SFTP_PUBLIC_KEY, None)
    && s.directory == ArgStr(P, argv, IDX_SFTP_DIRECTORY, None)
    && s.rootDirectory == ArgStr(P, argv, IDX_SFTP_ROOT_DIRECTORY, Some("/"))
    && s.serverAliveInterval == ArgInt(P, argv, IDX_SFTP_SERVER_ALIVE_INTERVAL, 0)
    && s.disableDownload == ArgBool(P, argv, IDX_SFTP_DISABLE_DOWNLOAD, false)
    && s.disableUpload == ArgBool(P, argv, IDX_SFTP_DISABLE_UPLOAD, false)
  }

  predicate RecordingParsed(r: Recording, P: ArgParsers, argv: seq<string>, D: Defaults) {
    r == Recording(
      ArgStr(P, argv, IDX_RECORDING_PATH, None), ArgStr(P, argv, IDX_RECORDING_NAME, Some(D.recordingName)),
      ArgBool(P, argv, IDX_RECORDING_EXCLUDE_OUTPUT, false), ArgBool(P, argv, IDX_RECORDING_EXCLUDE_MOUSE, false),
      ArgBool(P, argv, IDX_RECORDING_EXCLUDE_TOUCH, false), ArgBool(P, argv, IDX_RECORDING_INCLUDE_KEYS, false),
      ArgBool(P, argv, IDX_CREATE_RECORDING_PATH, false), ArgBool(P, argv, IDX_RECORDING_WRITE_EXISTING, false))
  }

  predicate GatewayParsed(g: Gateway, P: ArgParsers, argv: seq<string>) {
    g == Gateway(
      ArgStr(P, argv, IDX_GATEWAY_HOSTNAME, None), ArgInt(P, argv, IDX_GATEWAY_PORT, 443),
      ArgStr(P, argv, IDX_GATEWAY_DOMAIN, None), ArgStr(P, argv, IDX_GATEWAY_USERNAME, None),
      ArgStr(P, argv, IDX_GATEWAY_PASSWORD, None))
  }

  predicate ClipboardParsed(c: Clipboard, P: ArgParsers, argv: seq<string>, D: Defaults) {
    // the buffer size is raised to the minimum, else lowered to the maximum
    && var v := ArgInt(P, argv, IDX_CLIPBOARD_BUFFER_SIZE, 0);
    && (v < D.clipboardMin ==> c.bufferSize == D.clipboardMin)
    && (D.clipboardMin <= v <= D.clipboardMax ==> c.bufferSize == v)
    && (D.clipboardMin <= v && D.clipboardMax < v ==> c.bufferSize == D.clipboardMax)
    && c.disableCopy == ArgBool(P, argv, IDX_DISABLE_COPY, false)
    && c.disablePaste == ArgBool(P, argv, IDX_DISABLE_PASTE, false)
    // "unix" normalises to LF, "windows" to CRLF, anything else preserves
    && var mode := CString(Arg(argv, IDX_NORMALIZE_CLIPBOARD));
    && (mode == "unix" ==> c.normalize && !c.crlf)
    && (mode == "windows" ==> c.normalize && c.crlf)
    && (mode != "unix" && mode != "windows" ==> !c.normalize && !c.crlf)
  }

  /** Wake-on-LAN: parsed only when requested, and dropped when no MAC address is given. */
  predicate WakeOnLanParsed(w: WakeOnLan, P: ArgParsers, argv: seq<string>, D: Defaults) {
    var requested := ArgBool(P, argv, IDX_WOL_SEND_PACKET, false);
    && (!requested ==> w == WOL_UNSET)
    && (requested ==>
          && w.sendPacket == !IsEmptyArg(Arg(argv, IDX_WOL_MAC_ADDR))
          && w.macAddr == ArgStr(P, argv, IDX_WOL_MAC_ADDR, None)
          && w.broadcastAddr == ArgStr(P, argv, IDX_WOL_BROADCAST_ADDR, Some(D.wolBroadcast))
          && w.udpPort == ToUint16(ArgInt(P, argv, IDX_WOL_UDP_PORT, D.wolPort))
          && w.waitTime == ArgInt(P, argv, IDX_WOL_WAIT_TIME, D.wolBootWaitTime))
  }

  /* The resolver, one parameter group at a time. */

  method ResolveConnection(P: ArgParsers, argv: seq<string>, D: Defaults) returns (c: Connection)
    ensures ConnectionParsed(c, P, argv, D)
    ensures c.preconnectionId >= -1
  {
    var console := ArgBool(P, argv, IDX_CONSOLE, false);
    var consoleAudio := ArgBool(P, argv, IDX_CONSOLE_AUDIO, false);
    var ignoreCertificate := ArgBool(P, argv, IDX_IGNORE_CERT, false);
    var certificateTofu := ArgBool(P, argv, IDX_CERTIFICATE_TOFU, false);
    var certificateFingerprints := ArgStr(P, argv, IDX_CERTIFICATE_FINGERPRINTS, None);
    var disableAuthentication := ArgBool(P, argv, IDX_DISABLE_AUTH, false);
    var security := ParseSecurityMode(Arg(argv, IDX_SECURITY));
    var hostname := ArgStr(P, argv, IDX_HOSTNAME, Some(""));
    var port := ArgInt(P, argv, IDX_PORT, if security == SecurityVmConnect then D.vmconnectPort else D.port);
    var timeout := ArgInt(P, argv, IDX_TIMEOUT, D.timeout);
    var domain := ArgStr(P, argv, IDX_DOMAIN, None);
    var username := ArgStr(P, argv, IDX_USERNAME, None);
    var password := ArgStr(P, argv, IDX_PASSWORD, None);
    var readOnly := ArgBool(P, argv, IDX_READ_ONLY, false);
    var clientName := ArgStr(P, argv, IDX_CLIENT_NAME, Some("Guacamole RDP"));
    var preconnectionId := ParsePreconnectionId(P, Arg(argv, IDX_PRECONNECTION_ID));
    var preconnectionBlob := ParsePreconnectionBlob(Arg(argv, IDX_PRECONNECTION_BLOB));
    var loadBalanceInfo := ArgStr(P, argv, IDX_LOAD_BALANCE_INFO, None);
    c := Connection(
      hostname, port, timeout, security, domain, username, password,
      console, consoleAudio, ignoreCertificate, certificateTofu, certificateFingerprints,
      disableAuthentication, clientName, readOnly,
      preconnectionId, preconnectionBlob, loadBalanceInfo);
  }

  method ResolveDisplay(P: ArgParsers, argv: seq<string>, user: UserInfo, D: Defaults) returns (d: Display)
    requires user.optimalResolution > 0
    ensures DisplayParsed(d, P, argv, user, D)
    ensures d.width % 4 == 0 && (D.width > 0 ==> d.width >= 0) && (D.height > 0 ==> d.height > 0)
  {
    var resolution := ArgInt(P, argv, IDX_DPI, user.suggestedResolution);
    var width := ResolveWidth(P, Arg(argv, IDX_WIDTH), user, resolution, D);
    var height := ResolveHeight(P, Arg(argv, IDX_HEIGHT), user, resolution, D);
    var lossless := ArgBool(P, argv, IDX_FORCE_LOSSLESS, false);
    var serverLayout := FindServerLayout(P, Arg(argv, IDX_SERVER_LAYOUT), D);
    var timezone := ArgStr(P, argv, IDX_TIMEZONE, user.timezone);
    var resizeMethod := ParseResizeMethod(Arg(argv, IDX_RESIZE_METHOD));
    var enableGfx := !ArgBool(P, argv, IDX_DISABLE_GFX, false);
    var colorDepth := ArgInt(P, argv, IDX_COLOR_DEPTH, if enableGfx then D.gfxRequiredDepth else D.depth);
    d := Display(width, height, resolution, colorDepth, enableGfx, resizeMethod, lossless, serverLayout, timezone);
  }

  method ResolvePrograms(P: ArgParsers, argv: seq<string>) returns (p: Programs)
    ensures ProgramsParsed(p, P, argv)
  {
    var svcNames := ParseStaticChannels(P, Arg(argv, IDX_STATIC_CHANNELS));
    p := Programs(
      ArgStr(P, argv, IDX_INITIAL_PROGRAM, None), ArgStr(P, argv, IDX_REMOTE_APP, None),
      ArgStr(P, argv, IDX_REMOTE_APP_DIR, None), ArgStr(P, argv, IDX_REMOTE_APP_ARGS, None),
      svcNames);
  }

  method ResolvePerformance(P: ArgParsers, argv: seq<string>) returns (p: Performance)
    ensures PerformanceParsed(p, P, argv)
    ensures p.disableGlyphCaching
  {
    p := Performance(
      ArgBool(P, argv, IDX_ENABLE_WALLPAPER, false), ArgBool(P, argv, IDX_ENABLE_THEMING, false),
      ArgBool(P, argv, IDX_ENABLE_FONT_SMOOTHING, false), ArgBool(P, argv, IDX_ENABLE_FULL_WINDOW_DRAG, false),
      ArgBool(P, argv, IDX_ENABLE_DESKTOP_COMPOSITION, false), ArgBool(P, argv, IDX_ENABLE_MENU_ANIMATIONS, false),
      ArgBool(P, argv, IDX_DISABLE_BITMAP_CACHING, false), ArgBool(P, argv, IDX_DISABLE_OFFSCREEN_CACHING, false),
      false);
    // Glyph caching is disabled whatever the disable-glyph-caching argument says.
    p := p.(disableGlyphCaching := true);
  }

  method ResolveDevices(P: ArgParsers, argv: seq<string>) returns (d: Devices)
    ensures DevicesParsed(d, P, argv)
  {
    d := Devices(
      !ArgBool(P, argv, IDX_DISABLE_AUDIO, false),
      ArgBool(P, argv, IDX_ENABLE_PRINTING, false), ArgStr(P, argv, IDX_PRINTER_NAME, Some("Guacamole Printer")),
      ArgBool(P, argv, IDX_ENABLE_DRIVE, false), ArgStr(P, argv, IDX_DRIVE_NAME, Some("Guacamole Filesystem")),
      ArgStr(P, argv, IDX_DRIVE_PATH, Some("")), ArgBool(P, argv, IDX_CREATE_DRIVE_PATH, false),
      ArgBool(P, argv, IDX_DISABLE_DOWNLOAD, false), ArgBool(P, argv, IDX_DISABLE_UPLOAD, false),
      ArgBool(P, argv, IDX_ENABLE_TOUCH, false), ArgBool(P, argv, IDX_ENABLE_AUDIO_INPUT, false),
      ArgBool(P, argv, IDX_ENABLE_WEBCAM, false));
  }

  method ResolveSftp(P: ArgParsers, argv: seq<string>, D: Defaults, connection: Connection) returns (s: Sftp)
    ensures SftpParsed(s, P, argv, D, connection)
  {
    s := Sftp(
      ArgBool(P, argv, IDX_ENABLE_SFTP, false),
      ArgStr(P, argv, IDX_SFTP_HOSTNAME, connection.hostname),
      ArgStr(P, argv, IDX_SFTP_HOST_KEY, None),
      ArgStr(P, argv, IDX_SFTP_PORT, Some("22")),
      ArgInt(P, argv, IDX_SFTP_TIMEOUT, D.sftpTimeout),
      ArgStr(P, argv, IDX_SFTP_USERNAME, if connection.username.Some? then connection.username else Some("")),
      ArgStr(P, argv, IDX_SFTP_PASSWORD, Some("")),
      ArgStr(P, argv, IDX_SFTP_PRIVATE_KEY, None),
      ArgStr(P, argv, IDX_SFTP_PASSPHRASE, Some("")),
      ArgStr(P, argv, IDX_SFTP_PUBLIC_KEY, None),
      ArgStr(P, argv, IDX_SFTP_DIRECTORY, None),
      ArgStr(P, argv, IDX_SFTP_ROOT_DIRECTORY, Some("/")),
      ArgInt(P, argv, IDX_SFTP_SERVER_ALIVE_INTERVAL, 0),
      ArgBool(P, argv, IDX_SFTP_DISABLE_DOWNLOAD, false),
      ArgBool(P, argv, IDX_SFTP_DISABLE_UPLOAD, false));
  }

  method ResolveRecording(P: ArgParsers, argv: seq<string>, D: Defaults) returns (r: Recording)
    ensures RecordingParsed(r, P, argv, D)
  {
    r := Recording(
      ArgStr(P, argv, IDX_RECORDING_PATH, None), ArgStr(P, argv, IDX_RECORDING_NAME, Some(D.recordingName)),
      ArgBool(P, argv, IDX_RECORDING_EXCLUDE_OUTPUT, false), ArgBool(P, argv, IDX_RECORDING_EXCLUDE_MOUSE, false),
      ArgBool(P, argv, IDX_RECORDING_EXCLUDE_TOUCH, false), ArgBool(P, argv, IDX_RECORDING_INCLUDE_KEYS, false),
      ArgBool(P, argv, IDX_CREATE_RECORDING_PATH, false), ArgBool(P, argv, IDX_RECORDING_WRITE_EXISTING, false));
  }

  method ResolveGateway(P: ArgParsers, argv: seq<string>) returns (g: Gateway)
    ensures GatewayParsed(g, P, argv)
  {
    g := Gateway(
      ArgStr(P, argv, IDX_GATEWAY_HOSTNAME, None), ArgInt(P, argv, IDX_GATEWAY_PORT, 443),
      ArgStr(P, argv, IDX_GATEWAY_DOMAIN, None), ArgStr(P, argv, IDX_GATEWAY_USERNAME, None),
      ArgStr(P, argv, IDX_GATEWAY_PASSWORD, None));
  }

  method ResolveClipboard(P: ArgParsers, argv: seq<string>, D: Defaults) returns (c: Clipboard)
    ensures ClipboardParsed(c, P, argv, D)
    ensures D.clipboardMin <= D.clipboardMax ==> D.clipboardMin <= c.bufferSize <= D.clipboardMax
    ensures c.crlf ==> c.normalize
  {
    var size := ClampClipboardSize(ArgInt(P, argv, IDX_CLIPBOARD_BUFFER_SIZE, 0), D);
    var normalize, crlf := ParseNormalizeClipboard(Arg(argv, IDX_NORMALIZE_CLIPBOARD));
    c := Clipboard(size, ArgBool(P, argv, IDX_DISABLE_COPY, false), ArgBool(P, argv, IDX_DISABLE_PASTE, false),
                   normalize, crlf);
  }

  /**
   * guac_rdp_parse_args. The only failure is a wrong argument count; every
   * other field is the typed parse of its argument with the documented
   * default, and the derived fields follow the rules of the group predicates.
   */
  method ParseArgs(argv: seq<string>, user: UserInfo, P: ArgParsers, D: Defaults)
    returns (r: Option<Settings>)
    requires user.optimalResolution > 0
    ensures r.None? <==> |argv| != RDP_ARGS_COUNT
    ensures r.Some? ==> Resolved(r.value, D)
    ensures r.Some? ==> ConnectionParsed(r.value.connection, P, argv, D)
    ensures r.Some? ==> DisplayParsed(r.value.display, P, argv, user, D)
    ensures r.Some? ==> PerformanceParsed(r.value.performance, P, argv)
    ensures r.Some? ==> ProgramsParsed(r.value.programs, P, argv)
    ensures r.Some? ==> DevicesParsed(r.value.devices, P, argv)
    ensures r.Some? ==> SftpParsed(r.value.sftp, P, argv, D, r.value.connection)
    ensures r.Some? ==> RecordingParsed(r.value.recording, P, argv, D)
    ensures r.Some? ==> GatewayParsed(r.value.gateway, P, argv)
    ensures r.Some? ==> ClipboardParsed(r.value.clipboard, P, argv, D)
    ensures r.Some? ==> WakeOnLanParsed(r.value.wol, P, argv, D)
  {
    if |argv| != RDP_ARGS_COUNT {
      return None;
    }
    var connection := ResolveConnection(P, argv, D);
    var display := ResolveDisplay(P, argv, user, D);
    var programs := ResolvePrograms(P, argv);

    var performance := ResolvePerformance(P, argv);
    var devices := ResolveDevices(P, argv);
    var sftp := ResolveSftp(P, argv, D, connection);
    var recording := ResolveRecording(P, argv, D);
    var gateway := ResolveGateway(P, argv);
    var clipboard := ResolveClipboard(P, argv, D);
    var wol := ParseWakeOnLan(P, argv, D);

    r := Some(Settings(connection, display, performance, programs, devices, sftp, recording,
                       gateway, clipboard, wol));
  }

  /* ---------------------------------------------------------------------
   * Performance flags (section 2.2.1.11.1.1.1 of [MS-RDPBCGR]).
   * --------------------------------------------------------------------- */

  const PERF_FLAG_NONE: bv32 := 0x0
  const PERF_DISABLE_WALLPAPER: bv32 := 0x1
  const PERF_DISABLE_FULLWINDOWDRAG: bv32 := 0x2
  const PERF_DISABLE_MENUANIMATIONS: bv32 := 0x4
  const PERF_DISABLE_THEMING: bv32 := 0x8
  const PERF_ENABLE_FONT_SMOOTHING: bv32 := 0x80
  const PERF_ENABLE_DESKTOP_COMPOSITION: bv32 := 0x100

  /** Every bit the builder may set. */
  const PERF_KNOWN_FLAGS: bv32 := 0x18F

  /** Whether `flag` is set in `flags`. */
  predicate HasFlag(flags: bv32, flag: bv32) {
    flags & flag != 0
  }

  /**
   * guac_rdp_get_performance_flags: a DISABLE bit for each of wallpaper,
   * theming, full-window drag and menu animations that is off, an ENABLE bit
   * for each of font smoothing and desktop composition that is on, and no
   * other bit.
   */
  method PerformanceFlags(p: Performance) returns (flags: bv32)
    ensures HasFlag(flags, PERF_DISABLE_WALLPAPER) <==> !p.wallpaper
    ensures HasFlag(flags, PERF_DISABLE_THEMING) <==> !p.theming
    ensures HasFlag(flags, PERF_ENABLE_FONT_SMOOTHING) <==> p.fontSmoothing
    ensures HasFlag(flags, PERF_DISABLE_FULLWINDOWDRAG) <==> !p.fullWindowDrag
    ensures HasFlag(flags, PERF_ENABLE_DESKTOP_COMPOSITION) <==> p.desktopComposition
    ensures HasFlag(flags, PERF_DISABLE_MENUANIMATIONS) <==> !p.menuAnimations
    ensures flags & !PERF_KNOWN_FLAGS == 0
  {
    flags := PERF_FLAG_NONE;
    if !p.wallpaper {
      flags := flags | PERF_DISABLE_WALLPAPER;
    }
    if !p.theming {
      flags := flags | PERF_DISABLE_THEMING;
    }
    if p.fontSmoothing {
      flags := flags | PERF_ENABLE_FONT_SMOOTHING;
    }
    if !p.fullWindowDrag {
      flags := flags | PERF_DISABLE_FULLWINDOWDRAG;
    }
    if p.desktopComposition {
      flags := flags | PERF_ENABLE_DESKTOP_COMPOSITION;
    }
    if !p.menuAnimations {
      flags := flags | PERF_DISABLE_MENUANIMATIONS;
    }
  }

  /* ---------------------------------------------------------------------
   * The engine's configuration, as the fields guac_rdp_push_settings writes
   * (the setter/getter API build). Fields the projection does not write in
   * some branch keep the value they had before.
   * --------------------------------------------------------------------- */

  const CONNECTION_TYPE_LAN: int := 6
  const OSMAJORTYPE_UNSPECIFIED: int := 0
  const OSMINORTYPE_UNSPECIFIED: int := 0
  const GLYPH_SUPPORT_NONE: int := 0
  const GLYPH_SUPPORT_FULL: int := 2
  /* Encryption level and methods (section 2.2.1.4.3 of [MS-RDPBCGR]). */
  const ENCRYPTION_LEVEL_CLIENT_COMPATIBLE: int := 2
  const ENCRYPTION_METHOD_40BIT: bv32 := 0x1
  const ENCRYPTION_METHOD_128BIT: bv32 := 0x2
  const ENCRYPTION_METHOD_FIPS: bv32 := 0x10

  datatype SessionConfig = SessionConfig(
    domain: Option<string>, username: Option<string>, password: Option<string>,
    serverHostname: Option<string>, serverPort: int,
    desktopWidth: int, desktopHeight: int, colorDepth: int,
    alternateShell: Option<string>, keyboardLayout: int,
    connectionType: int, frameMarkerCommandEnabled: bool, surfaceFrameMarkerEnabled: bool,
    fastPathInput: bool, fastPathOutput: bool)

  datatype ClientConfig = ClientConfig(
    clientHostname: Option<string>, consoleSession: bool, remoteConsoleAudio: bool,
    loadBalanceInfo: Option<string>, loadBalanceInfoLength: int,
    osMajorType: int, osMinorType: int, desktopResize: bool,
    /** The TZ value the process environment is asked to take. */
    timezoneEnv: Option<string>)

  datatype PerfConfig = PerfConfig(
    performanceFlags: bv32,
    allowFontSmoothing: bool, disableWallpaper: bool, disableFullWindowDrag: bool,
    disableMenuAnims: bool, disableThemes: bool, allowDesktopComposition: bool)

  datatype GfxConfig = GfxConfig(supportGraphicsPipeline: bool, remoteFxCodec: bool, softwareGdi: bool)

  datatype RedirectionConfig = RedirectionConfig(
    audioPlayback: bool, audioCapture: bool, videoCapture: bool,
    supportDisplayControl: bool, deviceRedirection: bool)

  datatype SecurityConfig = SecurityConfig(
    rdpSecurity: bool, tlsSecurity: bool, nlaSecurity: bool, extSecurity: bool,
    useRdpSecurityLayer: bool, encryptionLevel: int, encryptionMethods: bv32, vmConnectMode: bool,
    authentication: bool, ignoreCertificate: bool, autoAcceptCertificate: bool,
    acceptedFingerprints: Option<string>)

  datatype PreconnectionConfig = PreconnectionConfig(
    negotiateSecurityLayer: bool, sendPreconnectionPdu: bool,
    preconnectionId: int, preconnectionBlob: Option<string>)

  datatype RemoteAppConfig = RemoteAppConfig(
    workarea: bool, remoteApplicationMode: bool, languageBarSupported: bool,
    program: Option<string>, workingDirectory: Option<string>, cmdLine: Option<string>)

  datatype GatewayConfig = GatewayConfig(
    enabled: bool, hostname: Option<string>, port: int, useSameCredentials: bool,
    domain: Option<string>, username: Option<string>, password: Option<string>)

  datatype CacheConfig = CacheConfig(bitmapCacheEnabled: bool, offscreenSupportLevel: int, glyphSupportLevel: int)

  datatype EngineConfig = EngineConfig(
    session: SessionConfig, client: ClientConfig, perf: PerfConfig, gfx: GfxConfig, redirection: RedirectionConfig,
    security: SecurityConfig, preconnection: PreconnectionConfig, remoteApp: RemoteAppConfig,
    gateway: GatewayConfig, cache: CacheConfig)

  /** guac_strndup: at most `n` characters of the C string. */
  function StrNDup(s: string, n: nat): (r: string)
    ensures |r| <= n && |r| <= |CString(s)| && r == CString(s)[..|r|]
    ensures |CString(s)| <= n ==> r == CString(s)
  {
    if |CString(s)| <= n then CString(s) else CString(s)[..n]
  }

  /* What each group of the engine configuration is after the projection. */

  predicate SessionPushed(c: SessionConfig, s: Settings)
    requires s.display.serverLayout.Some?
  {
    && c.domain == s.connection.domain && c.username == s.connection.username
    && c.password == s.connection.password
    && c.serverHostname == s.connection.hostname && c.serverPort == ToUint32(s.connection.port)
    && c.desktopWidth == ToUint32(s.display.width) && c.desktopHeight == ToUint32(s.display.height)
    && c.alternateShell == s.programs.initialProgram
    && c.keyboardLayout == ToUint32(s.display.serverLayout.value.freerdpKeyboardLayout)
    && c.connectionType == CONNECTION_TYPE_LAN
    && c.frameMarkerCommandEnabled && c.surfaceFrameMarkerEnabled && c.fastPathInput && c.fastPathOutput
  }

  predicate ClientPushed(c: ClientConfig, prior: ClientConfig, s: Settings, D: Defaults) {
    && c.clientHostname == (match s.connection.clientName
                              case Some(n) => Some(StrNDup(n, D.clientHostnameSize))
                              case None => prior.clientHostname)
    && c.consoleSession == s.connection.console && c.remoteConsoleAudio == s.connection.consoleAudio
    && (s.connection.loadBalanceInfo.None? ==>
          c.loadBalanceInfo == prior.loadBalanceInfo && c.loadBalanceInfoLength == prior.loadBalanceInfoLength)
    && (s.connection.loadBalanceInfo.Some? ==>
          c.loadBalanceInfo == s.connection.loadBalanceInfo
          && c.loadBalanceInfoLength == ToUint32(|CString(s.connection.loadBalanceInfo.value)|))
    && c.osMajorType == OSMAJORTYPE_UNSPECIFIED && c.osMinorType == OSMINORTYPE_UNSPECIFIED
    && c.desktopResize
    && c.timezoneEnv == (if s.display.timezone.Some? then s.display.timezone else prior.timezoneEnv)
  }

  /** The bit set agrees with the individual flags written after it. */
  predicate PerfFlagsAgree(c: PerfConfig) {
    && (c.disableWallpaper <==> HasFlag(c.performanceFlags, PERF_DISABLE_WALLPAPER))
    && (c.disableThemes <==> HasFlag(c.performanceFlags, PERF_DISABLE_THEMING))
    && (c.allowFontSmoothing <==> HasFlag(c.performanceFlags, PERF_ENABLE_FONT_SMOOTHING))
    && (c.disableFullWindowDrag <==> HasFlag(c.performanceFlags, PERF_DISABLE_FULLWINDOWDRAG))
    && (c.allowDesktopComposition <==> HasFlag(c.performanceFlags, PERF_ENABLE_DESKTOP_COMPOSITION))
    && (c.disableMenuAnims <==> HasFlag(c.performanceFlags, PERF_DISABLE_MENUANIMATIONS))
    && c.performanceFlags & !PERF_KNOWN_FLAGS == 0
  }

  predicate PerfPushed(c: PerfConfig, s: Settings) {
    && PerfFlagsAgree(c)
    && c.allowFontSmoothing == s.performance.fontSmoothing
    && c.disableWallpaper == !s.performance.wallpaper
    && c.disableFullWindowDrag == !s.performance.fullWindowDrag
    && c.disableMenuAnims == !s.performance.menuAnimations
    && c.disableThemes == !s.performance.theming
    && c.allowDesktopComposition == s.performance.desktopComposition
  }

  predicate GfxPushed(c: GfxConfig, prior: GfxConfig, s: Settings) {
    c == if s.display.enableGfx then GfxConfig(true, true, true) else prior
  }

  predicate RedirectionPushed(c: RedirectionConfig, s: Settings) {
    && c.audioPlayback == s.devices.audioEnabled
    && c.audioCapture == s.devices.enableAudioInput
    && c.videoCapture == s.devices.enableWebcam
    && c.supportDisplayControl == (s.display.resizeMethod == ResizeDisplayUpdate)
    // the device-redirection channel serves audio, drives, printers and the webcam
    && c.deviceRedirection == (s.devices.audioEnabled || s.devices.driveEnabled
                               || s.devices.printingEnabled || s.devices.enableWebcam)
  }

  /** The security table: which layers each mode offers, FIPS excluding NLA from negotiation. */
  predicate SecurityLayersPushed(c: SecurityConfig, prior: SecurityConfig, m: SecurityMode, fips: bool) {
    && (c.rdpSecurity <==> m == SecurityRdp || m == SecurityAny)
    && (c.tlsSecurity <==> m == SecurityTls || m == SecurityVmConnect || m == SecurityAny)
    && (c.nlaSecurity <==> m == SecurityNla || m == SecurityVmConnect || (m == SecurityAny && !fips))
    && (c.extSecurity <==> m == SecurityExtendedNla)
    // legacy RDP encryption also fixes the security layer and the encryption parameters
    && (m == SecurityRdp ==>
          && c.useRdpSecurityLayer && c.encryptionLevel == ENCRYPTION_LEVEL_CLIENT_COMPATIBLE
          && c.encryptionMethods == ENCRYPTION_METHOD_40BIT | ENCRYPTION_METHOD_128BIT | ENCRYPTION_METHOD_FIPS)
    && (m != SecurityRdp ==>
          && c.useRdpSecurityLayer == prior.useRdpSecurityLayer && c.encryptionLevel == prior.encryptionLevel
          && c.encryptionMethods == prior.encryptionMethods)
    && c.vmConnectMode == (m == SecurityVmConnect || prior.vmConnectMode)
  }

  predicate SecurityPushed(c: SecurityConfig, prior: SecurityConfig, s: Settings, fips: bool) {
    && SecurityLayersPushed(c, prior, s.connection.security, fips)
    && c.authentication == !s.connection.disableAuthentication
    && c.ignoreCertificate == s.connection.ignoreCertificate
    && c.autoAcceptCertificate == s.connection.certificateTofu
    && c.acceptedFingerprints == (if s.connection.certificateFingerprints.Some?
                                  then s.connection.certificateFingerprints else prior.acceptedFingerprints)
  }

  /** A preconnection ID or BLOB switches negotiation off and the preconnection PDU on. */
  predicate PreconnectionPushed(c: PreconnectionConfig, prior: PreconnectionConfig, s: Settings) {
    var hasId := s.connection.preconnectionId != -1;
    var hasBlob := s.connection.preconnectionBlob.Some?;
    && c.negotiateSecurityLayer == (if hasId || hasBlob then false else prior.negotiateSecurityLayer)
    && c.sendPreconnectionPdu == (hasId || hasBlob || prior.sendPreconnectionPdu)
    && c.preconnectionId == (if hasId then ToUint32(s.connection.preconnectionId) else prior.preconnectionId)
    && c.preconnectionBlob == (if hasBlob then s.connection.preconnectionBlob else prior.preconnectionBlob)
  }

  predicate RemoteAppPushed(c: RemoteAppConfig, prior: RemoteAppConfig, s: Settings) {
    c == if s.programs.remoteApp.Some?
         then RemoteAppConfig(true, true, true, s.programs.remoteApp, s.programs.remoteAppDir, s.programs.remoteAppArgs)
         else prior
  }

  predicate GatewayPushed(c: GatewayConfig, prior: GatewayConfig, s: Settings) {
    c == if s.gateway.hostname.Some?
         then GatewayConfig(true, s.gateway.hostname, ToUint32(s.gateway.port), false,
                            s.gateway.domain, s.gateway.username, s.gateway.password)
         else prior
  }

  predicate CachePushed(c: CacheConfig, s: Settings) {
    && c.bitmapCacheEnabled == !s.performance.disableBitmapCaching
    && c.offscreenSupportLevel == (if s.performance.disableOffscreenCaching then 0 else 1)
    && (c.glyphSupportLevel == GLYPH_SUPPORT_NONE <==> s.performance.disableGlyphCaching)
    && (c.glyphSupportLevel == GLYPH_SUPPORT_FULL <==> !s.performance.disableGlyphCaching)
  }

  /* The projection, one group of writes at a time. */

  method PushSession(s: Settings, D: Defaults, c: SessionConfig) returns (r: SessionConfig)
    requires s.display.serverLayout.Some?
    ensures SessionPushed(r, s)
    ensures r.colorDepth == ToUint32(s.display.colorDepth)
  {
    r := c.(
      domain := s.connection.domain, username := s.connection.username, password := s.connection.password,
      serverHostname := s.connection.hostname, serverPort := ToUint32(s.connection.port),
      desktopWidth := ToUint32(s.display.width), desktopHeight := ToUint32(s.display.height),
      colorDepth := ToUint32(s.display.colorDepth), alternateShell := s.programs.initialProgram,
      keyboardLayout := ToUint32(s.display.serverLayout.value.freerdpKeyboardLayout),
      connectionType := CONNECTION_TYPE_LAN,
      frameMarkerCommandEnabled := true, surfaceFrameMarkerEnabled := true,
      fastPathInput := true, fastPathOutput := true);
  }


  method PushClient(s: Settings, D: Defaults, c: ClientConfig) returns (r: ClientConfig)
    ensures ClientPushed(r, c, s, D)
  {
    // The client name, the time zone and the load-balance info are written only when present.
    r := c.(clientHostname := match s.connection.clientName
                                case Some(n) => Some(StrNDup(n, D.clientHostnameSize))
                                case None => c.clientHostname);
    r := r.(consoleSession := s.connection.console, remoteConsoleAudio := s.connection.consoleAudio);
    r := r.(timezoneEnv := if s.display.timezone.Some? then s.display.timezone else r.timezoneEnv);
    r := match s.connection.loadBalanceInfo
           case Some(info) => r.(loadBalanceInfo := Some(info), loadBalanceInfoLength := ToUint32(|CString(info)|))
           case None => r;
    r := r.(osMajorType := OSMAJORTYPE_UNSPECIFIED, osMinorType := OSMINORTYPE_UNSPECIFIED,
            desktopResize := true);
  }

  method PushPerformance(s: Settings, c: PerfConfig) returns (r: PerfConfig)
    ensures PerfPushed(r, s)
  {
    var flags := PerformanceFlags(s.performance);
    r := c.(performanceFlags := flags);
    // Individual flags too: some engine versions overwrite the bit set.
    r := r.(allowFontSmoothing := s.performance.fontSmoothing);
    r := r.(disableWallpaper := !s.performance.wallpaper);
    r := r.(disableFullWindowDrag := !s.performance.fullWindowDrag);
    r := r.(disableMenuAnims := !s.performance.menuAnimations);
    r := r.(disableThemes := !s.performance.theming);
    r := r.(allowDesktopComposition := s.performance.desktopComposition);
  }

  /** RemoteFX and the graphics pipeline, which force their own colour depth. */
  method PushGraphics(s: Settings, D: Defaults, session: SessionConfig, gfx: GfxConfig)
    returns (session': SessionConfig, gfx': GfxConfig)
    ensures GfxPushed(gfx', gfx, s)
    ensures session' == if s.display.enableGfx then session.(colorDepth := ToUint32(D.gfxRequiredDepth)) else session
  {
    session', gfx' := session, gfx;
    if s.display.enableGfx {
      gfx' := gfx'.(supportGraphicsPipeline := true);
      gfx' := gfx'.(remoteFxCodec := true);
      session' := session'.(colorDepth := ToUint32(D.gfxRequiredDepth));
      gfx' := gfx'.(softwareGdi := true);
    }
  }

  method PushRedirection(s: Settings, c: RedirectionConfig) returns (r: RedirectionConfig)
    ensures RedirectionPushed(r, s)
  {
    r := c.(audioPlayback := s.devices.audioEnabled);
    r := r.(audioCapture := s.devices.enableAudioInput);
    r := r.(videoCapture := s.devices.enableWebcam);
    r := r.(supportDisplayControl := s.display.resizeMethod == ResizeDisplayUpdate);
    r := r.(deviceRedirection := s.devices.audioEnabled || s.devices.driveEnabled
                                 || s.devices.printingEnabled || s.devices.enableWebcam);
  }

  /** The switch on the security mode: which layers are offered, and the legacy-RDP extras. */
  method PushSecurityMode(m: SecurityMode, fips: bool, c: SecurityConfig) returns (r: SecurityConfig)
    ensures SecurityLayersPushed(r, c, m, fips)
    ensures r.authentication == c.authentication && r.ignoreCertificate == c.ignoreCertificate
    ensures r.autoAcceptCertificate == c.autoAcceptCertificate && r.acceptedFingerprints == c.acceptedFingerprints
  {
    r := c;
    match m {
      case SecurityRdp =>
        r := r.(rdpSecurity := true, tlsSecurity := false, nlaSecurity := false, extSecurity := false,
                useRdpSecurityLayer := true, encryptionLevel := ENCRYPTION_LEVEL_CLIENT_COMPATIBLE,
                encryptionMethods := ENCRYPTION_METHOD_40BIT | ENCRYPTION_METHOD_128BIT | ENCRYPTION_METHOD_FIPS);
      case SecurityTls =>
        r := r.(rdpSecurity := false, tlsSecurity := true, nlaSecurity := false, extSecurity := false);
      case SecurityNla =>
        r := r.(rdpSecurity := false, tlsSecurity := false, nlaSecurity := true, extSecurity := false);
      case SecurityExtendedNla =>
        r := r.(rdpSecurity := false, tlsSecurity := false, nlaSecurity := false, extSecurity := true);
      case SecurityVmConnect =>
        r := r.(rdpSecurity := false, tlsSecurity := true, nlaSecurity := true, extSecurity := false,
                vmConnectMode := true);
      case SecurityAny =>
        // NLA does not work in FIPS mode, so it is excluded from negotiation there.
        r := r.(rdpSecurity := true, tlsSecurity := true, nlaSecurity := !fips, extSecurity := false);
    }
  }

  method PushSecurity(s: Settings, fips: bool, c: SecurityConfig) returns (r: SecurityConfig)
    ensures SecurityPushed(r, c, s, fips)
  {
    r := PushSecurityMode(s.connection.security, fips, c);
    r := r.(authentication := !s.connection.disableAuthentication,
            ignoreCertificate := s.connection.ignoreCertificate,
            autoAcceptCertificate := s.connection.certificateTofu);
    r := r.(acceptedFingerprints := if s.connection.certificateFingerprints.Some?
                                    then s.connection.certificateFingerprints else r.acceptedFingerprints);
  }

  method PushPreconnection(s: Settings, c: PreconnectionConfig) returns (r: PreconnectionConfig)
    ensures PreconnectionPushed(r, c, s)
  {
    r := c;
    if s.connection.preconnectionId != -1 {
      r := r.(negotiateSecurityLayer := false);
      r := r.(sendPreconnectionPdu := true);
      r := r.(preconnectionId := ToUint32(s.connection.preconnectionId));
    }
    if s.connection.preconnectionBlob.Some? {
      r := r.(negotiateSecurityLayer := false);
      r := r.(sendPreconnectionPdu := true);
      r := r.(preconnectionBlob := s.connection.preconnectionBlob);
    }
  }

  method PushRemoteApp(s: Settings, c: RemoteAppConfig) returns (r: RemoteAppConfig)
    ensures RemoteAppPushed(r, c, s)
  {
    r := c;
    if s.programs.remoteApp.Some? {
      r := r.(workarea := true);
      r := r.(remoteApplicationMode := true);
      r := r.(languageBarSupported := true);
      r := r.(program := s.programs.remoteApp);
      r := r.(workingDirectory := s.programs.remoteAppDir);
      r := r.(cmdLine := s.programs.remoteAppArgs);
    }
  }

  method PushGateway(s: Settings, c: GatewayConfig) returns (r: GatewayConfig)
    ensures GatewayPushed(r, c, s)
  {
    r := c;
    if s.gateway.hostname.Some? {
      r := r.(enabled := true);
      r := r.(hostname := s.gateway.hostname);
      r := r.(port := ToUint32(s.gateway.port));
      r := r.(useSameCredentials := false);
      r := r.(domain := s.gateway.domain);
      r := r.(username := s.gateway.username);
      r := r.(password := s.gateway.password);
    }
  }

  method PushCaching(s: Settings, c: CacheConfig) returns (r: CacheConfig)
    ensures CachePushed(r, s)
  {
    r := c.(bitmapCacheEnabled := !s.performance.disableBitmapCaching);
    r := r.(offscreenSupportLevel := if s.performance.disableOffscreenCaching then 0 else 1);
    r := r.(glyphSupportLevel := if !s.performance.disableGlyphCaching then GLYPH_SUPPORT_FULL else GLYPH_SUPPORT_NONE);
  }

  /**
   * What guac_rdp_push_settings leaves in the configuration `cfg` written
   * from `prior`: every group as its rule says, and the colour depth the
   * graphics pipeline requires when the pipeline is enabled.
   */
  predicate Projected(cfg: EngineConfig, prior: EngineConfig, s: Settings, D: Defaults, fips: bool)
    requires s.display.serverLayout.Some?
  {
    && SessionPushed(cfg.session, s)
    && ClientPushed(cfg.client, prior.client, s, D)
    // the graphics pipeline overrides the requested depth with the one it requires
    && cfg.session.colorDepth ==
       (if s.display.enableGfx then ToUint32(D.gfxRequiredDepth) else ToUint32(s.display.colorDepth))
    && PerfPushed(cfg.perf, s)
    && GfxPushed(cfg.gfx, prior.gfx, s)
    && RedirectionPushed(cfg.redirection, s)
    && SecurityPushed(cfg.security, prior.security, s, fips)
    && PreconnectionPushed(cfg.preconnection, prior.preconnection, s)
    && RemoteAppPushed(cfg.remoteApp, prior.remoteApp, s)
    && GatewayPushed(cfg.gateway, prior.gateway, s)
    && CachePushed(cfg.cache, s)
  }

  /**
   * guac_rdp_push_settings: writes the settings record into the engine's
   * configuration `prior`; `fips` is whether the process runs in FIPS mode.
   * The server layout is dereferenced, so a keymap must have been found.
   */
  method PushSettings(s: Settings, D: Defaults, fips: bool, prior: EngineConfig) returns (cfg: EngineConfig)
    requires s.display.serverLayout.Some?
    ensures Projected(cfg, prior, s, D, fips)
    // every record the resolver produces is projected without glyph caching
    ensures Resolved(s, D) ==> cfg.cache.glyphSupportLevel == GLYPH_SUPPORT_NONE
  {
    var session := PushSession(s, D, prior.session);
    var client := PushClient(s, D, prior.client);
    var perf := PushPerformance(s, prior.perf);
    var gfx;
    session, gfx := PushGraphics(s, D, session, prior.gfx);
    var redirection := PushRedirection(s, prior.redirection);
    var security := PushSecurity(s, fips, prior.security);
    var remoteApp := PushRemoteApp(s, prior.remoteApp);
    var preconnection := PushPreconnection(s, prior.preconnection);
    var gateway := PushGateway(s, prior.gateway);
    var cache := PushCaching(s, prior.cache);
    cfg := EngineConfig(session, client, perf, gfx, redirection, security, preconnection, remoteApp, gateway, cache);
  }
}
