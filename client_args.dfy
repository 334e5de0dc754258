/**
 * The names the RDP protocol plugin advertises for its connection
 * parameters, in advertised order. A client answers with one value per
 * advertised name, and the resolver reads value `i` as the parameter of
 * index `i`, so the table must list exactly one name per index, in index
 * order.
 *
 * The table as written lists "enable-webcam" twice; CorrectedClientArgNames
 * is the table without the second occurrence. The names behind
 * GUAC_RDP_ARGV_DOMAIN, _USERNAME and _PASSWORD come from a header that is
 * not part of this model and are taken to be "domain", "username" and
 * "password".
 */
module RdpClientArgs {
  import opened RdpSettings

  /* GUAC_RDP_ARGV_USERNAME, _PASSWORD and _DOMAIN. */
  const ARGV_USERNAME: string := "username"
  const ARGV_PASSWORD: string := "password"
  const ARGV_DOMAIN: string := "domain"

  /** GUAC_RDP_CLIENT_ARGS as written. */
  const ClientArgNames: seq<string> :=
    ["hostname", "port", "timeout", ARGV_DOMAIN, ARGV_USERNAME, ARGV_PASSWORD, "width", "height"]
    + ["dpi", "initial-program", "color-depth", "disable-audio", "enable-printing", "printer-name", "enable-drive", "drive-name"]
    + ["drive-path", "create-drive-path", "disable-download", "disable-upload", "console", "console-audio", "server-layout", "security"]
    + ["ignore-cert", "cert-tofu", "cert-fingerprints", "disable-auth", "remote-app", "remote-app-dir", "remote-app-args", "static-channels"]
    + ["client-name", "enable-wallpaper", "enable-theming", "enable-font-smoothing", "enable-full-window-drag", "enable-desktop-composition", "enable-menu-animations", "disable-bitmap-caching"]
    + ["disable-offscreen-caching", "disable-glyph-caching", "disable-gfx", "preconnection-id", "preconnection-blob", "timezone", "enable-sftp", "sftp-hostname"]
    + ["sftp-host-key", "sftp-port", "sftp-timeout", "sftp-username", "sftp-password", "sftp-private-key", "sftp-passphrase", "sftp-public-key"]
    + ["sftp-directory", "sftp-root-directory", "sftp-server-alive-interval", "sftp-disable-download", "sftp-disable-upload", "recording-path", "recording-name", "recording-exclude-output"]
    + ["recording-exclude-mouse", "recording-exclude-touch", "recording-include-keys", "create-recording-path", "recording-write-existing", "resize-method", "enable-audio-input", "enable-webcam"]
    + ["enable-touch", "enable-webcam", "read-only", "gateway-hostname", "gateway-port", "gateway-domain", "gateway-username", "gateway-password"]
    + ["load-balance-info", "clipboard-buffer-size", "disable-copy", "disable-paste", "wol-send-packet", "wol-mac-addr", "wol-broadcast-addr", "wol-udp-port"]
    + ["wol-wait-time", "force-lossless", "normalize-clipboard"]

  /** GUAC_RDP_CLIENT_ARGS with one name per index. */
  const CorrectedClientArgNames: seq<string> :=
    ["hostname", "port", "timeout", ARGV_DOMAIN, ARGV_USERNAME, ARGV_PASSWORD, "width", "height"]
    + ["dpi", "initial-program", "color-depth", "disable-audio", "enable-printing", "printer-name", "enable-drive", "drive-name"]
    + ["drive-path", "create-drive-path", "disable-download", "disable-upload", "console", "console-audio", "server-layout", "security"]
    + ["ignore-cert", "cert-tofu", "cert-fingerprints", "disable-auth", "remote-app", "remote-app-dir", "remote-app-args", "static-channels"]
    + ["client-name", "enable-wallpaper", "enable-theming", "enable-font-smoothing", "enable-full-window-drag", "enable-desktop-composition", "enable-menu-animations", "disable-bitmap-caching"]
    + ["disable-offscreen-caching", "disable-glyph-caching", "disable-gfx", "preconnection-id", "preconnection-blob", "timezone", "enable-sftp", "sftp-hostname"]
    + ["sftp-host-key", "sftp-port", "sftp-timeout", "sftp-username", "sftp-password", "sftp-private-key", "sftp-passphrase", "sftp-public-key"]
    + ["sftp-directory", "sftp-root-directory", "sftp-server-alive-interval", "sftp-disable-download", "sftp-disable-upload", "recording-path", "recording-name", "recording-exclude-output"]
    + ["recording-exclude-mouse", "recording-exclude-touch", "recording-include-keys", "create-recording-path", "recording-write-existing", "resize-method", "enable-audio-input", "enable-webcam"]
    + ["enable-touch", "read-only", "gateway-hostname", "gateway-port", "gateway-domain", "gateway-username", "gateway-password", "load-balance-info"]
    + ["clipboard-buffer-size", "disable-copy", "disable-paste", "wol-send-packet", "wol-mac-addr", "wol-broadcast-addr", "wol-udp-port", "wol-wait-time"]
    + ["force-lossless", "normalize-clipboard"]

  /**
   * The table as written is one entry longer than the index enumeration, so
   * a client that answers every advertised name sends one value too many and
   * the resolver rejects it. Read by position, the names up to touch input
   * sit at their own indices, the read-only index carries the second
   * "enable-webcam", and from the gateway hostname on each index carries the
   * name of the index before it, starting with "read-only".
   */
  lemma ClientArgNamesMisaligned()
    ensures |ClientArgNames| == RDP_ARGS_COUNT + 1
    ensures |ClientArgNames| != RDP_ARGS_COUNT
    ensures ClientArgNames[IDX_ENABLE_WEBCAM] == ClientArgNames[IDX_READ_ONLY] == "enable-webcam"
    ensures ClientArgNames[IDX_ENABLE_TOUCH] == "enable-touch"
    ensures ClientArgNames[IDX_GATEWAY_HOSTNAME] == "read-only"
    ensures ClientArgNames[IDX_NORMALIZE_CLIPBOARD] == "force-lossless"
  {
  }

  /** The corrected table lists one name per index, each where the resolver reads its value. */
  lemma CorrectedClientArgNamesAligned()
    ensures |CorrectedClientArgNames| == RDP_ARGS_COUNT
    ensures CorrectedClientArgNames == ClientArgNames[..IDX_ENABLE_TOUCH + 1] + ClientArgNames[IDX_READ_ONLY + 1..]
    ensures CorrectedClientArgNames[IDX_HOSTNAME] == "hostname"
    ensures CorrectedClientArgNames[IDX_SECURITY] == "security"
    ensures CorrectedClientArgNames[IDX_ENABLE_WEBCAM] == "enable-webcam"
    ensures CorrectedClientArgNames[IDX_ENABLE_TOUCH] == "enable-touch"
    ensures CorrectedClientArgNames[IDX_READ_ONLY] == "read-only"
    ensures CorrectedClientArgNames[IDX_WOL_SEND_PACKET] == "wol-send-packet"
    ensures CorrectedClientArgNames[IDX_NORMALIZE_CLIPBOARD] == "normalize-clipboard"
  {
  }
}
