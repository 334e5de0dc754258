/**
 * Session decisions of the RDP protocol plugin: which channel plugins are
 * loaded for a settings record, which credentials are requested from the
 * connection owner, the certificate verdict, and what the client thread does
 * before connecting (Wake-on-LAN, session recording) and while preparing the
 * connection (settings projection, RemoteApp and static channels).
 *
 * Engine calls are recorded as trace events; the outcomes of calls whose
 * code is not part of this model (network wake-ups, integer formatting, the
 * owner's answers) are parameters.
 */
module RdpSession {
  import opened Common
  import opened RdpSettings
  import opened RdpClientArgs

  /** A channel plugin requested by rdp_freerdp_load_channels. */
  datatype Plugin = Disp | Rdpei | AudioInput | WebcamPlugin | Cliprdr | Rdpdr | Rdpsnd | Rdpgfx | Drdynvc

  /** A channel requested while the connection is prepared. */
  datatype ChannelLoad = Rail | PipeSvc(name: string)

  /** Position of a plugin in rdp_freerdp_load_channels. */
  function LoadOrder(p: Plugin): int {
    match p
    case Disp => 0 case Rdpei => 1 case AudioInput => 2 case WebcamPlugin => 3 case Cliprdr => 4
    case Rdpdr => 5 case Rdpsnd => 6 case Rdpgfx => 7 case Drdynvc => 8
  }

  /** Whether the device-redirection and sound channels are needed. */
  predicate NeedsDeviceRedirection(s: Settings) {
    s.devices.printingEnabled || s.devices.driveEnabled || s.devices.audioEnabled || s.devices.enableWebcam
  }

  /**
   * rdp_freerdp_load_channels. `dynamicChannels` is the engine's
   * SupportDynamicChannels setting; a failure to load drdynvc is only logged.
   * Each plugin is requested at most once, in the order of the source, and
   * exactly when its setting asks for it.
   */
  method LoadChannels(s: Settings, dynamicChannels: bool) returns (ok: bool, loaded: seq<Plugin>)
    ensures ok
    ensures Disp in loaded <==> s.display.resizeMethod == ResizeDisplayUpdate
    ensures Rdpei in loaded <==> s.devices.enableTouch
    ensures AudioInput in loaded <==> s.devices.enableAudioInput
    ensures WebcamPlugin in loaded <==> s.devices.enableWebcam
    ensures Cliprdr in loaded <==> !(s.clipboard.disableCopy && s.clipboard.disablePaste)
    ensures Rdpdr in loaded <==> NeedsDeviceRedirection(s)
    ensures Rdpsnd in loaded <==> NeedsDeviceRedirection(s)
    ensures Rdpgfx in loaded <==> s.display.enableGfx
    ensures Drdynvc in loaded <==> dynamicChannels
    ensures InLoadOrder(loaded, LoadOrder(Drdynvc) + 1)
  {
    loaded := LoadPlugins(s.display.resizeMethod == ResizeDisplayUpdate, s.devices.enableTouch,
                          s.devices.enableAudioInput, s.devices.enableWebcam,
                          !(s.clipboard.disableCopy && s.clipboard.disablePaste),
                          NeedsDeviceRedirection(s), s.display.enableGfx, dynamicChannels);
    return true, loaded;
  }

  /** The guarded loads of rdp_freerdp_load_channels, given each guard's value. */
  method LoadPlugins(display: bool, touch: bool, audioInput: bool, webcam: bool, clipboard: bool,
                     redirect: bool, gfx: bool, dynamicChannels: bool)
    returns (loaded: seq<Plugin>)
    ensures Disp in loaded <==> display
    ensures Rdpei in loaded <==> touch
    ensures AudioInput in loaded <==> audioInput
    ensures WebcamPlugin in loaded <==> webcam
    ensures Cliprdr in loaded <==> clipboard
    ensures Rdpdr in loaded <==> redirect
    ensures Rdpsnd in loaded <==> redirect
    ensures Rdpgfx in loaded <==> gfx
    ensures Drdynvc in loaded <==> dynamicChannels
    ensures InLoadOrder(loaded, LoadOrder(Drdynvc) + 1)
  {
    loaded := [];
    loaded := Request(loaded, display, Disp);
    loaded := Request(loaded, touch, Rdpei);
    loaded := Request(loaded, audioInput, AudioInput);
    loaded := Request(loaded, webcam, WebcamPlugin);
    loaded := Request(loaded, clipboard, Cliprdr);
    loaded := Request(loaded, redirect, Rdpdr);
    loaded := Request(loaded, redirect, Rdpsnd);
    loaded := Request(loaded, gfx, Rdpgfx);
    loaded := Request(loaded, dynamicChannels, Drdynvc);
  }

  /** Plugins in strictly increasing load order (so each at most once), all before position `bound`. */
  predicate InLoadOrder(loaded: seq<Plugin>, bound: int) {
    && (forall i :: 0 <= i < |loaded| ==> LoadOrder(loaded[i]) < bound)
    && (forall i, j :: 0 <= i < j < |loaded| ==> LoadOrder(loaded[i]) < LoadOrder(loaded[j]))
  }

  /** One guarded load in rdp_freerdp_load_channels. */
  method Request(loaded: seq<Plugin>, wanted: bool, p: Plugin) returns (r: seq<Plugin>)
    requires InLoadOrder(loaded, LoadOrder(p))
    ensures InLoadOrder(r, LoadOrder(p) + 1)
    ensures p in r <==> wanted
    ensures forall q :: q != p ==> (q in r <==> q in loaded)
  {
    r := loaded;
    if wanted {
      r := r + [p];
    }
  }

  /** Position of a credential name in the request list. */
  function CredentialOrder(name: string): int {
    if name == ARGV_USERNAME then 0 else if name == ARGV_DOMAIN then 1 else if name == ARGV_PASSWORD then 2 else -1
  }

  /**
   * The credentials the owner is asked for: the username when none is set
   * (and then the domain too when none is set), and the password when none
   * is set, in that order.
   */
  function RequiredCredentials(c: Connection): (r: seq<string>)
    ensures ARGV_USERNAME in r <==> c.username.None?
    ensures ARGV_DOMAIN in r <==> c.username.None? && c.domain.None?
    ensures ARGV_PASSWORD in r <==> c.password.None?
    ensures |r| <= 3
    ensures forall i :: 0 <= i < |r| ==> CredentialOrder(r[i]) >= 0
    ensures forall i, j :: 0 <= i < j < |r| ==> CredentialOrder(r[i]) < CredentialOrder(r[j])
  {
    assert ARGV_USERNAME[0] != ARGV_PASSWORD[0] && |ARGV_DOMAIN| != |ARGV_USERNAME| && |ARGV_DOMAIN| != |ARGV_PASSWORD|;
    (if c.username.None? then [ARGV_USERNAME] + (if c.domain.None? then [ARGV_DOMAIN] else []) else [])
      + (if c.password.None? then [ARGV_PASSWORD] else [])
  }

  /**
   * The request list of rdp_freerdp_authenticate: a NULL-terminated array of
   * four entries, filled from the front.
   */
  method FillRequest(current: Connection) returns (params: array<Option<string>>, count: nat)
    ensures fresh(params) && params.Length == 4 && count < 4 && params[count].None?
    ensures forall k :: 0 <= k < count ==> params[k].Some?
    ensures Names(params[..count]) == RequiredCredentials(current)
  {
    params := new Option<string>[4](_ => None);
    var i := 0;
    if current.username.None? {
      params[i] := Some(ARGV_USERNAME);
      i := i + 1;
      if current.domain.None? {
        params[i] := Some(ARGV_DOMAIN);
        i := i + 1;
      }
    }
    if current.password.None? {
      params[i] := Some(ARGV_PASSWORD);
      i := i + 1;
    }
    params[i] := None;
    count := i;
  }

  /**
   * The argument callbacks store only the parameters registered for the
   * request: a credential the settings already hold is not changed by the
   * answers (the domain is asked for only with the username).
   */
  predicate AnswersOnlyRequested(current: Connection, answered: Connection) {
    && (current.username.Some? ==> answered.username == current.username)
    && (current.password.Some? ==> answered.password == current.password)
    && (current.username.Some? || current.domain.Some? ==> answered.domain == current.domain)
  }

  /**
   * rdp_freerdp_authenticate. `current` is the settings record when the
   * engine asks; `answered` is the record after the owner's answers have been
   * stored by the argument callbacks. Nothing is requested from an owner that
   * cannot answer requests; otherwise the request list is sent (and awaited)
   * only when it is not empty, and then the engine's credentials are replaced
   * by the answered ones, so a credential that was not requested keeps the
   * value the settings already had. The engine is always told to go on.
   */
  method Authenticate(ownerSupportsRequired: bool, current: Connection, answered: Connection,
                      username: Option<string>, password: Option<string>, domain: Option<string>)
    returns (ok: bool, requested: seq<string>, sent: bool,
             username': Option<string>, password': Option<string>, domain': Option<string>)
    requires AnswersOnlyRequested(current, answered)
    ensures ok
    ensures requested == if ownerSupportsRequired then RequiredCredentials(current) else []
    ensures sent <==> requested != []
    ensures sent ==> username' == answered.username && password' == answered.password && domain' == answered.domain
    ensures sent ==>
      && (current.username.Some? ==> username' == current.username)
      && (current.password.Some? ==> password' == current.password)
      && (current.username.Some? || current.domain.Some? ==> domain' == current.domain)
    ensures !sent ==> username' == username && password' == password && domain' == domain
  {
    username', password', domain' := username, password, domain;
    if !ownerSupportsRequired {
      return true, [], false, username', password', domain';
    }
    var params, i := FillRequest(current);
    requested := Names(params[..i]);
    sent := i > 0;
    if sent {
      username', password', domain' := answered.username, answered.password, answered.domain;
    }
    ok := true;
  }

  /** The names of a request list whose entries are all present. */
  function Names(ps: seq<Option<string>>): (r: seq<string>)
    requires forall k :: 0 <= k < |ps| ==> ps[k].Some?
    ensures |r| == |ps| && forall k :: 0 <= k < |ps| ==> r[k] == ps[k].value
  {
    if ps == [] then [] else [ps[0].value] + Names(ps[1..])
  }

  /**
   * rdp_freerdp_verify_certificate: 2 (accept for this session only) when
   * certificate checks are ignored, 0 (reject) otherwise; never 1 (accept
   * and store).
   */
  function VerifyCertificate(s: Settings): (verdict: int)
    ensures verdict == 2 <==> s.connection.ignoreCertificate
    ensures verdict == 0 <==> !s.connection.ignoreCertificate
    ensures verdict != 1
  {
    if s.connection.ignoreCertificate then 2 else 0
  }

  /** What the client thread asks of the outside world before connecting. */
  datatype ThreadEvent =
    | WakeAndWait(mac: Option<string>, broadcast: Option<string>, udpPort: int, waitTime: int,
                  host: Option<string>, port: string)
    | Wake(mac: Option<string>, broadcast: Option<string>, udpPort: int)
    | RecordingCreate(path: string, name: Option<string>, createPath: bool,
                      includeOutput: bool, includeMouse: bool, includeTouch: bool, includeKeys: bool,
                      writeExisting: bool)

  /** Whether the thread gives up at Wake-on-LAN: no port text for wake-and-wait, or a failed wake-up. */
  predicate WakeGivesUp(s: Settings, portText: string, wakeAndWaitFails: bool, wakeFails: bool) {
    s.wol.sendPacket && if s.wol.waitTime > 0 then |portText| < 1 || wakeAndWaitFails else wakeFails
  }

  /** Whether the SFTP set-up aborts the thread: SFTP is on and there is no username, or an SSH step fails. */
  predicate SftpAborts(s: Settings, sshFails: bool) {
    s.sftp.enabled && (s.sftp.username.None? || sshFails)
  }

  /**
   * The Wake-on-LAN call the thread makes, if any: none unless a packet is
   * requested; with a positive wait time one wake-and-wait call, which needs
   * the port text; otherwise one plain wake call.
   */
  function WakeEvents(s: Settings, portText: string): (r: seq<ThreadEvent>)
    ensures |r| <= 1
    ensures r != [] <==> s.wol.sendPacket && (s.wol.waitTime > 0 ==> |portText| >= 1)
  {
    if !s.wol.sendPacket then []
    else if s.wol.waitTime > 0 then
      if |portText| < 1 then []
      else [WakeAndWait(s.wol.macAddr, s.wol.broadcastAddr, s.wol.udpPort, s.wol.waitTime,
                        s.connection.hostname, portText)]
    else [Wake(s.wol.macAddr, s.wol.broadcastAddr, s.wol.udpPort)]
  }

  /** The guac_recording_create call for the recording settings `r`, which name a path. */
  function RecordingEvent(r: Recording): (e: ThreadEvent)
    requires r.path.Some?
    ensures e.RecordingCreate? && e.path == r.path.value
  {
    RecordingCreate(r.path.value, r.name, r.createPath,
                    !r.excludeOutput, !r.excludeMouse, !r.excludeTouch,
                    r.includeKeys, r.writeExisting)
  }

  /**
   * The start of guac_rdp_client_thread, up to the connection loop.
   * `portText` is guac_itoa's rendering of the port (empty when it fails);
   * `wakeAndWaitFails` and `wakeFails` are the outcomes of the two wake-up
   * calls. `sshFails` is the outcome of the SSH steps of the SFTP set-up
   * (key import, session, filesystem). `proceeds` is false when the thread
   * gives up before connecting.
   */
  method ClientThreadStart(s: Settings, portText: string, wakeAndWaitFails: bool, wakeFails: bool, sshFails: bool)
    returns (proceeds: bool, events: seq<ThreadEvent>)
    ensures !s.wol.sendPacket ==> forall e :: e in events ==> e.RecordingCreate?
    ensures s.wol.sendPacket && s.wol.waitTime > 0 && |portText| < 1 ==> !proceeds && events == []
    ensures s.wol.sendPacket && s.wol.waitTime > 0 && |portText| >= 1 ==>
      && events != []
      && events[0] == WakeAndWait(s.wol.macAddr, s.wol.broadcastAddr, s.wol.udpPort, s.wol.waitTime,
                                  s.connection.hostname, portText)
    ensures s.wol.sendPacket && s.wol.waitTime <= 0 ==>
      events != [] && events[0] == Wake(s.wol.macAddr, s.wol.broadcastAddr, s.wol.udpPort)
    // the thread goes on exactly when the wake-up and the SFTP set-up succeed
    ensures proceeds <==> !WakeGivesUp(s, portText, wakeAndWaitFails, wakeFails) && !SftpAborts(s, sshFails)
    // a recording is created only when the thread goes on and a path is given
    ensures (exists e :: e in events && e.RecordingCreate?) <==> proceeds && s.recording.path.Some?
    ensures proceeds && s.recording.path.Some? ==>
      events[|events| - 1] == RecordingEvent(s.recording)
    // each call is made at most once: the wake-up call, then the recording
    ensures events == WakeEvents(s, portText) +
      (if proceeds && s.recording.path.Some? then [RecordingEvent(s.recording)] else [])
  {
    events := [];
    if s.wol.sendPacket {
      if s.wol.waitTime > 0 {
        if |portText| < 1 {
          return false, events;
        }
        events := events + [WakeAndWait(s.wol.macAddr, s.wol.broadcastAddr, s.wol.udpPort, s.wol.waitTime,
                                        s.connection.hostname, portText)];
        if wakeAndWaitFails {
          return false, events;
        }
      } else {
        events := events + [Wake(s.wol.macAddr, s.wol.broadcastAddr, s.wol.udpPort)];
        if wakeFails {
          return false, events;
        }
      }
    }
    if s.sftp.enabled && (s.sftp.username.None? || sshFails) {
      return false, events;
    }
    if s.recording.path.Some? {
      events := events + [RecordingEvent(s.recording)];
      assert events[|events| - 1] in events;
    }
    proceeds := true;
  }

  /**
   * The settings part of rdp_freerdp_pre_connect: the projection, then the
   * RemoteApp channel when a remote application is given, then one pipe
   * channel per static channel name, in order.
   */
  method PreConnect(s: Settings, D: Defaults, fips: bool, prior: EngineConfig)
    returns (cfg: EngineConfig, loaded: seq<ChannelLoad>)
    requires s.display.serverLayout.Some?
    ensures Projected(cfg, prior, s, D, fips)
    ensures Resolved(s, D) ==> cfg.cache.glyphSupportLevel == GLYPH_SUPPORT_NONE
    ensures StaticChannelsLoaded(loaded, s.programs.remoteApp.Some?,
                                 if s.programs.svcNames.Some? then s.programs.svcNames.value else [])
  {
    cfg := PushSettings(s, D, fips, prior);
    loaded := LoadStaticChannels(s.programs.remoteApp.Some?,
                                 if s.programs.svcNames.Some? then s.programs.svcNames.value else []);
  }

  /** The loads asked for: the RemoteApp channel when wanted, then one pipe channel per name, in order. */
  predicate StaticChannelsLoaded(loaded: seq<ChannelLoad>, rail: bool, names: seq<string>) {
    var first := if rail then 1 else 0;
    && |loaded| == first + |names|
    && (rail ==> loaded[0] == Rail)
    && forall k :: 0 <= k < |names| ==> loaded[first + k] == PipeSvc(names[k])
  }

  /** The RemoteApp channel when wanted, then one pipe channel per name, in order. */
  method LoadStaticChannels(rail: bool, names: seq<string>) returns (loaded: seq<ChannelLoad>)
    ensures StaticChannelsLoaded(loaded, rail, names)
  {
    loaded := [];
    if rail {
      loaded := loaded + [Rail];
    }
    if names != [] {
      var start := |loaded|;
      var current := 0;
      loaded := loaded + [PipeSvc(names[current])];
      current := current + 1;
      while current < |names|
        invariant 1 <= current <= |names|
        invariant |loaded| == start + current
        invariant forall k :: 0 <= k < start ==> loaded[k] == Rail
        invariant forall k :: 0 <= k < current ==> loaded[start + k] == PipeSvc(names[k])
      {
        loaded := loaded + [PipeSvc(names[current])];
        current := current + 1;
      }
    }
  }
}
