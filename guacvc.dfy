/**
 * The "guacvc" dynamic virtual channel plugin: it registers itself once with
 * the engine, listens for a channel named WEBCAM, and publishes the channel
 * to the RDP client while it is open.
 *
 * The engine side is kept as traces: the plugin registry (a map from name to
 * plugin), the listeners created through the channel manager, and the order
 * in which memory is released.
 */
module GuacVc {
  import Common
  import opened RdpTypes

  const CHANNEL_RC_OK: int := 0
  const PLUGIN_NAME: string := "guacvc"
  const LISTENER_NAME: string := "WEBCAM"

  /** guac_rdp_vc_listener_callback. */
  class ListenerCallback {
    const client: RdpClient

    constructor (client: RdpClient)
      ensures this.client == client
    {
      this.client := client;
    }
  }

  /** guac_rdp_vc_channel_callback. */
  class ChannelCallback {
    const channel: VirtualChannel
    const client: RdpClient

    constructor (channel: VirtualChannel, client: RdpClient)
      ensures this.channel == channel && this.client == client
    {
      this.channel := channel;
      this.client := client;
    }
  }

  /** guac_rdp_vc_plugin. */
  class Plugin {
    var listenerCallback: ListenerCallback?
    const client: RdpClient

    constructor (client: RdpClient)
      ensures this.client == client && listenerCallback == null
    {
      this.client := client;
      listenerCallback := null;
    }
  }

  /** IWTSVirtualChannelManager, observed through the listeners it was asked to create. */
  class ChannelManager {
    var listeners: seq<(string, ListenerCallback)>

    constructor ()
      ensures listeners == []
    {
      listeners := [];
    }
  }

  /** IDRDYNVC_ENTRY_POINTS, observed through its plugin registry. */
  class EntryPoints {
    var plugins: map<string, Plugin>

    constructor ()
      ensures plugins == map[]
    {
      plugins := map[];
    }
  }

  /** guac_rdp_vc_data: inbound data on the channel is ignored. */
  method VcData(cb: ChannelCallback, data: seq<Common.byte>) returns (rc: int)
    ensures rc == CHANNEL_RC_OK
    ensures unchanged(cb) && unchanged(cb.client)
  {
    return CHANNEL_RC_OK;
  }

  /**
   * guac_rdp_vc_close: clears the client's channel pointer, whichever
   * channel is closing, and releases the callback.
   */
  method VcClose(cb: ChannelCallback, mem: Memory) returns (rc: int)
    modifies cb.client`webcamChannel, mem
    ensures rc == CHANNEL_RC_OK
    ensures cb.client.webcamChannel == null
    ensures mem.released == old(mem.released) + [cb]
  {
    var client := cb.client;
    client.webcamChannel := null;
    mem.Free(cb);
    return CHANNEL_RC_OK;
  }

  /**
   * guac_rdp_vc_new_connection: publishes the new channel to the client and
   * hands the engine a fresh callback bound to that channel and client.
   */
  method NewConnection(listener: ListenerCallback, channel: VirtualChannel)
    returns (rc: int, ccb: ChannelCallback)
    modifies listener.client`webcamChannel
    ensures rc == CHANNEL_RC_OK
    ensures listener.client.webcamChannel == channel
    ensures fresh(ccb) && ccb.channel == channel && ccb.client == listener.client
  {
    var client := listener.client;
    var channelCb := new ChannelCallback(channel, client);
    client.webcamChannel := channel;
    ccb := channelCb;
    return CHANNEL_RC_OK, ccb;
  }

  /**
   * guac_rdp_vc_initialize: stores a fresh listener (bound to the plugin's
   * client) in the plugin and creates exactly one listener, named WEBCAM.
   */
  method Initialize(plugin: Plugin, manager: ChannelManager) returns (rc: int)
    modifies plugin`listenerCallback, manager`listeners
    ensures rc == CHANNEL_RC_OK
    ensures plugin.listenerCallback != null && fresh(plugin.listenerCallback)
    ensures plugin.listenerCallback.client == plugin.client
    ensures manager.listeners == old(manager.listeners) + [(LISTENER_NAME, plugin.listenerCallback)]
  {
    var listener := new ListenerCallback(plugin.client);
    plugin.listenerCallback := listener;
    manager.listeners := manager.listeners + [(LISTENER_NAME, listener)];
    return CHANNEL_RC_OK;
  }

  /** guac_rdp_vc_terminated: releases the listener callback, then the plugin. */
  method Terminated(plugin: Plugin, mem: Memory) returns (rc: int)
    modifies mem
    ensures rc == CHANNEL_RC_OK
    ensures mem.released == old(mem.released) + [plugin.listenerCallback, plugin]
  {
    mem.Free(plugin.listenerCallback);
    mem.Free(plugin);
    return CHANNEL_RC_OK;
  }

  /**
   * DVCPluginEntry: get-or-register. A "guacvc" plugin bound to `client`
   * (the client reference decoded from the add-in arguments) is registered
   * only when none is registered yet; a later entry changes nothing.
   */
  method PluginEntry(entry: EntryPoints, client: RdpClient) returns (rc: int)
    modifies entry
    ensures rc == CHANNEL_RC_OK
    ensures PLUGIN_NAME in old(entry.plugins) ==> entry.plugins == old(entry.plugins)
    ensures PLUGIN_NAME !in old(entry.plugins) ==>
      && PLUGIN_NAME in entry.plugins
      && var p := entry.plugins[PLUGIN_NAME];
      && fresh(p) && p.client == client && p.listenerCallback == null
      && entry.plugins == old(entry.plugins)[PLUGIN_NAME := p]
  {
    if PLUGIN_NAME !in entry.plugins {
      var plugin := new Plugin(client);
      entry.plugins := entry.plugins[PLUGIN_NAME := plugin];
    }
    return CHANNEL_RC_OK;
  }
}
