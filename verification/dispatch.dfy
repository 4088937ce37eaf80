/**
 Resolution of an inbound call against the fixed table of function names, and
 the reply it produces. The server's message handler is a chain of name
 comparisons; here the chain is written as data. Each supported name has the
 conversions applied to the positional arguments its handler reads, and
 belongs to one of two tables according to the shape of its reply.
 */
module Dispatch {
  import opened Json
  import opened Wrappers
  import opened Broadcast

  /** Value-returning calls reply with a one-element array holding the result;
      job-initiating and void calls reply with an empty array. */
  datatype ReplyKind = ReplyWithResult | ReplyEmpty

  datatype Binding = Binding(params: seq<ArgType>, kind: ReplyKind)

  const StopFunc: string := "WebSocketServer::stop"

  /** Key of the user application configuration that records the server's URL. */
  const WebsocketUrlKey: string := "websocket_url"

  /** Job-initiating and void calls, with the conversion applied to each argument it reads. */
  const EmptyReplyCalls: map<string, seq<ArgType>> :=
    map[
      "WebSocketServer::stop" := [],
      "ItemHandler::getItem" := [StringArg, StringArg, StringArg, StringArg, StringArg, StringArg],
      "ItemHandler::getItemByOcsUrl" := [StringArg, StringArg, StringArg],
      "ItemHandler::uninstall" := [StringArg],
      "UpdateHandler::checkAll" := [],
      "UpdateHandler::update" := [StringArg]
    ]

  /** Value-returning calls, with the conversion applied to each argument it reads. */
  const ResultCalls: map<string, seq<ArgType>> :=
    map[
      "WebSocketServer::isError" := [],
      "WebSocketServer::errorString" := [],
      "WebSocketServer::serverUrl" := [],
      "ConfigHandler::getAppConfigApplication" := [],
      "ConfigHandler::getAppConfigInstallTypes" := [],
      "ConfigHandler::getUsrConfigApplication" := [],
      "ConfigHandler::setUsrConfigApplication" := [ObjectArg],
      "ConfigHandler::getUsrConfigProviders" := [],
      "ConfigHandler::setUsrConfigProviders" := [ObjectArg],
      "ConfigHandler::getUsrConfigCategories" := [],
      "ConfigHandler::setUsrConfigCategories" := [ObjectArg],
      "ConfigHandler::getUsrConfigInstalledItems" := [],
      "ConfigHandler::setUsrConfigInstalledItems" := [ObjectArg],
      "ConfigHandler::getUsrConfigUpdateAvailableItems" := [],
      "ConfigHandler::setUsrConfigUpdateAvailableItems" := [ObjectArg],
      "ConfigHandler::setUsrConfigProvidersProvider" := [StringArg, ObjectArg],
      "ConfigHandler::removeUsrConfigProvidersProvider" := [StringArg],
      "ConfigHandler::setUsrConfigCategoriesProvider" := [StringArg, ObjectArg],
      "ConfigHandler::removeUsrConfigCategoriesProvider" := [StringArg],
      "ConfigHandler::setUsrConfigCategoriesInstallType" := [StringArg, StringArg, StringArg],
      "ConfigHandler::setUsrConfigInstalledItemsItem" := [StringArg, ObjectArg],
      "ConfigHandler::removeUsrConfigInstalledItemsItem" := [StringArg],
      "ConfigHandler::setUsrConfigUpdateAvailableItemsItem" := [StringArg, ObjectArg],
      "ConfigHandler::removeUsrConfigUpdateAvailableItemsItem" := [StringArg],
      "SystemHandler::isUnix" := [],
      "SystemHandler::isMobileDevice" := [],
      "SystemHandler::openUrl" := [StringArg],
      "OcsApiHandler::addProviders" := [StringArg],
      "OcsApiHandler::removeProvider" := [StringArg],
      "OcsApiHandler::updateAllCategories" := [BoolArg],
      "OcsApiHandler::updateCategories" := [StringArg, BoolArg],
      "OcsApiHandler::getContents" := [StringArg, StringArg, StringArg, StringArg, StringArg, StringArg, IntArg, IntArg],
      "OcsApiHandler::getContent" := [StringArg, StringArg],
      "ItemHandler::metadataSet" := [],
      "DesktopThemeHandler::desktopEnvironment" := [],
      "DesktopThemeHandler::isApplicableType" := [StringArg],
      "DesktopThemeHandler::applyTheme" := [StringArg, StringArg]
    ]

  /** The binding of a supported name; None for every other name. */
  function Resolve(func: string): Option<Binding>
  {
    if func in EmptyReplyCalls then Some(Binding(EmptyReplyCalls[func], ReplyEmpty))
    else if func in ResultCalls then Some(Binding(ResultCalls[func], ReplyWithResult))
    else None
  }

  /** What the handlers (and the server's own status queries) answer to a value-returning call
      with the given name and arguments. Their bodies are not part of this model. */
  type Handlers = (string, seq<Value>) -> Value

  /** A call into a collaborator that dispatch or a server step performed. */
  datatype Effect =
    | Invoked(func: string, args: seq<Value>)     // a handler was called with these arguments
    | AppConfigWritten(app: map<string, Value>)    // the user application configuration was saved
    | ListenerClosed                               // the listening socket was closed
    | ServerStarted                                // the `started` signal was emitted

  /** The user application configuration a successful start saves: `app` with `websocket_url`
      set to the server's URL. */
  function StartedConfig(app: map<string, Value>, url: string): (r: map<string, Value>)
    ensures WebsocketUrlKey in r && r[WebsocketUrlKey] == Str(url)
    ensures forall k :: k in app && k != WebsocketUrlKey ==> k in r && r[k] == app[k]
    ensures forall k :: k in r ==> k in app || k == WebsocketUrlKey
  {
    app[WebsocketUrlKey := Str(url)]
  }

  /** The effects of stopping the server: `websocket_url` is cleared in the user application
      configuration `app`, every other key is kept, and the listener is closed. */
  function StopEffects(app: map<string, Value>): (r: seq<Effect>)
    ensures |r| == 2 && r[0].AppConfigWritten? && r[1] == ListenerClosed
    ensures WebsocketUrlKey in r[0].app && r[0].app[WebsocketUrlKey] == Str("")
    ensures forall k :: k in app && k != WebsocketUrlKey ==> k in r[0].app && r[0].app[k] == app[k]
    ensures forall k :: k in r[0].app ==> k in app || k == WebsocketUrlKey
  {
    [AppConfigWritten(app[WebsocketUrlKey := Str("")]), ListenerClosed]
  }

  datatype Outcome =
    | Dropped
    | Replied(effects: seq<Effect>, reply: Envelope)

  /** Resolves one inbound envelope and builds its single reply. `app` is the user application
      configuration as the configuration handler returns it at this moment. */
  function ReceiveMessage(inbound: Envelope, handlers: Handlers, app: map<string, Value>): (r: Outcome)
    ensures r.Dropped? <==> inbound.func !in EmptyReplyCalls && inbound.func !in ResultCalls
    ensures r.Replied? ==> r.reply.id == inbound.id && r.reply.func == inbound.func
    ensures inbound.func in EmptyReplyCalls ==> r.Replied? && r.reply.data == []
    ensures inbound.func !in EmptyReplyCalls && inbound.func in ResultCalls ==>
              var args := Args(ResultCalls[inbound.func], inbound.data);
              && r.Replied?
              && r.reply.data == [handlers(inbound.func, args)]
              && r.effects == [Invoked(inbound.func, args)]
    ensures inbound.func == StopFunc ==> r.Replied? && r.effects == StopEffects(app)
    ensures inbound.func in EmptyReplyCalls && inbound.func != StopFunc ==>
              r.Replied? && r.effects == [Invoked(inbound.func, Args(EmptyReplyCalls[inbound.func], inbound.data))]
  {
    match Resolve(inbound.func)
    case None => Dropped
    case Some(binding) =>
      var args := Args(binding.params, inbound.data);
      var effects := if inbound.func == StopFunc then StopEffects(app) else [Invoked(inbound.func, args)];
      var data := match binding.kind
        case ReplyEmpty => []
        case ReplyWithResult => [handlers(inbound.func, args)];
      Replied(effects, Envelope(inbound.id, inbound.func, data))
  }

  /** Stopping undoes starting: stopping a server whose configuration was saved by a start leaves
      the same configuration as stopping without that start, so no URL survives a stop. */
  lemma StopForgetsStartedUrl(app: map<string, Value>, url: string)
    ensures StopEffects(StartedConfig(app, url)) == StopEffects(app)
  {
    assert StartedConfig(app, url)[WebsocketUrlKey := Str("")] == app[WebsocketUrlKey := Str("")];
  }
}
