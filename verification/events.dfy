/**
 Forwarding of handler signals to clients. Each signal of the item and update
 handlers becomes a broadcast envelope with an empty id, a fixed function name
 and a fixed positional payload.
 */
module Events {
  import opened Json
  import opened Wrappers
  import opened Broadcast

  /** The handler signals the server forwards. Objects built by the item handler are opaque
      values; byte counts and progress readings are numbers. */
  datatype Signal =
    | MetadataSetChanged
    | DownloadStarted(result: Value)
    | DownloadFinished(result: Value)
    | DownloadProgress(id: string, bytesReceived: int, bytesTotal: int)
    | SaveStarted(result: Value)
    | SaveFinished(result: Value)
    | InstallStarted(result: Value)
    | InstallFinished(result: Value)
    | UninstallStarted(result: Value)
    | UninstallFinished(result: Value)
    | CheckAllStarted(status: bool)
    | CheckAllFinished(status: bool)
    | UpdateStarted(itemKey: string, status: bool)
    | UpdateFinished(itemKey: string, status: bool)
    | UpdateProgress(itemKey: string, progress: int)

  /** The function name under which a signal is broadcast. */
  function EventName(sig: Signal): string
  {
    match sig
    case MetadataSetChanged => "ItemHandler::metadataSetChanged"
    case DownloadStarted(_) => "ItemHandler::downloadStarted"
    case DownloadFinished(_) => "ItemHandler::downloadFinished"
    case DownloadProgress(_, _, _) => "ItemHandler::downloadProgress"
    case SaveStarted(_) => "ItemHandler::saveStarted"
    case SaveFinished(_) => "ItemHandler::saveFinished"
    case InstallStarted(_) => "ItemHandler::installStarted"
    case InstallFinished(_) => "ItemHandler::installFinished"
    case UninstallStarted(_) => "ItemHandler::uninstallStarted"
    case UninstallFinished(_) => "ItemHandler::uninstallFinished"
    case CheckAllStarted(_) => "UpdateHandler::checkAllStarted"
    case CheckAllFinished(_) => "UpdateHandler::checkAllFinished"
    case UpdateStarted(_, _) => "UpdateHandler::updateStarted"
    case UpdateFinished(_, _) => "UpdateHandler::updateFinished"
    case UpdateProgress(_, _) => "UpdateHandler::updateProgress"
  }

  /** The positional payload of a signal's envelope. */
  function Payload(sig: Signal): seq<Value>
  {
    match sig
    case MetadataSetChanged => []
    case DownloadStarted(r) => [r]
    case DownloadFinished(r) => [r]
    case DownloadProgress(id, received, total) => [Str(id), Number(received), Number(total)]
    case SaveStarted(r) => [r]
    case SaveFinished(r) => [r]
    case InstallStarted(r) => [r]
    case InstallFinished(r) => [r]
    case UninstallStarted(r) => [r]
    case UninstallFinished(r) => [r]
    case CheckAllStarted(status) => [Bool(status)]
    case CheckAllFinished(status) => [Bool(status)]
    case UpdateStarted(key, status) => [Str(key), Bool(status)]
    case UpdateFinished(key, status) => [Str(key), Bool(status)]
    case UpdateProgress(key, progress) => [Str(key), Number(progress)]
  }

  /** The broadcast envelope that forwards a signal: server-initiated, so its id is empty. */
  function EventEnvelope(sig: Signal): (e: Envelope)
    ensures e.id == ""
  {
    Envelope("", EventName(sig), Payload(sig))
  }

  /** How a client reads a broadcast envelope back into the signal that caused it. */
  function DecodeEvent(e: Envelope): Option<Signal>
  {
    if e.id != "" then None
    else
      var f, d := e.func, e.data;
      if f == "ItemHandler::metadataSetChanged" && d == [] then Some(MetadataSetChanged)
      else if f == "ItemHandler::downloadStarted" && |d| == 1 then Some(DownloadStarted(d[0]))
      else if f == "ItemHandler::downloadFinished" && |d| == 1 then Some(DownloadFinished(d[0]))
      else if f == "ItemHandler::downloadProgress" && |d| == 3 && d[0].Str? && d[1].Number? && d[2].Number? then
        Some(DownloadProgress(d[0].s, d[1].n, d[2].n))
      else if f == "ItemHandler::saveStarted" && |d| == 1 then Some(SaveStarted(d[0]))
      else if f == "ItemHandler::saveFinished" && |d| == 1 then Some(SaveFinished(d[0]))
      else if f == "ItemHandler::installStarted" && |d| == 1 then Some(InstallStarted(d[0]))
      else if f == "ItemHandler::installFinished" && |d| == 1 then Some(InstallFinished(d[0]))
      else if f == "ItemHandler::uninstallStarted" && |d| == 1 then Some(UninstallStarted(d[0]))
      else if f == "ItemHandler::uninstallFinished" && |d| == 1 then Some(UninstallFinished(d[0]))
      else if f == "UpdateHandler::checkAllStarted" && |d| == 1 && d[0].Bool? then Some(CheckAllStarted(d[0].b))
      else if f == "UpdateHandler::checkAllFinished" && |d| == 1 && d[0].Bool? then Some(CheckAllFinished(d[0].b))
      else if f == "UpdateHandler::updateStarted" && |d| == 2 && d[0].Str? && d[1].Bool? then
        Some(UpdateStarted(d[0].s, d[1].b))
      else if f == "UpdateHandler::updateFinished" && |d| == 2 && d[0].Str? && d[1].Bool? then
        Some(UpdateFinished(d[0].s, d[1].b))
      else if f == "UpdateHandler::updateProgress" && |d| == 2 && d[0].Str? && d[1].Number? then
        Some(UpdateProgress(d[0].s, d[1].n))
      else None
  }

  /** Every forwarded signal can be read back from its envelope. */
  lemma EventRoundTrip(sig: Signal)
    ensures DecodeEvent(EventEnvelope(sig)) == Some(sig)
  {
  }

  /** An envelope that reads back as a signal is exactly the envelope that signal is forwarded as. */
  lemma DecodedEventIsForwarded(e: Envelope, sig: Signal)
    requires DecodeEvent(e) == Some(sig)
    ensures EventEnvelope(sig) == e
  {
  }
}
