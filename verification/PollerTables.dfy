// EPollPoller::updateChannel and removeChannel on a poller's two tables, for channels named in any
// way: Reactor's poller object and the pollers of Lifecycle's loops both move by these functions.

module PollerTables {
  import opened Common

  // channels_, and the epoll set by data.ptr.
  datatype Tables<T> = Tables(channels: map<nat, T>, kernel: map<nat, T>)

  // The tables and the channel's index_ after updateChannel; wants is !isNoneEvent().
  function Update<T>(e: Tables<T>, index: Index, fd: nat, ch: T, wants: bool): (Tables<T>, Index) {
    match index
    case New => (Tables(e.channels[fd := ch], e.kernel[fd := ch]), Added)
    case Deleted => (e.(kernel := e.kernel[fd := ch]), Added)
    case Added =>
      if wants then (e.(kernel := e.kernel[fd := ch]), Added) else (e.(kernel := e.kernel - {fd}), Deleted)
  }

  function Remove<T>(e: Tables<T>, index: Index, fd: nat): Tables<T> {
    Tables(e.channels - {fd}, if index == Added then e.kernel - {fd} else e.kernel)
  }
}
