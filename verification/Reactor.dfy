// src/Channel.cc, include/Channel.h and src/EPollPoller.cc: a channel's interest mask, the
// poller's map of channels, and the kernel's epoll set kept in step.

module Reactor {
  import opened Common
  import PollerTables

  const EPOLLIN: bv32 := 0x001
  const EPOLLPRI: bv32 := 0x002
  const EPOLLOUT: bv32 := 0x004
  const EPOLLERR: bv32 := 0x008
  const EPOLLHUP: bv32 := 0x010

  const NONE_EVENT: bv32 := 0
  const READ_EVENT: bv32 := 0x003   // EPOLLIN | EPOLLPRI
  const WRITE_EVENT: bv32 := 0x004  // EPOLLOUT

  const INIT_EVENT_LIST_SIZE: nat := 16

  // What epoll_ctl stores for a descriptor: the mask and data.ptr.
  datatype Registration = Registration(mask: bv32, ptr: Channel)

  datatype CtlOp = CtlAdd | CtlMod | CtlDel

  // One element of the array epoll_wait fills.
  datatype EpollEvent = EpollEvent(ptr: Channel, events: bv32)

  datatype Callback = OnClose | OnError | OnRead | OnWrite

  // ---------------------------------------------------------------- dispatch

  predicate Has(mask: bv32, bits: bv32) {
    mask & bits != 0
  }

  function With(mask: bv32, bits: bv32): bv32 {
    mask | bits
  }

  function Without(mask: bv32, bits: bv32): bv32 {
    mask & !bits
  }

  // Turning one interest on or off leaves the other alone.
  lemma ReadBits(mask: bv32)
    ensures Has(With(mask, READ_EVENT), READ_EVENT) && !Has(Without(mask, READ_EVENT), READ_EVENT)
  {
  }

  lemma ReadLeavesWrite(mask: bv32)
    ensures Has(With(mask, READ_EVENT), WRITE_EVENT) == Has(mask, WRITE_EVENT)
    ensures Has(Without(mask, READ_EVENT), WRITE_EVENT) == Has(mask, WRITE_EVENT)
  {
  }

  lemma WriteBits(mask: bv32)
    ensures Has(With(mask, WRITE_EVENT), WRITE_EVENT) && !Has(Without(mask, WRITE_EVENT), WRITE_EVENT)
  {
  }

  lemma WriteLeavesRead(mask: bv32)
    ensures Has(With(mask, WRITE_EVENT), READ_EVENT) == Has(mask, READ_EVENT)
    ensures Has(Without(mask, WRITE_EVENT), READ_EVENT) == Has(mask, READ_EVENT)
  {
  }

  lemma NoBits()
    ensures !Has(NONE_EVENT, READ_EVENT) && !Has(NONE_EVENT, WRITE_EVENT)
  {
  }

  // Some of the two interests and nothing else, which is all a channel's mask ever is.
  predicate Plain(mask: bv32) {
    mask == NONE_EVENT || mask == READ_EVENT || mask == WRITE_EVENT || mask == READ_EVENT | WRITE_EVENT
  }

  lemma PlainStays(mask: bv32)
    requires Plain(mask)
    ensures Plain(With(mask, READ_EVENT)) && Plain(With(mask, WRITE_EVENT))
    ensures Plain(Without(mask, READ_EVENT)) && Plain(Without(mask, WRITE_EVENT))
  {
  }

  lemma PlainNone(mask: bv32)
    requires Plain(mask)
    ensures mask == NONE_EVENT <==> !Has(mask, READ_EVENT) && !Has(mask, WRITE_EVENT)
  {
  }

  // The masks are the events of epoll that dispatch tests, five different bits.
  lemma MasksAreEvents(mask: bv32)
    ensures Has(mask, WRITE_EVENT) <==> mask & EPOLLOUT == EPOLLOUT
    ensures Has(mask, READ_EVENT) <==> mask & EPOLLIN == EPOLLIN || mask & EPOLLPRI == EPOLLPRI
    ensures EPOLLIN == 1 && EPOLLPRI == 2 && EPOLLOUT == 4 && EPOLLERR == 8 && EPOLLHUP == 16
    ensures READ_EVENT == EPOLLIN | EPOLLPRI && WRITE_EVENT == EPOLLOUT && NONE_EVENT == 0
  {
  }

  // The place of a callback in a dispatch.
  function Rank(call: Callback): nat {
    match call
    case OnClose => 0
    case OnError => 1
    case OnRead => 2
    case OnWrite => 3
  }

  predicate InOrder(calls: seq<Callback>) {
    forall i, j :: 0 <= i < j < |calls| ==> Rank(calls[i]) < Rank(calls[j])
  }

  // Each callback is made exactly for its events, once, with close before error, read and write.
  predicate Dispatched(revents: bv32, calls: seq<Callback>) {
    && (OnClose in calls <==> revents & EPOLLHUP != 0 && revents & EPOLLIN == 0)
    && (OnError in calls <==> revents & EPOLLERR != 0)
    && (OnRead in calls <==> revents & EPOLLIN != 0 || revents & EPOLLPRI != 0)
    && (OnWrite in calls <==> revents & EPOLLOUT != 0)
    && InOrder(calls)
  }

  lemma CallbacksFit(revents: bv32)
    ensures Dispatched(revents, Callbacks(revents))
  {
    ReadOrUrgent(revents);
    FourInOrder(Has(revents, EPOLLHUP) && !Has(revents, EPOLLIN), Has(revents, EPOLLERR),
                Has(revents, READ_EVENT), Has(revents, EPOLLOUT));
    hide InOrder;
  }

  lemma FourInOrder(close: bool, error: bool, read: bool, write: bool)
    ensures var calls :=
        (if close then [OnClose] else []) + (if error then [OnError] else []) +
        (if read then [OnRead] else []) + (if write then [OnWrite] else []);
      && (OnClose in calls <==> close) && (OnError in calls <==> error)
      && (OnRead in calls <==> read) && (OnWrite in calls <==> write) && InOrder(calls)
  {
    var calls := if close then [OnClose] else [];
    OneMore(calls, OnError, error);
    calls := calls + if error then [OnError] else [];
    OneMore(calls, OnRead, read);
    calls := calls + if read then [OnRead] else [];
    OneMore(calls, OnWrite, write);
    hide InOrder;
  }

  lemma OneMore(calls: seq<Callback>, call: Callback, made: bool)
    requires InOrder(calls) && forall c :: c in calls ==> Rank(c) < Rank(call)
    ensures InOrder(calls + if made then [call] else [])
  {
    assert forall i :: 0 <= i < |calls| ==> calls[i] in calls;
  }

  lemma ReadOrUrgent(revents: bv32)
    ensures revents & READ_EVENT != 0 <==> revents & EPOLLIN != 0 || revents & EPOLLPRI != 0
  {
  }

  // The callbacks one dispatch makes, in order.
  function Callbacks(revents: bv32): seq<Callback> {
    (if Has(revents, EPOLLHUP) && !Has(revents, EPOLLIN) then [OnClose] else []) +
    (if Has(revents, EPOLLERR) then [OnError] else []) +
    (if Has(revents, READ_EVENT) then [OnRead] else []) +
    (if Has(revents, EPOLLOUT) then [OnWrite] else [])
  }

  // How often handleClose runs: once for each close callback, and once more for a read callback
  // that finds the end of the stream.
  function Closes(calls: seq<Callback>, eof: bool): nat {
    if calls == [] then 0
    else (if calls[0] == OnClose || (calls[0] == OnRead && eof) then 1 else 0) + Closes(calls[1..], eof)
  }

  lemma {:induction false} ClosesOfConcat(a: seq<Callback>, b: seq<Callback>, eof: bool)
    ensures Closes(a + b, eof) == Closes(a, eof) + Closes(b, eof)
  {
    if a == [] {
      assert a + b == b;
    } else {
      ClosesOfConcat(a[1..], b, eof);
      assert (a + b)[1..] == a[1..] + b;
    }
  }

  // One dispatch closes the connection at most once, except that a hang-up with urgent data and
  // no ordinary data closes it twice when the read then finds the end of the stream.
  lemma DispatchClosesOnce(revents: bv32, eof: bool)
    ensures Closes(Callbacks(revents), eof) <= 1
       <==> !(Has(revents, EPOLLHUP) && !Has(revents, EPOLLIN) && Has(revents, EPOLLPRI) && eof)
  {
    var close := if Has(revents, EPOLLHUP) && !Has(revents, EPOLLIN) then [OnClose] else [];
    var error := if Has(revents, EPOLLERR) then [OnError] else [];
    var read := if Has(revents, READ_EVENT) then [OnRead] else [];
    var write := if Has(revents, EPOLLOUT) then [OnWrite] else [];
    ClosesOfConcat(close + error + read, write, eof);
    ClosesOfConcat(close + error, read, eof);
    ClosesOfConcat(close, error, eof);
    assert Has(revents, READ_EVENT) <==> Has(revents, EPOLLIN) || Has(revents, EPOLLPRI);
  }

  // ---------------------------------------------------------------- Channel

  class Channel {
    const fd: nat
    var events: bv32
    var revents: bv32
    var index: Index
    var tied: bool

    constructor (fd: nat)
      ensures this.fd == fd && events == NONE_EVENT && index == New && !tied
    {
      this.fd := fd;
      events, revents, index, tied := NONE_EVENT, NONE_EVENT, New, false;
    }

    method Tie()
      modifies this`tied
      ensures tied
    {
      tied := true;
    }

    predicate IsNoneEvent()
      reads this
    {
      events == NONE_EVENT
    }

    predicate IsWriting()
      reads this
    {
      Has(events, WRITE_EVENT)
    }

    predicate IsReading()
      reads this
    {
      Has(events, READ_EVENT)
    }

    // The channel is one the poller keeps track of, and no other channel uses its descriptor.
    ghost predicate Usable(poller: EPollPoller)
      reads this, poller, poller.known
    {
      poller.Valid() && this in poller.known && (index == New ==> fd !in poller.channels) && Plain(events)
    }

    twostate lemma TieLeavesUsable(poller: EPollPoller)
      requires old(Usable(poller)) && unchanged(poller) && unchanged(this`events, this`index)
      requires forall c :: c in poller.known && c != this ==> unchanged(c)
      ensures Usable(poller)
    {
    }

    method EnableReading(poller: EPollPoller)
      requires Usable(poller)
      modifies this`events, this`index, poller
      ensures Usable(poller) && poller.OnlyTouched(this)
      ensures IsReading() && IsWriting() == old(IsWriting()) && index == Added
    {
      hide Has, With, Without, Plain, EPollPoller.Tables, PollerTables.Update;
      PlainStays(events);
      ReadBits(events);
      ReadLeavesWrite(events);
      NoBits();
      events := With(events, READ_EVENT);
      poller.UpdateChannel(this);
    }

    method DisableReading(poller: EPollPoller)
      requires Usable(poller)
      modifies this`events, this`index, poller
      ensures Usable(poller) && poller.OnlyTouched(this)
      ensures !IsReading() && IsWriting() == old(IsWriting())
      ensures index == if old(index) == Added && !IsWriting() then Deleted else Added
    {
      hide Has, With, Without, Plain, EPollPoller.Tables, PollerTables.Update;
      PlainStays(events);
      ReadBits(events);
      ReadLeavesWrite(events);
      events := Without(events, READ_EVENT);
      PlainNone(events);
      poller.UpdateChannel(this);
    }

    method EnableWriting(poller: EPollPoller)
      requires Usable(poller)
      modifies this`events, this`index, poller
      ensures Usable(poller) && poller.OnlyTouched(this)
      ensures IsWriting() && IsReading() == old(IsReading()) && index == Added
    {
      hide Has, With, Without, Plain, EPollPoller.Tables, PollerTables.Update;
      PlainStays(events);
      WriteBits(events);
      WriteLeavesRead(events);
      NoBits();
      events := With(events, WRITE_EVENT);
      poller.UpdateChannel(this);
    }

    method DisableWriting(poller: EPollPoller)
      requires Usable(poller)
      modifies this`events, this`index, poller
      ensures Usable(poller) && poller.OnlyTouched(this)
      ensures !IsWriting() && IsReading() == old(IsReading())
      ensures index == if old(index) == Added && !IsReading() then Deleted else Added
    {
      hide Has, With, Without, Plain, EPollPoller.Tables, PollerTables.Update;
      PlainStays(events);
      WriteBits(events);
      WriteLeavesRead(events);
      events := Without(events, WRITE_EVENT);
      PlainNone(events);
      poller.UpdateChannel(this);
    }

    // A second disableAll in a row registers the descriptor again, with an empty mask.
    method DisableAll(poller: EPollPoller)
      requires Usable(poller)
      modifies this`events, this`index, poller
      ensures Usable(poller) && poller.OnlyTouched(this)
      ensures !IsReading() && !IsWriting() && IsNoneEvent()
      ensures index == if old(index) == Added then Deleted else Added
    {
      hide Has, EPollPoller.Tables, PollerTables.Update;
      NoBits();
      events := NONE_EVENT;
      poller.UpdateChannel(this);
    }

    method Remove(poller: EPollPoller)
      requires Usable(poller)
      modifies this`index, poller
      ensures Usable(poller) && poller.OnlyTouched(this)
      ensures index == New && fd !in poller.channels && fd !in poller.kernel
    {
      poller.RemoveChannel(this);
    }

    // ownerAlive is what tie_.lock() finds.
    method HandleEvent(ownerAlive: bool) returns (calls: seq<Callback>)
      ensures calls == if tied && !ownerAlive then [] else Callbacks(revents)
      ensures if tied && !ownerAlive then calls == [] else Dispatched(revents, calls)
    {
      hide Has, Dispatched;
      CallbacksFit(revents);
      calls := [];
      if tied && !ownerAlive {
        return;
      }
      if Has(revents, EPOLLHUP) && !Has(revents, EPOLLIN) {
        calls := calls + [OnClose];
      }
      if Has(revents, EPOLLERR) {
        calls := calls + [OnError];
      }
      if Has(revents, READ_EVENT) {
        calls := calls + [OnRead];
      }
      if Has(revents, EPOLLOUT) {
        calls := calls + [OnWrite];
      }
    }
  }

  // ---------------------------------------------------------------- EPollPoller

  // The epoll set by data.ptr.
  function Pointers(kernel: map<nat, Registration>): map<nat, Channel> {
    map fd | fd in kernel :: kernel[fd].ptr
  }

  lemma PointersMove(kernel: map<nat, Registration>, fd: nat, r: Registration)
    ensures Pointers(kernel[fd := r]) == Pointers(kernel)[fd := r.ptr]
    ensures Pointers(kernel - {fd}) == Pointers(kernel) - {fd}
  {
  }

  class EPollPoller {
    var channels: map<nat, Channel>
    var kernel: map<nat, Registration>   // the interest list of epollfd_
    var eventListSize: nat               // events_.size()
    var died: bool                       // LOG_FATAL was reached
    var delErrors: nat                   // failed EPOLL_CTL_DEL calls, which are only logged
    ghost var known: set<Channel>        // the channels that use this poller

    constructor ()
      ensures Valid() && known == {} && channels == map[] && kernel == map[]
    {
      channels, kernel := map[], map[];
      eventListSize := INIT_EVENT_LIST_SIZE;
      died, delErrors := false, 0;
      known := {};
    }

    ghost predicate Mapped(ch: Channel)
      reads this
    {
      ch.fd in channels && channels[ch.fd] == ch
    }

    // index_ against the map and the kernel, leaving the mask aside.
    ghost predicate Registered(ch: Channel)
      reads this, ch
    {
      match ch.index
      case New => !Mapped(ch)
      case Added => Mapped(ch) && ch.fd in kernel && kernel[ch.fd].ptr == ch
      case Deleted => Mapped(ch) && ch.fd !in kernel
    }

    ghost predicate Agrees(ch: Channel)
      reads this, ch
    {
      && Registered(ch)
      && (ch.index == Added ==> kernel[ch.fd].mask == ch.events)
      && (ch.index == Deleted ==> ch.events == NONE_EVENT)
    }

    // Nothing is mapped or registered that is not some known channel's, and no epoll_ctl failed.
    ghost predicate Tidy()
      reads this, known
    {
      && (forall fd :: fd in channels ==> channels[fd] in known && channels[fd].fd == fd && channels[fd].index != New)
      && (forall fd :: fd in kernel ==> fd in channels)
      && !died && delErrors == 0
    }

    ghost predicate Valid()
      reads this, known
    {
      Tidy() && forall ch :: ch in known ==> Agrees(ch)
    }

    // Between a channel's mask changing and the poller hearing of it.
    ghost predicate Stale(ch: Channel)
      reads this, known
    {
      && Tidy() && ch in known && Registered(ch)
      && (forall c :: c in known && c != ch ==> Agrees(c))
      && (ch.index == New ==> ch.fd !in channels)
    }

    // The two tables, leaving the masks aside.
    ghost function Tables(): PollerTables.Tables<Channel>
      reads this
    {
      PollerTables.Tables(channels, Pointers(kernel))
    }

    // Every other descriptor's entries are as they were.
    twostate predicate OnlyTouched(ch: Channel)
      reads this
    {
      && known == old(known) && eventListSize == old(eventListSize)
      && (forall fd :: fd != ch.fd ==> (fd in channels <==> fd in old(channels)))
      && (forall fd :: fd != ch.fd && fd in channels ==> channels[fd] == old(channels)[fd])
      && (forall fd :: fd != ch.fd ==> (fd in kernel <==> fd in old(kernel)))
      && (forall fd :: fd != ch.fd && fd in kernel ==> kernel[fd] == old(kernel)[fd])
    }

    // epoll_ctl: ADD of a registered descriptor and MOD or DEL of an unregistered one fail.
    method EpollCtl(op: CtlOp, fd: nat, r: Registration) returns (ok: bool)
      modifies this`kernel
      ensures ok == ((op == CtlAdd) == (fd !in old(kernel)))
      ensures kernel == if !ok then old(kernel) else if op == CtlDel then old(kernel) - {fd} else old(kernel)[fd := r]
    {
      ok := (op == CtlAdd) == (fd !in kernel);
      if ok {
        kernel := if op == CtlDel then kernel - {fd} else kernel[fd := r];
      }
    }

    method Update(op: CtlOp, ch: Channel)
      modifies this`kernel, this`died, this`delErrors
      ensures var ok := (op == CtlAdd) == (ch.fd !in old(kernel));
        && died == (old(died) || (!ok && op != CtlDel))
        && delErrors == old(delErrors) + (if !ok && op == CtlDel then 1 else 0)
        && kernel == if !ok then old(kernel) else if op == CtlDel then old(kernel) - {ch.fd}
                     else old(kernel)[ch.fd := Registration(ch.events, ch)]
    {
      var ok := EpollCtl(op, ch.fd, Registration(ch.events, ch));
      if !ok {
        if op == CtlDel {
          delErrors := delErrors + 1;
        } else {
          died := true;
        }
      }
    }

    // A change to one descriptor's entries leaves every other channel in agreement.
    twostate lemma OthersStillAgree(ch: Channel)
      requires old(Stale(ch)) && OnlyTouched(ch)
      requires ch.fd in channels ==> channels[ch.fd] == ch
      requires forall c :: c in known && c != ch ==> unchanged(c)
      ensures forall c :: c in known && c != ch ==> Agrees(c)
    {
      forall c | c in known && c != ch
        ensures Agrees(c)
      {
        assert old(Agrees(c));
      }
    }

    // Nothing failed, and nobody else's fields changed.
    twostate predicate Quietly(ch: Channel)
      reads this, known
    {
      && known == old(known) && eventListSize == old(eventListSize)
      && died == old(died) && delErrors == old(delErrors)
      && forall c :: c in known && c != ch ==> unchanged(c)
    }

    // What updateChannel does to the fields restores agreement.
    twostate lemma Updated(ch: Channel)
      requires old(Stale(ch)) && Quietly(ch) && ch.events == old(ch.events)
      requires channels == if old(ch.index) == New then old(channels)[ch.fd := ch] else old(channels)
      requires kernel == if old(ch.index) == Added && ch.events == NONE_EVENT then old(kernel) - {ch.fd}
                         else old(kernel)[ch.fd := Registration(ch.events, ch)]
      requires ch.index == if old(ch.index) == Added && ch.events == NONE_EVENT then Deleted else Added
      ensures Valid() && OnlyTouched(ch)
    {
      OthersStillAgree(ch);
    }

    // And it is what PollerTables says.
    twostate lemma TablesUpdated(ch: Channel)
      requires channels == if old(ch.index) == New then old(channels)[ch.fd := ch] else old(channels)
      requires kernel == if old(ch.index) == Added && ch.events == NONE_EVENT then old(kernel) - {ch.fd}
                         else old(kernel)[ch.fd := Registration(ch.events, ch)]
      requires ch.index == if old(ch.index) == Added && ch.events == NONE_EVENT then Deleted else Added
      ensures (Tables(), ch.index) ==
        PollerTables.Update(old(Tables()), old(ch.index), ch.fd, ch, ch.events != NONE_EVENT)
    {
      hide Pointers;
      PointersMove(old(kernel), ch.fd, Registration(ch.events, ch));
    }

    twostate lemma Removed(ch: Channel)
      requires old(Stale(ch)) && Quietly(ch)
      requires channels == old(channels) - {ch.fd} && ch.index == New
      requires kernel == if old(ch.index) == Added then old(kernel) - {ch.fd} else old(kernel)
      ensures Valid() && OnlyTouched(ch) && ch.fd !in kernel
      ensures Tables() == PollerTables.Remove(old(Tables()), old(ch.index), ch.fd)
    {
      hide Pointers;
      OthersStillAgree(ch);
      PointersMove(old(kernel), ch.fd, Registration(ch.events, ch));
    }

    // No ADD meets a registered descriptor and no MOD or DEL an unregistered one: Tidy again.
    method UpdateChannel(ch: Channel)
      requires Stale(ch)
      modifies this, ch`index
      ensures Valid() && OnlyTouched(ch)
      ensures (Tables(), ch.index) ==
        PollerTables.Update(old(Tables()), old(ch.index), ch.fd, ch, ch.events != NONE_EVENT)
      ensures ch.index == if old(ch.index) == Added && ch.events == NONE_EVENT then Deleted else Added
    {
      hide PollerTables.Update, Tables, OnlyTouched, Agrees;
      if ch.index == New || ch.index == Deleted {
        if ch.index == New {
          channels := channels[ch.fd := ch];
        }
        ch.index := Added;
        Update(CtlAdd, ch);
      } else {
        if ch.IsNoneEvent() {
          Update(CtlDel, ch);
          ch.index := Deleted;
        } else {
          Update(CtlMod, ch);
        }
      }
      Updated(ch);
      TablesUpdated(ch);
    }

    method RemoveChannel(ch: Channel)
      requires Stale(ch)
      modifies this, ch`index
      ensures Valid() && OnlyTouched(ch)
      ensures Tables() == PollerTables.Remove(old(Tables()), old(ch.index), ch.fd)
      ensures ch.index == New && ch.fd !in channels && ch.fd !in kernel
    {
      hide PollerTables.Remove, Tables, OnlyTouched, Agrees;
      channels := channels - {ch.fd};
      if ch.index == Added {
        Update(CtlDel, ch);
      }
      ch.index := New;
      Removed(ch);
    }

    // A channel that was never registered starts to use this poller.
    ghost method Adopt(ch: Channel)
      requires Valid() && ch.index == New && ch !in known
      modifies this`known
      ensures Valid() && known == old(known) + {ch}
    {
      known := known + {ch};
    }

    // fillActiveChannels. epoll_wait reports registered descriptors, each at most once, with the
    // pointer stored for it.
    method FillActiveChannels(reported: seq<EpollEvent>) returns (active: seq<Channel>)
      requires Valid()
      requires forall e :: e in reported ==> e.ptr.fd in kernel && kernel[e.ptr.fd].ptr == e.ptr
      requires forall i, j :: 0 <= i < j < |reported| ==> reported[i].ptr != reported[j].ptr
      modifies (set e | e in reported :: e.ptr)`revents
      ensures Valid() && |active| == |reported|
      ensures forall i :: 0 <= i < |active| ==>
        active[i] == reported[i].ptr && active[i].revents == reported[i].events
      ensures forall ch :: ch in active ==> ch in known && ch.index == Added
    {
      active := [];
      for i := 0 to |reported|
        invariant Valid() && |active| == i
        invariant forall k :: 0 <= k < i ==>
          active[k] == reported[k].ptr && active[k].revents == reported[k].events
        invariant forall ch :: ch in active ==> ch in known && ch.index == Added
      {
        var ch := reported[i].ptr;
        assert reported[i] in reported;
        assert kernel[ch.fd].ptr == ch && channels[ch.fd] in known && Agrees(channels[ch.fd]);
        ch.revents := reported[i].events;
        active := active + [ch];
      }
    }

    // poll: reported is None when epoll_wait failed. The event array doubles when it was full.
    method Poll(reported: Option<seq<EpollEvent>>) returns (active: seq<Channel>)
      requires Valid()
      requires reported.Some? ==>
        && |reported.value| <= eventListSize
        && (forall e :: e in reported.value ==> e.ptr.fd in kernel && kernel[e.ptr.fd].ptr == e.ptr)
        && (forall i, j :: 0 <= i < j < |reported.value| ==> reported.value[i].ptr != reported.value[j].ptr)
      modifies this`eventListSize, (set e | reported.Some? && e in reported.value :: e.ptr)`revents
      ensures Valid()
      ensures |active| == (if reported.Some? then |reported.value| else 0)
      ensures forall i :: 0 <= i < |active| ==>
        active[i] == reported.value[i].ptr && active[i].revents == reported.value[i].events
      ensures forall ch :: ch in active ==> ch in known && ch.index == Added
      ensures eventListSize == if 0 < |active| == old(eventListSize) then 2 * |active| else old(eventListSize)
      ensures 0 < old(eventListSize) ==> |active| < eventListSize
    {
      active := [];
      if reported.Some? && 0 < |reported.value| {
        active := FillActiveChannels(reported.value);
        if |active| == eventListSize {
          eventListSize := eventListSize * 2;
        }
      }
    }
  }

  // ---------------------------------------------------------------- any sequence of operations

  datatype InterestOp = ReadOn | ReadOff | WriteOn | WriteOff | AllOff | Remove

  ghost predicate DistinctFds(chans: set<Channel>)
  {
    forall a, b :: a in chans && b in chans && a != b ==> a.fd != b.fd
  }

  // Whatever is asked of channels with distinct descriptors, in any order, map, kernel and index_
  // agree afterwards and epoll_ctl has not failed once.
  method AnySequence(poller: EPollPoller, ops: seq<(Channel, InterestOp)>)
    requires poller.Valid() && DistinctFds(poller.known) && forall ch :: ch in poller.known ==> Plain(ch.events)
    requires forall op :: op in ops ==> op.0 in poller.known
    modifies poller, poller.known
    ensures poller.Valid() && poller.known == old(poller.known)
    ensures !poller.died && poller.delErrors == 0
    ensures forall ch :: ch in poller.known ==> poller.Agrees(ch)
  {
    for i := 0 to |ops|
      invariant poller.Valid() && poller.known == old(poller.known)
      invariant forall ch :: ch in poller.known ==> Plain(ch.events)
    {
      var ch := ops[i].0;
      assert ops[i] in ops;
      match ops[i].1 {
        case ReadOn => ch.EnableReading(poller);
        case ReadOff => ch.DisableReading(poller);
        case WriteOn => ch.EnableWriting(poller);
        case WriteOff => ch.DisableWriting(poller);
        case AllOff => ch.DisableAll(poller);
        case Remove => ch.Remove(poller);
      }
    }
  }
}
