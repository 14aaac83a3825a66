/**
  Channel and EPollPoller as objects changed in place (src/Channel.h, src/Channel.cc,
  src/EPollPoller.cc, src/Poller.cc). Each interest change is proved to take its channel
  through the step RegStep of module Epoll, and to leave what every other channel sees alone.
*/
module PollerObjects {
  import opened Options
  import opened Epoll

  class Channel {
    const fd: int
    var events: Mask
    var revents: Mask
    var index: Index

    constructor (fd: int)
      ensures this.fd == fd && events == NONE_EVENT && revents == NONE_EVENT && index == New
    {
      this.fd := fd;
      events, revents, index := NONE_EVENT, NONE_EVENT, New;
    }

    /** enableReading, disableReading, enableWriting, disableWriting, disableAll and remove. */
    method Apply(poller: EPollPoller, op: ChannelOp)
      requires poller.Valid() && this in poller.members && !poller.fatal
      modifies poller, this`events, this`index
      ensures poller.members == old(poller.members)
      ensures poller.See(this) == RegStep(poller.disabling, old(poller.See(this)), op)
      ensures forall d | d in poller.members && d != this ::
                d.events == old(d.events) && d.index == old(d.index)
                && (!poller.fatal ==> poller.See(d) == old(poller.See(d)))
      ensures !poller.fatal ==> poller.Valid()
    {
      if op == Remove {
        poller.RemoveChannel(this);
      } else {
        events := NextEvents(poller.disabling, events, op);
        poller.UpdateChannel(this);
      }
    }
  }

  datatype Registration = Registration(mask: Mask, channel: Channel)

  /** What epoll_wait returned. */
  datatype WaitResult = Ready(list: seq<Registration>) | TimedOut | WaitFailed(interrupted: bool)

  ghost function Reported(res: WaitResult): set<Channel> {
    if res.Ready? then set r | r in res.list :: r.channel else {}
  }

  class EPollPoller {
    const disabling: Disabling
    var channels: map<int, Channel>
    var kernel: map<int, Registration>
    var eventListSize: nat
    var fatal: bool
    ghost var members: set<Channel>

    /** What one channel sees of this poller. */
    ghost function See(c: Channel): Reg
      reads this, c
    {
      Reg(c.events, c.index, if c.fd in kernel then Some(kernel[c.fd].mask) else None, fatal)
    }

    /** The agreement of table, index and kernel set, but for the events of the channels in stale. */
    ghost predicate Agrees(stale: set<Channel>)
      reads this, members
    {
      && (forall c, d | c in members && d in members && c != d :: c.fd != d.fd)
      && (forall fd | fd in channels :: channels[fd] in members && channels[fd].fd == fd)
      && (forall c | c in members :: c.index != Deleted && (c.index == Added <==> c.fd in channels))
      && (forall fd | fd in kernel :: fd in channels && kernel[fd].channel == channels[fd])
      && (forall c | c in members && c.fd in kernel && c !in stale :: kernel[c.fd].mask == c.events)
    }

    ghost predicate Valid()
      reads this, members
    {
      Agrees({})
    }

    constructor (disabling: Disabling)
      ensures Valid() && members == {} && !fatal && this.disabling == disabling
      ensures channels == map[] && kernel == map[] && eventListSize == 16
    {
      this.disabling := disabling;
      channels, kernel, eventListSize, fatal, members := map[], map[], 16, false, {};
    }

    /** A channel is constructed on this poller's loop; live channels have distinct fds. */
    ghost method Adopt(c: Channel)
      requires Valid() && c.index == New && forall d | d in members :: d.fd != c.fd
      modifies this`members
      ensures Valid() && members == old(members) + {c} && c !in old(members) && See(c).kernel.None?
    {
      members := members + {c};
    }

    /** A channel is destructed, after it was removed. */
    ghost method Release(c: Channel)
      requires Valid() && c in members && c.index == New
      modifies this`members
      ensures Valid() && members == old(members) - {c}
    {
      members := members - {c};
    }

    /** A channel at kNew is in neither the table nor the kernel set. */
    lemma NewMeansAbsent(c: Channel)
      requires Valid() && c in members && c.index == New
      ensures c.fd !in channels && c.fd !in kernel
    {}

    lemma AddedMeansPresent(c: Channel)
      requires Valid() && c in members && c.index == Added
      ensures c.fd in channels && channels[c.fd] == c
    {}

    method HasChannel(c: Channel) returns (r: bool)
      requires Valid() && c in members
      ensures r <==> c.index == Added
    {
      r := c.fd in channels && channels[c.fd] == c;
    }

    method UpdateChannel(c: Channel)
      requires Agrees({c}) && c in members && !fatal
      modifies this, c`index
      ensures members == old(members)
      ensures See(c) == Update(old(See(c)))
      ensures forall d | d in members && d != c :: !fatal ==> See(d) == old(See(d))
      ensures !fatal ==> Valid()
    {
      if c.index == New || c.index == Deleted {
        if c.index == New {
          channels := channels[c.fd := c];
        }
        c.index := Added;
        fatal := c.fd in kernel;
        kernel := if fatal then kernel else kernel[c.fd := Registration(c.events, c)];
      } else if c.events == NONE_EVENT {
        kernel := kernel - {c.fd};
      } else if c.fd in kernel {
        kernel := kernel[c.fd := Registration(c.events, c)];
      } else {
        fatal := true;
      }
    }

    method RemoveChannel(c: Channel)
      requires Valid() && c in members && !fatal
      modifies this, c`index
      ensures members == old(members) && !fatal && Valid()
      ensures See(c) == Unregister(old(See(c)))
      ensures forall d | d in members && d != c :: See(d) == old(See(d))
    {
      if c.index == Added {
        kernel := kernel - {c.fd};
        channels := channels - {c.fd};
      }
      c.index := New;
    }

    /** epoll_wait(2): at most the list size, each fd once, and only registered channels. */
    ghost predicate LegalWait(res: WaitResult)
      reads this
    {
      res.Ready? ==>
        && 0 < |res.list| <= eventListSize
        && (forall i | 0 <= i < |res.list| ::
              res.list[i].channel.fd in kernel && kernel[res.list[i].channel.fd].channel == res.list[i].channel)
        && (forall i, j | 0 <= i < j < |res.list| :: res.list[i].channel != res.list[j].channel)
    }

    /** poll and fillActiveChannels: the active list is exactly what the kernel reported, in order. */
    method Poll(res: WaitResult) returns (active: seq<Channel>)
      requires Valid() && LegalWait(res)
      modifies this`fatal, this`eventListSize
      modifies Reported(res)`revents
      ensures res.Ready? ==> |active| == |res.list|
      ensures res.Ready? ==>
                forall i | 0 <= i < |active| ::
                  && active[i] == res.list[i].channel && active[i].revents == res.list[i].mask
                  && active[i] in members && active[i].index == Added
      ensures !res.Ready? ==> active == []
      ensures fatal == (old(fatal) || (res.WaitFailed? && !res.interrupted))
      ensures eventListSize == if res.Ready? && |res.list| == old(eventListSize)
                               then 2 * old(eventListSize) else old(eventListSize)
      ensures Valid()
    {
      active := [];
      match res
      case Ready(list) =>
        for i := 0 to |list|
          invariant |active| == i && fatal == old(fatal) && eventListSize == old(eventListSize)
          invariant forall j | 0 <= j < i :: active[j] == list[j].channel && active[j].revents == list[j].mask
        {
          list[i].channel.revents := list[i].mask;
          active := active + [list[i].channel];
        }
        if |list| == eventListSize {
          eventListSize := 2 * eventListSize;
        }
      case TimedOut =>
      case WaitFailed(interrupted) =>
        if !interrupted {
          fatal := true;
        }
    }
  }
}
