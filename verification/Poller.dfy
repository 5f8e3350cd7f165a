/** Channels and the epoll poller: which channels the kernel watches, and with which mask. */
module Pollers {

  type Mask = bv32

  const NONE_EVENT: Mask := 0
  const READ_EVENT: Mask := 3       // EPOLLIN | EPOLLPRI
  const WRITE_EVENT: Mask := 4      // EPOLLOUT

  /** A channel's index: what the poller last did with it. */
  datatype Index = New | Added | Deleted

  datatype Operation = Add | Mod | Del

  /** What the kernel makes of epoll_ctl: ADD of a watched descriptor and MOD or DEL of another one fail. */
  predicate Legal(kernel: map<nat, Mask>, op: Operation, fd: nat) {
    (fd in kernel) == (op != Add)
  }

  function AfterCtl(kernel: map<nat, Mask>, op: Operation, fd: nat, events: Mask): map<nat, Mask> {
    if !Legal(kernel, op, fd) then kernel
    else if op == Del then kernel - {fd}
    else kernel[fd := events]
  }

  /** The index after UpdateChannel: only a watched channel without interest is dropped. */
  function AfterUpdate(i: Index, events: Mask): Index {
    if i == Added && events == NONE_EVENT then Deleted else Added
  }

  ghost predicate KnownIn(world: set<Channel>, fd: nat) {
    exists c | c in world :: c.fd == fd
  }

  /** Different channels have different descriptors, and the two tables hold nothing but channels of this loop. */
  ghost predicate TidyTables(channels: map<nat, Channel>, kernel: map<nat, Mask>, world: set<Channel>) {
    && (forall c, d | c in world && d in world && c != d :: c.fd != d.fd)
    && (forall fd | fd in kernel || fd in channels :: KnownIn(world, fd))
  }

  ghost predicate ListedIn(channels: map<nat, Channel>, kernel: map<nat, Mask>, c: Channel, index: Index) {
    && (c.fd in kernel <==> index == Added)
    && (c.fd in channels <==> index != New)
    && (c.fd in channels ==> channels[c.fd] == c)
  }

  /** Tables that differ at one descriptor only. */
  ghost predicate SameBut(channels: map<nat, Channel>, kernel: map<nat, Mask>,
                          channels': map<nat, Channel>, kernel': map<nat, Mask>, fd: nat) {
    channels' - {fd} == channels - {fd} && kernel' - {fd} == kernel - {fd}
  }

  lemma AtOnly(channels: map<nat, Channel>, kernel: map<nat, Mask>, channels': map<nat, Channel>, kernel': map<nat, Mask>, c: Channel, m: Mask)
    requires channels' == channels || channels' == channels[c.fd := c]
    requires kernel' == kernel - {c.fd} || kernel' == kernel[c.fd := m]
    ensures SameBut(channels, kernel, channels', kernel', c.fd)
  {
  }

  lemma OthersSame(channels: map<nat, Channel>, kernel: map<nat, Mask>,
                   channels': map<nat, Channel>, kernel': map<nat, Mask>, fd: nat, other: nat)
    requires SameBut(channels, kernel, channels', kernel', fd) && other != fd
    ensures other in kernel' <==> other in kernel
    ensures other in kernel ==> kernel'[other] == kernel[other]
    ensures other in channels' <==> other in channels
    ensures other in channels ==> channels'[other] == channels[other]
  {
    assert other in kernel' <==> other in kernel' - {fd};
    assert other in kernel <==> other in kernel - {fd};
    assert other in channels' <==> other in channels' - {fd};
    assert other in channels <==> other in channels - {fd};
    if other in kernel { assert (kernel' - {fd})[other] == (kernel - {fd})[other]; }
    if other in channels { assert (channels' - {fd})[other] == (channels - {fd})[other]; }
  }

  lemma StaysTidy(channels: map<nat, Channel>, kernel: map<nat, Mask>,
                  channels': map<nat, Channel>, kernel': map<nat, Mask>, world: set<Channel>, c: Channel)
    requires TidyTables(channels, kernel, world) && c in world && SameBut(channels, kernel, channels', kernel', c.fd)
    ensures TidyTables(channels', kernel', world)
  {
    forall fd | fd in kernel' || fd in channels'
      ensures KnownIn(world, fd)
    {
      if fd != c.fd {
        OthersSame(channels, kernel, channels', kernel', c.fd, fd);
      }
    }
  }

  class Channel {
    const poller: EpollPoller
    const fd: nat
    var events: Mask
    var index: Index
    var tied: bool                         // whether callbacks wait for the owner's consent

    constructor (poller: EpollPoller, fd: nat)
      requires poller.Valid() && forall c | c in poller.world :: c.fd != fd
      modifies poller
      ensures this.poller == poller && this.fd == fd && events == NONE_EVENT && index == New && !tied
      ensures poller.Valid() && poller.world == old(poller.world) + {this}
      ensures poller.kernel == old(poller.kernel) && poller.Unharmed(old(poller.errors), old(poller.exited))
    {
      this.poller, this.fd := poller, fd;
      events, index, tied := NONE_EVENT, New, false;
      new;
      poller.Join(this);
    }

    predicate IsNoneEvent()
      reads this
    {
      events == NONE_EVENT
    }

    /** True only when writing is all the channel is interested in. */
    predicate IsWriteEvent()
      reads this
    {
      events == WRITE_EVENT
    }

    method Tie()
      requires poller.Valid() && this in poller.world
      modifies this`tied
      ensures poller.Valid() && tied
    {
      tied := true;
    }

    method EnableReading()
      requires poller.Valid() && this in poller.world
      modifies this`events, this`index, poller
      ensures poller.Valid() && poller.world == old(poller.world) && poller.Unharmed(old(poller.errors), old(poller.exited))
      ensures events == old(events) | READ_EVENT && index == Added
      ensures poller.kernel == old(poller.kernel)[fd := events]
    {
      events := events | READ_EVENT;
      assert events != NONE_EVENT;
      poller.UpdateChannel(this);
    }

    method EnableWriting()
      requires poller.Valid() && this in poller.world
      modifies this`events, this`index, poller
      ensures poller.Valid() && poller.world == old(poller.world) && poller.Unharmed(old(poller.errors), old(poller.exited))
      ensures events == old(events) | WRITE_EVENT && index == Added
      ensures poller.kernel == old(poller.kernel)[fd := events]
    {
      events := events | WRITE_EVENT;
      assert events != NONE_EVENT;
      poller.UpdateChannel(this);
    }

    method DisableReading()
      requires poller.Valid() && this in poller.world
      modifies this`events, this`index, poller
      ensures poller.Valid() && poller.world == old(poller.world) && poller.Unharmed(old(poller.errors), old(poller.exited))
      ensures events == old(events) & !READ_EVENT && index == AfterUpdate(old(index), events)
      ensures index != New && (index == Deleted <==> old(index) == Added && events == NONE_EVENT)
      ensures poller.kernel == if index == Added then old(poller.kernel)[fd := events] else old(poller.kernel) - {fd}
    {
      events := events & !READ_EVENT;
      poller.UpdateChannel(this);
    }

    method DisableWriting()
      requires poller.Valid() && this in poller.world
      modifies this`events, this`index, poller
      ensures poller.Valid() && poller.world == old(poller.world) && poller.Unharmed(old(poller.errors), old(poller.exited))
      ensures events == old(events) & !WRITE_EVENT && index == AfterUpdate(old(index), events)
      ensures index != New && (index == Deleted <==> old(index) == Added && events == NONE_EVENT)
      ensures poller.kernel == if index == Added then old(poller.kernel)[fd := events] else old(poller.kernel) - {fd}
    {
      events := events & !WRITE_EVENT;
      poller.UpdateChannel(this);
    }

    /** Stops watching a watched channel; one that is not watched is put into the kernel instead, with an empty mask. */
    method DisableAll()
      requires poller.Valid() && this in poller.world
      modifies this`events, this`index, poller
      ensures poller.Valid() && poller.world == old(poller.world) && poller.Unharmed(old(poller.errors), old(poller.exited))
      ensures events == NONE_EVENT && index == AfterUpdate(old(index), NONE_EVENT)
      ensures poller.kernel == if fd in old(poller.kernel) then old(poller.kernel) - {fd} else old(poller.kernel)[fd := NONE_EVENT]
    {
      assert poller.Agrees(this);
      events := NONE_EVENT;
      poller.UpdateChannel(this);
    }

    method Remove()
      requires poller.Valid() && this in poller.world
      modifies this`index, poller
      ensures poller.Valid() && poller.world == old(poller.world) && poller.Unharmed(old(poller.errors), old(poller.exited))
      ensures index == New && poller.kernel == old(poller.kernel) - {fd}
      ensures fd !in poller.channels
    {
      poller.RemoveChannel(this);
    }
  }

  class EpollPoller {
    var channels: map<nat, Channel>
    var kernel: map<nat, Mask>             // the table inside the epoll instance
    var errors: nat                        // failed calls of epoll_ctl to remove a descriptor
    var exited: bool                       // a failed call to add or change one has ended the process
    ghost var world: set<Channel>          // every channel of this loop

    ghost predicate Tidy()
      reads this
    {
      TidyTables(channels, kernel, world) && forall c | c in world :: c.poller == this
    }

    /** Tables and index agree on one channel, its mask apart. */
    ghost predicate Listed(c: Channel)
      reads this, c`index
    {
      ListedIn(channels, kernel, c, c.index)
    }

    ghost predicate Agrees(c: Channel)
      reads this, c
    {
      Listed(c) && (c.fd in kernel ==> kernel[c.fd] == c.events)
    }

    /** The kernel watches exactly the channels with index kAdded, each with its own mask, and `channels` holds exactly
        those that were added and not removed. */
    ghost predicate Valid()
      reads this, world
    {
      Tidy() && forall c | c in world :: Agrees(c)
    }

    constructor ()
      ensures Valid() && world == {} && kernel == map[] && errors == 0 && !exited
    {
      channels, kernel, errors, exited, world := map[], map[], 0, false, {};
    }

    ghost method Join(c: Channel)
      requires Valid() && c.poller == this && c.index == New && forall d | d in world :: c.fd != d.fd
      modifies this`world
      ensures Valid() && world == old(world) + {c}
    {
      assert !KnownIn(world, c.fd);
      forall fd | fd in kernel || fd in channels
        ensures KnownIn(world + {c}, fd)
      {
        var d :| d in world && d.fd == fd;
        assert d in world + {c};
      }
      world := world + {c};
    }

    /** Every channel but `c` agrees as before, as only the entries of `c` changed. */
    twostate lemma OthersAgree(c: Channel)
      requires old(Tidy()) && c in world && world == old(world)
      requires forall d | d in world && d != c :: old(Agrees(d)) && d.index == old(d.index) && d.events == old(d.events)
      requires SameBut(old(channels), old(kernel), channels, kernel, c.fd)
      ensures Tidy() && forall d | d in world && d != c :: Agrees(d)
    {
      StaysTidy(old(channels), old(kernel), channels, kernel, world, c);
      forall d | d in world && d != c
        ensures Agrees(d)
      {
        OthersSame(old(channels), old(kernel), channels, kernel, c.fd, d.fd);
      }
    }

    /** No call of epoll_ctl has failed since. */
    predicate Unharmed(errorsThen: nat, exitedThen: bool)
      reads this
    {
      errors == errorsThen && exited == exitedThen
    }

    /** epoll_ctl for a channel.  A failed removal is logged; any other failure is fatal and ends the process. */
    method Update(op: Operation, c: Channel)
      modifies this`kernel, this`errors, this`exited
      ensures kernel == AfterCtl(old(kernel), op, c.fd, c.events)
      ensures errors == old(errors) + if op == Del && c.fd !in old(kernel) then 1 else 0
      ensures exited == (old(exited) || (op == Add && c.fd in old(kernel)) || (op == Mod && c.fd !in old(kernel)))
    {
      if !Legal(kernel, op, c.fd) {
        if op == Del {
          errors := errors + 1;
        } else {
          exited := true;
        }
      }
      kernel := AfterCtl(kernel, op, c.fd, c.events);
    }

    /** Brings the kernel up to date with a channel whose mask may have changed; no call of epoll_ctl fails. */
    method UpdateChannel(c: Channel)
      requires Tidy() && c in world && Listed(c) && forall d | d in world && d != c :: Agrees(d)
      modifies this`channels, this`kernel, this`errors, this`exited, c`index
      ensures Valid() && Unharmed(old(errors), old(exited))
      ensures c.index == AfterUpdate(old(c.index), c.events)
      ensures c.index != New && (c.index == Deleted <==> old(c.index) == Added && c.events == NONE_EVENT)
      ensures channels == if old(c.index) == New then old(channels)[c.fd := c] else old(channels)
      ensures kernel == if c.index == Added then old(kernel)[c.fd := c.events] else old(kernel) - {c.fd}
    {
      if c.index == New || c.index == Deleted {
        if c.index == New {
          channels := channels[c.fd := c];
        }
        c.index := Added;
        Update(Add, c);
      } else {
        if c.IsNoneEvent() {
          Update(Del, c);
          c.index := Deleted;
        } else {
          Update(Mod, c);
        }
      }
      AtOnly(old(channels), old(kernel), channels, kernel, c, c.events);
      hide TidyTables, SameBut;
      OthersAgree(c);
    }

    /** Forgets a channel. */
    method RemoveChannel(c: Channel)
      requires Valid() && c in world
      modifies this`channels, this`kernel, this`errors, this`exited, c`index
      ensures Valid() && Unharmed(old(errors), old(exited))
      ensures c.index == New && kernel == old(kernel) - {c.fd} && channels == old(channels) - {c.fd}
    {
      assert Agrees(c);
      channels := channels - {c.fd};
      if c.index == Added {
        Update(Del, c);
      }
      c.index := New;
      assert SameBut(old(channels), old(kernel), channels, kernel, c.fd);
      assert Agrees(c);
      hide TidyTables, SameBut;
      OthersAgree(c);
    }
  }

  /** What agreement means for the whole of the two tables. */
  lemma KernelIsExactly(p: EpollPoller, fd: nat)
    requires p.Valid()
    ensures fd in p.kernel <==> exists c | c in p.world :: c.fd == fd && c.index == Added
    ensures fd in p.channels <==> exists c | c in p.world :: c.fd == fd && c.index != New
    ensures forall c | c in p.world && c.index == Added :: p.kernel[c.fd] == c.events
  {
    assert forall c | c in p.world :: p.Agrees(c);
    if fd in p.kernel || fd in p.channels {
      assert KnownIn(p.world, fd);
    }
  }

  /** A channel that was never enabled gets registered by being disabled, and only a second time takes it out again. */
  method DisabledTwice(fd: nat) returns (once: bool, twice: bool)
    ensures once && !twice
  {
    var p := new EpollPoller();
    var c := new Channel(p, fd);
    c.DisableAll();
    once := fd in p.kernel;
    c.DisableAll();
    twice := fd in p.kernel;
  }
}
