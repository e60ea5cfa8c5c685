/** The poller object and its channels, updated in place; each call computes a step of EPollMirror. */
module EPollPollers {
  import Spec = EPollMirror

  class Channel {
    const fd: int
    var events: Spec.Mask
    var index: Spec.Index

    constructor (fd: int)
      ensures this.fd == fd && events == Spec.NONE_EVENT && index == Spec.New
    {
      this.fd := fd;
      events, index := Spec.NONE_EVENT, Spec.New;
    }
  }

  class EPollPoller {
    var channels: map<int, Channel>
    var kernel: map<int, Spec.Mask>
    var errors: nat
    /** The channels of this poller's loop. */
    ghost var known: set<Channel>

    /** Distinct channels have distinct descriptors. */
    ghost predicate Distinct()
      reads this`known
    {
      forall c <- known, d <- known :: c.fd == d.fd ==> c == d
    }

    /** And the table names the channels of this loop. */
    ghost predicate Valid()
      reads this`known, this`channels
    {
      Distinct() && forall fd <- channels :: channels[fd] in known && channels[fd].fd == fd
    }

    ghost function Chans(): (m: map<int, Spec.Chan>)
      requires Distinct()
      reads this`known, known
      ensures forall c <- known :: c.fd in m && m[c.fd] == Spec.Chan(c.events, c.index)
      ensures forall fd <- m :: exists c <- known :: c.fd == fd
    {
      map c | c in known :: c.fd := Spec.Chan(c.events, c.index)
    }

    ghost function View(): Spec.Poller
      requires Valid()
      reads this, known
    {
      Spec.Poller(Chans(), channels.Keys, kernel, errors)
    }

    constructor ()
      ensures Valid() && View() == Spec.EMPTY
    {
      channels, kernel, errors, known := map[], map[], 0, {};
    }

    /** How a new channel shows in the view. */
    twostate lemma OneAdded(new c: Channel)
      requires old(Distinct()) && Distinct() && known == old(known) + {c} && c !in old(known)
      requires forall d <- old(known) :: d.events == old(d.events) && d.index == old(d.index)
      ensures Chans() == old(Chans())[c.fd := Spec.Chan(c.events, c.index)]
    {
    }

    /** A channel is created for a descriptor no other channel of the loop has. */
    method Open(fd: int) returns (c: Channel)
      requires Valid() && Spec.Enabled(View(), Spec.Open(fd))
      modifies this`known
      ensures Valid() && fresh(c) && c.fd == fd && known == old(known) + {c}
      ensures View() == Spec.Next(old(View()), Spec.Open(fd))
    {
      c := new Channel(fd);
      assert forall d <- known :: d != c && d.fd != fd;
      known := known + {c};
      OneAdded(c);
    }

    /** How a change of one channel shows in the view. */
    twostate lemma OneChanged(c: Channel)
      requires old(Valid()) && Valid() && known == old(known) && c in known
      requires forall d <- known :: d != c ==> d.events == old(d.events) && d.index == old(d.index)
      ensures Chans() == old(Chans())[c.fd := Spec.Chan(c.events, c.index)]
    {
    }

    method Update(op: Spec.CtlOp, c: Channel)
      requires Valid() && c in known
      modifies this`kernel, this`errors
      ensures Valid() && View() == Spec.Ctl(old(View()), op, c.fd)
    {
      if (op == Spec.CtlAdd) != (c.fd !in kernel) {
        errors := errors + 1;
      } else if op == Spec.CtlDel {
        kernel := kernel - {c.fd};
      } else {
        kernel := kernel[c.fd := c.events];
      }
    }

    method SetIndex(c: Channel, index: Spec.Index)
      requires Valid() && c in known
      modifies c`index
      ensures Valid() && View() == Spec.SetIndex(old(View()), c.fd, index)
    {
      c.index := index;
      OneChanged(c);
    }

    method Register(c: Channel)
      requires Valid() && c in known
      modifies this`channels
      ensures Valid() && View() == old(View()).(registered := old(View()).registered + {c.fd})
    {
      channels := channels[c.fd := c];
      assert Chans() == old(Chans());
    }

    method Unregister(c: Channel)
      requires Valid() && c in known
      modifies this`channels
      ensures Valid() && View() == old(View()).(registered := old(View()).registered - {c.fd})
    {
      channels := channels - {c.fd};
      assert Chans() == old(Chans());
    }

    method UpdateChannel(c: Channel)
      requires Valid() && c in known
      modifies this`channels, this`kernel, this`errors, c`index
      ensures Valid() && View() == Spec.UpdateChannel(old(View()), c.fd)
    {
      var index := c.index;
      if index == Spec.New || index == Spec.Deleted {
        if index == Spec.New {
          Register(c);
        }
        SetIndex(c, Spec.Added);
        Update(Spec.CtlAdd, c);
      } else {
        if c.events == Spec.NONE_EVENT {
          Update(Spec.CtlDel, c);
          SetIndex(c, Spec.Deleted);
        } else {
          Update(Spec.CtlMod, c);
        }
      }
    }

    method RemoveChannel(c: Channel)
      requires Valid() && c in known
      modifies this`channels, this`kernel, this`errors, c`index
      ensures Valid() && View() == Spec.RemoveChannel(old(View()), c.fd)
    {
      Unregister(c);
      var index := c.index;
      if index == Spec.Added {
        Update(Spec.CtlDel, c);
      }
      SetIndex(c, Spec.New);
    }

    /** Every enable or disable call sets the mask and then always updates the poller. */
    method SetEvents(c: Channel, events: Spec.Mask)
      requires Valid() && c in known
      modifies this`channels, this`kernel, this`errors, c
      ensures Valid()
      ensures View() == Spec.SetMask(old(View()), c.fd, events)
    {
      c.events := events;
      OneChanged(c);
      UpdateChannel(c);
    }

    method EnableRead(c: Channel)
      requires Valid() && c in known
      modifies this`channels, this`kernel, this`errors, c
      ensures Valid() && View() == Spec.Next(old(View()), Spec.EnableRead(c.fd))
    {
      var mask := c.events | Spec.READ_EVENT;
      assert mask == Spec.MaskAfter(Spec.EnableRead(c.fd), c.events);
      hide Spec.MaskAfter, Spec.SetMask;
      SetEvents(c, mask);
    }

    method DisableRead(c: Channel)
      requires Valid() && c in known
      modifies this`channels, this`kernel, this`errors, c
      ensures Valid() && View() == Spec.Next(old(View()), Spec.DisableRead(c.fd))
    {
      var mask := c.events & !Spec.READ_EVENT;
      assert mask == Spec.MaskAfter(Spec.DisableRead(c.fd), c.events);
      hide Spec.MaskAfter, Spec.SetMask;
      SetEvents(c, mask);
    }

    method EnableWrite(c: Channel)
      requires Valid() && c in known
      modifies this`channels, this`kernel, this`errors, c
      ensures Valid() && View() == Spec.Next(old(View()), Spec.EnableWrite(c.fd))
    {
      var mask := c.events | Spec.WRITE_EVENT;
      assert mask == Spec.MaskAfter(Spec.EnableWrite(c.fd), c.events);
      hide Spec.MaskAfter, Spec.SetMask;
      SetEvents(c, mask);
    }

    method DisableWrite(c: Channel)
      requires Valid() && c in known
      modifies this`channels, this`kernel, this`errors, c
      ensures Valid() && View() == Spec.Next(old(View()), Spec.DisableWrite(c.fd))
    {
      var mask := c.events & !Spec.WRITE_EVENT;
      assert mask == Spec.MaskAfter(Spec.DisableWrite(c.fd), c.events);
      hide Spec.MaskAfter, Spec.SetMask;
      SetEvents(c, mask);
    }

    method DisableAll(c: Channel)
      requires Valid() && c in known
      modifies this`channels, this`kernel, this`errors, c
      ensures Valid() && View() == Spec.Next(old(View()), Spec.DisableAll(c.fd))
    {
      var mask := Spec.NONE_EVENT;
      assert mask == Spec.MaskAfter(Spec.DisableAll(c.fd), c.events);
      hide Spec.MaskAfter, Spec.SetMask;
      SetEvents(c, mask);
    }
  }
}
