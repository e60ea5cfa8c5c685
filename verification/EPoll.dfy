/**
 The poller's bookkeeping as a value: channels by file descriptor (distinct for distinct channels), the
 descriptors in its own table, and the interest set the kernel holds.
 */
module EPollMirror {

  type Mask = bv32
  const NONE_EVENT: Mask := 0
  /** EPOLLIN | EPOLLPRI */
  const READ_EVENT: Mask := 3
  /** EPOLLOUT */
  const WRITE_EVENT: Mask := 4

  datatype Index = New | Added | Deleted
  datatype Chan = Chan(events: Mask, index: Index)
  datatype CtlOp = CtlAdd | CtlMod | CtlDel

  /** errors counts the epoll_ctl calls the kernel refused. */
  datatype Poller = Poller(chans: map<int, Chan>, registered: set<int>, kernel: map<int, Mask>, errors: nat)

  datatype Op =
    | Open(fd: int)
    | EnableRead(fd: int) | DisableRead(fd: int)
    | EnableWrite(fd: int) | DisableWrite(fd: int)
    | DisableAll(fd: int)
    | Remove(fd: int)

  /** The kernel takes an ADD only of an absent descriptor, and MOD or DEL only of a present one. */
  predicate Legal(kernel: map<int, Mask>, op: CtlOp, fd: int) {
    op == CtlAdd <==> fd !in kernel
  }

  function Ctl(p: Poller, op: CtlOp, fd: int): Poller
    requires fd in p.chans
  {
    if !Legal(p.kernel, op, fd) then p.(errors := p.errors + 1)
    else if op == CtlDel then p.(kernel := p.kernel - {fd})
    else p.(kernel := p.kernel[fd := p.chans[fd].events])
  }

  function SetIndex(p: Poller, fd: int, index: Index): Poller
    requires fd in p.chans
  {
    p.(chans := p.chans[fd := p.chans[fd].(index := index)])
  }

  function UpdateChannel(p: Poller, fd: int): Poller
    requires fd in p.chans
  {
    if p.chans[fd].index != Added then
      var q := if p.chans[fd].index == New then p.(registered := p.registered + {fd}) else p;
      Ctl(SetIndex(q, fd, Added), CtlAdd, fd)
    else if p.chans[fd].events == NONE_EVENT then SetIndex(Ctl(p, CtlDel, fd), fd, Deleted)
    else Ctl(p, CtlMod, fd)
  }

  function RemoveChannel(p: Poller, fd: int): Poller
    requires fd in p.chans
  {
    var q := p.(registered := p.registered - {fd});
    SetIndex(if q.chans[fd].index == Added then Ctl(q, CtlDel, fd) else q, fd, New)
  }

  /** The new mask of a channel after an enable or disable call. */
  function MaskAfter(op: Op, events: Mask): Mask {
    match op
    case EnableRead(_) => events | READ_EVENT
    case DisableRead(_) => events & !READ_EVENT
    case EnableWrite(_) => events | WRITE_EVENT
    case DisableWrite(_) => events & !WRITE_EVENT
    case DisableAll(_) => NONE_EVENT
    case _ => events
  }

  /** The channel takes a new mask and then always updates the poller. */
  function SetMask(p: Poller, fd: int, events: Mask): Poller
    requires fd in p.chans
  {
    UpdateChannel(p.(chans := p.chans[fd := p.chans[fd].(events := events)]), fd)
  }

  predicate Enabled(p: Poller, op: Op) {
    op.Open? <==> op.fd !in p.chans
  }

  function Next(p: Poller, op: Op): Poller
    requires Enabled(p, op)
  {
    match op
    case Open(fd) => p.(chans := p.chans[fd := Chan(NONE_EVENT, New)])
    case Remove(fd) => RemoveChannel(p, fd)
    case _ => SetMask(p, op.fd, MaskAfter(op, p.chans[op.fd].events))
  }

  /** The kernel holds a descriptor exactly when its channel is Added, and then with the channel's mask. */
  predicate InKernel(p: Poller, fd: int)
    requires fd in p.chans
  {
    && (fd in p.kernel <==> p.chans[fd].index == Added)
    && (fd in p.kernel ==> p.kernel[fd] == p.chans[fd].events)
  }

  ghost predicate Mirrors(p: Poller) {
    && (forall fd <- p.chans :: InKernel(p, fd) && (fd in p.registered <==> p.chans[fd].index != New))
    && p.kernel.Keys <= p.chans.Keys && p.registered <= p.chans.Keys
    && p.errors == 0
  }

  const EMPTY: Poller := Poller(map[], {}, map[], 0)

  lemma UpdateKeepsMirror(p: Poller, fd: int)
    requires fd in p.chans && p.errors == 0
    requires p.kernel.Keys <= p.chans.Keys && p.registered <= p.chans.Keys
    requires forall g <- p.chans :: (g != fd ==> InKernel(p, g)) && (g in p.registered <==> p.chans[g].index != New)
    requires fd in p.kernel <==> p.chans[fd].index == Added
    ensures Mirrors(UpdateChannel(p, fd))
  {
    var q := UpdateChannel(p, fd);
    forall g <- q.chans ensures InKernel(q, g) && (g in q.registered <==> q.chans[g].index != New) {
      assert g != fd ==> InKernel(p, g);
    }
  }

  lemma RemoveKeepsMirror(p: Poller, fd: int)
    requires Mirrors(p) && fd in p.chans
    ensures Mirrors(RemoveChannel(p, fd))
  {
    var q := RemoveChannel(p, fd);
    assert InKernel(p, fd);
    forall g <- q.chans ensures InKernel(q, g) && (g in q.registered <==> q.chans[g].index != New) {
      assert g != fd ==> InKernel(p, g);
    }
  }

  lemma SetMaskKeepsMirror(p: Poller, fd: int, events: Mask)
    requires Mirrors(p) && fd in p.chans
    ensures Mirrors(SetMask(p, fd, events))
  {
    hide UpdateChannel;
    var q := p.(chans := p.chans[fd := p.chans[fd].(events := events)]);
    assert InKernel(p, fd);
    forall g <- q.chans ensures (g != fd ==> InKernel(q, g)) && (g in q.registered <==> q.chans[g].index != New) {
      assert InKernel(p, g);
    }
    UpdateKeepsMirror(q, fd);
  }

  lemma StepKeepsMirror(p: Poller, op: Op)
    requires Mirrors(p) && Enabled(p, op)
    ensures Mirrors(Next(p, op))
  {
    hide SetMask, RemoveChannel, MaskAfter;
    match op
    case Open(fd) =>
      var q := Next(p, op);
      forall g <- q.chans ensures InKernel(q, g) && (g in q.registered <==> q.chans[g].index != New) {
        assert g != fd ==> InKernel(p, g);
      }
    case Remove(fd) => RemoveKeepsMirror(p, fd);
    case _ => SetMaskKeepsMirror(p, op.fd, MaskAfter(op, p.chans[op.fd].events));
  }

  ghost predicate IsRun(ps: seq<Poller>, ops: seq<Op>) {
    && |ps| == |ops| + 1 && ps[0] == EMPTY
    && forall i :: 0 <= i < |ops| ==> Enabled(ps[i], ops[i]) && ps[i + 1] == Next(ps[i], ops[i])
  }

  /** Over any sequence of calls the kernel mirrors the channels, and no epoll_ctl call is ever refused. */
  lemma {:induction false} RunMirrors(ps: seq<Poller>, ops: seq<Op>, k: nat)
    requires IsRun(ps, ops) && k < |ps|
    ensures Mirrors(ps[k])
  {
    if k > 0 {
      RunMirrors(ps, ops, k - 1);
      StepKeepsMirror(ps[k - 1], ops[k - 1]);
    }
  }

  /** A channel the kernel holds with an empty mask is one that was updated without any interest when not Added. */
  lemma EmptyMaskIsRare(p: Poller, op: Op, fd: int)
    requires Mirrors(p) && Enabled(p, op) && fd in Next(p, op).kernel && Next(p, op).kernel[fd] == NONE_EVENT
    ensures (fd in p.kernel && p.kernel[fd] == NONE_EVENT && fd != op.fd) ||
            (fd == op.fd && fd in p.chans && p.chans[fd].index != Added &&
              MaskAfter(op, p.chans[fd].events) == NONE_EVENT)
  {
    assert op.fd in p.chans ==> InKernel(p, op.fd);
  }

  // ---------- what the calls alone say ----------

  /** Of the calls about reading, the last was to enable it. */
  ghost predicate WantsRead(ops: seq<Op>, fd: int) {
    exists i :: 0 <= i < |ops| && ops[i] == EnableRead(fd) &&
      forall j :: i < j < |ops| ==> ops[j] != DisableRead(fd) && ops[j] != DisableAll(fd)
  }

  ghost predicate WantsWrite(ops: seq<Op>, fd: int) {
    exists i :: 0 <= i < |ops| && ops[i] == EnableWrite(fd) &&
      forall j :: i < j < |ops| ==> ops[j] != DisableWrite(fd) && ops[j] != DisableAll(fd)
  }

  /** EPOLLIN | EPOLLPRI for reading, EPOLLOUT for writing, and no other bit. */
  function MaskFor(read: bool, write: bool): Mask {
    if read && write then 7 else if read then 3 else if write then 4 else 0
  }

  predicate ChangesMask(op: Op) {
    !op.Open? && !op.Remove?
  }

  lemma WantsReadAfter(ops: seq<Op>, op: Op, fd: int)
    ensures WantsRead(ops + [op], fd) <==>
            op == EnableRead(fd) || (WantsRead(ops, fd) && op != DisableRead(fd) && op != DisableAll(fd))
  {
    var longer := ops + [op];
    assert longer[|ops|] == op;
    if WantsRead(ops, fd) && op != DisableRead(fd) && op != DisableAll(fd) {
      var i :| 0 <= i < |ops| && ops[i] == EnableRead(fd) &&
        forall j :: i < j < |ops| ==> ops[j] != DisableRead(fd) && ops[j] != DisableAll(fd);
      assert longer[i] == EnableRead(fd);
    }
    if WantsRead(longer, fd) && op != EnableRead(fd) {
      var i :| 0 <= i < |longer| && longer[i] == EnableRead(fd) &&
        forall j :: i < j < |longer| ==> longer[j] != DisableRead(fd) && longer[j] != DisableAll(fd);
      assert ops[i] == EnableRead(fd) && forall j :: i < j < |ops| ==> ops[j] == longer[j];
    }
  }

  lemma WantsWriteAfter(ops: seq<Op>, op: Op, fd: int)
    ensures WantsWrite(ops + [op], fd) <==>
            op == EnableWrite(fd) || (WantsWrite(ops, fd) && op != DisableWrite(fd) && op != DisableAll(fd))
  {
    var longer := ops + [op];
    assert longer[|ops|] == op;
    if WantsWrite(ops, fd) && op != DisableWrite(fd) && op != DisableAll(fd) {
      var i :| 0 <= i < |ops| && ops[i] == EnableWrite(fd) &&
        forall j :: i < j < |ops| ==> ops[j] != DisableWrite(fd) && ops[j] != DisableAll(fd);
      assert longer[i] == EnableWrite(fd);
    }
    if WantsWrite(longer, fd) && op != EnableWrite(fd) {
      var i :| 0 <= i < |longer| && longer[i] == EnableWrite(fd) &&
        forall j :: i < j < |longer| ==> longer[j] != DisableWrite(fd) && longer[j] != DisableAll(fd);
      assert ops[i] == EnableWrite(fd) && forall j :: i < j < |ops| ==> ops[j] == longer[j];
    }
  }

  lemma MaskStep(op: Op, read: bool, write: bool)
    requires ChangesMask(op)
    ensures MaskAfter(op, MaskFor(read, write)) ==
            MaskFor(op.EnableRead? || (read && !op.DisableRead? && !op.DisableAll?),
                    op.EnableWrite? || (write && !op.DisableWrite? && !op.DisableAll?))
  {
  }

  /** How a call changes the channels: only the mask of its own, by the mask calls alone. */
  lemma ChannelStep(p: Poller, op: Op, fd: int)
    requires Enabled(p, op)
    ensures fd in Next(p, op).chans <==> fd in p.chans || op == Open(fd)
    ensures fd in Next(p, op).chans ==>
              Next(p, op).chans[fd].events ==
              if op == Open(fd) then 0
              else if op.fd == fd && ChangesMask(op) then MaskAfter(op, p.chans[fd].events)
              else p.chans[fd].events
  {
    hide MaskAfter;
  }

  /** No call about a descriptor comes before it is opened. */
  lemma {:induction false} NothingBeforeOpen(ps: seq<Poller>, ops: seq<Op>, k: nat, fd: int)
    requires IsRun(ps, ops) && k < |ps| && fd !in ps[k].chans
    ensures !WantsRead(ops[..k], fd) && !WantsWrite(ops[..k], fd)
  {
    hide Next;
    if k > 0 {
      ChannelStep(ps[k - 1], ops[k - 1], fd);
      NothingBeforeOpen(ps, ops, k - 1, fd);
      assert ops[..k] == ops[..k - 1] + [ops[k - 1]];
      WantsReadAfter(ops[..k - 1], ops[k - 1], fd);
      WantsWriteAfter(ops[..k - 1], ops[k - 1], fd);
    }
  }

  /** A channel's mask is exactly the interest its calls asked for. */
  lemma {:induction false} MaskIsWhatWasAsked(ps: seq<Poller>, ops: seq<Op>, k: nat, fd: int)
    requires IsRun(ps, ops) && k < |ps| && fd in ps[k].chans
    ensures ps[k].chans[fd].events == MaskFor(WantsRead(ops[..k], fd), WantsWrite(ops[..k], fd))
  {
    hide Next, WantsRead, WantsWrite, MaskFor, MaskAfter;
    if k > 0 {
      var before, op := ops[..k - 1], ops[k - 1];
      ChannelStep(ps[k - 1], op, fd);
      assert ops[..k] == before + [op];
      WantsReadAfter(before, op, fd);
      WantsWriteAfter(before, op, fd);
      if fd in ps[k - 1].chans {
        MaskIsWhatWasAsked(ps, ops, k - 1, fd);
        if op.fd == fd && ChangesMask(op) {
          MaskStep(op, WantsRead(before, fd), WantsWrite(before, fd));
        }
      } else {
        NothingBeforeOpen(ps, ops, k - 1, fd);
        assert MaskFor(false, false) == 0 by { NoInterest(); }
      }
    }
  }

  lemma NoInterest()
    ensures MaskFor(false, false) == 0
  {
  }

  /** The reference for the kernel set: a mask call holds the descriptor, unless it empties the mask of a held one. */
  ghost predicate Held(ops: seq<Op>, fd: int) {
    ops != [] &&
    var init, op := ops[..|ops| - 1], ops[|ops| - 1];
    if op.fd != fd then Held(init, fd)
    else ChangesMask(op) && (WantsRead(ops, fd) || WantsWrite(ops, fd) || !Held(init, fd))
  }

  /** In the poller's table from the first mask call on, until removed. */
  ghost predicate Listed(ops: seq<Op>, fd: int) {
    ops != [] &&
    var init, op := ops[..|ops| - 1], ops[|ops| - 1];
    if op.fd != fd then Listed(init, fd) else ChangesMask(op)
  }

  lemma HoldStep(p: Poller, op: Op, fd: int)
    requires Mirrors(p) && Enabled(p, op)
    ensures fd in Next(p, op).kernel <==>
            if op.fd != fd then fd in p.kernel
            else ChangesMask(op) && (Next(p, op).chans[fd].events != 0 || fd !in p.kernel)
    ensures fd in Next(p, op).registered <==> if op.fd != fd then fd in p.registered else ChangesMask(op)
  {
    hide MaskAfter;
    assert op.fd in p.chans ==> InKernel(p, op.fd);
  }

  /**
   What the kernel holds, and with which mask, and what the table lists follow from the calls alone: read
   bits exactly while reading is wanted, write bits likewise, and no others.
   */
  lemma {:induction false} KernelHoldsWhatWasAsked(ps: seq<Poller>, ops: seq<Op>, k: nat, fd: int)
    requires IsRun(ps, ops) && k < |ps|
    ensures fd in ps[k].kernel <==> Held(ops[..k], fd)
    ensures fd in ps[k].registered <==> Listed(ops[..k], fd)
    ensures fd in ps[k].kernel ==> ps[k].kernel[fd] == MaskFor(WantsRead(ops[..k], fd), WantsWrite(ops[..k], fd))
  {
    hide Next, WantsRead, WantsWrite, MaskFor;
    RunMirrors(ps, ops, k);
    if fd in ps[k].chans {
      assert InKernel(ps[k], fd);
      MaskIsWhatWasAsked(ps, ops, k, fd);
    }
    if k > 0 {
      KernelHoldsWhatWasAsked(ps, ops, k - 1, fd);
      RunMirrors(ps, ops, k - 1);
      HoldStep(ps[k - 1], ops[k - 1], fd);
      assert ops[..k][..k - 1] == ops[..k - 1];
      assert MaskFor(WantsRead(ops[..k], fd), WantsWrite(ops[..k], fd)) == 0 <==>
             !WantsRead(ops[..k], fd) && !WantsWrite(ops[..k], fd) by {
        EmptyMask(WantsRead(ops[..k], fd), WantsWrite(ops[..k], fd));
      }
    }
  }

  lemma EmptyMask(read: bool, write: bool)
    ensures MaskFor(read, write) == 0 <==> !read && !write
  {
  }
}
