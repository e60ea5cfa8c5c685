/**
 The output side of a connection whose calls all happen on its loop thread, as a state machine over
 whatever the kernel answers to each write.
 */
module Connection {
  import opened ByteQueue

  datatype State = Disconnected | Connecting | Connected | Disconnecting

  /** The outcome of one write: a count no larger than what was offered, or an errno. */
  datatype WriteResult = Wrote(n: nat) | WouldBlock | PeerGone | OtherError

  /** What is queued into the loop for the user. */
  datatype Callback = WriteComplete | HighWaterMark(size: nat)

  /** Which callbacks are set, and the mark. */
  datatype Config = Config(hasWriteComplete: bool, hasHighWaterMark: bool, highWaterMark: nat)

  /**
   writing: write interest in the poller. output: the output buffer. sent: bytes the kernel took.
   shutdowns: how often the write half was shut down. accepted: history, every byte send took on.
   */
  datatype Conn = Conn(
    state: State, writing: bool, output: Bytes, sent: Bytes, shutdowns: nat, callbacks: seq<Callback>, accepted: Bytes)

  datatype Op =
    | Establish
    | Send(data: Bytes, w: WriteResult)
    | HandleWrite(w: WriteResult)
    | Shutdown
    | HandleClose

  const FRESH: Conn := Conn(Connecting, false, [], [], 0, [], [])

  /** A write happens straight from send only while nothing waits before it. */
  predicate Direct(c: Conn) {
    !c.writing && c.output == []
  }

  /** The kernel never takes more than it was offered. */
  predicate Answers(c: Conn, op: Op) {
    match op
    case Send(data, w) => w.Wrote? ==> w.n <= |data|
    case HandleWrite(w) => w.Wrote? ==> w.n <= |c.output|
    case _ => true
  }

  function AfterSendInLoop(c: Conn, cfg: Config, data: Bytes, w: WriteResult): Conn
    requires w.Wrote? ==> w.n <= |data|
  {
    if c.state == Disconnected then c
    else
      var nwrote := if Direct(c) && w.Wrote? then w.n else 0;
      var fault := Direct(c) && w.PeerGone?;
      var complete := Direct(c) && w.Wrote? && nwrote == |data| && cfg.hasWriteComplete;
      var oldLen, remaining := |c.output|, |data| - nwrote;
      var d := c.(sent := c.sent + data[..nwrote], accepted := c.accepted + data,
                  callbacks := c.callbacks + if complete then [WriteComplete] else []);
      if fault || remaining == 0 then d
      else
        var high := oldLen + remaining >= cfg.highWaterMark && oldLen < cfg.highWaterMark && cfg.hasHighWaterMark;
        d.(output := d.output + data[nwrote..], writing := true,
           callbacks := d.callbacks + if high then [HighWaterMark(oldLen + remaining)] else [])
  }

  /** The direct write of a send. */
  function WrittenAtOnce(c: Conn, cfg: Config, data: Bytes, w: WriteResult): Conn
    requires w.Wrote? ==> w.n <= |data|
  {
    var nwrote := if w.Wrote? then w.n else 0;
    c.(sent := c.sent + data[..nwrote],
       callbacks := c.callbacks + if w.Wrote? && nwrote == |data| && cfg.hasWriteComplete then [WriteComplete] else [])
  }

  /** The buffering of what was not written. */
  function KeptForLater(c: Conn, cfg: Config, rest: Bytes): Conn {
    var high := |c.output| + |rest| >= cfg.highWaterMark && |c.output| < cfg.highWaterMark && cfg.hasHighWaterMark;
    c.(output := c.output + rest, writing := true,
       callbacks := c.callbacks + if high then [HighWaterMark(|c.output| + |rest|)] else [])
  }

  /** A send is its direct write, when nothing waits, and the buffering of the rest, unless that faulted. */
  lemma SendInTwoParts(c: Conn, cfg: Config, data: Bytes, w: WriteResult)
    requires c.state != Disconnected && (w.Wrote? ==> w.n <= |data|)
    ensures var nwrote := if Direct(c) && w.Wrote? then w.n else 0;
            var d := (if Direct(c) then WrittenAtOnce(c, cfg, data, w) else c).(accepted := c.accepted + data);
            AfterSendInLoop(c, cfg, data, w) ==
            if (Direct(c) && w.PeerGone?) || |data| == nwrote then d else KeptForLater(d, cfg, data[nwrote..])
  {
    assert c.sent + data[..0] == c.sent && c.callbacks + [] == c.callbacks;
  }

  function AfterShutdownInLoop(c: Conn): Conn {
    if c.writing then c else c.(shutdowns := c.shutdowns + 1)
  }

  function AfterHandleWrite(c: Conn, cfg: Config, w: WriteResult): Conn
    requires w.Wrote? ==> w.n <= |c.output|
  {
    if !c.writing || !w.Wrote? || w.n == 0 then c
    else
      var d := c.(sent := c.sent + c.output[..w.n], output := c.output[w.n..]);
      if d.output != [] then d
      else
        var e := d.(writing := false, callbacks := d.callbacks + if cfg.hasWriteComplete then [WriteComplete] else []);
        if e.state == Disconnecting then AfterShutdownInLoop(e) else e
  }

  function Next(c: Conn, cfg: Config, op: Op): Conn
    requires Answers(c, op)
  {
    match op
    case Establish => c.(state := Connected)
    case Send(data, w) => if c.state == Connected then AfterSendInLoop(c, cfg, data, w) else c
    case HandleWrite(w) => AfterHandleWrite(c, cfg, w)
    case Shutdown => if c.state == Connected then AfterShutdownInLoop(c.(state := Disconnecting)) else c
    case HandleClose => c.(state := Disconnected, writing := false)
  }

  // ---------- the invariant ----------

  /** Nothing the connection took on was lost, doubled or reordered. */
  predicate StreamWhole(c: Conn) {
    c.sent + c.output == c.accepted
  }

  /** Write interest says whether bytes wait; the write half is shut down once they no longer do, and only once. */
  predicate Orderly(c: Conn) {
    && (c.state != Disconnected ==> (c.writing <==> c.output != []))
    && (c.state == Disconnected ==> !c.writing)
    && (c.state == Connecting || c.state == Connected ==> c.shutdowns == 0)
    && (c.state == Disconnecting ==> (c.shutdowns == 1 <==> c.output == []))
    && c.shutdowns <= 1
    && (c.shutdowns == 1 ==> c.output == [])
  }

  /** The write met EPIPE or ECONNRESET. */
  predicate Faults(c: Conn, op: Op) {
    op.Send? && c.state == Connected && Direct(c) && op.w.PeerGone?
  }

  /** Interest and shutdown stay orderly even through faults. */
  lemma StepStaysOrderly(c: Conn, cfg: Config, op: Op)
    requires Orderly(c) && Answers(c, op) && (op.Establish? ==> c.state == Connecting)
    ensures Orderly(Next(c, cfg, op))
  {
  }

  lemma FaultingSendDrops(c: Conn, cfg: Config, data: Bytes, w: WriteResult)
    requires StreamWhole(c) && c.state == Connected && Answers(c, Send(data, w)) && Faults(c, Send(data, w))
    ensures StreamWhole(AfterSendInLoop(c, cfg, data, w)) <==> data == []
  {
    var d := AfterSendInLoop(c, cfg, data, w);
    assert |d.sent + d.output| + |data| == |d.accepted|;
    assert data == [] ==> d.sent + d.output == c.sent + c.output;
  }

  lemma OtherSendKeepsStream(c: Conn, cfg: Config, data: Bytes, w: WriteResult)
    requires StreamWhole(c) && c.state == Connected && Answers(c, Send(data, w)) && !Faults(c, Send(data, w))
    ensures StreamWhole(AfterSendInLoop(c, cfg, data, w))
  {
    var d := AfterSendInLoop(c, cfg, data, w);
    var nwrote := if Direct(c) && w.Wrote? then w.n else 0;
    assert d.sent == c.sent + data[..nwrote] && d.output == c.output + data[nwrote..];
    assert nwrote > 0 ==> c.output == [];
    assert c.output + data[nwrote..] + [] == d.output;
    assert d.sent + d.output == (c.sent + c.output) + (data[..nwrote] + data[nwrote..]);
    assert data == data[..nwrote] + data[nwrote..];
  }

  lemma SendKeepsStreamExactly(c: Conn, cfg: Config, data: Bytes, w: WriteResult)
    requires StreamWhole(c) && c.state == Connected && Answers(c, Send(data, w))
    ensures StreamWhole(AfterSendInLoop(c, cfg, data, w)) <==> !(Faults(c, Send(data, w)) && data != [])
  {
    hide AfterSendInLoop, StreamWhole, Faults;
    if Faults(c, Send(data, w)) {
      FaultingSendDrops(c, cfg, data, w);
    } else {
      OtherSendKeepsStream(c, cfg, data, w);
    }
  }

  /** How many accepted bytes are neither sent nor waiting. */
  function Lost(c: Conn): int {
    |c.accepted| - |c.sent| - |c.output|
  }

  /** The bytes of a faulting send are lost, and lost bytes never come back. */
  lemma LossesAdd(c: Conn, cfg: Config, op: Op)
    requires Orderly(c) && Answers(c, op)
    ensures Lost(Next(c, cfg, op)) == Lost(c) + if Faults(c, op) then |op.data| else 0
  {
  }

  /** A step keeps the stream whole exactly when it does not drop the bytes of a faulting send. */
  lemma StepKeepsStreamExactly(c: Conn, cfg: Config, op: Op)
    requires Orderly(c) && StreamWhole(c) && Answers(c, op)
    ensures StreamWhole(Next(c, cfg, op)) <==> !(Faults(c, op) && op.data != [])
  {
    hide AfterSendInLoop;
    match op
    case Send(data, w) =>
      if c.state == Connected {
        SendKeepsStreamExactly(c, cfg, data, w);
      }
    case HandleWrite(w) =>
      if c.writing && w.Wrote? {
        assert c.output == c.output[..w.n] + c.output[w.n..];
      }
    case _ =>
  }

  /** The step leaves nothing waiting after writing: a drain, or a direct write of everything. */
  predicate Completes(c: Conn, op: Op, d: Conn) {
    || (op.HandleWrite? && c.output != [] && d.output == [])
    || (op.Send? && c.state == Connected && c.output == [] && op.w == Wrote(|op.data|))
  }

  /** Which callbacks a step queues, each once and in this order, and none that is not set. */
  lemma CallbacksExactly(c: Conn, cfg: Config, op: Op)
    requires Orderly(c) && Answers(c, op)
    ensures var d := Next(c, cfg, op);
            d.callbacks == c.callbacks +
              (if cfg.hasWriteComplete && Completes(c, op, d) then [WriteComplete] else []) +
              (if cfg.hasHighWaterMark && |c.output| < cfg.highWaterMark <= |d.output| then [HighWaterMark(|d.output|)]
                else [])
  {
    assert c.callbacks + [] + [] == c.callbacks;
  }

  /** The high water callback is queued exactly when it is set and the output crosses the mark from below. */
  lemma HighWaterOnCrossing(c: Conn, cfg: Config, op: Op)
    requires Answers(c, op)
    ensures c.callbacks <= Next(c, cfg, op).callbacks
    ensures var d := Next(c, cfg, op);
            HighWaterMark(|d.output|) in d.callbacks[|c.callbacks|..] <==>
              cfg.hasHighWaterMark && |c.output| < cfg.highWaterMark <= |d.output|
  {
  }

  /** The write complete callback is queued exactly when it is set and the step leaves nothing waiting after writing. */
  lemma WriteCompleteOnDrain(c: Conn, cfg: Config, op: Op)
    requires Orderly(c) && Answers(c, op)
    ensures c.callbacks <= Next(c, cfg, op).callbacks
    ensures var d := Next(c, cfg, op);
            WriteComplete in d.callbacks[|c.callbacks|..] <==> cfg.hasWriteComplete && Completes(c, op, d)
  {
  }

  // ---------- runs ----------

  /** A connection is established once, first, and then goes through any operations and kernel answers. */
  ghost predicate IsRun(cs: seq<Conn>, cfg: Config, ops: seq<Op>) {
    && |cs| == |ops| + 1 && cs[0] == FRESH
    && forall i :: 0 <= i < |ops| ==>
         Answers(cs[i], ops[i]) && cs[i + 1] == Next(cs[i], cfg, ops[i]) &&
           (ops[i].Establish? ==> cs[i].state == Connecting)
  }

  // ---------- what the calls alone say ----------

  /** The connection was established, and neither shut down nor closed since. */
  ghost predicate IsOpen(ops: seq<Op>) {
    exists e :: 0 <= e < |ops| && ops[e].Establish? &&
      forall i :: e < i < |ops| ==> !ops[i].Shutdown? && !ops[i].HandleClose?
  }

  /** The reference for accepted bytes: those of every send while the connection is open, in order. */
  ghost function DataSent(ops: seq<Op>): Bytes {
    if ops == [] then []
    else
      var init, last := ops[..|ops| - 1], ops[|ops| - 1];
      DataSent(init) + if last.Send? && IsOpen(init) then last.data else []
  }

  lemma IsOpenAfter(ops: seq<Op>, op: Op)
    ensures IsOpen(ops + [op]) <==> op.Establish? || (IsOpen(ops) && !op.Shutdown? && !op.HandleClose?)
  {
    var longer := ops + [op];
    if op.Establish? {
      assert longer[|ops|].Establish?;
    } else if IsOpen(ops) && !op.Shutdown? && !op.HandleClose? {
      var e :| 0 <= e < |ops| && ops[e].Establish? &&
        forall i :: e < i < |ops| ==> !ops[i].Shutdown? && !ops[i].HandleClose?;
      assert longer[e].Establish?;
    }
    if IsOpen(longer) && !op.Establish? {
      var e :| 0 <= e < |longer| && longer[e].Establish? &&
        forall i :: e < i < |longer| ==> !longer[i].Shutdown? && !longer[i].HandleClose?;
      assert longer[|ops|] == op && e < |ops|;
      assert ops[e].Establish? && forall i :: e < i < |ops| ==> ops[i] == longer[i];
    }
  }

  lemma AcceptStep(c: Conn, cfg: Config, op: Op)
    requires Answers(c, op)
    ensures Next(c, cfg, op).accepted == c.accepted + if op.Send? && c.state == Connected then op.data else []
    ensures Next(c, cfg, op).state ==
            match op
            case Establish => Connected
            case HandleClose => Disconnected
            case Shutdown => if c.state == Connected then Disconnecting else c.state
            case _ => c.state
  {
  }

  /** State and accepted bytes follow from the calls alone, whatever the kernel answers. */
  lemma {:induction false} AcceptsExactlyDataSent(cs: seq<Conn>, cfg: Config, ops: seq<Op>, k: nat)
    requires IsRun(cs, cfg, ops) && k < |cs|
    ensures cs[k].state == Connected <==> IsOpen(ops[..k])
    ensures cs[k].accepted == DataSent(ops[..k])
  {
    hide Next, IsOpen;
    if k == 0 {
      assert !IsOpen([]) by { NothingIsOpen(); }
    } else {
      AcceptsExactlyDataSent(cs, cfg, ops, k - 1);
      AcceptStep(cs[k - 1], cfg, ops[k - 1]);
      IsOpenAfter(ops[..k - 1], ops[k - 1]);
      assert ops[..k] == ops[..k - 1] + [ops[k - 1]];
      assert ops[..k][..k - 1] == ops[..k - 1];
    }
  }

  lemma NothingIsOpen()
    ensures !IsOpen([])
  {
  }

  /** Disconnected exactly once closed, still connecting exactly before it is established or closed. */
  lemma {:induction false} StateFollowsCalls(cs: seq<Conn>, cfg: Config, ops: seq<Op>, k: nat)
    requires IsRun(cs, cfg, ops) && k < |cs|
    ensures cs[k].state == Disconnected <==> exists i :: 0 <= i < k && ops[i].HandleClose?
    ensures cs[k].state == Connecting <==> forall i :: 0 <= i < k ==> !ops[i].Establish? && !ops[i].HandleClose?
  {
    hide Next;
    if k > 0 {
      StateFollowsCalls(cs, cfg, ops, k - 1);
      AcceptStep(cs[k - 1], cfg, ops[k - 1]);
    }
  }

  // ---------- what the kernel reported ----------

  /** How many bytes a step's write reports: a send writes when nothing waits, the write handler when something does. */
  function Reported(c: Conn, op: Op): nat {
    match op
    case Send(_, w) => if c.state == Connected && c.output == [] && w.Wrote? then w.n else 0
    case HandleWrite(w) => if c.state != Disconnected && c.output != [] && w.Wrote? then w.n else 0
    case _ => 0
  }

  function ReportedInAll(cs: seq<Conn>, ops: seq<Op>, k: nat): nat
    requires k <= |ops| < |cs|
  {
    if k == 0 then 0 else ReportedInAll(cs, ops, k - 1) + Reported(cs[k - 1], ops[k - 1])
  }

  lemma SentStep(c: Conn, cfg: Config, op: Op)
    requires Orderly(c) && Answers(c, op)
    ensures |Next(c, cfg, op).sent| == |c.sent| + Reported(c, op)
  {
  }

  /** The bytes counted as written are as many as the kernel said it took, no more and no fewer. */
  lemma {:induction false} SentIsReported(cs: seq<Conn>, cfg: Config, ops: seq<Op>, k: nat)
    requires IsRun(cs, cfg, ops) && k < |cs|
    ensures |cs[k].sent| == ReportedInAll(cs, ops, k)
  {
    hide Next, Reported;
    if k > 0 {
      SentIsReported(cs, cfg, ops, k - 1);
      RunStaysOrderly(cs, cfg, ops, k - 1);
      SentStep(cs[k - 1], cfg, ops[k - 1]);
    }
  }

  // ---------- the stream ----------

  /** No send with bytes met EPIPE or ECONNRESET in the first k steps. */
  ghost predicate NothingDropped(cs: seq<Conn>, ops: seq<Op>, k: nat)
    requires k <= |ops| < |cs|
  {
    forall i :: 0 <= i < k ==> !(Faults(cs[i], ops[i]) && ops[i].data != [])
  }

  lemma {:induction false} RunStaysOrderly(cs: seq<Conn>, cfg: Config, ops: seq<Op>, k: nat)
    requires IsRun(cs, cfg, ops) && k < |cs|
    ensures Orderly(cs[k])
  {
    if k > 0 {
      RunStaysOrderly(cs, cfg, ops, k - 1);
      StepStaysOrderly(cs[k - 1], cfg, ops[k - 1]);
    }
  }

  lemma {:induction false} LostExactlyDropped(cs: seq<Conn>, cfg: Config, ops: seq<Op>, k: nat)
    requires IsRun(cs, cfg, ops) && k < |cs|
    ensures Lost(cs[k]) >= 0
    ensures Lost(cs[k]) == 0 <==> NothingDropped(cs, ops, k)
    ensures NothingDropped(cs, ops, k) ==> StreamWhole(cs[k])
  {
    hide Next, Faults, StreamWhole;
    if k == 0 {
      assert StreamWhole(FRESH) by { FreshIsWhole(); }
    } else {
      LostExactlyDropped(cs, cfg, ops, k - 1);
      RunStaysOrderly(cs, cfg, ops, k - 1);
      LossesAdd(cs[k - 1], cfg, ops[k - 1]);
      if StreamWhole(cs[k - 1]) {
        StepKeepsStreamExactly(cs[k - 1], cfg, ops[k - 1]);
      }
    }
  }

  lemma FreshIsWhole()
    ensures StreamWhole(FRESH)
  {
  }

  /**
   Bytes on the socket followed by bytes waiting are the data of all sends while open, in order, if and only
   if no send with bytes met EPIPE or ECONNRESET before.
   */
  lemma StreamInOrderExactly(cs: seq<Conn>, cfg: Config, ops: seq<Op>, k: nat)
    requires IsRun(cs, cfg, ops) && k < |cs|
    ensures cs[k].sent + cs[k].output == DataSent(ops[..k]) <==> NothingDropped(cs, ops, k)
  {
    hide IsRun, NothingDropped, DataSent;
    LostExactlyDropped(cs, cfg, ops, k);
    AcceptsExactlyDataSent(cs, cfg, ops, k);
    assert |cs[k].sent + cs[k].output| == |cs[k].sent| + |cs[k].output|;
  }

  /**
   The write half is shut down at most once, only after all data sent was written, and from then on the
   socket receives nothing more; a shutdown asked for happens as soon as nothing waits.
   */
  lemma DrainBeforeShutdown(cs: seq<Conn>, cfg: Config, ops: seq<Op>, i: nat, j: nat)
    requires IsRun(cs, cfg, ops) && i <= j < |cs| && NothingDropped(cs, ops, i)
    ensures cs[j].shutdowns <= 1
    ensures cs[i].shutdowns == 1 ==>
              cs[i].sent == DataSent(ops[..i]) && cs[j].sent == cs[i].sent && DataSent(ops[..j]) == DataSent(ops[..i])
    ensures cs[i].state == Disconnecting && cs[i].output == [] ==> cs[i].shutdowns == 1
  {
    hide DataSent, NothingDropped;
    RunStaysOrderly(cs, cfg, ops, i);
    RunStaysOrderly(cs, cfg, ops, j);
    LostExactlyDropped(cs, cfg, ops, i);
    AcceptsExactlyDataSent(cs, cfg, ops, i);
    AcceptsExactlyDataSent(cs, cfg, ops, j);
    if cs[i].shutdowns == 1 {
      ShutIsFinal(cs, cfg, ops, i, j);
    }
  }

  lemma StepAfterShutdown(c: Conn, cfg: Config, op: Op)
    requires Orderly(c) && Answers(c, op) && c.shutdowns == 1 && (op.Establish? ==> c.state == Connecting)
    ensures Next(c, cfg, op).sent == c.sent && Next(c, cfg, op).accepted == c.accepted &&
            Next(c, cfg, op).shutdowns == 1
  {
  }

  lemma {:induction false} ShutIsFinal(cs: seq<Conn>, cfg: Config, ops: seq<Op>, i: nat, j: nat)
    requires IsRun(cs, cfg, ops) && i <= j < |cs| && cs[i].shutdowns == 1
    ensures cs[j].sent == cs[i].sent && cs[j].accepted == cs[i].accepted && cs[j].shutdowns == 1
    decreases j - i
  {
    hide Next;
    if i < j {
      ShutIsFinal(cs, cfg, ops, i, j - 1);
      RunStaysOrderly(cs, cfg, ops, j - 1);
      StepAfterShutdown(cs[j - 1], cfg, ops[j - 1]);
    }
  }
}
