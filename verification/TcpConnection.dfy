/** The TcpConnection object over its buffers; the loop thread makes every call. */
module TcpConnections {
  import opened ByteQueue
  import opened Buffers
  import Spec = Connection

  class TcpConnection {
    var state: Spec.State
    /** The channel's write interest. */
    var writing: bool
    const inputBuffer: Buffer
    const outputBuffer: Buffer
    const config: Spec.Config

    /** What the kernel took, and how often the write half was shut down. */
    var sent: Bytes
    var shutdowns: nat
    /** Callbacks queued into the loop. */
    var callbacks: seq<Spec.Callback>
    ghost var accepted: Bytes

    ghost predicate Valid()
      reads this, inputBuffer, outputBuffer
    {
      && inputBuffer.Valid() && outputBuffer.Valid()
      && inputBuffer != outputBuffer && inputBuffer.buffer != outputBuffer.buffer
    }

    ghost function Repr(): set<object>
      reads this, inputBuffer, outputBuffer
    {
      {this, inputBuffer, outputBuffer, inputBuffer.buffer, outputBuffer.buffer}
    }

    ghost function View(): Spec.Conn
      requires Valid()
      reads this, inputBuffer, outputBuffer, outputBuffer.buffer
    {
      Spec.Conn(state, writing, outputBuffer.Readable(), sent, shutdowns, callbacks, accepted)
    }

    constructor (config: Spec.Config)
      ensures Valid() && fresh(Repr()) && View() == Spec.FRESH && this.config == config
    {
      this.config := config;
      state, writing, sent, shutdowns, callbacks, accepted := Spec.Connecting, false, [], 0, [], [];
      inputBuffer := new Buffer(INITIAL_SIZE);
      outputBuffer := new Buffer(INITIAL_SIZE);
    }

    method ConnectEstablished()
      requires Valid()
      modifies this`state
      ensures Valid() && View() == Spec.Next(old(View()), config, Spec.Establish)
    {
      state := Spec.Connected;
    }

    method Send(data: Bytes, w: Spec.WriteResult)
      requires Valid() && Spec.Answers(View(), Spec.Send(data, w))
      modifies this, outputBuffer, outputBuffer.buffer
      ensures Valid() && fresh(Repr() - old(Repr()))
      ensures View() == Spec.Next(old(View()), config, Spec.Send(data, w))
    {
      if state == Spec.Connected {
        SendInLoop(data, w);
      }
    }

    /** w is what the kernel answers if the bytes are written at once. */
    method SendInLoop(data: Bytes, w: Spec.WriteResult)
      requires Valid() && (w.Wrote? ==> w.n <= |data|)
      modifies this, outputBuffer, outputBuffer.buffer
      ensures Valid() && fresh(Repr() - old(Repr()))
      ensures View() == Spec.AfterSendInLoop(old(View()), config, data, w)
    {
      if state == Spec.Disconnected {
        return;
      }
      var nwrote, faultError := 0, false;
      ghost var c := View();
      if !writing && outputBuffer.ReadableBytes() == 0 {
        nwrote, faultError := WriteAtOnce(data, w);
      }
      accepted := accepted + data;
      ghost var d := View();
      Spec.SendInTwoParts(c, config, data, w);
      hide Spec.AfterSendInLoop;
      if !faultError && |data| - nwrote > 0 {
        KeepForLater(data[nwrote..]);
      }
    }

    method WriteAtOnce(data: Bytes, w: Spec.WriteResult) returns (nwrote: nat, faultError: bool)
      requires Valid() && (w.Wrote? ==> w.n <= |data|)
      modifies this`sent, this`callbacks
      ensures Valid() && nwrote == (if w.Wrote? then w.n else 0) && faultError == w.PeerGone?
      ensures View() == Spec.WrittenAtOnce(old(View()), config, data, w)
    {
      nwrote, faultError := 0, false;
      if w.Wrote? {
        nwrote := w.n;
        sent := sent + data[..nwrote];
        var remaining := |data| - nwrote;
        if remaining == 0 && config.hasWriteComplete {
          callbacks := callbacks + [Spec.WriteComplete];
        }
      } else if w != Spec.WouldBlock {
        if w == Spec.PeerGone {
          faultError := true;
        }
      }
    }

    method KeepForLater(rest: Bytes)
      requires Valid()
      modifies this`writing, this`callbacks, outputBuffer, outputBuffer.buffer
      ensures Valid() && fresh(Repr() - old(Repr()))
      ensures View() == Spec.KeptForLater(old(View()), config, rest)
    {
      var oldLen := outputBuffer.ReadableBytes();
      if oldLen + |rest| >= config.highWaterMark && oldLen < config.highWaterMark && config.hasHighWaterMark {
        callbacks := callbacks + [Spec.HighWaterMark(oldLen + |rest|)];
      }
      outputBuffer.Append(rest);
      if !writing {
        writing := true;
      }
    }

    method Shutdown()
      requires Valid()
      modifies this`state, this`shutdowns
      ensures Valid() && View() == Spec.Next(old(View()), config, Spec.Shutdown)
    {
      if state == Spec.Connected {
        state := Spec.Disconnecting;
        ShutdownInLoop();
      }
    }

    method ShutdownInLoop()
      requires Valid()
      modifies this`shutdowns
      ensures Valid() && View() == Spec.AfterShutdownInLoop(old(View()))
    {
      if !writing {
        shutdowns := shutdowns + 1;
      }
    }

    /** The errno of a failed write is saved by the buffer and used by nobody. */
    method HandleWrite(w: Spec.WriteResult, errno: int)
      requires Valid() && Spec.Answers(View(), Spec.HandleWrite(w))
      modifies this, outputBuffer
      ensures Valid() && Repr() == old(Repr())
      ensures View() == Spec.Next(old(View()), config, Spec.HandleWrite(w))
    {
      if writing {
        var n, savedErrno, written := outputBuffer.WriteFd(if w.Wrote? then Written(w.n) else WriteFailed(errno));
        if n > 0 {
          sent := sent + written;
          outputBuffer.Retrieve(n);
          if outputBuffer.ReadableBytes() == 0 {
            writing := false;
            if config.hasWriteComplete {
              callbacks := callbacks + [Spec.WriteComplete];
            }
            if state == Spec.Disconnecting {
              ShutdownInLoop();
            }
          }
        }
      }
    }

    method HandleClose()
      requires Valid()
      modifies this`state, this`writing
      ensures Valid() && View() == Spec.Next(old(View()), config, Spec.HandleClose)
    {
      state := Spec.Disconnected;
      writing := false;
    }

    /** Bytes go to the input buffer; end of stream closes; an error changes nothing. */
    method HandleRead(result: ReadResult)
      requires Valid() && (result.ReadBytes? ==> |result.bytes| <= inputBuffer.ReadCapacity())
      modifies this`state, this`writing, inputBuffer, inputBuffer.buffer
      ensures Valid() && fresh(Repr() - old(Repr()))
      ensures if result == ReadBytes([]) then View() == Spec.Next(old(View()), config, Spec.HandleClose)
              else View() == old(View())
      ensures inputBuffer.Readable() == old(inputBuffer.Readable()) + if result.ReadBytes? then result.bytes else []
    {
      var n, savedErrno := inputBuffer.ReadFd(result);
      if n == 0 {
        HandleClose();
      }
    }
  }
}
