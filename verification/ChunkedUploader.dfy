/**
 * The uploader's methods over its five fields. The completion callback is called
 * in the middle of Upload and may call the methods again on the same object; each
 * method is proved against the run of ChunkedUpload that it makes.
 */
module ChunkedUploader {
  import opened Options
  import opened ChunkedUpload

  function Size(script: Script): nat {
    match script
    case Done => 0
    case Then(op, rest) => 1 + (if op.UploadWhenReady? then Size(op.inCallback) else 0) + Size(rest)
  }

  lemma {:induction false} CoherentAfter(s: State, op: Op)
    requires Coherent(s)
    ensures Coherent(Exec(s, op))
    decreases op
  {
    if op.UploadWhenReady? && s.pending {
      var s1 := s.(isFinal := op.isFinal);
      if Fires(s1, op.arrives) { CoherentAfterAll(Uploaded(s1, op.arrives), op.inCallback); }
    }
  }

  lemma {:induction false} CoherentAfterAll(s: State, script: Script)
    requires Coherent(s)
    ensures Coherent(ExecAll(s, script))
    decreases script
  {
    if script.Then? {
      CoherentAfter(s, script.op);
      CoherentAfterAll(Exec(s, script.op), script.rest);
    }
  }

  class ChunkedDataStreamUploader {
    var pendingReadBuffer: Option<nat>
    var pendingInternalRead: bool
    var isFinalChunk: bool
    var isFrontOfStream: bool
    var stream: seq<Byte>
    var log: seq<Entry>

    function View(): State
      reads this
    {
      State(pendingReadBuffer, pendingInternalRead, isFinalChunk, isFrontOfStream, stream, log)
    }

    constructor (stream: seq<Byte>)
      ensures View() == Initial(stream)
    {
      pendingReadBuffer, pendingInternalRead, isFinalChunk, isFrontOfStream := None, false, false, true;
      this.stream, log := stream, [];
    }

    method InitInternal() returns (ok: bool)
      modifies `log
      ensures View() == Exec(old(View()), Init) && ok == isFrontOfStream
    {
      ok := isFrontOfStream;
      log := log + [InitResult(ok)];
    }

    method ReadInternal(length: nat, arrives: int) returns (r: int)
      requires Coherent(View()) && pendingReadBuffer.None?
      modifies this
      ensures View() == Exec(old(View()), Read(length, arrives))
      ensures r == UploadResult(old(View()).(buffer := Some(length)), arrives)
      decreases 0, 3
    {
      var available := stream;
      pendingReadBuffer := Some(length);
      r := Upload(arrives, Done);
      // What the caller of Read sees.
      if r == ERR_IO_PENDING {
        log := log + [Pending];
      } else {
        log := log + [Returned(available[..r])];
      }
    }

    method ResetInternal()
      modifies this
      ensures View() == Exec(old(View()), Reset)
    {
      var forgotten := pendingInternalRead;
      pendingReadBuffer := None;
      pendingInternalRead := false;
      isFinalChunk := false;
      if forgotten {
        log := log + [Dropped];
      }
    }

    method UploadWhenReady(isFinal: bool, arrives: int, inCallback: Script)
      requires Coherent(View())
      modifies this
      ensures View() == Exec(old(View()), Op.UploadWhenReady(isFinal, arrives, inCallback))
      decreases Size(inCallback), 3
    {
      isFinalChunk := isFinal;
      if pendingInternalRead {
        var _ := Upload(arrives, inCallback);
      }
    }

    /** `inCallback` is what the network side does if its pending read completes. */
    method Upload(arrives: int, inCallback: Script) returns (bytesRead: int)
      requires pendingReadBuffer.Some?
      modifies this
      ensures bytesRead == UploadResult(old(View()), arrives)
      ensures View() ==
        if Fires(old(View()), arrives) then ExecAll(Uploaded(old(View()), arrives), inCallback)
        else Uploaded(old(View()), arrives)
      decreases Size(inCallback), 2
    {
      log := log + [Attempt];
      isFrontOfStream := false;
      bytesRead := 0;
      var data := [];
      if isFinalChunk {
        log := log + [FinalChunk];
      } else {
        bytesRead := OnRead(View(), pendingReadBuffer.value, arrives);
        if bytesRead <= 0 {
          pendingInternalRead := true;
          return ERR_IO_PENDING;
        }
        data, stream := stream[..bytesRead], stream[bytesRead..];
        log := log + [Fetched(data)];
      }
      pendingReadBuffer := None;
      if pendingInternalRead {
        pendingInternalRead := false;
        OnReadCompleted(data, inCallback);
      }
    }

    /** The base class tells the network side, which may call back in at once. */
    method OnReadCompleted(data: seq<Byte>, inCallback: Script)
      requires pendingReadBuffer.None? && !pendingInternalRead
      modifies this
      ensures View() == ExecAll(old(View()).Logged(Completed(data)), inCallback)
      decreases Size(inCallback), 1
    {
      log := log + [Completed(data)];
      Perform(inCallback);
    }

    /** Makes the calls of a script, one after the other. */
    method Perform(script: Script)
      requires Coherent(View())
      modifies this
      ensures Coherent(View()) && View() == ExecAll(old(View()), script)
      decreases Size(script), 0
    {
      match script {
        case Done =>
        case Then(op, rest) =>
          CoherentAfter(View(), op);
          match op {
            case Init => var _ := InitInternal();
            case Read(length, arrives) =>
              if pendingReadBuffer.None? {
                var _ := ReadInternal(length, arrives);
              }
            case UploadWhenReady(isFinal, arrives, inCallback) =>
              UploadWhenReady(isFinal, arrives, inCallback);
            case Reset => ResetInternal();
          }
          Perform(rest);
      }
    }
  }
}
