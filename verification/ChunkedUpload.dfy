/**
 * The rendezvous between a network side that asks for body data and a data side
 * that announces it. Either may come first. A read that cannot be answered at
 * once is completed later through a callback, and the callback may call back into
 * the uploader before it returns.
 */
module ChunkedUpload {
  import opened Options

  type Byte = b: int | 0 <= b < 256

  /** A call made by one of the two sides. `arrives` is how many bytes the delegate
      has at hand if it is asked (zero or an error code when it has none), and
      `inCallback` is what the network side does inside the completion callback. */
  datatype Op =
    | Init
    | Read(length: nat, arrives: int)
    | UploadWhenReady(isFinal: bool, arrives: int, inCallback: Script)
    | Reset

  datatype Script = Done | Then(op: Op, rest: Script)

  /** What happened, in order. */
  datatype Entry =
    | InitResult(ok: bool)
    | Attempt                   // Upload was entered
    | Fetched(data: seq<Byte>)  // OnRead gave some bytes
    | FinalChunk                // SetIsFinalChunk
    | Pending                   // a read was answered ERR_IO_PENDING
    | Returned(data: seq<Byte>) // a read was answered by its return value
    | Completed(data: seq<Byte>)// a pending read was completed by callback
    | Dropped                   // a pending read was forgotten by a reset

  const ERR_IO_PENDING := -1

  datatype State = State(
    buffer: Option<nat>,   // length of the pending buffer
    pending: bool,         // pending_internal_read_
    isFinal: bool,         // is_final_chunk_
    front: bool,           // is_front_of_stream_
    stream: seq<Byte>,     // what the delegate has not given yet
    log: seq<Entry>)
  {
    function Logged(e: Entry): State {
      this.(log := log + [e])
    }
  }

  function Initial(stream: seq<Byte>): State {
    State(None, false, false, true, stream, [])
  }

  function Min(a: int, b: int): int {
    if a < b then a else b
  }

  /** The delegate's answer: a count of bytes, or the code it failed with. */
  function OnRead(s: State, length: nat, arrives: int): (n: int)
    ensures n <= length && n <= |s.stream|
  {
    if arrives <= 0 then arrives else Min(arrives, Min(length, |s.stream|))
  }

  /** Upload up to the completion callback. */
  function Uploaded(s: State, arrives: int): State
    requires s.buffer.Some?
  {
    var s1 := s.(front := false).Logged(Attempt);
    if s.isFinal then Handed(s1.Logged(FinalChunk), [])
    else
      var n := OnRead(s, s.buffer.value, arrives);
      if n <= 0 then s1.(pending := true)
      else Handed(s1.(stream := s.stream[n..]).Logged(Fetched(s.stream[..n])), s.stream[..n])
  }

  function Handed(s: State, data: seq<Byte>): State {
    var s' := s.(buffer := None);
    if s.pending then s'.(pending := false).Logged(Completed(data)) else s'
  }

  /** The value Upload returns: a count, or ERR_IO_PENDING. */
  function UploadResult(s: State, arrives: int): int
    requires s.buffer.Some?
  {
    if s.isFinal then 0
    else
      var n := OnRead(s, s.buffer.value, arrives);
      if n <= 0 then ERR_IO_PENDING else n
  }

  /** The bytes that go with a non-negative result. */
  function UploadData(s: State, arrives: int): seq<Byte>
    requires s.buffer.Some? && UploadResult(s, arrives) != ERR_IO_PENDING
  {
    s.stream[..UploadResult(s, arrives)]
  }

  /** Does Upload end by completing a pending read? */
  predicate Fires(s: State, arrives: int)
    requires s.buffer.Some?
  {
    s.pending && UploadResult(s, arrives) != ERR_IO_PENDING
  }

  function ReadOnce(s: State, length: nat, arrives: int): State
    requires s.buffer.None?
  {
    var s1 := s.(buffer := Some(length));
    if UploadResult(s1, arrives) == ERR_IO_PENDING then Uploaded(s1, arrives).Logged(Pending)
    else Uploaded(s1, arrives).Logged(Returned(UploadData(s1, arrives)))
  }

  function ResetOnce(s: State): State {
    var s' := s.(buffer := None, pending := false, isFinal := false);
    if s.pending then s'.Logged(Dropped) else s'
  }

  /** A call, with everything that happens inside its completion callback. The
      network side does not read while its last read is unanswered. */
  function Exec(s: State, op: Op): State
    decreases op
  {
    match op
    case Init => s.Logged(InitResult(s.front))
    case Read(length, arrives) => if s.buffer.Some? then s else ReadOnce(s, length, arrives)
    case UploadWhenReady(isFinal, arrives, inCallback) =>
      var s1 := s.(isFinal := isFinal);
      if !s.pending || s.buffer.None? then s1
      else if Fires(s1, arrives) then ExecAll(Uploaded(s1, arrives), inCallback)
      else Uploaded(s1, arrives)
    case Reset => ResetOnce(s)
  }

  function ExecAll(s: State, script: Script): State
    decreases script
  {
    match script
    case Done => s
    case Then(op, rest) => ExecAll(Exec(s, op), rest)
  }

  // ---------------------------------------------------------------- invariants

  /** A read is pending exactly when a buffer is held. */
  predicate Coherent(s: State) {
    s.pending <==> s.buffer.Some?
  }

  function Count(log: seq<Entry>, kind: Entry -> bool): nat {
    if log == [] then 0 else Count(log[..|log| - 1], kind) + if kind(log[|log| - 1]) then 1 else 0
  }

  lemma CountPush(log: seq<Entry>, e: Entry, kind: Entry -> bool)
    ensures Count(log + [e], kind) == Count(log, kind) + if kind(e) then 1 else 0
  {
    assert (log + [e])[..|log|] == log;
  }

  const IsPending := (e: Entry) => e.Pending?
  const IsCompleted := (e: Entry) => e.Completed?
  const IsDropped := (e: Entry) => e.Dropped?

  /** Reads answered ERR_IO_PENDING are completed, dropped or still pending. */
  ghost predicate Balanced(s: State) {
    Count(s.log, IsPending) ==
      Count(s.log, IsCompleted) + Count(s.log, IsDropped) + if s.pending then 1 else 0
  }

  /** The chunks the delegate gave, in order. */
  function Fetches(log: seq<Entry>): seq<seq<Byte>> {
    if log == [] then []
    else
      var e, before := log[|log| - 1], Fetches(log[..|log| - 1]);
      if e.Fetched? then before + [e.data] else before
  }

  /** The non-empty chunks the network side received, by either way, in order. */
  function Deliveries(log: seq<Entry>): seq<seq<Byte>> {
    if log == [] then []
    else
      var e, before := log[|log| - 1], Deliveries(log[..|log| - 1]);
      if (e.Returned? || e.Completed?) && e.data != [] then before + [e.data] else before
  }

  function Joined(chunks: seq<seq<Byte>>): seq<Byte> {
    if chunks == [] then [] else Joined(chunks[..|chunks| - 1]) + chunks[|chunks| - 1]
  }

  lemma JoinedPush(chunks: seq<seq<Byte>>, data: seq<Byte>)
    ensures Joined(chunks + [data]) == Joined(chunks) + data
  {
    assert (chunks + [data])[..|chunks|] == chunks;
  }

  predicate Answers(e: Entry) {
    e.Returned? || e.Completed?
  }

  /** An empty answer comes only right after the final chunk was announced. */
  ghost predicate EmptyOnlyAtEnd(log: seq<Entry>) {
    forall i :: 0 <= i < |log| && Answers(log[i]) && log[i].data == [] ==> i > 0 && log[i - 1].FinalChunk?
  }

  /** Initialisation succeeds exactly before the first attempt to upload. */
  ghost predicate InitBeforeAttempts(log: seq<Entry>) {
    forall j :: 0 <= j < |log| && log[j].InitResult? ==> (log[j].ok <==> Attempt !in log[..j])
  }

  ghost predicate InOrder(log: seq<Entry>) {
    EmptyOnlyAtEnd(log) && InitBeforeAttempts(log)
  }

  lemma InOrderPush(log: seq<Entry>, e: Entry)
    requires InOrder(log)
    requires Answers(e) && e.data == [] ==> log != [] && log[|log| - 1].FinalChunk?
    requires e.InitResult? ==> (e.ok <==> Attempt !in log)
    ensures InOrder(log + [e])
  {
    assert forall j :: 0 <= j <= |log| ==> (log + [e])[..j] == log[..j];
  }

  ghost predicate Inv(s: State, stream: seq<Byte>) {
    && Coherent(s)
    && Balanced(s)
    && Fetches(s.log) == Deliveries(s.log)
    && Joined(Fetches(s.log)) + s.stream == stream
    && (s.front <==> Attempt !in s.log)
    && InOrder(s.log)
  }

  lemma Pushed(log: seq<Entry>, e: Entry)
    ensures Count(log + [e], IsPending) == Count(log, IsPending) + if e.Pending? then 1 else 0
    ensures Count(log + [e], IsCompleted) == Count(log, IsCompleted) + if e.Completed? then 1 else 0
    ensures Count(log + [e], IsDropped) == Count(log, IsDropped) + if e.Dropped? then 1 else 0
    ensures Fetches(log + [e]) == if e.Fetched? then Fetches(log) + [e.data] else Fetches(log)
    ensures Deliveries(log + [e]) ==
              if (e.Returned? || e.Completed?) && e.data != [] then Deliveries(log) + [e.data]
              else Deliveries(log)
  {
    CountPush(log, e, IsPending);
    CountPush(log, e, IsCompleted);
    CountPush(log, e, IsDropped);
    assert (log + [e])[..|log|] == log;
  }

  /** How the log of an answered read ends: an attempt, then either the final
      chunk or bytes from the delegate, then the answer itself. */
  lemma AnswerKeepsInv(s: State, s': State, stream: seq<Byte>, cause: Entry, answer: Entry)
    requires Inv(s, stream) && Coherent(s')
    requires answer.Returned? || answer.Completed?
    requires if s.pending then answer.Completed? && !s'.pending else answer.Returned? && !s'.pending
    requires if answer.data == [] then cause == FinalChunk && s'.stream == s.stream
             else cause == Fetched(answer.data) && answer.data + s'.stream == s.stream
    requires !s'.front && s'.log == s.log + [Attempt] + [cause] + [answer]
    ensures Inv(s', stream)
  {
    AnswerInOrder(s.log, cause, answer);
    assert s'.log[|s.log|] == Attempt;
    AnswerBalances(s, s', cause, answer);
    if answer.data != [] {
      JoinedPush(Fetches(s.log), answer.data);
      JoinMoves(Joined(Fetches(s.log)), answer.data, s'.stream);
    }
  }

  lemma JoinMoves(before: seq<Byte>, data: seq<Byte>, rest: seq<Byte>)
    ensures before + data + rest == before + (data + rest)
  {
  }

  lemma AnswerInOrder(log: seq<Entry>, cause: Entry, answer: Entry)
    requires InOrder(log) && Answers(answer)
    requires cause == if answer.data == [] then FinalChunk else Fetched(answer.data)
    ensures InOrder(log + [Attempt] + [cause] + [answer])
  {
    InOrderPush(log, Attempt);
    InOrderPush(log + [Attempt], cause);
    InOrderPush(log + [Attempt] + [cause], answer);
  }

  lemma AnswerBalances(s: State, s': State, cause: Entry, answer: Entry)
    requires Balanced(s) && Fetches(s.log) == Deliveries(s.log)
    requires if s.pending then answer.Completed? && !s'.pending else answer.Returned? && !s'.pending
    requires cause == if answer.data == [] then FinalChunk else Fetched(answer.data)
    requires s'.log == s.log + [Attempt] + [cause] + [answer]
    ensures Balanced(s') && Fetches(s'.log) == Deliveries(s'.log)
    ensures Fetches(s'.log) == if answer.data == [] then Fetches(s.log) else Fetches(s.log) + [answer.data]
  {
    var l1 := s.log + [Attempt];
    var l2 := l1 + [cause];
    Pushed(s.log, Attempt);
    Pushed(l1, cause);
    Pushed(l2, answer);
  }

  lemma WaitKeepsInv(s: State, s': State, stream: seq<Byte>)
    requires Inv(s, stream) && Coherent(s') && s'.pending && !s'.front && s'.stream == s.stream
    requires s'.log == if s.pending then s.log + [Attempt] else s.log + [Attempt] + [Pending]
    ensures Inv(s', stream)
  {
    var l1 := s.log + [Attempt];
    Pushed(s.log, Attempt);
    InOrderPush(s.log, Attempt);
    Pushed(l1, Pending);
    InOrderPush(l1, Pending);
    assert s'.log[|s.log|] == Attempt;
  }

  lemma ReadKeepsInv(s: State, stream: seq<Byte>, length: nat, arrives: int)
    requires Inv(s, stream) && s.buffer.None?
    ensures Inv(ReadOnce(s, length, arrives), stream)
  {
    var s1 := s.(buffer := Some(length));
    var s' := ReadOnce(s, length, arrives);
    if UploadResult(s1, arrives) == ERR_IO_PENDING {
      WaitKeepsInv(s, s', stream);
    } else {
      var data := UploadData(s1, arrives);
      var cause := if s.isFinal then FinalChunk else Fetched(data);
      assert data + s.stream[|data|..] == s.stream;
      AnswerKeepsInv(s, s', stream, cause, Returned(data));
    }
  }

  lemma UploadKeepsInv(s: State, stream: seq<Byte>, arrives: int)
    requires Inv(s, stream) && s.pending
    ensures Inv(Uploaded(s, arrives), stream)
  {
    var s' := Uploaded(s, arrives);
    if UploadResult(s, arrives) == ERR_IO_PENDING {
      WaitKeepsInv(s, s', stream);
    } else {
      var data := UploadData(s, arrives);
      var cause := if s.isFinal then FinalChunk else Fetched(data);
      assert data + s.stream[|data|..] == s.stream;
      AnswerKeepsInv(s, s', stream, cause, Completed(data));
    }
  }

  lemma ResetKeepsInv(s: State, stream: seq<Byte>)
    requires Inv(s, stream)
    ensures Inv(ResetOnce(s), stream)
  {
    Pushed(s.log, Dropped);
    InOrderPush(s.log, Dropped);
  }

  lemma InitKeepsInv(s: State, stream: seq<Byte>)
    requires Inv(s, stream)
    ensures Inv(s.Logged(InitResult(s.front)), stream)
  {
    Pushed(s.log, InitResult(s.front));
    InOrderPush(s.log, InitResult(s.front));
  }

  /** Main result: over any run of calls, however the completion callbacks re-enter
      the uploader, a read is pending exactly when a buffer is held, the answers
      balance, every chunk the delegate gave reaches the network side once and in
      order, an empty answer means the end, and initialisation succeeds only
      before the first attempt. The same holds when a callback is entered. */
  lemma {:induction false} ExecKeepsInv(s: State, stream: seq<Byte>, op: Op)
    requires Inv(s, stream)
    ensures Inv(Exec(s, op), stream)
    decreases op
  {
    match op {
      case Init => InitKeepsInv(s, stream);
      case Read(length, arrives) =>
        if s.buffer.None? { ReadKeepsInv(s, stream, length, arrives); }
      case UploadWhenReady(isFinal, arrives, inCallback) =>
        var s1 := s.(isFinal := isFinal);
        if s.pending {
          UploadKeepsInv(s1, stream, arrives);
          if Fires(s1, arrives) {
            RunKeepsInv(Uploaded(s1, arrives), stream, inCallback);
          }
        }
      case Reset => ResetKeepsInv(s, stream);
    }
  }

  lemma {:induction false} RunKeepsInv(s: State, stream: seq<Byte>, script: Script)
    requires Inv(s, stream)
    ensures Inv(ExecAll(s, script), stream)
    decreases script
  {
    match script {
      case Done =>
      case Then(op, rest) =>
        ExecKeepsInv(s, stream, op);
        RunKeepsInv(Exec(s, op), stream, rest);
    }
  }

  /** What the delegate gives when it is asked for `length` bytes. */
  function Chunk(s: State, length: nat, isFinal: bool, arrives: int): seq<Byte> {
    if isFinal || arrives <= 0 then [] else s.stream[..Min(arrives, Min(length, |s.stream|))]
  }

  /** A read of `length` bytes has met an announcement, in whichever order; without
      data it is still pending. */
  function Met(s: State, length: nat, isFinal: bool, data: seq<Byte>): State
    requires |data| <= |s.stream|
  {
    var waits := !isFinal && data == [];
    s.(buffer := if waits then Some(length) else None, pending := waits, isFinal := isFinal,
       front := false, stream := s.stream[|data|..])
  }

  lemma DataFirst(s: State, length: nat, isFinal: bool, arrives: int)
    requires Coherent(s) && !s.pending
    ensures var data := Chunk(s, length, isFinal, arrives);
      Exec(Exec(s, UploadWhenReady(isFinal, arrives, Done)), Read(length, arrives)) ==
      Met(s, length, isFinal, data).(log := s.log + [Attempt] +
        if isFinal then [FinalChunk] + [Returned([])]
        else if data != [] then [Fetched(data)] + [Returned(data)] else [Pending])
  {
    var s1 := s.(isFinal := isFinal);
    assert Exec(s, UploadWhenReady(isFinal, arrives, Done)) == s1;
    assert s.stream[0..] == s.stream;
  }

  lemma ReadFirst(s: State, length: nat, isFinal: bool, arrives: int)
    requires Coherent(s) && !s.pending && !s.isFinal
    ensures var data := Chunk(s, length, isFinal, arrives);
      Exec(Exec(s, Read(length, 0)), UploadWhenReady(isFinal, arrives, Done)) ==
      Met(s, length, isFinal, data).(log := s.log + [Attempt] + [Pending] + [Attempt] +
        if isFinal then [FinalChunk] + [Completed([])]
        else if data != [] then [Fetched(data)] + [Completed(data)] else [])
  {
    var waiting := s.(buffer := Some(length), pending := true, front := false, log := s.log + [Attempt] + [Pending]);
    assert Exec(s, Read(length, 0)) == waiting;
    assert s.stream[0..] == s.stream;
    assert waiting.log + [Attempt] + [] == waiting.log + [Attempt];
  }

  lemma DeliveriesOf(log: seq<Entry>, cause: Entry, answer: Entry)
    requires Answers(answer) && !Answers(cause)
    ensures Deliveries(log + ([cause] + [answer])) ==
            if answer.data == [] then Deliveries(log) else Deliveries(log) + [answer.data]
  {
    assert log + ([cause] + [answer]) == log + [cause] + [answer];
    Pushed(log, cause);
    Pushed(log + [cause], answer);
  }

  /** Main result: either side may come first. Whether the data is announced before
      the read or while it is pending, the uploader ends in the same state and the
      network side has received the same bytes: nothing while the delegate has
      none and the stream goes on, and nothing but the end after the final chunk. */
  lemma EitherMayComeFirst(s: State, length: nat, isFinal: bool, arrives: int)
    requires Coherent(s) && !s.pending && !s.isFinal
    ensures var announce := UploadWhenReady(isFinal, arrives, Done);
      var dataFirst := Exec(Exec(s, announce), Read(length, arrives));
      var readFirst := Exec(Exec(s, Read(length, 0)), announce);
      var data := Chunk(s, length, isFinal, arrives);
      && dataFirst.(log := []) == readFirst.(log := []) == Met(s, length, isFinal, data).(log := [])
      && Deliveries(dataFirst.log) == Deliveries(readFirst.log)
           == Deliveries(s.log) + (if data == [] then [] else [data])
  {
    var data := Chunk(s, length, isFinal, arrives);
    DataFirst(s, length, isFinal, arrives);
    ReadFirst(s, length, isFinal, arrives);
    var l1 := s.log + [Attempt];
    var l3 := l1 + [Pending] + [Attempt];
    Pushed(s.log, Attempt);
    Pushed(l1, Pending);
    Pushed(l1 + [Pending], Attempt);
    if isFinal || data != [] {
      var cause := if isFinal then FinalChunk else Fetched(data);
      DeliveriesOf(l1, cause, Returned(data));
      DeliveriesOf(l3, cause, Completed(data));
    } else {
      assert l3 + [] == l3;
    }
    assert Deliveries(s.log) + [] == Deliveries(s.log);
  }

  /** What the network side does when its read is completed happens after the read
      has been completed, and nothing else changes the outcome. */
  lemma CallbackComesLast(s: State, isFinal: bool, arrives: int, inCallback: Script)
    requires Coherent(s) && s.pending
    ensures var length := s.buffer.value;
      var quiet := Exec(s, UploadWhenReady(isFinal, arrives, Done));
      Exec(s, UploadWhenReady(isFinal, arrives, inCallback)) ==
        if isFinal || Chunk(s, length, isFinal, arrives) != [] then ExecAll(quiet, inCallback) else quiet
  {
  }

  lemma Announced(s: State, isFinal: bool, arrives: int)
    requires Coherent(s)
    ensures Exec(s, UploadWhenReady(isFinal, arrives, Done)) ==
      if s.pending then Uploaded(s.(isFinal := isFinal), arrives) else s.(isFinal := isFinal)
  {
    var s1 := s.(isFinal := isFinal);
    if s.pending && Fires(s1, arrives) {
      assert ExecAll(Uploaded(s1, arrives), Done) == Uploaded(s1, arrives);
    }
  }

  /** A reset forgets a pending read and an announced end, but not that the stream has
      been read from: a read after it is answered with the delegate's data again. */
  lemma ResetReopens(s: State, length: nat, arrives: int)
    requires Coherent(s) && s.stream != [] && arrives > 0 && length > 0
    ensures var ended := Exec(s, UploadWhenReady(true, arrives, Done));
      var reset := Exec(ended, Reset);
      var data := s.stream[..Min(arrives, Min(length, |s.stream|))];
      && !reset.pending && reset.buffer.None? && !reset.isFinal && reset.front == ended.front
      && Exec(reset, Read(length, arrives)).log == reset.log + [Attempt] + ([Fetched(data)] + [Returned(data)])
      && Exec(reset, Read(length, arrives)).stream == s.stream[|data|..]
  {
    var ended := Exec(s, UploadWhenReady(true, arrives, Done));
    var reset := Exec(ended, Reset);
    Announced(s, true, arrives);
    assert Exec(reset, UploadWhenReady(false, arrives, Done)) == reset;
    DataFirst(reset, length, false, arrives);
  }

  /** Main result, from the start: what the network side has received is the
      delegate's stream up to what the delegate still has. */
  lemma DeliveredBytesAreTheStream(stream: seq<Byte>, script: Script)
    ensures var s := ExecAll(Initial(stream), script);
      && Coherent(s) && Balanced(s)
      && Joined(Deliveries(s.log)) + s.stream == stream
      && EmptyOnlyAtEnd(s.log) && InitBeforeAttempts(s.log)
  {
    RunKeepsInv(Initial(stream), stream, script);
  }
}
