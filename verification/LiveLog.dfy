/**
 The live log stream as a step system: a reader goroutine fills the ring and posts lossy
 notifications on a bounded channel, and one consumer takes a message, redraws from the ring and
 arms itself again. Steps interleave freely; the ring is only touched under its mutex, so a write
 and a snapshot are single steps. The run lasts until the view is stopped.
 */
module LiveLog {
  import opened Model
  import opened Pieces
  import opened LogRing

  const CAPACITY: nat := 16

  datatype Message = Chunk | Done

  /** Where the reader stands: about to read, about to try a notification (`ended` when the same
      read also returned an error), about to send the final message, or returned with the channel closed. */
  datatype Reader = Reading | Notifying(ended: bool) | Finishing | Closed

  /** Stranded is a consumer that read from the closed, drained channel and did not re-arm. */
  datatype Consumer = Waiting | Holding(msg: Message) | Finished | Stranded

  datatype State = State(
    stream: Bytes,             // everything written to the ring
    reader: Reader,
    channel: seq<Message>,
    consumer: Consumer,
    delivered: seq<Message>,   // messages handled so far
    display: Bytes)            // ring text of the last redraw

  datatype Action =
    | Read(chunk: Bytes, ended: bool)  // a read that returned bytes, possibly with its error
    | End                              // a read that returned only an error
    | Notify
    | SendDone
    | Receive
    | ReceiveClosed
    | Handle

  function Initial(): State {
    State([], Reading, [], Waiting, [], [])
  }

  predicate Enabled(s: State, a: Action) {
    match a
    case Read(chunk, _) => s.reader.Reading? && chunk != []
    case End => s.reader.Reading?
    case Notify => s.reader.Notifying?
    case SendDone => s.reader.Finishing? && |s.channel| < CAPACITY
    case Receive => s.consumer.Waiting? && s.channel != []
    case ReceiveClosed => s.consumer.Waiting? && s.channel == [] && s.reader.Closed?
    case Handle => s.consumer.Holding?
  }

  /** `cap` is the ring's line capacity. */
  function Step(s: State, a: Action, cap: nat): State
    requires Enabled(s, a)
  {
    match a
    case Read(chunk, ended) => s.(stream := s.stream + chunk, reader := Notifying(ended))
    case End => s.(reader := Finishing)
    case Notify =>
      s.(channel := if |s.channel| < CAPACITY then s.channel + [Chunk] else s.channel,
         reader := if s.reader.ended then Finishing else Reading)
    case SendDone => s.(channel := s.channel + [Done], reader := Closed)
    case Receive => s.(consumer := Holding(s.channel[0]), channel := s.channel[1..])
    case ReceiveClosed => s.(consumer := Stranded)
    case Handle =>
      s.(display := RingText(s.stream, cap),
         delivered := s.delivered + [s.consumer.msg],
         consumer := if s.consumer.msg.Done? then Finished else Waiting)
  }

  /** Every message sent so far, in order: handled, in hand, queued. */
  function Sent(s: State): seq<Message> {
    s.delivered + (if s.consumer.Holding? then [s.consumer.msg] else []) + s.channel
  }

  /** Chunks first, the final message last, and the consumer is finished once it has handled that. */
  ghost predicate InOrder(s: State) {
    && |s.channel| <= CAPACITY
    && !s.consumer.Stranded?
    && (s.reader.Closed? <==> Sent(s) != [] && Sent(s)[|Sent(s)| - 1].Done?)
    && (forall i :: 0 <= i < |Sent(s)| - 1 ==> Sent(s)[i].Chunk?)
    && (s.consumer.Finished? <==> Done in s.delivered)
  }

  /** A display that is behind has a wake-up coming. */
  ghost predicate NothingLost(s: State, cap: nat) {
    s.display != RingText(s.stream, cap) ==> s.reader.Notifying? || s.channel != [] || s.consumer.Holding?
  }

  ghost predicate Invariant(s: State, cap: nat) {
    InOrder(s) && NothingLost(s, cap)
  }

  /** The states a run goes through, first to last. */
  ghost predicate IsRun(run: seq<State>, actions: seq<Action>, cap: nat) {
    && |run| == |actions| + 1
    && forall i :: 0 <= i < |actions| ==> Enabled(run[i], actions[i]) && run[i + 1] == Step(run[i], actions[i], cap)
  }

  /** A notification is queued unless 16 messages are waiting, the final message always, and nothing else. */
  lemma StepSent(s: State, a: Action, cap: nat)
    requires Enabled(s, a)
    ensures Sent(Step(s, a, cap)) ==
            if a.Notify? && |s.channel| < 16 then Sent(s) + [Chunk]
            else if a.SendDone? then Sent(s) + [Done]
            else Sent(s)
  {
    if a.Receive? {
      assert s.channel == [s.channel[0]] + s.channel[1..];
    }
  }

  /** With nothing queued or in hand, everything sent was handled, the final message included. */
  lemma FinishedWhenDrained(s: State, cap: nat)
    requires Invariant(s, cap) && s.channel == [] && !s.consumer.Holding?
    ensures s.reader.Closed? ==> s.consumer.Finished?
  {
    assert Sent(s) == s.delivered;
    if s.delivered != [] {
      assert s.delivered[|s.delivered| - 1] in s.delivered;
    }
  }

  lemma ReadKeepsOrder(s: State, a: Action, cap: nat)
    requires InOrder(s) && Enabled(s, a) && (a.Read? || a.End?)
    ensures InOrder(Step(s, a, cap))
  {
    StepSent(s, a, cap);
  }

  lemma NotifyKeepsOrder(s: State, cap: nat)
    requires InOrder(s) && Enabled(s, Notify)
    ensures InOrder(Step(s, Notify, cap))
  {
    StepSent(s, Notify, cap);
  }

  lemma SendKeepsOrder(s: State, cap: nat)
    requires InOrder(s) && Enabled(s, SendDone)
    ensures InOrder(Step(s, SendDone, cap))
  {
    StepSent(s, SendDone, cap);
  }

  lemma ReceiveKeepsOrder(s: State, cap: nat)
    requires InOrder(s) && Enabled(s, Receive)
    ensures InOrder(Step(s, Receive, cap))
  {
    StepSent(s, Receive, cap);
  }

  lemma HandleDelivers(s: State, cap: nat)
    requires Enabled(s, Handle)
    ensures var t := Step(s, Handle, cap);
            && Sent(t) == Sent(s) && t.reader == s.reader && t.channel == s.channel && !t.consumer.Stranded?
            && (t.consumer.Finished? <==> s.consumer.msg.Done?)
            && (Done in t.delivered <==> Done in s.delivered || s.consumer.msg.Done?)
  {
    StepSent(s, Handle, cap);
    assert s.consumer.msg in s.delivered + [s.consumer.msg];
  }

  lemma HandleKeepsOrder(s: State, cap: nat)
    requires InOrder(s) && Enabled(s, Handle)
    ensures InOrder(Step(s, Handle, cap))
  {
    HandleDelivers(s, cap);
  }

  lemma StepKeepsOrder(s: State, a: Action, cap: nat)
    requires Invariant(s, cap) && Enabled(s, a)
    ensures InOrder(Step(s, a, cap))
  {
    match a
    case Read(_, _) => ReadKeepsOrder(s, a, cap);
    case End => ReadKeepsOrder(s, a, cap);
    case Notify => NotifyKeepsOrder(s, cap);
    case SendDone => SendKeepsOrder(s, cap);
    case Receive => ReceiveKeepsOrder(s, cap);
    case ReceiveClosed => FinishedWhenDrained(s, cap);
    case Handle => HandleKeepsOrder(s, cap);
  }

  lemma StepLosesNothing(s: State, a: Action, cap: nat)
    requires Invariant(s, cap) && Enabled(s, a)
    ensures NothingLost(Step(s, a, cap), cap)
  {
  }

  lemma StepKeepsInvariant(s: State, a: Action, cap: nat)
    requires Invariant(s, cap) && Enabled(s, a)
    ensures Invariant(Step(s, a, cap), cap)
  {
    StepKeepsOrder(s, a, cap);
    StepLosesNothing(s, a, cap);
  }

  lemma {:induction false} RunKeepsInvariant(run: seq<State>, actions: seq<Action>, cap: nat)
    requires IsRun(run, actions, cap) && run[0] == Initial()
    ensures forall i :: 0 <= i < |run| ==> Invariant(run[i], cap)
  {
    if actions == [] {
      InitialIsFresh(cap);
    } else {
      var n := |actions| - 1;
      RunKeepsInvariant(run[..n + 1], actions[..n], cap);
      assert run[n] == run[..n + 1][n];
      StepKeepsInvariant(run[n], actions[n], cap);
      forall i | 0 <= i < |run|
        ensures Invariant(run[i], cap)
      {
        if i <= n {
          assert run[i] == run[..n + 1][i];
        }
      }
    }
  }

  lemma InitialIsFresh(cap: nat)
    ensures Invariant(Initial(), cap)
  {
    assert RingText([], cap) == [];
  }

  /** In every reachable state: no lost wake-up; the final message comes once and last; after it the
      display is the final ring; a reader stuck on its final send leaves the consumer a step; and the
      consumer never meets the closed channel without having seen the final message. */
  lemma ReachableStates(run: seq<State>, actions: seq<Action>, cap: nat)
    requires IsRun(run, actions, cap) && run[0] == Initial()
    ensures forall i :: 0 <= i < |run| ==> Promises(run[i], cap)
  {
    RunKeepsInvariant(run, actions, cap);
    forall i | 0 <= i < |run|
      ensures Promises(run[i], cap)
    {
      InvariantGivesPromises(run[i], cap);
    }
  }

  ghost predicate Promises(s: State, cap: nat) {
    && |s.channel| <= 16
    && (s.display != RingText(s.stream, cap) ==>
          s.reader.Notifying? || s.channel != [] || s.consumer.Holding?)
    && (forall j :: 0 <= j < |s.delivered| - 1 ==> s.delivered[j].Chunk?)
    && (s.consumer.Finished? ==>
          s.channel == [] && s.reader.Closed? && s.display == RingText(s.stream, cap))
    && (s.reader.Finishing? && |s.channel| == CAPACITY ==>
          Enabled(s, Receive) || Enabled(s, Handle))
    && !Enabled(s, ReceiveClosed)
  }

  lemma InvariantGivesPromises(s: State, cap: nat)
    requires Invariant(s, cap)
    ensures Promises(s, cap)
  {
    var sent := Sent(s);
    forall j | 0 <= j < |s.delivered| - 1
      ensures s.delivered[j].Chunk?
    {
      assert sent[j] == s.delivered[j];
    }
    if s.consumer.Finished? {
      var j :| 0 <= j < |s.delivered| && s.delivered[j] == Done;
      assert sent[j] == Done;
      assert j == |sent| - 1;
    }
    if s.consumer.Waiting? && s.channel == [] {
      FinishedWhenDrained(s, cap);
    }
  }

  // ---- Progress ----

  /** Reads depend on the cluster; every other step is the program's own. */
  predicate IsInternal(a: Action) {
    !a.Read? && !a.End?
  }

  /** How many internal steps can still follow without a further read. */
  function Rank(s: State): nat {
    (match s.reader
     case Reading => 0
     case Notifying(ended) => if ended then 6 else 3
     case Finishing => 3
     case Closed => 0)
    + 2 * |s.channel|
    + (if s.consumer.Holding? then 1 else 0)
  }

  lemma InternalStepsDescend(s: State, a: Action, cap: nat)
    requires Invariant(s, cap) && Enabled(s, a) && IsInternal(a)
    ensures Rank(Step(s, a, cap)) < Rank(s)
  {
    InvariantGivesPromises(s, cap);
  }

  lemma {:induction false} InternalRunsAreShort(run: seq<State>, actions: seq<Action>, cap: nat)
    requires IsRun(run, actions, cap)
    requires Invariant(run[0], cap)
    requires forall i :: 0 <= i < |actions| ==> IsInternal(actions[i])
    ensures |actions| <= Rank(run[0])
  {
    if actions != [] {
      var s, a := run[0], actions[0];
      StepKeepsInvariant(s, a, cap);
      InternalStepsDescend(s, a, cap);
      assert IsRun(run[1..], actions[1..], cap) by {
        forall i | 0 <= i < |actions| - 1
          ensures Enabled(run[1..][i], actions[1..][i]) && run[1..][i + 1] == Step(run[1..][i], actions[1..][i], cap)
        {
          assert run[1..][i] == run[i + 1] && actions[1..][i] == actions[i + 1] && run[1..][i + 1] == run[i + 2];
        }
      }
      InternalRunsAreShort(run[1..], actions[1..], cap);
    }
  }

  /** When no internal step is left the display shows the ring, and if the stream has ended the
      consumer has seen its end. */
  lemma QuiescentStatesAreUpToDate(s: State, cap: nat)
    requires Invariant(s, cap)
    requires forall a :: IsInternal(a) ==> !Enabled(s, a)
    ensures s.display == RingText(s.stream, cap)
    ensures s.reader.Reading? || (s.reader.Closed? && s.consumer.Finished?)
  {
    InvariantGivesPromises(s, cap);
    assert IsInternal(Notify) && IsInternal(SendDone) && IsInternal(Receive) && IsInternal(Handle);
    assert !Enabled(s, Notify) && !Enabled(s, SendDone) && !Enabled(s, Receive) && !Enabled(s, Handle);
  }

  // ---- What a run shows ----

  /** The bytes that the reads among the actions delivered, first to last. */
  function BytesRead(actions: seq<Action>): Bytes {
    if actions == [] then []
    else BytesRead(Front(actions)) + (match Last(actions) case Read(chunk, _) => chunk case _ => [])
  }

  predicate EndsStream(a: Action) {
    a.End? || (a.Read? && a.ended)
  }

  predicate Ended(actions: seq<Action>) {
    exists a :: a in actions && EndsStream(a)
  }

  /** Where the reader may stand before and after the stream has ended. */
  predicate ReaderFits(r: Reader, ended: bool) {
    if ended then r == Notifying(true) || r == Finishing || r == Closed else r == Reading || r == Notifying(false)
  }

  lemma EndedOneMore(actions: seq<Action>, a: Action)
    ensures Ended(actions + [a]) <==> Ended(actions) || EndsStream(a)
    ensures BytesRead(actions + [a]) == BytesRead(actions) + (if a.Read? then a.chunk else [])
  {
    assert Front(actions + [a]) == actions;
  }

  lemma StepFits(s: State, a: Action, cap: nat, ended: bool)
    requires Enabled(s, a) && ReaderFits(s.reader, ended)
    ensures ReaderFits(Step(s, a, cap).reader, ended || EndsStream(a))
    ensures Step(s, a, cap).stream == s.stream + (if a.Read? then a.chunk else [])
  {
    assert s.stream + [] == s.stream;
  }

  /** The ring has been given exactly what was read, and the reader knows whether the stream has ended. */
  lemma {:induction false} RunFollowsReads(run: seq<State>, actions: seq<Action>, cap: nat, k: nat)
    requires IsRun(run, actions, cap) && run[0] == Initial() && k <= |actions|
    ensures run[k].stream == BytesRead(actions[..k]) && ReaderFits(run[k].reader, Ended(actions[..k]))
  {
    if k > 0 {
      var m: nat := k - 1;
      RunFollowsReads(run, actions, cap, m);
      assert actions[..k] == actions[..m] + [actions[m]];
      EndedOneMore(actions[..m], actions[m]);
      StepFits(run[m], actions[m], cap, Ended(actions[..m]));
    }
  }

  /** Once the consumer has finished, the stream has ended and the display is the ring text of every
      byte read. */
  lemma FinishedRunsShowEverything(run: seq<State>, actions: seq<Action>, cap: nat, k: nat)
    requires IsRun(run, actions, cap) && run[0] == Initial() && k <= |actions|
    ensures run[k].consumer.Finished? ==>
              Ended(actions[..k]) && run[k].display == RingText(BytesRead(actions[..k]), cap) && BytesRead(actions[..k]) == BytesRead(actions)
  {
    ReachableStates(run, actions, cap);
    RunFollowsReads(run, actions, cap, k);
    assert Promises(run[k], cap);
    if run[k].consumer.Finished? {
      NothingReadAfter(run, actions, cap, k, |actions|);
      assert actions[..|actions|] == actions;
    }
  }

  lemma ClosedStays(s: State, a: Action, cap: nat)
    requires Enabled(s, a) && s.reader.Closed?
    ensures Step(s, a, cap).reader.Closed? && !a.Read?
  {
  }

  lemma ClosedReadsNothing(s: State, t: State, actions: seq<Action>, cap: nat, m: nat, n: nat)
    requires m + 1 == n <= |actions| && Enabled(s, actions[m]) && t == Step(s, actions[m], cap) && s.reader.Closed?
    ensures t.reader.Closed? && BytesRead(actions[..n]) == BytesRead(actions[..m])
  {
    assert actions[..n] == actions[..m] + [actions[m]];
    EndedOneMore(actions[..m], actions[m]);
    ClosedStays(s, actions[m], cap);
  }

  /** A closed reader reads no more. */
  lemma {:induction false} NothingReadAfter(run: seq<State>, actions: seq<Action>, cap: nat, k: nat, n: nat)
    requires k <= n <= |actions|
    ensures IsRun(run, actions, cap) && run[k].reader.Closed? ==>
              run[n].reader.Closed? && BytesRead(actions[..n]) == BytesRead(actions[..k])
  {
    if k < n && IsRun(run, actions, cap) && run[k].reader.Closed? {
      var m: nat := n - 1;
      NothingReadAfter(run, actions, cap, k, m);
      ClosedReadsNothing(run[m], run[m + 1], actions, cap, m, n);
    }
  }

  /** When no internal step is left the display shows every byte read so far; a stream that has ended has
      its reader gone and its consumer finished, and any other is waiting for the next read. */
  lemma QuiescentRunsShowEverything(run: seq<State>, actions: seq<Action>, cap: nat)
    requires IsRun(run, actions, cap) && run[0] == Initial()
    requires forall a :: IsInternal(a) ==> !Enabled(run[|actions|], a)
    ensures var s := run[|actions|];
            && s.display == RingText(BytesRead(actions), cap)
            && (if Ended(actions) then s.reader.Closed? && s.consumer.Finished? else s.reader.Reading?)
  {
    RunKeepsInvariant(run, actions, cap);
    QuiescentStatesAreUpToDate(run[|actions|], cap);
    RunFollowsReads(run, actions, cap, |actions|);
    assert actions[..|actions|] == actions;
  }

  // ---- Every stream can be shown ----

  lemma RunExtends(run: seq<State>, actions: seq<Action>, cap: nat, a: Action) returns (run': seq<State>, actions': seq<Action>)
    requires IsRun(run, actions, cap) && Enabled(Last(run), a)
    ensures IsRun(run', actions', cap) && run'[0] == run[0] && Last(run') == Step(Last(run), a, cap)
    ensures actions' == actions + [a] && BytesRead(actions') == BytesRead(actions) + (if a.Read? then a.chunk else [])
  {
    run', actions' := run + [Step(Last(run), a, cap)], actions + [a];
    EndedOneMore(actions, a);
  }

  ghost predicate ReadyForMore(s: State) {
    s.reader == Reading && s.channel == [] && s.consumer == Waiting
  }

  /** Two steps after a message was queued for a waiting consumer it has been handled. */
  lemma MessageCanBeHandled(run: seq<State>, actions: seq<Action>, cap: nat) returns (run': seq<State>, actions': seq<Action>)
    requires IsRun(run, actions, cap) && Last(run).consumer == Waiting && |Last(run).channel| == 1
    ensures IsRun(run', actions', cap) && run'[0] == run[0]
    ensures Last(run').reader == Last(run).reader && Last(run').channel == []
    ensures Last(run').consumer == if Last(run).channel[0].Done? then Finished else Waiting
    ensures BytesRead(actions') == BytesRead(actions)
  {
    run', actions' := RunExtends(run, actions, cap, Receive);
    run', actions' := RunExtends(run', actions', cap, Handle);
  }

  lemma ChunkCanBeShown(run: seq<State>, actions: seq<Action>, cap: nat, chunk: Bytes) returns (run': seq<State>, actions': seq<Action>)
    requires IsRun(run, actions, cap) && ReadyForMore(Last(run)) && chunk != []
    ensures IsRun(run', actions', cap) && run'[0] == run[0] && ReadyForMore(Last(run'))
    ensures BytesRead(actions') == BytesRead(actions) + chunk
  {
    run', actions' := RunExtends(run, actions, cap, Read(chunk, false));
    run', actions' := RunExtends(run', actions', cap, Notify);
    assert Last(run').channel == [Chunk];
    run', actions' := MessageCanBeHandled(run', actions', cap);
  }

  lemma {:induction false} ChunksCanBeShown(chunks: seq<Bytes>, cap: nat) returns (run: seq<State>, actions: seq<Action>)
    requires forall c :: c in chunks ==> c != []
    ensures IsRun(run, actions, cap) && run[0] == Initial() && ReadyForMore(Last(run)) && BytesRead(actions) == Flatten(chunks)
  {
    if chunks == [] {
      run, actions := [Initial()], [];
    } else {
      assert Last(chunks) in chunks && forall c :: c in Front(chunks) ==> c in chunks;
      run, actions := ChunksCanBeShown(Front(chunks), cap);
      run, actions := ChunkCanBeShown(run, actions, cap, Last(chunks));
    }
  }

  /** Whatever non-empty chunks the cluster sends, there is a run that reads them all and ends with the
      consumer finished and the display showing them. */
  lemma StreamCanBeShown(chunks: seq<Bytes>, cap: nat) returns (run: seq<State>, actions: seq<Action>)
    requires forall c :: c in chunks ==> c != []
    ensures IsRun(run, actions, cap) && run[0] == Initial() && Last(run).consumer.Finished?
    ensures BytesRead(actions) == Flatten(chunks) && Last(run).display == RingText(Flatten(chunks), cap)
  {
    run, actions := ChunksCanBeShown(chunks, cap);
    run, actions := RunExtends(run, actions, cap, End);
    run, actions := RunExtends(run, actions, cap, SendDone);
    assert Last(run).channel == [Done];
    run, actions := MessageCanBeHandled(run, actions, cap);
    FinishedRunsShowEverything(run, actions, cap, |actions|);
    assert actions[..|actions|] == actions;
  }
}
