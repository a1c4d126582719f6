/** A run that exists: one delivery is read, admitted, settled and drained, and Done closes without a drain error. */
module ConsumerRuns {
  import opened Basics
  import opened ConsumerProtocol

  const Only: Envelope := Envelope(0, 7)
  const Source: Incoming := Incoming(7, true)

  function Stream(stream: seq<Incoming>, closed: bool, accepted: multiset<Incoming>): Generation {
    Generation(stream, closed, multiset{Source}, accepted, multiset{}, multiset{}, multiset{})
  }

  const Waiting: Generation := Stream([Source], false, multiset{})
  const Read: Generation := Stream([], false, multiset{Source})
  const Acked: Generation := Read.(settled := multiset{7})
  const Ended: Generation := Stream([], true, multiset{Source}).(settled := multiset{7})

  const NoWork: Work := Work([], false, multiset{}, multiset{}, multiset{})
  const NoHistory: History := History(multiset{}, multiset{}, [], multiset{}, multiset{}, multiset{})
  const Quiet: Flags := Flags(false, false, false, false, false)

  function At(gen: Generation, run: Run, at: Point, work: Work, hist: History, flags: Flags): State {
    State(1, 1, flags, at.Gated?, [gen], Consuming(run, at), work, hist)
  }

  const Empty: Run := Run(0, [], false, false, [], [], [])
  const Holding: Run := Run(0, [Only], false, false, [Only], [], [])
  const Handed: Run := Run(0, [], false, false, [Only], [Only], [])

  lemma OneGeneration(a: Generation, b: Generation)
    ensures [a][0 := b] == [b]
  {
  }

  /** An empty or waiting loop passes the gate and selects. */
  lemma PassGate(gen: Generation, run: Run, work: Work, hist: History, flags: Flags)
    requires Reachable(At(gen, run, Top, work, hist, flags)) && run.ring == [] && !flags.admissionClosed && !flags.paused
    ensures Reachable(At(gen, run, Selecting(false), work, hist, flags))
  {
    ReachableFurther(At(gen, run, Top, work, hist, flags), ByLoop(EnterGate), At(gen, run, Gated(false), work, hist, flags));
    ReachableFurther(At(gen, run, Gated(false), work, hist, flags), ByLoop(LeaveGate),
              At(gen, run, Selecting(false), work, hist, flags));
  }

  lemma DeliveryWaits()
    ensures Reachable(At(Waiting, Empty, Selecting(false), NoWork, NoHistory, Quiet))
  {
    assert From(Init(1, 1), []) == Some(Init(1, 1));
    assert [] + [Source] == [Source] && multiset{} + multiset{Source} == multiset{Source};
    OneGeneration(NewGeneration(), Waiting);
    ReachableFurther(Init(1, 1), Deliver(0, Source), At(Waiting, Empty, Top, NoWork, NoHistory, Quiet));
    PassGate(Waiting, Empty, NoWork, NoHistory, Quiet);
  }

  const ReadHistory: History := NoHistory.(read := multiset{Only})

  lemma DeliveryIsRead()
    ensures Reachable(At(Read, Holding, Top, NoWork, ReadHistory, Quiet))
  {
    DeliveryWaits();
    var received := Stream([], false, multiset{});
    assert [Source][1..] == [];
    OneGeneration(Waiting, received);
    ReachableFurther(At(Waiting, Empty, Selecting(false), NoWork, NoHistory, Quiet), ByLoop(Receive),
              At(received, Empty, Received(Source), NoWork, NoHistory, Quiet));
    ReachableFurther(At(received, Empty, Received(Source), NoWork, NoHistory, Quiet), ByLoop(Decide),
              At(received, Empty, Accepting(Source), NoWork, NoHistory, Quiet));
    AcceptedDeliveryIsEnqueued();
  }

  lemma AcceptedDeliveryIsEnqueued()
    requires Reachable(At(Stream([], false, multiset{}), Empty, Accepting(Source), NoWork, NoHistory, Quiet))
    ensures Reachable(At(Read, Holding, Top, NoWork, ReadHistory, Quiet))
  {
    var received := Stream([], false, multiset{});
    assert [] + [Only] == [Only] && multiset{} + multiset{Only} == multiset{Only};
    assert received.accepted + multiset{Source} == multiset{Source};
    OneGeneration(received, Read);
    ReachableFurther(At(received, Empty, Accepting(Source), NoWork, NoHistory, Quiet), ByLoop(Enqueue),
              At(Read, Holding, Top, NoWork, ReadHistory, Quiet));
  }

  const AdmitHistory: History := ReadHistory.(admitted := [Only])

  lemma DeliveryIsAdmitted()
    ensures Reachable(At(Read, Handed, Top, NoWork.(handling := multiset{Only}), AdmitHistory, Quiet))
  {
    DeliveryIsRead();
    ReachableFurther(At(Read, Holding, Top, NoWork, ReadHistory, Quiet), ByLoop(EnterGate),
              At(Read, Holding, Gated(false), NoWork, ReadHistory, Quiet));
    assert [Only][1..] == [] && [] + [Only] == [Only];
    ReachableFurther(At(Read, Holding, Gated(false), NoWork, ReadHistory, Quiet), ByLoop(AdmitOne),
              At(Read, Handed, Top, NoWork.(jobs := [Only]), AdmitHistory, Quiet));
    assert multiset{} + multiset{Only} == multiset{Only};
    ReachableFurther(At(Read, Handed, Top, NoWork.(jobs := [Only]), AdmitHistory, Quiet), TakeJob,
              At(Read, Handed, Top, NoWork.(handling := multiset{Only}), AdmitHistory, Quiet));
  }

  const SettledHistory: History := AdmitHistory.(settled := multiset{Only})
  const FinalHistory: History := SettledHistory.(completed := multiset{Only})
  const AllDone: Work := NoWork.(finished := multiset{Only})

  lemma DeliveryIsSettled()
    ensures Reachable(At(Acked, Handed, Top, AllDone, FinalHistory, Quiet))
  {
    DeliveryIsAdmitted();
    assert multiset{Only} - multiset{Only} == multiset{} && multiset{} + multiset{Only} == multiset{Only};
    assert Read.settled + multiset{7} == multiset{7};
    OneGeneration(Read, Acked);
    ReachableFurther(At(Read, Handed, Top, NoWork.(handling := multiset{Only}), AdmitHistory, Quiet), Settle(Only),
              At(Acked, Handed, Top, NoWork.(settling := multiset{Only}), SettledHistory, Quiet));
    ReachableFurther(At(Acked, Handed, Top, NoWork.(settling := multiset{Only}), SettledHistory, Quiet), Complete(Only),
              At(Acked, Handed, Top, AllDone, FinalHistory, Quiet));
  }

  const StopFlags: Flags := Quiet.(stopping := true)

  lemma StreamEnds()
    ensures Reachable(At(Ended, Handed.(ended := true, draining := true), Top, AllDone, FinalHistory, StopFlags))
  {
    DeliveryIsSettled();
    ReachableFurther(At(Acked, Handed, Top, AllDone, FinalHistory, Quiet), Stop,
              At(Acked, Handed, Top, AllDone, FinalHistory, StopFlags));
    OneGeneration(Acked, Ended);
    ReachableFurther(At(Acked, Handed, Top, AllDone, FinalHistory, StopFlags), CloseStream(0),
              At(Ended, Handed, Top, AllDone, FinalHistory, StopFlags));
    PassGate(Ended, Handed, AllDone, FinalHistory, StopFlags);
    ReachableFurther(At(Ended, Handed, Selecting(false), AllDone, FinalHistory, StopFlags), ByLoop(StreamEnd),
              At(Ended, Handed.(ended := true, draining := true), Top, AllDone, FinalHistory, StopFlags));
  }

  /** The drain-complete exit without a drain error is reached with a delivery admitted and settled. */
  lemma ADrainCanComplete()
    ensures Reachable(State(1, 1, StopFlags, false, [Ended],
                            Leaving(Handed.(ended := true, draining := true), false, true), AllDone, FinalHistory))
  {
    StreamEnds();
    var run := Handed.(ended := true, draining := true);
    PassGate(Ended, run, AllDone, FinalHistory, StopFlags);
    ReachableFurther(At(Ended, run, Selecting(false), AllDone, FinalHistory, StopFlags), ByLoop(DrainExit),
              State(1, 1, StopFlags, false, [Ended], Leaving(run, false, true), AllDone, FinalHistory));
  }

  /** Done closes after that delivery was handled. */
  lemma DoneCanClose()
    ensures Reachable(State(1, 1, StopFlags, false, [Ended], Stopped, AllDone.(jobsClosed := true), FinalHistory))
  {
    ADrainCanComplete();
    var run := Handed.(ended := true, draining := true);
    assert multiset{} + multiset(run.ring) == multiset{};
    var finishing := State(1, 1, StopFlags, false, [Ended], Finishing, AllDone, FinalHistory);
    ReachableFurther(State(1, 1, StopFlags, false, [Ended], Leaving(run, false, true), AllDone, FinalHistory), ByLoop(Drop),
              finishing);
    var joining := finishing.(loop := Joining, work := AllDone.(jobsClosed := true));
    ReachableFurther(finishing, ByLoop(CloseJobs), joining);
    ReachableFurther(joining, ByLoop(WorkersDone), joining.(loop := Stopped));
  }
}
