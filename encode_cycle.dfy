/**
 * What one call of do_encode makes of the engine's answers: the frame fill,
 * the send and the receive.
 */
module EncodeCycle {
  import opened Ffmpeg

  /** The engine's answers during one encode call. */
  datatype EngineStep = EngineStep(
    fillStatus: int,     // avcodec_fill_audio_frame
    sendStatus: int,     // avcodec_send_frame
    receiveStatus: int,  // avcodec_receive_packet, consulted only after a send that returned 0
    packet: AvPacket)    // the packet avcodec_receive_packet hands back

  /** "End of stream" and "try again": no packet yet, not an error. */
  predicate IsSoftStatus(status: int)
  {
    status == ErrorEof || status == ErrorAgain
  }

  /** The status do_encode goes on with: the receive's after a send of 0, else the send's. */
  function EngineStatus(step: EngineStep): int
  {
    if step.sendStatus == 0 then step.receiveStatus else step.sendStatus
  }

  datatype CycleOutcome = FillFailed(status: int) | EncodeFailed(status: int) | NoPacket | GotPacket(packet: AvPacket)

  /** A call that returns true. */
  predicate Succeeded(o: CycleOutcome)
  {
    o.NoPacket? || o.GotPacket?
  }

  /** The outcome of one do_encode call. */
  function Outcome(step: EngineStep): (o: CycleOutcome)
    ensures o.GotPacket? <==> step.fillStatus >= 0 && step.sendStatus == 0 && step.receiveStatus == 0
    ensures o.GotPacket? ==> o.packet == step.packet
    ensures o.FillFailed? <==> step.fillStatus < 0
    ensures o.EncodeFailed? ==> o.status < 0 && !IsSoftStatus(o.status)
  {
    if step.fillStatus < 0 then FillFailed(step.fillStatus)
    else
      var ret := EngineStatus(step);
      if ret == 0 then GotPacket(step.packet)
      else if IsSoftStatus(ret) || ret > 0 then NoPacket
      else EncodeFailed(ret)
  }

  /** "Try again" or "end of stream" from the send or the receive is a successful call without a packet. */
  lemma SoftStatusesYieldNoPacket(step: EngineStep)
    requires step.fillStatus >= 0
    requires IsSoftStatus(step.sendStatus) || (step.sendStatus == 0 && IsSoftStatus(step.receiveStatus))
    ensures Outcome(step) == NoPacket
  {
  }

  /** Any other negative status fails the call with that status. */
  lemma HardErrorsFail(step: EngineStep)
    requires step.fillStatus >= 0 && EngineStatus(step) < 0 && !IsSoftStatus(EngineStatus(step))
    ensures Outcome(step) == EncodeFailed(EngineStatus(step))
  {
  }

  /** After a send that did not return 0 the receive plays no part. */
  lemma ReceiveOnlyAfterSuccessfulSend(step: EngineStep, receiveStatus: int, packet: AvPacket)
    requires step.sendStatus != 0
    ensures Outcome(step) == Outcome(step.(receiveStatus := receiveStatus, packet := packet))
  {
  }

  /**
   * An engine that holds back its first `lookahead` packets ("try again") makes
   * those calls succeed without a packet and the later ones deliver one.
   */
  lemma LookaheadNeverFails(steps: seq<EngineStep>, lookahead: nat)
    requires forall i :: 0 <= i < |steps| ==> steps[i].fillStatus >= 0 && steps[i].sendStatus == 0
    requires forall i :: 0 <= i < |steps| ==> steps[i].receiveStatus == if i < lookahead then ErrorAgain else 0
    ensures forall i :: 0 <= i < |steps| ==>
      Outcome(steps[i]) == if i < lookahead then NoPacket else GotPacket(steps[i].packet)
  {
  }

  /** How far one call advances total_samples: frame_size once the frame is filled. */
  function SamplesAdvanced(frameSize: int, step: EngineStep): int
  {
    if step.fillStatus < 0 then 0 else frameSize
  }

  /** total_samples after a run of calls. */
  function TotalAfter(total: int, frameSize: int, steps: seq<EngineStep>): int
    decreases |steps|
  {
    if steps == [] then total
    else TotalAfter(total + SamplesAdvanced(frameSize, steps[0]), frameSize, steps[1..])
  }

  /** N calls whose frames are all filled advance the counter by N * frame_size. */
  lemma {:induction false} TotalAfterFilledCalls(total: int, frameSize: int, steps: seq<EngineStep>)
    requires forall i :: 0 <= i < |steps| ==> steps[i].fillStatus >= 0
    ensures TotalAfter(total, frameSize, steps) == total + |steps| * frameSize
    decreases |steps|
  {
    if steps != [] {
      TotalAfterFilledCalls(total + frameSize, frameSize, steps[1..]);
      assert total + frameSize + (|steps| - 1) * frameSize == total + |steps| * frameSize;
    }
  }

  /** The counter does not depend on what the send and the receive return, nor on the packets. */
  lemma {:induction false} TotalAfterIgnoresEngineOutput(total: int, frameSize: int, steps: seq<EngineStep>, others: seq<EngineStep>)
    requires |steps| == |others|
    requires forall i :: 0 <= i < |steps| ==> steps[i].fillStatus == others[i].fillStatus
    ensures TotalAfter(total, frameSize, steps) == TotalAfter(total, frameSize, others)
    decreases |steps|
  {
    if steps != [] {
      TotalAfterIgnoresEngineOutput(total + SamplesAdvanced(frameSize, steps[0]), frameSize, steps[1..], others[1..]);
    }
  }
}
