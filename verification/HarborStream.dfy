/** The frames a host has produced and its peer has not yet consumed, in order, and the checks the
    peer will run on them. */
module HarborStream {
  import opened Wrappers
  import opened HarborMetrics
  import opened HarborWire

  /** The frames other than checkpoints. */
  function Controls(frames: seq<HostFrame>): seq<HostFrame> {
    if frames == [] then [] else
      (if frames[0].Checkpoint? then [] else [frames[0]]) + Controls(frames[1..])
  }

  lemma {:induction false} ControlsJoin(a: seq<HostFrame>, b: seq<HostFrame>)
    ensures Controls(a + b) == Controls(a) + Controls(b)
  {
    if a == [] {
      assert a + b == b;
    } else {
      ControlsJoin(a[1..], b);
      assert (a + b)[1..] == a[1..] + b;
    }
  }

  lemma ControlsAdd(a: seq<HostFrame>, frame: HostFrame)
    ensures Controls(a + [frame]) == Controls(a) + if frame.Checkpoint? then [] else [frame]
  {
    ControlsJoin(a, [frame]);
  }

  /** Every metrics check the peer will run on these frames succeeds, starting from its last
      checkpoint and the number of requests it has served. */
  predicate MetricsPass(frames: seq<HostFrame>, last: Option<Partial>, served: nat) {
    frames == [] ||
    match frames[0]
    case Checkpoint(m) => PeerAcceptsPartial(m, last, served) && MetricsPass(frames[1..], Some(m), served)
    case Request(_) => MetricsPass(frames[1..], last, served + 1)
    case Cancel(_) => MetricsPass(frames[1..], last, served)
    case FinalFrame(f) => frames[1..] == [] && PeerAcceptsFinal(f) && Reconciles(f, last, served, served)
    case HostError => false
  }

  /** The last checkpoint and the request count the peer will have after these frames. */
  function LastAfter(frames: seq<HostFrame>, last: Option<Partial>): Option<Partial> {
    if frames == [] then last else
      LastAfter(frames[1..], if frames[0].Checkpoint? then Some(frames[0].metrics) else last)
  }

  function ServedAfter(frames: seq<HostFrame>, served: nat): nat {
    if frames == [] then served else ServedAfter(frames[1..], if frames[0].Request? then served + 1 else served)
  }

  predicate NoFinal(frames: seq<HostFrame>) {
    forall i | 0 <= i < |frames| :: !frames[i].FinalFrame?
  }

  lemma {:induction false} AfterAdd(frames: seq<HostFrame>, frame: HostFrame, last: Option<Partial>, served: nat)
    ensures LastAfter(frames + [frame], last) == (if frame.Checkpoint? then Some(frame.metrics) else LastAfter(frames, last))
    ensures ServedAfter(frames + [frame], served) == ServedAfter(frames, served) + if frame.Request? then 1 else 0
  {
    if frames != [] {
      AfterAdd(frames[1..], frame, if frames[0].Checkpoint? then Some(frames[0].metrics) else last,
               if frames[0].Request? then served + 1 else served);
      assert (frames + [frame])[1..] == frames[1..] + [frame];
    }
  }

  /** A frame that passes after everything before it extends a passing stream. */
  lemma {:induction false} MetricsPassAdd(frames: seq<HostFrame>, frame: HostFrame, last: Option<Partial>, served: nat)
    requires MetricsPass(frames, last, served) && NoFinal(frames)
    requires MetricsPass([frame], LastAfter(frames, last), ServedAfter(frames, served))
    ensures MetricsPass(frames + [frame], last, served)
  {
    if frames == [] {
      assert frames + [frame] == [frame];
    } else {
      MetricsPassAdd(frames[1..], frame, if frames[0].Checkpoint? then Some(frames[0].metrics) else last,
                     if frames[0].Request? then served + 1 else served);
      assert (frames + [frame])[1..] == frames[1..] + [frame];
    }
  }
}
