/** ICE candidate buffering in the two establish loops. */
module Candidates {
  import opened Primitives

  type CandidateInit = string

  /** What the signaling channel delivers; a candidate that does not parse is `Candidate(None)`. */
  datatype Signal =
    | Offer(sdp: string)
    | Answer(sdp: string)
    | Candidate(parsed: Option<CandidateInit>)
    | PeerLeft
    | Error(message: string)
    | Lost
    | Other

  // `dcOpen`: the data channel is found open when the turn checks for it.
  datatype Turn =
    | Received(signal: Signal, dcOpen: bool)
    | Connected(opens: bool, dcOpen: bool)   // offerer: connection up; the data channel opens while it waits, or later
    | ChannelOpened                          // answerer: notified that the data channel is open
    | ConnectionFailed

  datatype Ended = Established | Gone | Refused(message: string) | NoSignaling | NoConnection | RtcError | Running

  /** The candidates among the first `n` turns that parsed, in order of arrival. */
  function Parsed(turns: seq<Turn>, n: nat): seq<CandidateInit>
    requires n <= |turns|
  {
    if n == 0 then []
    else
      var before, last := Parsed(turns, n - 1), turns[n - 1];
      if last.Received? && last.signal.Candidate? && last.signal.parsed.Some?
      then before + [last.signal.parsed.value]
      else before
  }

  /** An answer describes the remote side to the offerer, an offer to the answerer. */
  predicate Describes(t: Turn, offerer: bool) {
    t.Received? && if offerer then t.signal.Answer? else t.signal.Offer?
  }

  /** The descriptions among them, in order. */
  function Descriptions(turns: seq<Turn>, offerer: bool, n: nat): seq<string>
    requires n <= |turns|
  {
    if n == 0 then []
    else
      var before, last := Descriptions(turns, offerer, n - 1), turns[n - 1];
      if Describes(last, offerer) then before + [last.signal.sdp] else before
  }

  /** There is a description as soon as one of the turns brought it. */
  lemma {:induction false} DescribedByOne(turns: seq<Turn>, offerer: bool, n: nat)
    requires n <= |turns|
    ensures Descriptions(turns, offerer, n) != [] <==> exists i :: 0 <= i < n && Describes(turns[i], offerer)
  {
    if n > 0 {
      DescribedByOne(turns, offerer, n - 1);
    }
  }

  /** A turn that finds the data channel open. */
  predicate Opens(t: Turn, offerer: bool) {
    match t
    case Received(_, dcOpen) => dcOpen
    case Connected(opens, dcOpen) => offerer && (opens || dcOpen)
    case ChannelOpened => !offerer
    case ConnectionFailed => false
  }

  /** How a turn that meets no failing operation leaves the loop: going on, or ended in exactly one way. */
  function TurnResult(turn: Turn, offerer: bool): Ended {
    match turn
    case ConnectionFailed => NoConnection
    case Received(PeerLeft, _) => Gone
    case Received(Error(message), _) => Refused(message)
    case Received(Lost, _) => NoSignaling
    case _ => if Opens(turn, offerer) then Established else Running
  }

  /** An operation on the connection may be due: a description to set or a candidate to add. */
  predicate Operates(turn: Turn, offerer: bool) {
    Describes(turn, offerer) || (turn.Received? && turn.signal.Candidate? && turn.signal.parsed.Some?)
  }

  /** How a turn ends the loop, or lets it go on. */
  ghost predicate TurnEnds(turn: Turn, offerer: bool, ended: Ended) {
    ended == TurnResult(turn, offerer) || (ended == RtcError && Operates(turn, offerer))
  }

  /** The first `n` turns all let it go on. */
  ghost predicate GoesOn(turns: seq<Turn>, offerer: bool, n: nat)
    requires n <= |turns|
  {
    forall i :: 0 <= i < n ==> TurnResult(turns[i], offerer) == Running
  }

  /** `n` turns were taken: the last one ended the loop, or it goes on; all before let it go on. */
  ghost predicate Took(turns: seq<Turn>, offerer: bool, ended: Ended, n: nat) {
    && n <= |turns|
    && if ended == Running then GoesOn(turns, offerer, n)
       else n > 0 && GoesOn(turns, offerer, n - 1) && TurnEnds(turns[n - 1], offerer, ended)
  }

  lemma TookNext(turns: seq<Turn>, offerer: bool, ended: Ended, n: nat)
    requires n < |turns| && Took(turns, offerer, Running, n) && TurnEnds(turns[n], offerer, ended)
    ensures Took(turns, offerer, ended, n + 1)
  {
  }

  /**
   * The peer connection, with the descriptions set on it, the candidates added to it, and the descriptions answered.
   * Any
   * operation may fail, and `failures` counts those that did.
   */
  class PeerConnection {
    var remote: seq<string>
    var applied: seq<CandidateInit>
    var answered: seq<string>
    var failures: nat

    constructor ()
      ensures remote == [] && applied == [] && answered == [] && failures == 0
    {
      remote, applied, answered, failures := [], [], [], 0;
    }

    method SetRemoteDescription(sdp: string) returns (ok: bool)
      modifies this`remote, this`failures
      ensures remote == if ok then old(remote) + [sdp] else old(remote)
      ensures failures == old(failures) + if ok then 0 else 1
    {
      ok := *;
      if ok {
        remote := remote + [sdp];
      } else {
        failures := failures + 1;
      }
    }

    method AddIceCandidate(c: CandidateInit) returns (ok: bool)
      requires remote != []
      modifies this`applied, this`failures
      ensures applied == if ok then old(applied) + [c] else old(applied)
      ensures failures == old(failures) + if ok then 0 else 1
    {
      ok := *;
      if ok {
        applied := applied + [c];
      } else {
        failures := failures + 1;
      }
    }

    /** Creating, setting and sending the answer to the current description. */
    method SendAnswer() returns (ok: bool)
      requires remote != []
      modifies this`answered, this`failures
      ensures answered == if ok then old(answered) + [remote[|remote| - 1]] else old(answered)
      ensures failures == old(failures) + if ok then 0 else 1
    {
      ok := *;
      if ok {
        answered := answered + [remote[|remote| - 1]];
      } else {
        failures := failures + 1;
      }
    }
  }

  /** The loop variables of an establish function. */
  class Establishing {
    const pc: PeerConnection
    const offerer: bool
    var remoteDescSet: bool
    var buffered: seq<CandidateInit>

    constructor (pc: PeerConnection, offerer: bool)
      requires pc.remote == [] && pc.applied == [] && pc.answered == []
      ensures this.pc == pc && this.offerer == offerer && forall turns :: Consistent(turns, 0)
    {
      this.pc, this.offerer, remoteDescSet, buffered := pc, offerer, false, [];
    }

    /** What holds at every loop head, after `n` turns. */
    ghost predicate Consistent(turns: seq<Turn>, n: nat)
      requires n <= |turns|
      reads this, pc
    {
      && pc.applied + buffered == Parsed(turns, n)
      && remoteDescSet == (pc.remote != [])
      && (if remoteDescSet then buffered == [] else pc.applied == [])
      && pc.remote == Descriptions(turns, offerer, n)
      && pc.answered == (if offerer then [] else Descriptions(turns, false, n))
    }

    /** `apply_buffered_candidates`: drains the buffer, in order, up to the first failure. */
    method ApplyBuffered() returns (ok: bool)
      requires pc.remote != []
      modifies this`buffered, pc`applied, pc`failures
      ensures buffered == [] && pc.failures == old(pc.failures) + if ok then 0 else 1
      ensures ok ==> pc.applied == old(pc.applied) + old(buffered)
      ensures pc.applied <= old(pc.applied) + old(buffered)
    {
      ghost var all, before, n := buffered, pc.applied, 0;
      ok := true;
      while buffered != [] && ok
        invariant 0 <= n <= |all| && pc.applied == before + all[..n]
        invariant if ok then buffered == all[n..] else n < |all|
        invariant pc.failures == old(pc.failures) + if ok then 0 else 1
        decreases |buffered|, ok
      {
        var c := buffered[0];
        buffered := buffered[1..];
        ok := pc.AddIceCandidate(c);
        if ok {
          assert all[..n + 1] == all[..n] + [c];
          n := n + 1;
        }
      }
      if ok {
        assert all[..n] == all;
      }
      assert before + all == before + all[..n] + all[n..];
      buffered := [];
    }

    /** The awaited description arrives. */
    method Describe(sdp: string) returns (ok: bool)
      modifies this, pc`remote, pc`applied, pc`failures
      ensures ok ==> remoteDescSet && buffered == [] && pc.applied == old(pc.applied) + old(buffered)
      ensures ok ==> pc.remote == old(pc.remote) + [sdp]
      ensures pc.applied <= old(pc.applied) + old(buffered)
      ensures pc.failures == old(pc.failures) + if ok then 0 else 1
    {
      ok := pc.SetRemoteDescription(sdp);
      if !ok {
        return;
      }
      remoteDescSet := true;
      ok := ApplyBuffered();
    }

    /** A parsed candidate is applied at once or buffered. */
    method Take(c: CandidateInit) returns (ok: bool)
      requires remoteDescSet ==> pc.remote != []
      modifies this`buffered, pc`applied, pc`failures
      ensures pc.failures == old(pc.failures) + if ok then 0 else 1
      ensures !ok ==> pc.applied == old(pc.applied)
      ensures ok ==> pc.applied == (if remoteDescSet then old(pc.applied) + [c] else old(pc.applied))
      ensures ok ==> buffered == (if remoteDescSet then old(buffered) else old(buffered) + [c])
    {
      ok := true;
      if remoteDescSet {
        ok := pc.AddIceCandidate(c);
      } else {
        buffered := buffered + [c];
      }
    }

    /** The awaited description is set, what was buffered applied, and an offer answered. */
    method OnDescription(sdp: string, ghost turns: seq<Turn>, ghost n: nat) returns (ok: bool)
      requires n < |turns| && Consistent(turns, n) && Describes(turns[n], offerer) && turns[n].signal.sdp == sdp
      modifies this, pc
      ensures ok ==> Consistent(turns, n + 1)
      ensures pc.applied <= Parsed(turns, n + 1)
      ensures pc.failures == old(pc.failures) + if ok then 0 else 1
    {
      ok := Describe(sdp);
      if ok && !offerer {
        ok := pc.SendAnswer();
      }
    }

    /** A parsed candidate is applied or buffered. */
    method OnCandidate(c: CandidateInit, ghost turns: seq<Turn>, ghost n: nat) returns (ok: bool)
      requires n < |turns| && Consistent(turns, n) && turns[n].Received? && turns[n].signal == Candidate(Some(c))
      modifies this`buffered, pc`applied, pc`failures
      ensures ok ==> Consistent(turns, n + 1)
      ensures pc.applied <= Parsed(turns, n + 1)
      ensures pc.failures == old(pc.failures) + if ok then 0 else 1
    {
      ok := Take(c);
    }

    /** One signal: unless it ends the attempt or an operation on the connection fails, the loop goes on, consistent. */
    method OnSignal(signal: Signal, ghost turns: seq<Turn>, ghost n: nat) returns (ended: Ended)
      requires n < |turns| && Consistent(turns, n) && turns[n].Received? && turns[n].signal == signal
      modifies this, pc
      ensures ended == Running ==> Consistent(turns, n + 1)
      ensures pc.applied <= Parsed(turns, n + 1)
      ensures pc.failures == old(pc.failures) + if ended == RtcError then 1 else 0
      ensures match signal
              case PeerLeft => ended == Gone
              case Error(message) => ended == Refused(message)
              case Lost => ended == NoSignaling
              case Other => ended == Running
              case _ => ended == Running || (ended == RtcError && Operates(turns[n], offerer))
    {
      var ok := true;
      match signal {
        case Answer(sdp) =>
          if offerer {
            ok := OnDescription(sdp, turns, n);
          }
        case Offer(sdp) =>
          if !offerer {
            ok := OnDescription(sdp, turns, n);
          }
        case Candidate(parsed) =>
          if parsed.Some? {
            ok := OnCandidate(parsed.value, turns, n);
          }
        case PeerLeft => return Gone;
        case Error(message) => return Refused(message);
        case Lost => return NoSignaling;
        case Other =>
      }
      ended := if ok then Running else RtcError;
    }

    /** One turn of the select loop, with the check for an open channel that follows it. */
    method TakeTurn(turn: Turn, ghost turns: seq<Turn>, ghost n: nat) returns (ended: Ended)
      requires n < |turns| && Consistent(turns, n) && turns[n] == turn
      modifies this, pc
      ensures TurnEnds(turn, offerer, ended)
      ensures ended == Running || ended == Established ==> Consistent(turns, n + 1)
      ensures pc.applied <= Parsed(turns, n + 1)
      ensures pc.failures == old(pc.failures) + if ended == RtcError then 1 else 0
    {
      ended := Running;
      match turn {
        case Received(signal, dcOpen) =>
          ended := OnSignal(signal, turns, n);
          if ended == Running && dcOpen {
            ended := Established;
          }
        case Connected(opens, dcOpen) =>
          if offerer && (opens || dcOpen) {
            ended := Established;
          }
        case ChannelOpened =>
          if !offerer {
            ended := Established;
          }
        case ConnectionFailed =>
          ended := NoConnection;
      }
    }

    /**
     * The select loop, over the turns it takes until it ends: at the first turn that finds the data channel open,
     * unless an earlier one ended the attempt. However it ends, only parsed candidates were applied, in order.
     */
    method Loop(turns: seq<Turn>) returns (ended: Ended, n: nat)
      requires Consistent(turns, 0)
      modifies this, pc
      ensures Took(turns, offerer, ended, n) && (ended == Running ==> n == |turns|)
      ensures ended == Running || ended == Established ==> Consistent(turns, n)
      ensures pc.applied <= Parsed(turns, n)
      ensures pc.failures == old(pc.failures) + if ended == RtcError then 1 else 0
    {
      n, ended := 0, Running;
      while n < |turns| && ended == Running
        invariant Took(turns, offerer, ended, n)
        invariant ended == Running || ended == Established ==> Consistent(turns, n)
        invariant pc.applied <= Parsed(turns, n)
        invariant pc.failures == old(pc.failures) + if ended == RtcError then 1 else 0
        decreases |turns| - n
      {
        ended := TakeTurn(turns[n], turns, n);
        TookNext(turns, offerer, ended, n);
        n := n + 1;
      }
    }
  }
}
