/**
 What further copies of a request put at risk. A copy that arrives when its
 server transaction is gone opens a second one, whose user may answer
 differently, and ACKs do not say which response they are for.
 */
module InviteReopening {
  import opened Wrappers
  import C = InviteClient
  import R = InviteClientRuns
  import S = InviteServer
  import W = InviteServerTheorems
  import opened InviteAgreement

  lemma Starts(s: S.Server)
    requires s.state == S.Started && !s.running
    ensures s.Start(SMOOTH).state == S.Proceeding && s.log <= s.Start(SMOOTH).log
  {
    var t := s.(running := true);
    assert s.Start(SMOOTH) == t.Take(S.Proceeding, S.Started2Proceeding, S.TRYING, SMOOTH);
    W.TakePutsOut(t, S.Proceeding, S.Started2Proceeding, S.TRYING, SMOOTH);
  }

  lemma Asked(y: System, z: System)
    requires z == Step(y, Input(InviteArrives(SMOOTH), SMOOTH)) && IsSound(y.server)
    requires y.server.state == S.Started || y.server.state == S.Terminated
    ensures z.client == y.client && z.server.state == S.Proceeding
    ensures forall r :: Sent(y, r) ==> Sent(z, r)
  {
    if y.server.running {
      assert z == Reopened(y, y.server, SMOOTH);
      Starts(S.Fresh(y.server.reliable, y.intervals, y.server.timers));
      assert y.server in z.removed;
    } else {
      Starts(y.server);
    }
  }

  lemma Cancelled(y: System, z: System)
    requires z == Step(y, Input(ServerFails(S.Cancel), SMOOTH)) && IsSound(y.server)
    ensures z.client == y.client && IsSound(z.server)
    ensures z.server.state == if y.server.state == S.Started then S.Started else S.Terminated
    ensures forall r :: Sent(y, r) ==> Sent(z, r)
  {
    W.ErrorsEndOnceStarted(y.server, S.Cancel, SMOOTH);
    W.ActKeepsPhase(y.server, S.Cancel, S.NO_MESSAGE, SMOOTH);
    ServerActMovesOn(y.server, S.Cancel, S.NO_MESSAGE, SMOOTH);
    ServerActRuns(y.server, S.Cancel, S.NO_MESSAGE, SMOOTH);
  }

  /** Whatever has happened, the server may be cancelled, and another copy of the request open a new one. */
  lemma AskAgain(y: System, k: Clock) returns (more: seq<Input>, z: System)
    requires Sane(y, k)
    ensures IsRun(y, more, z) && Sane(z, k)
    ensures z.client == y.client && z.server.state == S.Proceeding
    ensures forall r :: Sent(y, r) ==> Sent(z, r)
  {
    var cancel, invite := Input(ServerFails(S.Cancel), SMOOTH), Input(InviteArrives(SMOOTH), SMOOTH);
    var x := Step(y, cancel);
    StepIsSane(y, cancel, k);
    StepIsSane(x, invite, k);
    Cancelled(y, x);
    z := Step(x, invite);
    Asked(x, z);
    more := [cancel, invite];
    assert more[1..] == [invite];
    RunOfOne(x, invite);
  }

  /** The user answers a new server transaction with `q`. */
  lemma AnswerAgain(y: System, q: Response, k: Clock) returns (more: seq<Input>, z: System)
    requires Sane(y, k) && W.IsFinal(q)
    ensures IsRun(y, more, z) && Sane(z, k)
    ensures z.client == y.client && HasSent(z.server, q)
    ensures R.IsFailure(q) ==> z.server.state == S.Completed && z.server.last == Some(q)
  {
    var x;
    more, x := AskAgain(y, k);
    var answer := Input(UserResponds(S.Message(q, true)), SMOOTH);
    StepIsSane(x, answer, k);
    z := ServerAnswers(x, q);
    RunOfOne(x, answer);
    RunOfConcat(y, more, x, [answer], z);
    more := more + [answer];
  }

  /** A client that waits can be given a failure. */
  lemma Refuse(y: System, k: Clock) returns (more: seq<Input>, z: System, r: Response)
    requires Sane(y, k) && IsWaiting(y.client)
    ensures IsRun(y, more, z) && Sane(z, k)
    ensures IsTold(z.client, r) && C.SendAck(r) in z.client.log
  {
    var x;
    r := C.Response(486, 0);
    more, x := AnswerAgain(y, r, k);
    var e := AtClient(R.Input(R.Receives(r), C.Results(0, 0)));
    StepIsSane(x, Input(e, SMOOTH), k);
    z := ClientIsAnswered(x, r);
    RunOfOne(x, Input(e, SMOOTH));
    RunOfConcat(y, more, x, [Input(e, SMOOTH)], z);
    more := more + [Input(e, SMOOTH)];
  }

  /** A client that has been told an outcome can be contradicted. */
  lemma Contradict(y: System, r: Response, k: Clock) returns (more: seq<Input>, z: System)
    requires Sane(y, k) && IsTold(y.client, r)
    ensures IsRun(y, more, z) && Disagree(z)
  {
    var q := if R.IsSuccess(r) then C.Response(486, 0) else C.Response(200, 0);
    more, z := AnswerAgain(y, q, k);
    assert Sent(z, q) && !W.Compatible(r, q);
  }

  /** Nothing changes the log of a client that has been removed. */
  lemma RemovedIsSilent(c: C.Client, i: R.Input)
    requires c.state == C.Terminated && c.running
    ensures var d := R.Step(c, i); d.state == C.Terminated && d.running && d.log == c.log
  {
  }

  lemma {:induction false} RunKeepsRemoved(y: System, inputs: seq<Input>, z: System)
    requires y.client.state == C.Terminated && y.client.running && IsRun(y, inputs, z)
    ensures z.client.log == y.client.log
    decreases |inputs|
  {
    if inputs != [] {
      if inputs[0].event.AtClient? {
        RemovedIsSilent(y.client, inputs[0].event.input);
      }
      RunKeepsRemoved(Step(y, inputs[0]), inputs[1..], z);
    }
  }

  /** Which of the client's states know an outcome, and have an ACK under way. */
  lemma {:induction false} ToldByPhase(log: seq<C.Output>)
    requires R.PhaseOf(log).Some?
    ensures R.PhaseOf(log).value == R.Answered ==> exists r :: R.IsSuccess(r) && C.PassUp(r) in log
    ensures R.PhaseOf(log).value.Acknowledged? || R.PhaseOf(log).value == R.Rejected ==> exists r :: C.SendAck(r) in log
    ensures R.PhaseOf(log).value == R.Rejected ==> exists r :: R.IsFailure(r) && C.PassUp(r) in log
    ensures R.PhaseOf(log).value.Acknowledged? ==> R.IsFailure(R.PhaseOf(log).value.response)
  {
    if log != [] {
      var front, o := log[..|log| - 1], log[|log| - 1];
      ToldByPhase(front);
      assert log == front + [o] && o in log;
      assert forall p :: p in front ==> p in log;
    }
  }

  ghost predicate KnowsOutcome(c: C.Client) {
    exists r :: IsTold(c, r)
  }

  /** A client that neither waits nor has been removed knows the outcome. */
  lemma OutcomeIsKnown(y: System, k: Clock)
    requires Sane(y, k) && !IsWaiting(y.client) && y.client.state != C.Terminated
    ensures AckIsUnderWay(y.client) && KnowsOutcome(y.client)
  {
    ToldByPhase(y.client.log);
    if y.client.state == C.Accepted {
      var r :| R.IsSuccess(r) && C.PassUp(r) in y.client.log;
      assert IsTold(y.client, r);
    } else {
      var r :| R.IsFailure(r) && C.PassUp(r) in y.client.log;
      assert IsTold(y.client, r);
    }
  }

  /** Some way of going on leads to a disagreement. */
  ghost predicate CanDisagree(y: System) {
    exists more, z :: IsRun(y, more, z) && Disagree(z)
  }

  lemma WaitingCanDisagree(y: System, k: Clock)
    requires Sane(y, k) && IsWaiting(y.client)
    ensures CanDisagree(y)
  {
    var more, x, r := Refuse(y, k);
    var rest, z := Contradict(x, r, k);
    RunOfConcat(y, more, x, rest, z);
  }

  lemma ToldCanDisagree(y: System, r: Response, k: Clock)
    requires Sane(y, k) && IsTold(y.client, r)
    ensures CanDisagree(y)
  {
    var more, z := Contradict(y, r, k);
  }

  lemma NothingToContradict(z: System, k: Clock)
    requires Sane(z, k) && !IsWaiting(z.client) && !KnowsOutcome(z.client)
    ensures !CanDisagree(z)
  {
    if z.client.state != C.Terminated {
      OutcomeIsKnown(z, k);
    }
    forall more, w | IsRun(z, more, w)
      ensures !Disagree(w)
    {
      RunKeepsRemoved(z, more, w);
      assert forall r :: IsTold(w.client, r) ==> IsTold(z.client, r);
    }
  }

  /**
   With further copies of the request, the users can still come to disagree, after any run, exactly if the client
   waits for an outcome or its user has been told one.
   */
  lemma {:induction false} AgreementCanBeLost(y: System, inputs: seq<Input>, z: System)
    requires IsInitial(y) && IsRun(y, inputs, z)
    ensures CanDisagree(z) <==> IsWaiting(z.client) || KnowsOutcome(z.client)
  {
    var k := InitialIsSane(y);
    RunIsSane(y, inputs, z, k);
    if IsWaiting(z.client) {
      WaitingCanDisagree(z, k);
    } else if KnowsOutcome(z.client) {
      var r :| IsTold(z.client, r);
      ToldCanDisagree(z, r, k);
    } else {
      NothingToContradict(z, k);
    }
  }

  /** A server is wrong to consider its response confirmed. */
  predicate IsMistaken(y: System) {
    y.server.state == S.Confirmed && !IsAcknowledged(y)
  }

  function MaxSerial(log: seq<C.Output>): nat {
    if log == [] then 0
    else
      var o, rest := log[|log| - 1], MaxSerial(log[..|log| - 1]);
      if o.SendAck? && o.response.serial > rest then o.response.serial else rest
  }

  lemma {:induction false} LaterSerial(log: seq<C.Output>, r: Response)
    requires r.serial > MaxSerial(log)
    ensures C.SendAck(r) !in log
  {
    if log != [] {
      LaterSerial(log[..|log| - 1], r);
      assert log == log[..|log| - 1] + [log[|log| - 1]];
    }
  }

  lemma Confirms(y: System, z: System)
    requires y.server.state == S.Completed && z == Step(y, Input(AckArrives, SMOOTH))
    ensures z.server.state == S.Confirmed && z.server.last == y.server.last && z.client == y.client
  {
    W.TakePutsOut(y.server, S.Confirmed, S.Completed2Confirmed, S.TRYING, SMOOTH);
  }

  /** An ACK that is under way confirms whatever a new server transaction has sent. */
  lemma Mislead(y: System, k: Clock) returns (more: seq<Input>, z: System)
    requires Sane(y, k) && AckIsUnderWay(y.client)
    ensures IsRun(y, more, z) && IsMistaken(z)
  {
    var x;
    var q := C.Response(486, MaxSerial(y.client.log) + 1);
    LaterSerial(y.client.log, q);
    more, x := AnswerAgain(y, q, k);
    var ack := Input(AckArrives, SMOOTH);
    z := Step(x, ack);
    Confirms(x, z);
    RunOfOne(x, ack);
    RunOfConcat(y, more, x, [ack], z);
    more := more + [ack];
  }

  ghost predicate CanBeMistaken(y: System) {
    exists more, z :: IsRun(y, more, z) && IsMistaken(z)
  }

  lemma WaitingCanMislead(y: System, k: Clock)
    requires Sane(y, k) && IsWaiting(y.client)
    ensures CanBeMistaken(y)
  {
    var more, x, r := Refuse(y, k);
    var rest, z := Mislead(x, k);
    RunOfConcat(y, more, x, rest, z);
  }

  lemma AckCanMislead(y: System, k: Clock)
    requires Sane(y, k) && AckIsUnderWay(y.client)
    ensures CanBeMistaken(y)
  {
    var more, z := Mislead(y, k);
  }

  lemma NothingToConfirm(z: System, k: Clock)
    requires Sane(z, k) && !IsWaiting(z.client) && !AckIsUnderWay(z.client)
    ensures !CanBeMistaken(z)
  {
    if z.client.state != C.Terminated {
      OutcomeIsKnown(z, k);
    }
    forall more, w | IsRun(z, more, w)
      ensures !IsMistaken(w)
    {
      RunKeepsRemoved(z, more, w);
      RunIsSane(z, more, w, k);
    }
  }

  /**
   ACKs are matched by call and sequence number only. So with further copies of the request a server can be
   misled, after any run, exactly if the client waits for an outcome or an ACK is under way.
   */
  lemma {:induction false} ServerCanBeMistaken(y: System, inputs: seq<Input>, z: System)
    requires IsInitial(y) && IsRun(y, inputs, z)
    ensures CanBeMistaken(z) <==> IsWaiting(z.client) || AckIsUnderWay(z.client)
  {
    var k := InitialIsSane(y);
    RunIsSane(y, inputs, z, k);
    if IsWaiting(z.client) {
      WaitingCanMislead(z, k);
    } else if AckIsUnderWay(z.client) {
      AckCanMislead(z, k);
    } else {
      NothingToConfirm(z, k);
    }
  }
}
