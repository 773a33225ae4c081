/**
 A client and a server transaction of the same INVITE, joined by a network that
 may lose, duplicate, delay and reorder messages.

 The network needs no state of its own: what has been sent stands in the logs,
 and anything sent may arrive at any later time, any number of times or never.

 A request that its server transaction does not take, because that has been
 removed or fails on it, goes to the dialogs, which open a new transaction for
 it and ask the user again.
 */
module InviteAgreement {
  import opened Wrappers
  import opened Timers
  import C = InviteClient
  import R = InviteClientRuns
  import T = InviteClientTheorems
  import S = InviteServer
  import W = InviteServerTheorems
  import SR = InviteServerRuns
  import D = InviteServerDelivery

  type Response = C.Response

  predicate HasSent(s: S.Server, r: Response) {
    S.Send(r) in s.log
  }

  /** The client has acted on a response. */
  predicate HasHeard(c: C.Client, r: Response) {
    C.PassUp(r) in c.log || C.SendAck(r) in c.log
  }

  // ----- the server -------------------------------------------------------

  /** A server transaction that has been started, or has nothing to show. */
  ghost predicate IsSound(s: S.Server) {
    W.InPhase(s) && (s.running <==> s.state != S.Started)
  }

  /** What has been sent, by the state. */
  lemma SentByState(s: S.Server, r: Response)
    requires W.InPhase(s) && HasSent(s, r)
    ensures s.state != S.Started
    ensures s.state == S.Proceeding ==> R.IsProvisional(r)
    ensures s.state in {S.Completed, S.Confirmed} ==> R.IsProvisional(r) || Some(r) == s.last
    ensures s.state == S.Accepted ==> R.IsProvisional(r) || R.IsSuccess(r)
  {
    W.LegalIsWellBehaved(s.log);
    var i :| 0 <= i < |s.log| && s.log[i] == S.Send(r);
  }

  lemma SentIsCompatible(s: S.Server, r: Response, q: Response)
    requires W.InPhase(s) && HasSent(s, r) && HasSent(s, q)
    ensures W.Compatible(r, q)
  {
    W.LegalIsWellBehaved(s.log);
    var i :| 0 <= i < |s.log| && s.log[i] == S.Send(r);
    var j :| 0 <= j < |s.log| && s.log[j] == S.Send(q);
  }

  lemma ServerActMovesOn(s: S.Server, action: S.Action, m: S.Message, results: S.Results)
    ensures var d := s.Act(action, m, results);
      && s.log <= d.log
      && (d.state == S.Confirmed ==>
            d.last == s.last && (s.state == S.Confirmed || (s.state == S.Completed && action == S.RecvAck)))
      && (d.state == S.Started ==> s.state == S.Started)
      && (s.state == S.Started && action != S.RecvInvite ==> d.state == S.Started)
  {
    if s.state != S.Terminated && S.Transition(s.state, action, m).Some? {
      var (to, exec) := S.Transition(s.state, action, m).value;
      W.TakePutsOut(s, to, exec, m.response, results);
    }
  }

  lemma ServerActRuns(s: S.Server, action: S.Action, m: S.Message, results: S.Results)
    ensures s.Act(action, m, results).running == s.running
  {
  }

  // ----- the client -------------------------------------------------------

  /** Only the receipt of a response makes the client act on it. */
  lemma OutputsHear(state: C.State, action: C.Action, q: Response, results: C.Results)
    requires C.Transition(state, action).Some?
    ensures var (to, exec) := C.Transition(state, action).value;
      forall r :: C.PassUp(r) in C.Outputs(exec, q, results) || C.SendAck(r) in C.Outputs(exec, q, results)
        ==> r == q && action in {C.Provisional, C.Success, C.Failure}
  {
  }

  lemma ActHears(c: C.Client, action: C.Action, q: Response, results: C.Results, r: Response)
    requires HasHeard(c.Act(action, q, results), r)
    ensures HasHeard(c, r) || (r == q && action in {C.Provisional, C.Success, C.Failure})
  {
    if c.state != C.Terminated && C.Transition(c.state, action).Some? {
      var (to, exec) := C.Transition(c.state, action).value;
      R.TakePutsOut(c, to, exec, q, results);
      OutputsHear(c.state, action, q, results);
    }
  }

  lemma TimerHears(c: C.Client, id: nat, results: C.Results, r: Response)
    requires HasHeard(c.TimerFires(id, results), r)
    ensures HasHeard(c, r)
  {
    if c.TimerActionFor(id).Some? {
      ActHears(c, c.TimerActionFor(id).value, C.NO_RESPONSE, results, r);
    }
  }

  lemma StepHears(c: C.Client, input: R.Input, r: Response)
    requires HasHeard(R.Step(c, input), r)
    ensures HasHeard(c, r) || input.event == R.Receives(r)
  {
    var results := input.results;
    match input.event
    case Receives(q) =>
      if C.ActionFor(q.code).Some? {
        ActHears(c, C.ActionFor(q.code).value, q, results, r);
      }
    case TransportFails => ActHears(c, C.TransportError, C.NO_RESPONSE, results, r);
    case ErrorOccurs => ActHears(c, C.Error, C.NO_RESPONSE, results, r);
    case DialogCancels => ActHears(c, C.Cancel, C.NO_RESPONSE, results, r);
    case StartsAgain =>
      if !c.running {
        ActHears(c.(running := true), C.Send, C.NO_RESPONSE, results, r);
      }
    case Manages(move) =>
      if move.Dequeued? && move.id in c.timers.queued {
        TimerHears(c.(timers := Apply(c.timers, move)), move.id, results, r);
      }
  }

  // ----- both together ----------------------------------------------------

  /** `removed` are the server transactions that have been replaced by a new one. */
  datatype System = System(client: C.Client, server: S.Server, intervals: S.Intervals, removed: seq<S.Server>)

  datatype Event =
    | AtClient(input: R.Input)
    | InviteArrives(reopening: S.Results)
    | AckArrives
    | UserResponds(message: S.Message)
    | ServerTimerFires(id: nat)
    | ServerFails(action: S.Action)     // a transport error, another error, or a cancellation

  datatype Input = Input(event: Event, results: S.Results)

  ghost predicate Sent(y: System, r: Response) {
    HasSent(y.server, r) || exists s :: s in y.removed && HasSent(s, r)
  }

  /** The user acknowledges a 2xx by itself. */
  ghost predicate UserAcknowledges(c: C.Client) {
    exists r :: R.IsSuccess(r) && C.PassUp(r) in c.log
  }

  ghost predicate AckIsUnderWay(c: C.Client) {
    (exists r :: C.SendAck(r) in c.log) || UserAcknowledges(c)
  }

  /** Only what has been sent can arrive. */
  ghost predicate Possible(y: System, e: Event) {
    match e
    case AtClient(input) => input.event.Receives? ==> Sent(y, input.event.response)
    case InviteArrives(_) => C.SendInvite in y.client.log
    case AckArrives => AckIsUnderWay(y.client)
    case ServerFails(action) => action in {S.TransportError, S.Error, S.Cancel}
    case _ => true
  }

  /** In figures: anything that has been sent may arrive, and nothing keeps the users and the timers from acting. */
  lemma AnythingSentMayArrive(y: System, i: R.Input, results: S.Results)
    ensures i.event.Receives? ==> (Possible(y, AtClient(i)) <==> Sent(y, i.event.response))
    ensures !i.event.Receives? ==> Possible(y, AtClient(i))
    ensures Possible(y, InviteArrives(results)) <==> C.SendInvite in y.client.log
    ensures Possible(y, AckArrives) <==>
      exists r :: C.SendAck(r) in y.client.log || (200 <= r.code <= 299 && C.PassUp(r) in y.client.log)
    ensures forall m :: Possible(y, UserResponds(m))
    ensures forall id :: Possible(y, ServerTimerFires(id))
    ensures forall action :: action in {S.TransportError, S.Error, S.Cancel} ==> Possible(y, ServerFails(action))
  {
    if UserAcknowledges(y.client) {
      var r :| R.IsSuccess(r) && C.PassUp(r) in y.client.log;
      assert 200 <= r.code <= 299;
    }
    if r: Response :| 200 <= r.code <= 299 && C.PassUp(r) in y.client.log {
      assert R.IsSuccess(r);
    }
  }

  /** A new server transaction takes the place of `former`. */
  function Reopened(y: System, former: S.Server, results: S.Results): System {
    y.(server := S.Fresh(former.reliable, y.intervals, former.timers).Start(results), removed := y.removed + [former])
  }

  /** The request arrives: for the first time, for the transaction, or for the dialogs once more. */
  function Deliver(y: System, results: S.Results, reopening: S.Results): System {
    var s := y.server;
    if !s.running then y.(server := s.Start(results))
    else
      var d := s.Act(S.RecvInvite, S.NO_MESSAGE, results);
      if s.ActReturns(S.RecvInvite, S.NO_MESSAGE, results) == 0 then y.(server := d) else Reopened(y, d, reopening)
  }

  function Step(y: System, input: Input): System {
    var s, results := y.server, input.results;
    match input.event
    case AtClient(i) => y.(client := R.Step(y.client, i))
    case InviteArrives(reopening) => Deliver(y, results, reopening)
    case AckArrives => y.(server := s.Act(S.RecvAck, S.NO_MESSAGE, results))
    case UserResponds(m) => y.(server := s.Respond(m, results))
    case ServerTimerFires(id) => y.(server := s.TimerFires(id, results))
    case ServerFails(action) => y.(server := s.Act(action, S.NO_MESSAGE, results))
  }

  /** A request that the server does not take is answered by a new one. */
  ghost predicate IsReopened(y: System, results: S.Results, reopening: S.Results, z: System) {
    && |z.removed| == |y.removed| + 1 && z.removed[..|y.removed|] == y.removed
    && var former := z.removed[|y.removed|];
       && D.Reacts(y.server, D.Answering(y.server, results), former)
       && var renewed := S.Fresh(former.reliable, y.intervals, former.timers);
          D.Reacts(renewed, D.Answering(renewed, reopening), z.server)
  }

  lemma RequestIsTaken(y: System, results: S.Results, reopening: S.Results)
    requires IsSound(y.server)
    ensures var s, z := y.server, Deliver(y, results, reopening);
      if !s.running || D.RequestReturns(s, results) == 0
      then D.Reacts(s, D.Answering(s, results), z.server) && z.removed == y.removed
      else IsReopened(y, results, reopening, z)
  {
    var s, z := y.server, Deliver(y, results, reopening);
    D.RequestIsAnswered(s, results);
    D.RequestIsReturned(s, results);
    if s.running && D.RequestReturns(s, results) != 0 {
      var former := s.Act(S.RecvInvite, S.NO_MESSAGE, results);
      var renewed := S.Fresh(former.reliable, y.intervals, former.timers);
      D.RequestIsAnswered(renewed, reopening);
    }
  }

  lemma FailureIsTaken(s: S.Server, action: S.Action, results: S.Results)
    requires action in {S.TransportError, S.Error, S.Cancel}
    ensures var e := match action
        case TransportError => SR.TransportFails
        case Error => SR.ErrorOccurs
        case _ => SR.DialogCancels;
      D.Reacts(s, D.Failing(s, e), s.Act(action, S.NO_MESSAGE, results))
  {
    var e := match action
      case TransportError => SR.TransportFails
      case Error => SR.ErrorOccurs
      case _ => SR.DialogCancels;
    D.ErrorIsReported(s, e, results);
  }

  /** What every event comes to, with the client's left to the client. */
  lemma EventsAreTaken(y: System, input: Input)
    requires IsSound(y.server) && y.server.state != S.Started
    ensures var s, results, z := y.server, input.results, Step(y, input);
      && (if input.event.AtClient? then z.client == R.Step(y.client, input.event.input) && z.server == s
          else z.client == y.client)
      && (!input.event.InviteArrives? ==> z.removed == y.removed)
      && match input.event
         case AtClient(_) => true
         case InviteArrives(reopening) =>
           if D.RequestReturns(s, results) == 0 then D.Reacts(s, D.Answering(s, results), z.server)
           else IsReopened(y, results, reopening, z)
         case AckArrives => D.Reacts(s, D.Absorbing(s, results), z.server)
         case UserResponds(m) => D.Reacts(s, D.Forwarding(s, m, results), z.server)
         case ServerTimerFires(id) =>
           SR.Sound(s) && id in s.timers.queued ==> D.Reacts(s, D.Ringing(s, id, results), z.server)
         case ServerFails(action) =>
           && (action == S.TransportError ==> D.Reacts(s, D.Failing(s, SR.TransportFails), z.server))
           && (action == S.Error ==> D.Reacts(s, D.Failing(s, SR.ErrorOccurs), z.server))
           && (action == S.Cancel ==> D.Reacts(s, D.Failing(s, SR.DialogCancels), z.server))
  {
    var s, results := y.server, input.results;
    match input.event
    case AtClient(_) =>
    case InviteArrives(reopening) => RequestIsTaken(y, results, reopening);
    case AckArrives => D.AckIsAbsorbed(s, results);
    case UserResponds(m) => D.ResponseIsForwarded(s, m, results);
    case ServerTimerFires(id) =>
      if SR.Sound(s) && id in s.timers.queued {
        D.TimerReacts(s, s, id, results);
      }
    case ServerFails(action) =>
      if action in {S.TransportError, S.Error, S.Cancel} {
        FailureIsTaken(s, action, results);
      }
  }

  /** A run in which every event is possible when it happens. */
  ghost predicate IsRun(y: System, inputs: seq<Input>, z: System)
    decreases |inputs|
  {
    if inputs == [] then y == z
    else Possible(y, inputs[0].event) && IsRun(Step(y, inputs[0]), inputs[1..], z)
  }

  lemma {:induction false} RunOfConcat(x: System, front: seq<Input>, y: System, rest: seq<Input>, z: System)
    requires IsRun(x, front, y) && IsRun(y, rest, z)
    ensures IsRun(x, front + rest, z)
    decreases |front|
  {
    if front == [] {
      assert front + rest == rest;
    } else {
      RunOfConcat(Step(x, front[0]), front[1..], y, rest, z);
      assert (front + rest)[1..] == front[1..] + rest;
    }
  }

  lemma RunOfOne(y: System, input: Input)
    requires Possible(y, input.event)
    ensures IsRun(y, [input], Step(y, input))
  {
    assert [input][1..] == [];
  }

  /** The parameters of the client's own invariant: its start, and its timers A and B. */
  datatype Clock = Clock(start: nat, a: nat, expiry: nat)

  /** The client has acknowledged the last response of the server. */
  predicate IsAcknowledged(y: System) {
    y.server.last.Some? && C.SendAck(y.server.last.value) in y.client.log
  }

  /** A confirmed server has received some ACK; the one server of its request has received the right one. */
  ghost predicate ConfirmedByClient(y: System) {
    y.server.state == S.Confirmed ==>
      && AckIsUnderWay(y.client)
      && (y.removed == [] ==> IsAcknowledged(y))
  }

  /** What every reachable system satisfies. */
  ghost predicate Sane(y: System, k: Clock) {
    && R.Good(y.client, k.start, k.a, k.expiry)
    && C.SendInvite in y.client.log
    && IsSound(y.server)
    && (forall r :: HasHeard(y.client, r) ==> Sent(y, r))
    && ConfirmedByClient(y)
  }

  lemma ConfirmationStays(y: System, d: C.Client)
    requires ConfirmedByClient(y) && y.client.log <= d.log
    ensures ConfirmedByClient(y.(client := d))
  {
    forall o | o in y.client.log
      ensures o in d.log
    {
    }
  }

  lemma ClientStepIsSane(y: System, i: R.Input, k: Clock)
    requires Sane(y, k) && Possible(y, AtClient(i))
    ensures Sane(y.(client := R.Step(y.client, i)), k)
  {
    var d, z := R.Step(y.client, i), y.(client := R.Step(y.client, i));
    R.StepKeepsGood(y.client, i, k.start, k.a, k.expiry);
    T.StepIsLater(y.client, i);
    forall r | HasHeard(d, r)
      ensures Sent(z, r)
    {
      StepHears(y.client, i, r);
      assert Sent(y, r);
    }
    ConfirmationStays(y, d);
  }

  /** An ACK that reaches the one server in `Completed` is for the response that it has sent. */
  lemma AckIsForLast(y: System, k: Clock)
    requires Sane(y, k) && y.removed == []
    requires y.server.state == S.Completed && AckIsUnderWay(y.client)
    ensures IsAcknowledged(y)
  {
    T.LegalIsWellBehaved(y.client.log);
    forall r | R.IsSuccess(r)
      ensures C.PassUp(r) !in y.client.log
    {
      if HasHeard(y.client, r) {
        SentByState(y.server, r);
      }
    }
    var r :| C.SendAck(r) in y.client.log;
    assert HasHeard(y.client, r) && R.IsFailure(r);
    SentByState(y.server, r);
  }

  /** Another server in place of the old one, which may go on to a later one or be removed. */
  lemma ServerIsSane(y: System, z: System, k: Clock)
    requires Sane(y, k) && z.client == y.client && IsSound(z.server)
    requires forall r :: Sent(y, r) ==> Sent(z, r)
    requires ConfirmedByClient(z)
    ensures Sane(z, k)
  {
  }

  lemma ServerActIsSane(y: System, z: System, action: S.Action, m: S.Message, results: S.Results, k: Clock)
    requires Sane(y, k) && W.Fits(action, m)
    requires z == y.(server := y.server.Act(action, m, results))
    requires action == S.RecvAck ==> AckIsUnderWay(y.client)
    requires action == S.RecvInvite ==> y.server.running
    ensures Sane(z, k)
  {
    W.ActKeepsPhase(y.server, action, m, results);
    ServerActMovesOn(y.server, action, m, results);
    ServerActRuns(y.server, action, m, results);
    if y.server.state == S.Completed && action == S.RecvAck && y.removed == [] {
      AckIsForLast(y, k);
    }
    ServerIsSane(y, z, k);
  }

  lemma StartedServer(s: S.Server, results: S.Results)
    requires IsSound(s) && !s.running
    ensures var d := s.Start(results);
      IsSound(d) && s.log <= d.log && d.state in {S.Proceeding, S.Terminated}
  {
    var t := s.(running := true);
    W.ActKeepsPhase(t, S.RecvInvite, S.NO_MESSAGE, results);
    ServerActRuns(t, S.RecvInvite, S.NO_MESSAGE, results);
    W.TakePutsOut(t, S.Proceeding, S.Started2Proceeding, S.TRYING, results);
  }

  lemma ReopenedIsSane(y: System, results: S.Results, k: Clock)
    requires Sane(y, k)
    ensures Sane(Reopened(y, y.server, results), k)
    ensures forall r :: Sent(y, r) ==> Sent(Reopened(y, y.server, results), r)
  {
    var z := Reopened(y, y.server, results);
    StartedServer(S.Fresh(y.server.reliable, y.intervals, y.server.timers), results);
    forall r | Sent(y, r)
      ensures Sent(z, r)
    {
      assert HasSent(y.server, r) ==> y.server in z.removed;
    }
    ServerIsSane(y, z, k);
  }

  lemma DeliverIsSane(y: System, results: S.Results, reopening: S.Results, k: Clock)
    requires Sane(y, k)
    ensures Sane(Deliver(y, results, reopening), k)
  {
    var s := y.server;
    if !s.running {
      StartedServer(s, results);
      ServerIsSane(y, y.(server := s.Start(results)), k);
    } else {
      var z := y.(server := s.Act(S.RecvInvite, S.NO_MESSAGE, results));
      ServerActIsSane(y, z, S.RecvInvite, S.NO_MESSAGE, results, k);
      if s.ActReturns(S.RecvInvite, S.NO_MESSAGE, results) != 0 {
        ReopenedIsSane(z, reopening, k);
        assert Reopened(y, z.server, reopening) == Reopened(z, z.server, reopening);
      }
    }
  }

  lemma StepIsSane(y: System, input: Input, k: Clock)
    requires Sane(y, k) && Possible(y, input.event)
    ensures Sane(Step(y, input), k)
  {
    var results, z := input.results, Step(y, input);
    match input.event
    case AtClient(i) => ClientStepIsSane(y, i, k);
    case InviteArrives(reopening) => DeliverIsSane(y, results, reopening, k);
    case AckArrives => ServerActIsSane(y, z, S.RecvAck, S.NO_MESSAGE, results, k);
    case UserResponds(m) =>
      if S.ActionFor(m.response.code).Some? {
        ServerActIsSane(y, z, S.ActionFor(m.response.code).value, m, results, k);
      }
    case ServerTimerFires(id) =>
      if y.server.TimerActionFor(id).Some? {
        ServerActIsSane(y, z, y.server.TimerActionFor(id).value, S.NO_MESSAGE, results, k);
      }
    case ServerFails(action) => ServerActIsSane(y, z, action, S.NO_MESSAGE, results, k);
  }

  lemma {:induction false} RunIsSane(y: System, inputs: seq<Input>, z: System, k: Clock)
    requires Sane(y, k) && IsRun(y, inputs, z)
    ensures Sane(z, k)
    decreases |inputs|
  {
    if inputs != [] {
      StepIsSane(y, inputs[0], k);
      RunIsSane(Step(y, inputs[0]), inputs[1..], z, k);
    }
  }

  /** A client that has been started, and a server that waits for the request. */
  ghost predicate IsInitial(y: System) {
    && (exists launch: T.Launch :: launch.manager.Valid() && y.client == launch.Client())
    && (exists reliable, manager :: y.server == S.Fresh(reliable, y.intervals, manager))
    && y.removed == []
  }

  lemma OnlyInvited(c: C.Client)
    requires c.log == [C.SendInvite]
    ensures C.SendInvite in c.log && forall r :: !HasHeard(c, r)
  {
  }

  lemma LaunchIsSane(launch: T.Launch, y: System, k: Clock)
    requires launch.manager.Valid() && y.client == launch.Client()
    requires k == Clock(launch.manager.now, launch.intervals.a, launch.manager.now + launch.intervals.b)
    requires y.server.state == S.Started && !y.server.running && y.server.log == [] && y.server.last == None
    ensures Sane(y, k) && y.client.state == C.Calling
  {
    R.StartIsGood(launch.reliable, launch.intervals, launch.manager, launch.results);
    R.LaunchedClient(launch.reliable, launch.intervals, launch.manager, launch.results);
    OnlyInvited(y.client);
  }

  lemma InitialIsSane(y: System) returns (k: Clock)
    requires IsInitial(y)
    ensures Sane(y, k) && y.client.state == C.Calling
  {
    var launch: T.Launch :| launch.manager.Valid() && y.client == launch.Client();
    k := Clock(launch.manager.now, launch.intervals.a, launch.manager.now + launch.intervals.b);
    LaunchIsSane(launch, y, k);
  }

  // ----- agreement --------------------------------------------------------

  ghost predicate IsTold(c: C.Client, r: Response) {
    W.IsFinal(r) && C.PassUp(r) in c.log
  }

  /** The client's user knows one outcome, and the server's user has chosen another. */
  ghost predicate Disagree(y: System) {
    exists r, q :: IsTold(y.client, r) && W.IsFinal(q) && Sent(y, q) && !W.Compatible(r, q)
  }

  lemma SaneUsersAgree(z: System, k: Clock)
    requires Sane(z, k)
    ensures forall r :: IsTold(z.client, r) ==> Sent(z, r)
    ensures z.removed == [] ==> !Disagree(z)
  {
    forall r | IsTold(z.client, r)
      ensures Sent(z, r)
    {
      assert HasHeard(z.client, r);
    }
    if z.removed == [] {
      forall r, q | IsTold(z.client, r) && Sent(z, q)
        ensures W.Compatible(r, q)
      {
        SentIsCompatible(z.server, r, q);
      }
    }
  }

  /**
   As long as one server transaction takes all copies of the request, the two users agree on the outcome: what
   the client's user is told has been sent, and all final responses sent are the same or, like it, a 2xx.
   */
  lemma {:induction false} UsersAgree(y: System, inputs: seq<Input>, z: System)
    requires IsInitial(y) && IsRun(y, inputs, z)
    ensures forall r :: IsTold(z.client, r) ==> Sent(z, r)
    ensures z.removed == [] ==> !Disagree(z)
  {
    var k := InitialIsSane(y);
    RunIsSane(y, inputs, z, k);
    SaneUsersAgree(z, k);
  }

  /** A server that considers its final response confirmed is right: the client has acknowledged that response. */
  lemma {:induction false} ConfirmationIsGenuine(y: System, inputs: seq<Input>, z: System)
    requires IsInitial(y) && IsRun(y, inputs, z)
    ensures z.server.state == S.Confirmed && z.removed == [] ==>
      IsAcknowledged(z) && R.IsFailure(z.server.last.value)
  {
    var k := InitialIsSane(y);
    RunIsSane(y, inputs, z, k);
  }

  lemma SaneStatesAgree(z: System, k: Clock)
    requires Sane(z, k) && z.removed == []
    ensures z.client.state == C.Accepted ==> z.server.state in {S.Accepted, S.Terminated}
    ensures z.client.state == C.Completed ==> z.server.state in {S.Completed, S.Confirmed, S.Terminated}
  {
    if z.client.state == C.Accepted || z.client.state == C.Completed {
      T.LastOutputDecides(z.client.log);
      var o := z.client.log[|z.client.log| - 1];
      assert o in z.client.log && HasHeard(z.client, o.response);
      SentByState(z.server, o.response);
    }
  }

  /** The states agree as well: a client in `Accepted` or `Completed` has a server that took the same branch. */
  lemma {:induction false} StatesAgree(y: System, inputs: seq<Input>, z: System)
    requires IsInitial(y) && IsRun(y, inputs, z) && z.removed == []
    ensures z.client.state == C.Accepted ==> z.server.state in {S.Accepted, S.Terminated}
    ensures z.client.state == C.Completed ==> z.server.state in {S.Completed, S.Confirmed, S.Terminated}
  {
    var k := InitialIsSane(y);
    RunIsSane(y, inputs, z, k);
    SaneStatesAgree(z, k);
  }

  // ----- undisturbed exchanges --------------------------------------------

  const SMOOTH := S.Results(0, 0)

  /** The request arrives, the server's user answers with `r`, and the answer arrives. */
  function Exchange(r: Response): seq<Input> {
    [ Input(InviteArrives(SMOOTH), SMOOTH),
      Input(UserResponds(S.Message(r, true)), SMOOTH),
      Input(AtClient(R.Input(R.Receives(r), C.Results(0, 0))), SMOOTH) ]
  }

  lemma RunOfThree(y0: System, i1: Input, y1: System, i2: Input, y2: System, i3: Input, y3: System)
    requires Possible(y0, i1.event) && y1 == Step(y0, i1)
    requires Possible(y1, i2.event) && y2 == Step(y1, i2)
    requires Possible(y2, i3.event) && y3 == Step(y2, i3)
    ensures IsRun(y0, [i1, i2, i3], y3)
  {
    assert IsRun(y3, [], y3);
    assert [i3][1..] == [] && IsRun(y2, [i3], y3);
    assert [i2, i3][1..] == [i3] && IsRun(y1, [i2, i3], y3);
    assert [i1, i2, i3][1..] == [i2, i3];
  }

  lemma InviteReachesServer(y: System) returns (z: System)
    requires y.server.state == S.Started && !y.server.running && C.SendInvite in y.client.log
    ensures z == Step(y, Input(InviteArrives(SMOOTH), SMOOTH)) && Possible(y, InviteArrives(SMOOTH))
    ensures z.client == y.client
    ensures z.server.state == S.Proceeding
  {
    z := Step(y, Input(InviteArrives(SMOOTH), SMOOTH));
  }

  lemma ServerAnswers(y: System, r: Response) returns (z: System)
    requires y.server.state == S.Proceeding && W.IsFinal(r)
    ensures z == Step(y, Input(UserResponds(S.Message(r, true)), SMOOTH))
    ensures z.client == y.client && HasSent(z.server, r) && z.server.last == Some(r)
    ensures z.server.state == if R.IsSuccess(r) then S.Accepted else S.Completed
  {
    z := Step(y, Input(UserResponds(S.Message(r, true)), SMOOTH));
    var (to, exec) := S.Transition(S.Proceeding, S.ActionFor(r.code).value, S.Message(r, true)).value;
    assert z.server == y.server.Take(to, exec, r, SMOOTH);
    W.TakePutsOut(y.server, to, exec, r, SMOOTH);
    assert S.Outputs(exec, r, y.server.last, SMOOTH) == [S.Send(r)];
  }

  /** The client still waits for an outcome. */
  predicate IsWaiting(c: C.Client) {
    c.state == C.Calling || c.state == C.Proceeding
  }

  lemma ClientIsAnswered(y: System, r: Response) returns (z: System)
    requires IsWaiting(y.client) && W.IsFinal(r) && HasSent(y.server, r)
    ensures var e := AtClient(R.Input(R.Receives(r), C.Results(0, 0)));
      Possible(y, e) && z == Step(y, Input(e, SMOOTH))
    ensures z.server == y.server && C.PassUp(r) in z.client.log
    ensures R.IsFailure(r) ==> C.SendAck(r) in z.client.log
    ensures z.client.state == if R.IsSuccess(r) then C.Accepted else C.Completed
  {
    var i := R.Input(R.Receives(r), C.Results(0, 0));
    z := Step(y, Input(AtClient(i), SMOOTH));
    var (to, exec) := C.Transition(y.client.state, C.ActionFor(r.code).value).value;
    assert z.client == y.client.Take(to, exec, r, i.results);
    R.TakePutsOut(y.client, to, exec, r, i.results);
    assert C.PassUp(r) in R.AllOutputs(to, exec, r, i.results);
  }

  lemma AckConfirms(y: System, r: Response)
    requires y.server.state == S.Completed && C.SendAck(r) in y.client.log
    ensures Possible(y, AckArrives)
    ensures Step(y, Input(AckArrives, SMOOTH)).server.state == S.Confirmed
  {
  }

  /** If nothing goes wrong, a final response of the server's user reaches the client's, and a failure is confirmed. */
  lemma UndisturbedExchange(y: System, r: Response) returns (z: System)
    requires IsInitial(y) && W.IsFinal(r)
    ensures IsRun(y, Exchange(r), z)
    ensures C.PassUp(r) in z.client.log
    ensures R.IsSuccess(r) ==> z.client.state == C.Accepted && z.server.state == S.Accepted
    ensures R.IsFailure(r) ==>
      && z.client.state == C.Completed && z.server.state == S.Completed
      && Possible(z, AckArrives) && Step(z, Input(AckArrives, SMOOTH)).server.state == S.Confirmed
  {
    var k := InitialIsSane(y);
    var e := Exchange(r);
    var y1 := InviteReachesServer(y);
    var y2 := ServerAnswers(y1, r);
    z := ClientIsAnswered(y2, r);
    RunOfThree(y, e[0], y1, e[1], y2, e[2], z);
    assert e == [e[0], e[1], e[2]];
    if R.IsFailure(r) {
      AckConfirms(z, r);
    }
  }
}
