/** Whole requests on top of the lease protocol (apps/api/src/billing.rs, redirect_operation):
    admission, a background heartbeat with a health flag, the provider call, confirmation of
    ownership, completion, and the answer that is sent. Any database call may fail to reach the
    database, or reach it and lose its answer. */
module IdempotentRequests {
  import opened Common
  import opened Idempotency
  import opened IdempotencyProtocol

  const CREATED: StatusCode := 201

  datatype Reply = Success(status: int, body: string) | ConflictReply | InProgressReply | ErrorReply

  datatype Phase =
    | Calling
    | Confirming(body: string)
    | Completing(body: string)
    | Finished(reply: Reply)

  /** What the heartbeat task learned and has not stored in the health flag yet. */
  datatype Beat = Idle | Kept | Lost | Outage

  datatype Request = Request(
    key: Key, hash: Digest, claim: Option<Claim>, phase: Phase, healthy: bool, beat: Beat, beating: bool)

  /** A success answer as sent, with the expiry of the row it came from. */
  datatype Sent = Sent(key: Key, hash: Digest, status: int, body: string, at: int, expires: int)

  datatype System = System(world: World, requests: map<nat, Request>, sent: seq<Sent>)

  /** `reached`: the statement ran in the database; `heard`: its answer came back. */
  datatype Event =
    | Arrive(id: nat, key: Key, hash: Digest, token: Token, reached: bool, heard: bool)
    | BeatRenew(id: nat, reached: bool, heard: bool)
    | BeatStore(id: nat)
    | ProviderFailed(id: nat, reached: bool)
    | ProviderReturned(id: nat, body: string)
    | Confirm(id: nat, reached: bool, heard: bool)
    | Finish(id: nat, storedBytes: nat, reached: bool, heard: bool)
    | Elsewhere(action: Action)

  datatype Move = Move(now: int, event: Event)

  predicate Admitted(sys: System, id: nat) {
    id in sys.requests && sys.requests[id].claim.Some?
  }

  ghost predicate Possible(sys: System, move: Move) {
    && sys.world.clock <= move.now
    && match move.event
       case Arrive(id, _, _, token, _, _) => id !in sys.requests && token !in sys.world.drawn
       case BeatRenew(id, _, _) =>
         Admitted(sys, id) && !sys.requests[id].phase.Finished?
         && sys.requests[id].beating && sys.requests[id].beat == Idle
       case BeatStore(id) => Admitted(sys, id) && !sys.requests[id].phase.Finished? && sys.requests[id].beat != Idle
       case ProviderFailed(id, _) => Admitted(sys, id) && sys.requests[id].phase.Calling?
       case ProviderReturned(id, _) => Admitted(sys, id) && sys.requests[id].phase.Calling?
       case Confirm(id, _, _) => Admitted(sys, id) && sys.requests[id].phase.Confirming?
       case Finish(id, _, _, _) => Admitted(sys, id) && sys.requests[id].phase.Completing?
       case Elsewhere(action) => Enabled(sys.world, Step(move.now, action))
  }

  /** The transaction an event runs, if it reaches the database at all. */
  function Transaction(sys: System, move: Move): Option<Step>
    requires Possible(sys, move)
  {
    var action: Option<Action> := match move.event
      case Arrive(_, key, hash, token, reached, _) => if reached then Some(Admit(key, hash, token)) else None
      case BeatRenew(id, reached, _) => if reached then Some(Renew(sys.requests[id].claim.value)) else None
      case ProviderFailed(id, reached) => if reached then Some(Abandon(sys.requests[id].claim.value)) else None
      case Confirm(id, reached, _) =>
        if reached && !sys.requests[id].healthy then Some(Renew(sys.requests[id].claim.value)) else None
      case Finish(id, storedBytes, reached, _) =>
        if reached then Some(Complete(sys.requests[id].claim.value, CREATED, sys.requests[id].phase.body, storedBytes))
        else None
      case Elsewhere(action) => Some(action)
      case BeatStore(_) => None
      case ProviderReturned(_, _) => None;
    if action.Some? then Some(Step(move.now, action.value)) else None
  }

  /** What the caller is told: the transaction's answer, or that the database was unavailable. */
  function Told(sys: System, move: Move, heard: bool): Answer
    requires Possible(sys, move)
  {
    var step := Transaction(sys, move);
    if step.Some? && heard then AnswerOf(sys.world, step.value) else Refused(Unavailable)
  }

  function ReplyTo(answer: Answer): Reply {
    match answer
    case Replay(status, body) => Success(status, body)
    case Conflict => ConflictReply
    case InProgress => InProgressReply
    case _ => ErrorReply
  }

  function Arrived(key: Key, hash: Digest, answer: Answer): Request {
    if answer.Owner? then Request(key, hash, Some(answer.claim), Calling, true, Idle, true)
    else Request(key, hash, None, Finished(ReplyTo(answer)), true, Idle, false)
  }

  function Requests(sys: System, move: Move): map<nat, Request>
    requires Possible(sys, move)
  {
    var requests := sys.requests;
    match move.event
    case Arrive(id, key, hash, _, _, heard) => requests[id := Arrived(key, hash, Told(sys, move, heard))]
    case BeatRenew(id, _, heard) =>
      var told := Told(sys, move, heard);
      requests[id := requests[id].(beat :=
        if told == Renewed(true) then Kept else if told.Renewed? then Lost else Outage)]
    case BeatStore(id) =>
      var r := requests[id];
      requests[id := r.(healthy := r.beat == Kept, beat := Idle, beating := r.beat != Lost)]
    case ProviderFailed(id, _) => requests[id := requests[id].(phase := Finished(ErrorReply))]
    case ProviderReturned(id, body) => requests[id := requests[id].(phase := Confirming(body))]
    case Confirm(id, _, heard) =>
      var r := requests[id];
      var confirmed := r.healthy || Told(sys, move, heard) == Renewed(true);
      requests[id := r.(phase := if confirmed then Completing(r.phase.body) else Finished(ErrorReply))]
    case Finish(id, _, _, heard) =>
      var r := requests[id];
      requests[id := r.(phase := Finished(
        if Told(sys, move, heard) == Done then Success(CREATED, r.phase.body) else ErrorReply))]
    case Elsewhere(_) => requests
  }

  function WorldAfter(sys: System, move: Move): World
    requires Possible(sys, move)
  {
    var step := Transaction(sys, move);
    if step.Some? then Next(sys.world, step.value) else sys.world.(clock := move.now)
  }

  /** The success answer an event sends, if any. */
  function Sends(sys: System, move: Move): Option<Sent>
    requires Possible(sys, move)
  {
    var world := WorldAfter(sys, move);
    match move.event
    case Arrive(_, key, hash, _, _, heard) =>
      var told := Told(sys, move, heard);
      if told.Replay? && key in world.rows
      then Some(Sent(key, hash, told.status, told.body, move.now, world.rows[key].expires)) else None
    case Finish(id, _, _, heard) =>
      var r := sys.requests[id];
      if Told(sys, move, heard) == Done && r.key in world.rows
      then Some(Sent(r.key, r.hash, CREATED, r.phase.body, move.now, world.rows[r.key].expires)) else None
    case _ => None
  }

  function After(sys: System, move: Move): System
    requires Possible(sys, move)
  {
    var answer := Sends(sys, move);
    System(WorldAfter(sys, move), Requests(sys, move), if answer.Some? then sys.sent + [answer.value] else sys.sent)
  }

  // ---------------------------------------------------------------- invariant

  ghost predicate StillStored(world: World, sent: Sent) {
    world.clock < sent.expires ==>
      && sent.key in world.rows
      && world.rows[sent.key] == Row(sent.hash, Some(sent.status), Some(sent.body), None, None, sent.expires)
  }

  ghost predicate Agree(one: Sent, two: Sent) {
    one.key == two.key && two.at < one.expires ==>
      two.status == one.status && two.body == one.body && two.hash == one.hash && two.expires == one.expires
  }

  ghost predicate RequestSound(world: World, r: Request) {
    r.claim.Some? ==>
      && r.claim.value.key == r.key && Held(world, r.claim.value)
      && world.grants[r.claim.value.token].hash == r.hash
  }

  ghost predicate SystemSound(sys: System) {
    && Sound(sys.world)
    && (forall id :: id in sys.requests ==> RequestSound(sys.world, sys.requests[id]))
    && (forall a :: a in sys.sent ==> StillStored(sys.world, a))
    && (forall i, j :: 0 <= i < j < |sys.sent| ==> Agree(sys.sent[i], sys.sent[j]))
  }

  lemma TransactionEnabled(sys: System, move: Move)
    requires SystemSound(sys) && Possible(sys, move) && Transaction(sys, move).Some?
    ensures Enabled(sys.world, Transaction(sys, move).value)
  {
  }

  lemma WorldStaysSound(sys: System, move: Move)
    requires SystemSound(sys) && Possible(sys, move)
    ensures Sound(WorldAfter(sys, move))
    ensures WorldAfter(sys, move).clock == move.now
    ensures forall token :: token in sys.world.grants ==>
      token in WorldAfter(sys, move).grants && WorldAfter(sys, move).grants[token] == sys.world.grants[token]
  {
    var step := Transaction(sys, move);
    if step.Some? {
      TransactionEnabled(sys, move);
      StepSound(sys.world, step.value);
    } else {
      var idle := sys.world.(clock := move.now);
      forall key | key in idle.rows ensures RowSound(idle, key) { UntouchedRow(sys.world, idle, key); }
      forall p | p in idle.published ensures Pinned(idle, p) { assert Pinned(sys.world, p); }
    }
  }

  /** A row with an unexpired response survives every enabled transaction unchanged. */
  lemma AnsweredRowSurvives(w: World, step: Step, key: Key)
    requires Enabled(w, step)
    requires key in w.rows && Answerable(w.rows[key]) && w.rows[key].owner.None? && step.now < w.rows[key].expires
    ensures key in Next(w, step).rows && Next(w, step).rows[key] == w.rows[key]
  {
  }

  lemma SentAnswerSurvives(sys: System, move: Move, sent: Sent)
    requires SystemSound(sys) && Possible(sys, move) && StillStored(sys.world, sent)
    ensures StillStored(WorldAfter(sys, move), sent)
  {
    var step := Transaction(sys, move);
    if step.Some? && move.now < sent.expires {
      TransactionEnabled(sys, move);
      AnsweredRowSurvives(sys.world, step.value, sent.key);
    }
  }

  /** A success answer is exactly what its row holds from then on. */
  lemma NewAnswerStored(sys: System, move: Move)
    requires SystemSound(sys) && Possible(sys, move) && Sends(sys, move).Some?
    ensures var a := Sends(sys, move).value;
      && a.at == move.now && StillStored(WorldAfter(sys, move), a)
      && a.key in WorldAfter(sys, move).rows
      && WorldAfter(sys, move).rows[a.key] == Row(a.hash, Some(a.status), Some(a.body), None, None, a.expires)
  {
    var step := Transaction(sys, move).value;
    TransactionEnabled(sys, move);
    if step.action.Admit? {
      AdmittedRow(sys.world, step);
    } else {
      assert RowSound(sys.world, step.action.claim.key);
    }
  }

  lemma RequestsStaySound(sys: System, move: Move)
    requires SystemSound(sys) && Possible(sys, move)
    ensures forall id :: id in After(sys, move).requests ==>
      RequestSound(After(sys, move).world, After(sys, move).requests[id])
  {
    WorldStaysSound(sys, move);
  }

  lemma MoveSound(sys: System, move: Move)
    requires SystemSound(sys) && Possible(sys, move)
    ensures SystemSound(After(sys, move))
  {
    var next := After(sys, move);
    WorldStaysSound(sys, move);
    RequestsStaySound(sys, move);
    forall a | a in sys.sent ensures StillStored(next.world, a) { SentAnswerSurvives(sys, move, a); }
    if Sends(sys, move).Some? {
      NewAnswerStored(sys, move);
      var a := Sends(sys, move).value;
      forall i | 0 <= i < |sys.sent| ensures Agree(next.sent[i], a) {
        assert StillStored(next.world, sys.sent[i]);
      }
    }
  }

  // ---------------------------------------------------------------- runs

  /** A run: the successive systems and the moves between them, from an empty table. */
  ghost predicate Run(states: seq<System>, moves: seq<Move>) {
    && |states| == |moves| + 1
    && Initial(states[0].world) && states[0].requests == map[] && states[0].sent == []
    && forall i :: 0 <= i < |moves| ==> Possible(states[i], moves[i]) && states[i + 1] == After(states[i], moves[i])
  }

  lemma {:induction false} RunIsSound(states: seq<System>, moves: seq<Move>, i: nat)
    requires Run(states, moves) && i <= |moves|
    ensures SystemSound(states[i])
  {
    if i == 0 {
    } else {
      RunIsSound(states, moves, i - 1);
      MoveSound(states[i - 1], moves[i - 1]);
    }
  }

  /** In every run, from a success answer until the expiry of its row, every success answer on the
      same key, the owner's own or a replay, has the same status, body and request hash. */
  lemma SuccessAnswersAgree(states: seq<System>, moves: seq<Move>, i: nat, j: nat)
    requires Run(states, moves) && i < j < |states[|moves|].sent|
    requires states[|moves|].sent[i].key == states[|moves|].sent[j].key
    requires states[|moves|].sent[j].at < states[|moves|].sent[i].expires
    ensures states[|moves|].sent[j].status == states[|moves|].sent[i].status
    ensures states[|moves|].sent[j].body == states[|moves|].sent[i].body
    ensures states[|moves|].sent[j].hash == states[|moves|].sent[i].hash
  {
    RunIsSound(states, moves, |moves|);
    assert Agree(states[|moves|].sent[i], states[|moves|].sent[j]);
  }

  /** In the same window a request arriving with another hash is told of the conflict and one with
      the same hash gets the same answer, unless the database could not be reached. */
  lemma ArrivalsInWindow(states: seq<System>, moves: seq<Move>, i: nat, move: Move)
    requires Run(states, moves) && i < |states[|moves|].sent|
    requires Possible(states[|moves|], move) && move.event.Arrive?
    requires move.event.key == states[|moves|].sent[i].key && move.now < states[|moves|].sent[i].expires
    ensures After(states[|moves|], move).requests[move.event.id].phase == Finished(
      if !(move.event.reached && move.event.heard) then ErrorReply
      else if move.event.hash == states[|moves|].sent[i].hash
      then Success(states[|moves|].sent[i].status, states[|moves|].sent[i].body)
      else ConflictReply)
  {
    RunIsSound(states, moves, |moves|);
    var sys := states[|moves|];
    assert StillStored(sys.world, sys.sent[i]);
    assert RowSound(sys.world, sys.sent[i].key);
  }

  /** What a request that reaches the database is told on arrival, in every run and told from the row alone: it
      goes ahead on a key without a row, on a row nobody holds whose 24 hours are over, and in place of an owner
      whose lease ran out on the same request; it is told of a conflict, of a request in progress, or given the
      stored answer otherwise. */
  lemma ArrivalDecides(states: seq<System>, moves: seq<Move>, move: Move)
    requires Run(states, moves) && Possible(states[|moves|], move) && move.event.Arrive?
    requires move.event.reached && move.event.heard
    ensures var rows, e := states[|moves|].world.rows, move.event;
      var r := After(states[|moves|], move).requests[e.id];
      if e.key !in rows || (LetGo(rows[e.key], move.now) && rows[e.key].expires <= move.now) then
        r.phase == Calling && r.claim == Some(Claim(e.key, e.token))
      else if rows[e.key].requestHash != e.hash then r.phase == Finished(ConflictReply)
      else if rows[e.key].body.Some? then
        && rows[e.key].status.Some?
        && r.phase == Finished(Success(rows[e.key].status.value, rows[e.key].body.value))
      else if LetGo(rows[e.key], move.now) then r.phase == Calling && r.claim == Some(Claim(e.key, e.token))
      else r.phase == Finished(InProgressReply)
  {
    RunIsSound(states, moves, |moves|);
    var sys := states[|moves|];
    var step := Step(move.now, Admit(move.event.key, move.event.hash, move.event.token));
    if move.event.key in sys.world.rows {
      assert RowSound(sys.world, move.event.key);
      AdmissionDecides(sys.world, step);
    }
    AdmissionWrites(sys.world, step);
  }

  /** Every request that ends in success left its answer in the log the two results above speak of. */
  lemma SuccessIsRecorded(sys: System, move: Move, id: nat)
    requires SystemSound(sys) && Possible(sys, move) && id in After(sys, move).requests
    requires After(sys, move).requests[id].phase.Finished? && After(sys, move).requests[id].phase.reply.Success?
    requires id in sys.requests ==> !sys.requests[id].phase.Finished?
    ensures Sends(sys, move).Some?
    ensures var r := After(sys, move).requests[id];
      var a := Sends(sys, move).value;
      a.key == r.key && a.hash == r.hash && Success(a.status, a.body) == r.phase.reply
    ensures move.event.Finish? ==>
      OwnedBy(sys.world.rows, sys.requests[id].claim.value)
      && After(sys, move).requests[id].phase == Finished(Success(201, sys.requests[id].phase.body))
  {
    if move.event.Finish? { assert RequestSound(sys.world, sys.requests[id]); }
  }

  // ---------------------------------------------------------------- the life of a request

  /** The event is a move of this request. */
  predicate Concerns(event: Event, id: nat) {
    match event
    case Arrive(other, _, _, _, _, _) => other == id
    case BeatRenew(other, _, _) => other == id
    case BeatStore(other) => other == id
    case ProviderFailed(other, _) => other == id
    case ProviderReturned(other, _) => other == id
    case Confirm(other, _, _) => other == id
    case Finish(other, _, _, _) => other == id
    case Elsewhere(_) => false
  }

  /** Moves of others and of the world leave a request alone. */
  lemma OthersLeaveAlone(sys: System, move: Move, id: nat)
    requires Possible(sys, move) && id in sys.requests && !Concerns(move.event, id)
    ensures id in After(sys, move).requests && After(sys, move).requests[id] == sys.requests[id]
  {
  }

  /** What the heartbeat learns from a renewal: that the row is kept or lost if it hears so, an outage otherwise;
      and what it makes of it: the flag says whether the last thing it learned was that the row is kept, and it
      stops once it has learned that the row is lost. */
  lemma HeartbeatDecides(sys: System, move: Move, id: nat)
    requires Possible(sys, move) && Concerns(move.event, id) && (move.event.BeatRenew? || move.event.BeatStore?)
    ensures var r, q := sys.requests[id], After(sys, move).requests[id];
      && q.phase == r.phase && q.claim == r.claim
      && (move.event.BeatRenew? ==>
            var heard := move.event.reached && move.event.heard;
            && q == r.(beat := q.beat)
            && (q.beat == Kept <==> heard && OwnedBy(sys.world.rows, r.claim.value))
            && (q.beat == Lost <==> heard && !OwnedBy(sys.world.rows, r.claim.value))
            && (q.beat == Outage <==> !heard))
      && (move.event.BeatStore? ==>
            (q.healthy <==> r.beat == Kept) && q.beat == Idle && (q.beating <==> r.beat != Lost))
  {
  }

  /** A request goes on to publish exactly if its flag is up, or it renews its lease itself and hears so; it gives
      up otherwise. */
  lemma ConfirmationDecides(sys: System, move: Move, id: nat)
    requires Possible(sys, move) && move.event.Confirm? && move.event.id == id
    ensures var r, q := sys.requests[id], After(sys, move).requests[id];
      var renewed := move.event.reached && move.event.heard && OwnedBy(sys.world.rows, r.claim.value);
      && q == r.(phase := q.phase)
      && (q.phase == Completing(r.phase.body) <==> r.healthy || renewed)
      && (q.phase == Finished(ErrorReply) <==> !r.healthy && !renewed)
      && (r.healthy ==> After(sys, move).world.rows == sys.world.rows)
  {
  }

  /** A request whose provider call fails answers with an error and, if the database is reached, gives its key
      free: it no longer owns the row, and an unanswered row of its own is gone. */
  lemma FailureFreesKey(sys: System, move: Move, id: nat)
    requires Possible(sys, move) && move.event.ProviderFailed? && move.event.id == id
    ensures var r, after := sys.requests[id], After(sys, move);
      && after.requests[id].phase == Finished(ErrorReply)
      && (move.event.reached ==>
            && !OwnedBy(after.world.rows, r.claim.value)
            && (OwnedBy(sys.world.rows, r.claim.value) ==> after.world.rows == sys.world.rows - {r.claim.value.key}))
      && (!move.event.reached ==> after.world.rows == sys.world.rows)
  {
  }

  /** What the heartbeat of a request stored last, before move `i`. */
  ghost function LastLearned(states: seq<System>, moves: seq<Move>, id: nat, i: nat): Option<Beat>
    requires Run(states, moves) && i <= |moves|
  {
    if i == 0 then None
    else if moves[i - 1].event == BeatStore(id) then Some(states[i - 1].requests[id].beat)
    else LastLearned(states, moves, id, i - 1)
  }

  ghost predicate FlagFollows(states: seq<System>, moves: seq<Move>, id: nat, i: nat)
    requires Run(states, moves) && i <= |moves|
  {
    Admitted(states[i], id) ==>
      var learned := LastLearned(states, moves, id, i);
      && (states[i].requests[id].healthy <==> learned in {None, Some(Kept)})
      && (states[i].requests[id].beating <==> learned != Some(Lost))
  }

  lemma FlagStep(states: seq<System>, moves: seq<Move>, id: nat, i: nat)
    requires Run(states, moves) && i < |moves| && FlagFollows(states, moves, id, i)
    requires id !in states[i].requests ==> LastLearned(states, moves, id, i) == None
    ensures FlagFollows(states, moves, id, i + 1)
    ensures id !in states[i + 1].requests ==> LastLearned(states, moves, id, i + 1) == None
  {
    var sys, move := states[i], moves[i];
    assert Possible(sys, move) && states[i + 1] == After(sys, move);
    if id in sys.requests && !Concerns(move.event, id) { OthersLeaveAlone(sys, move, id); }
    else if move.event.BeatRenew? || move.event.BeatStore? {
      if Concerns(move.event, id) { HeartbeatDecides(sys, move, id); }
    }
  }

  /** In every run the health flag of an admitted request is up exactly as long as the last thing its heartbeat
      stored, if anything, is that the row is kept; and the heartbeat beats until it stores that the row is lost. */
  lemma {:induction false} FlagFollowsHeartbeat(states: seq<System>, moves: seq<Move>, id: nat, i: nat)
    requires Run(states, moves) && i <= |moves|
    ensures FlagFollows(states, moves, id, i)
    ensures id !in states[i].requests ==> LastLearned(states, moves, id, i) == None
  {
    if i == 0 {
    } else {
      FlagFollowsHeartbeat(states, moves, id, i - 1);
      FlagStep(states, moves, id, i - 1);
    }
  }
}
