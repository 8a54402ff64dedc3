/** Safety of the lease protocol over every interleaving of any number of clients. */
module IdempotencyProtocol {
  import opened Common
  import opened Idempotency

  datatype Action =
    | Admit(key: Key, hash: Digest, token: Token)
    | Complete(claim: Claim, status: StatusCode, body: string, storedBytes: nat)
    | Renew(claim: Claim)
    | Abandon(claim: Claim)
    | Purge(victims: set<Key>)

  /** One committed transaction and the clock it ran at. */
  datatype Step = Step(now: int, action: Action)

  /** What an Owner answer was given for. */
  datatype Grant = Grant(key: Key, hash: Digest)

  /** A response that became visible, with the expiry of the row it was stored in. */
  datatype Publication = Publication(claim: Claim, hash: Digest, status: int, body: string, at: int, expires: int)

  /** The table and clock, with the tokens drawn so far and what they led to as history. */
  datatype World = World(
    rows: Table, clock: int, drawn: set<Token>, grants: map<Token, Grant>, published: seq<Publication>)

  ghost predicate Initial(w: World) {
    w.rows == map[] && w.drawn == {} && w.grants == map[] && w.published == []
  }

  predicate Held(w: World, claim: Claim) {
    claim.token in w.grants && w.grants[claim.token].key == claim.key
  }

  /** The clock never goes back, tokens are fresh, claims come from an Owner answer, and a purge
      takes only purgeable rows. */
  ghost predicate Enabled(w: World, step: Step) {
    && w.clock <= step.now
    && match step.action
       case Admit(_, _, token) => token !in w.drawn
       case Complete(claim, _, _, _) => Held(w, claim)
       case Renew(claim) => Held(w, claim)
       case Abandon(claim) => Held(w, claim)
       case Purge(victims) => forall k :: k in victims ==> k in w.rows && Purgeable(w.rows[k], step.now)
  }

  function Execute(w: World, step: Step): (Table, Answer) {
    match step.action
    case Admit(key, hash, token) => AdmitRow(w.rows, key, hash, token, step.now)
    case Complete(claim, status, body, storedBytes) => CompleteRow(w.rows, claim, status, body, storedBytes)
    case Renew(claim) => RenewRow(w.rows, claim, step.now)
    case Abandon(claim) => AbandonRow(w.rows, claim)
    case Purge(victims) => (w.rows - victims, Done)
  }

  function AnswerOf(w: World, step: Step): Answer { Execute(w, step).1 }

  predicate Publishes(w: World, step: Step) {
    step.action.Complete? && AnswerOf(w, step) == Done
  }

  function Next(w: World, step: Step): World {
    World(
      Execute(w, step).0,
      step.now,
      if step.action.Admit? then w.drawn + {step.action.token} else w.drawn,
      if step.action.Admit? && AnswerOf(w, step).Owner?
      then w.grants[step.action.token := Grant(step.action.key, step.action.hash)] else w.grants,
      if Publishes(w, step) then
        var claim := step.action.claim;
        var row := w.rows[claim.key];
        w.published
        + [Publication(claim, row.requestHash, step.action.status, step.action.body, step.now, row.expires)]
      else w.published)
  }

  function Run(w: World, steps: seq<Step>): World {
    if steps == [] then w else Next(Run(w, steps[..|steps| - 1]), steps[|steps| - 1])
  }

  ghost predicate Legal(w: World, steps: seq<Step>) {
    forall i :: 0 <= i < |steps| ==> Enabled(Run(w, steps[..i]), steps[i])
  }

  lemma RunStep(w: World, steps: seq<Step>, i: nat)
    requires i < |steps|
    ensures Run(w, steps[..i + 1]) == Next(Run(w, steps[..i]), steps[i])
  {
    assert steps[..i + 1][..i] == steps[..i];
  }

  lemma LegalPrefix(w: World, steps: seq<Step>, i: nat)
    requires i <= |steps| && Legal(w, steps)
    ensures Legal(w, steps[..i])
  {
    forall j | 0 <= j < i
      ensures Enabled(Run(w, steps[..i][..j]), steps[..i][j])
    {
      assert steps[..i][..j] == steps[..j];
    }
  }

  // ---------------------------------------------------------------- invariant

  /** A row is either held, unanswered and leased to the token granted for its hash, or answered
      with a replayable status and held by nobody. */
  ghost predicate RowSound(w: World, key: Key) requires key in w.rows {
    var row := w.rows[key];
    if row.owner.Some? then
      && row.status.None? && row.body.None? && row.lease.Some?
      && row.owner.value in w.grants && w.grants[row.owner.value] == Grant(key, row.requestHash)
    else
      && Answerable(row) && row.lease.None? && WireStatus(row.status.value) && !ServerError(row.status.value)
      && exists p :: p in w.published && p.claim.key == key && p.hash == row.requestHash
           && p.status == row.status.value && p.body == row.body.value && p.expires == row.expires
  }

  /** Until its row expires, a published response is exactly what the row holds. */
  ghost predicate Pinned(w: World, p: Publication) {
    w.clock < p.expires ==>
      && p.claim.key in w.rows
      && w.rows[p.claim.key] == Row(p.hash, Some(p.status), Some(p.body), None, None, p.expires)
  }

  ghost predicate Sound(w: World) {
    && (forall key :: key in w.rows ==> RowSound(w, key))
    && (forall p :: p in w.published ==>
          Pinned(w, p) && p.at <= w.clock && Held(w, p.claim) && w.grants[p.claim.token].hash == p.hash)
    && (forall i, j :: 0 <= i < j < |w.published| && w.published[i].claim.key == w.published[j].claim.key ==>
          w.published[i].expires <= w.published[j].at)
    && w.grants.Keys <= w.drawn
  }

  /** A row that a step leaves alone stays sound. */
  lemma UntouchedRow(w: World, next: World, key: Key)
    requires key in w.rows && RowSound(w, key)
    requires key in next.rows && next.rows[key] == w.rows[key]
    requires forall token :: token in w.grants ==> token in next.grants && next.grants[token] == w.grants[token]
    requires w.published <= next.published
    ensures RowSound(next, key)
  {
    if w.rows[key].owner.None? {
      var row := w.rows[key];
      var p :| p in w.published && p.claim.key == key && p.hash == row.requestHash
           && p.status == row.status.value && p.body == row.body.value && p.expires == row.expires;
      assert p in next.published;
    }
  }

  lemma AdmittedRow(w: World, step: Step)
    requires Sound(w) && Enabled(w, step) && step.action.Admit?
    ensures step.action.key in Next(w, step).rows && RowSound(Next(w, step), step.action.key)
    ensures AnswerOf(w, step) != Refused(InvalidStoredResponse)
    ensures var key := step.action.key;
      key in w.rows && step.now < w.rows[key].expires && Answerable(w.rows[key]) ==>
        Next(w, step).rows[key] == w.rows[key]
  {
    var key := step.action.key;
    if key in w.rows {
      assert RowSound(w, key);
      if Next(w, step).rows[key] == w.rows[key] { UntouchedRow(w, Next(w, step), key); }
    }
  }

  /** What an admission can change: its own row, the clock, the drawn tokens and one new grant. */
  lemma AdmitFrame(w: World, step: Step)
    requires Enabled(w, step) && step.action.Admit? && w.grants.Keys <= w.drawn
    ensures var next := Next(w, step);
      && next.published == w.published && next.clock >= w.clock
      && (forall key :: key != step.action.key ==>
            (key in next.rows <==> key in w.rows) && (key in w.rows ==> next.rows[key] == w.rows[key]))
      && (forall token :: token in w.grants ==> token in next.grants && next.grants[token] == w.grants[token])
      && next.grants.Keys <= next.drawn
  {
  }

  lemma AdmitPinned(w: World, step: Step, p: Publication)
    requires Sound(w) && Enabled(w, step) && step.action.Admit? && p in w.published
    ensures Pinned(Next(w, step), p) && p.at <= Next(w, step).clock
    ensures Held(Next(w, step), p.claim) && Next(w, step).grants[p.claim.token].hash == p.hash
  {
    AdmitFrame(w, step);
    AdmittedRow(w, step);
    assert Pinned(w, p);
  }

  lemma AdmitSound(w: World, step: Step)
    requires Sound(w) && Enabled(w, step) && step.action.Admit?
    ensures Sound(Next(w, step))
  {
    var next := Next(w, step);
    AdmitFrame(w, step);
    AdmittedRow(w, step);
    forall key | key in next.rows ensures RowSound(next, key) {
      if key != step.action.key { UntouchedRow(w, next, key); }
    }
    forall p | p in next.published
      ensures Pinned(next, p) && p.at <= next.clock && Held(next, p.claim) && next.grants[p.claim.token].hash == p.hash
    {
      AdmitPinned(w, step, p);
    }
  }

  lemma CompleteSound(w: World, step: Step)
    requires Sound(w) && Enabled(w, step) && step.action.Complete?
    ensures Sound(Next(w, step))
  {
    var next := Next(w, step);
    var claim := step.action.claim;
    forall key | key in next.rows ensures RowSound(next, key) {
      if Publishes(w, step) && key == claim.key {
        assert RowSound(w, key);
        assert next.published[|w.published|] in next.published;
      } else {
        UntouchedRow(w, next, key);
      }
    }
    if claim.key in w.rows { assert RowSound(w, claim.key); }
    forall p | p in next.published ensures Pinned(next, p) {
      if p in w.published { assert Pinned(w, p); }
    }
    forall i, j | 0 <= i < j < |next.published| && next.published[i].claim.key == next.published[j].claim.key
      ensures next.published[i].expires <= next.published[j].at
    {
      if j == |w.published| { assert Pinned(w, next.published[i]); }
    }
  }

  lemma OtherSound(w: World, step: Step)
    requires Sound(w) && Enabled(w, step) && !step.action.Admit? && !step.action.Complete?
    ensures Sound(Next(w, step))
  {
    var next := Next(w, step);
    forall p | p in next.published ensures Pinned(next, p) { assert Pinned(w, p); }
    forall key | key in next.rows ensures RowSound(next, key) {
      if next.rows[key] == w.rows[key] { UntouchedRow(w, next, key); } else { assert RowSound(w, key); }
    }
  }

  lemma StepSound(w: World, step: Step)
    requires Sound(w) && Enabled(w, step)
    ensures Sound(Next(w, step))
  {
    if step.action.Admit? { AdmitSound(w, step); }
    else if step.action.Complete? { CompleteSound(w, step); }
    else { OtherSound(w, step); }
  }

  lemma {:induction false} RunSound(w: World, steps: seq<Step>)
    requires Sound(w) && Legal(w, steps)
    ensures Sound(Run(w, steps))
  {
    if steps == [] {
    } else {
      var n := |steps| - 1;
      LegalPrefix(w, steps, n);
      RunSound(w, steps[..n]);
      StepSound(Run(w, steps[..n]), steps[n]);
    }
  }

  // ---------------------------------------------------------------- who is admitted

  /** Nobody holds the row any more: it has no owner, or the owner's lease is over. */
  predicate LetGo(row: Row, now: int) { row.owner.None? || row.lease.None? || row.lease.value <= now }

  /** What an admission answers, told from the row alone. A row nobody holds goes to the newcomer if its 24 hours
      are over, or if it is unanswered and for the same request; a live row of another request is a conflict; a
      stored answer is replayed; only a live lease for the same request is waited for. */
  lemma AdmissionDecides(w: World, step: Step)
    requires Sound(w) && Enabled(w, step) && step.action.Admit? && step.action.key in w.rows
    ensures var row, now, answer := w.rows[step.action.key], step.now, AnswerOf(w, step);
      var same := row.requestHash == step.action.hash;
      && (answer.Owner? <==> LetGo(row, now) && (row.expires <= now || (same && row.body.None?)))
      && (answer == Conflict <==> !same && !(LetGo(row, now) && row.expires <= now))
      && (answer.Replay? <==> same && row.body.Some? && now < row.expires)
      && (answer.Replay? ==> Some(answer.status) == row.status && Some(answer.body) == row.body)
      && (answer == InProgress <==> same && row.body.None? && !LetGo(row, now))
  {
    assert RowSound(w, step.action.key);
  }

  /** What an admission writes: nothing but its own row, and that only for a new owner, who gets 30 seconds; a row
      that is new or whose time was over is kept for 24 hours from now, one taken over keeps its expiry. */
  lemma AdmissionWrites(w: World, step: Step)
    requires Sound(w) && Enabled(w, step) && step.action.Admit?
    ensures var key, hash, token := step.action.key, step.action.hash, step.action.token;
      var after := Next(w, step).rows;
      if AnswerOf(w, step).Owner? then
        && AnswerOf(w, step) == Owner(Claim(key, token))
        && after == w.rows[key := Row(hash, None, None, Some(token), Some(step.now + 30_000_000),
                                      if key in w.rows && step.now < w.rows[key].expires then w.rows[key].expires
                                      else step.now + 86_400_000_000)]
      else key in w.rows && after == w.rows
    ensures step.action.key !in w.rows ==> AnswerOf(w, step).Owner?
  {
    if step.action.key in w.rows { assert RowSound(w, step.action.key); }
  }

  /** What a completion answers and writes. Server errors, 401 and 403 are never stored, nor anything beyond half
      a mebibyte; otherwise the owner's answer is, and the row is let go with its expiry kept. */
  lemma CompletionDecides(w: World, step: Step)
    requires step.action.Complete?
    ensures var c := step.action;
      var storable := c.status !in {401, 403} && !(500 <= c.status <= 599);
      var owned := c.claim.key in w.rows && w.rows[c.claim.key].owner == Some(c.claim.token)
                   && w.rows[c.claim.key].body.None?;
      && (AnswerOf(w, step) == Done <==> storable && |c.body| <= 524_288 && c.storedBytes <= 524_288 && owned)
      && (AnswerOf(w, step) == Refused(InvalidStoredResponse) <==> !storable)
      && (AnswerOf(w, step) == Refused(ResponseTooLarge) <==> storable && 524_288 < |c.body|)
      && Next(w, step).rows
         == (if AnswerOf(w, step) != Done then w.rows
             else var row := w.rows[c.claim.key];
               w.rows[c.claim.key := Row(row.requestHash, Some(c.status), Some(c.body), None, None, row.expires)])
  {
  }

  /** Renewing and abandoning are for the owner of an unanswered row alone: it gets another 30 seconds, or the row
      is deleted; nothing else changes, and everybody else changes nothing. */
  lemma HolderDecides(w: World, step: Step)
    requires step.action.Renew? || step.action.Abandon?
    ensures var claim := step.action.claim;
      var owned := claim.key in w.rows && w.rows[claim.key].owner == Some(claim.token)
                   && w.rows[claim.key].body.None?;
      && AnswerOf(w, step) == (if step.action.Renew? then Renewed(owned) else Done)
      && (!owned ==> Next(w, step).rows == w.rows)
      && (owned && step.action.Renew? ==>
            && Next(w, step).rows.Keys == w.rows.Keys
            && Next(w, step).rows[claim.key] == w.rows[claim.key].(lease := Some(step.now + 30_000_000))
            && forall k :: k in w.rows && k != claim.key ==> Next(w, step).rows[k] == w.rows[k])
      && (owned && step.action.Abandon? ==>
            && Next(w, step).rows.Keys == w.rows.Keys - {claim.key}
            && forall k :: k in Next(w, step).rows ==> Next(w, step).rows[k] == w.rows[k])
  {
  }

  /** A claim that no longer renews, publishes or abandons: its row is gone or as it left it. */
  ghost predicate Stalled(w: World, claim: Claim, hash: Digest, until: int) {
    && claim.token in w.drawn
    && (claim.key in w.rows ==>
          && w.rows[claim.key].owner == Some(claim.token) && w.rows[claim.key].requestHash == hash
          && w.rows[claim.key].lease == Some(until))
  }

  predicate Admits(w: World, step: Step, key: Key) {
    step.action.Admit? && step.action.key == key && AnswerOf(w, step).Owner?
  }

  lemma StalledStep(w: World, step: Step, claim: Claim, hash: Digest, until: int)
    requires Sound(w) && Enabled(w, step) && Stalled(w, claim, hash, until)
    requires step.action != Renew(claim) && !Closes(w, step, claim) && !Admits(w, step, claim.key)
    ensures Stalled(Next(w, step), claim, hash, until)
  {
    if step.action.Admit? { AdmissionWrites(w, step); }
    if step.action.Complete? { CompletionDecides(w, step); }
  }

  lemma {:induction false} StalledRun(w: World, steps: seq<Step>, claim: Claim, hash: Digest, until: int, i: nat)
    requires Sound(w) && Legal(w, steps) && Stalled(w, claim, hash, until) && i <= |steps|
    requires forall j :: 0 <= j < i ==>
      && steps[j].action != Renew(claim) && !Closes(Run(w, steps[..j]), steps[j], claim)
      && !Admits(Run(w, steps[..j]), steps[j], claim.key)
    ensures Stalled(Run(w, steps[..i]), claim, hash, until)
  {
    if i == 0 {
    } else {
      StalledRun(w, steps, claim, hash, until, i - 1);
      LegalPrefix(w, steps, i - 1);
      RunSound(w, steps[..i - 1]);
      RunStep(w, steps, i - 1);
      StalledStep(Run(w, steps[..i - 1]), steps[i - 1], claim, hash, until);
    }
  }

  /** A stalled owner blocks its key for no longer than its lease: once the claim stops renewing without
      publishing or abandoning, the first arrival with the same request after the lease's end becomes owner,
      whatever else happens in between. */
  lemma StalledClaimIsTakenOver(w: World, steps: seq<Step>, claim: Claim, i: nat)
    requires Sound(w) && Legal(w, steps) && i < |steps| && OwnedBy(w.rows, claim)
    requires forall j :: 0 <= j < i ==>
      steps[j].action != Renew(claim) && !Closes(Run(w, steps[..j]), steps[j], claim)
    requires steps[i].action.Admit? && steps[i].action.key == claim.key
    requires steps[i].action.hash == w.rows[claim.key].requestHash
    requires w.rows[claim.key].lease.Some? && w.rows[claim.key].lease.value <= steps[i].now
    ensures exists j :: 0 <= j <= i && Admits(Run(w, steps[..j]), steps[j], claim.key)
  {
    assert RowSound(w, claim.key);
    if forall j :: 0 <= j < i ==> !Admits(Run(w, steps[..j]), steps[j], claim.key) {
      var hash, until := w.rows[claim.key].requestHash, w.rows[claim.key].lease.value;
      StalledRun(w, steps, claim, hash, until, i);
      LegalPrefix(w, steps, i);
      RunSound(w, steps[..i]);
      StalledAdmits(Run(w, steps[..i]), steps[i], claim, hash, until);
    }
  }

  lemma StalledAdmits(w: World, step: Step, claim: Claim, hash: Digest, until: int)
    requires Sound(w) && Enabled(w, step) && Stalled(w, claim, hash, until) && until <= step.now
    requires step.action.Admit? && step.action.key == claim.key && step.action.hash == hash
    ensures Admits(w, step, claim.key)
  {
    AdmissionWrites(w, step);
    if claim.key in w.rows {
      assert RowSound(w, claim.key);
      AdmissionDecides(w, step);
    }
  }

  // ---------------------------------------------------------------- replay

  /** Every answer along a legal run from the empty table: an admission never meets a stored response
      it cannot replay, and a replay returns a response published for the same key and request hash. */
  lemma ReplaysArePublished(w: World, steps: seq<Step>, i: nat)
    requires Initial(w) && Legal(w, steps) && i < |steps| && steps[i].action.Admit?
    ensures var at := Run(w, steps[..i]);
      var answer := AnswerOf(at, steps[i]);
      && answer != Refused(InvalidStoredResponse)
      && (answer.Replay? ==> exists p ::
            && p in at.published && p.claim.key == steps[i].action.key && p.hash == steps[i].action.hash
            && p.status == answer.status && p.body == answer.body
            && Held(at, p.claim) && at.grants[p.claim.token].hash == steps[i].action.hash)
  {
    LegalPrefix(w, steps, i);
    RunSound(w, steps[..i]);
    var at := Run(w, steps[..i]);
    AdmittedRow(at, steps[i]);
    if AnswerOf(at, steps[i]).Replay? { assert RowSound(at, steps[i].action.key); }
  }

  /** At most one response per row incarnation: a second publication on a key happens only at or
      after the expiry of the row that held the first. */
  lemma OnePublicationPerIncarnation(w: World, steps: seq<Step>, i: nat, j: nat)
    requires Initial(w) && Legal(w, steps)
    requires i < j < |Run(w, steps).published|
    requires Run(w, steps).published[i].claim.key == Run(w, steps).published[j].claim.key
    ensures Run(w, steps).published[i].expires <= Run(w, steps).published[j].at
  {
    RunSound(w, steps);
  }

  // ---------------------------------------------------------------- fencing

  /** The token was drawn and does not own the row. */
  ghost predicate Fenced(w: World, claim: Claim) {
    claim.token in w.drawn && (claim.key in w.rows ==> w.rows[claim.key].owner != Some(claim.token))
  }

  predicate By(action: Action, claim: Claim) {
    match action
    case Complete(c, _, _, _) => c == claim
    case Renew(c) => c == claim
    case Abandon(c) => c == claim
    case Admit(_, _, _) => false
    case Purge(_) => false
  }

  lemma FencedStep(w: World, step: Step, claim: Claim)
    requires Enabled(w, step) && Fenced(w, claim)
    ensures Fenced(Next(w, step), claim)
    ensures By(step.action, claim) ==>
      && Next(w, step).rows == w.rows && !Publishes(w, step) && AnswerOf(w, step) != Renewed(true)
  {
  }

  lemma FencedAt(w: World, steps: seq<Step>, claim: Claim, i: nat)
    requires Legal(w, steps) && i < |steps| && Fenced(Run(w, steps[..i]), claim)
    ensures Fenced(Run(w, steps[..i + 1]), claim)
    ensures By(steps[i].action, claim) ==>
      && Run(w, steps[..i + 1]).rows == Run(w, steps[..i]).rows
      && !Publishes(Run(w, steps[..i]), steps[i])
      && AnswerOf(Run(w, steps[..i]), steps[i]) != Renewed(true)
  {
    RunStep(w, steps, i);
    FencedStep(Run(w, steps[..i]), steps[i], claim);
  }

  /** Once a token has lost its row, no later step by it changes the table, publishes or renews. */
  lemma {:induction false} LostOwnershipIsFinal(w: World, steps: seq<Step>, claim: Claim, i: nat)
    requires Legal(w, steps) && Fenced(w, claim) && i <= |steps|
    ensures Fenced(Run(w, steps[..i]), claim)
    ensures i < |steps| && By(steps[i].action, claim) ==>
      && Run(w, steps[..i + 1]).rows == Run(w, steps[..i]).rows
      && !Publishes(Run(w, steps[..i]), steps[i])
      && AnswerOf(Run(w, steps[..i]), steps[i]) != Renewed(true)
  {
    if i == 0 {
    } else {
      LostOwnershipIsFinal(w, steps, claim, i - 1);
      FencedAt(w, steps, claim, i - 1);
    }
    if i < |steps| { FencedAt(w, steps, claim, i); }
  }

  // ---------------------------------------------------------------- leases

  ghost predicate HoldsUntil(w: World, claim: Claim, until: int) {
    && OwnedBy(w.rows, claim) && w.rows[claim.key].lease.Some? && until <= w.rows[claim.key].lease.value
    && claim.token in w.drawn && until <= w.clock + LEASE
  }

  /** The claim gives its row up: it publishes a response or abandons. */
  predicate Closes(w: World, step: Step, claim: Claim) {
    By(step.action, claim) && (step.action.Abandon? || Publishes(w, step))
  }

  lemma LeaseStep(w: World, step: Step, claim: Claim, until: int)
    requires Enabled(w, step) && HoldsUntil(w, claim, until) && step.now < until
    requires !Closes(w, step, claim)
    ensures HoldsUntil(Next(w, step), claim, until)
    ensures step.action.Admit? && step.action.key == claim.key ==> !AnswerOf(w, step).Owner?
    ensures step.action == Renew(claim) ==>
      AnswerOf(w, step) == Renewed(true) && HoldsUntil(Next(w, step), claim, step.now + LEASE)
  {
  }

  /** Lease exclusion: a claim that was admitted or renewed at time t keeps its row, and nobody else
      becomes its owner, at every time before t + 30 s unless it publishes or abandons. */
  lemma {:induction false} LeaseExclusion(w: World, steps: seq<Step>, claim: Claim, until: int, i: nat)
    requires Legal(w, steps) && HoldsUntil(w, claim, until) && i <= |steps|
    requires forall j :: 0 <= j < |steps| ==> steps[j].now < until
    requires forall j :: 0 <= j < |steps| ==> !Closes(Run(w, steps[..j]), steps[j], claim)
    ensures HoldsUntil(Run(w, steps[..i]), claim, until)
    ensures i < |steps| && steps[i].action.Admit? && steps[i].action.key == claim.key ==>
      !AnswerOf(Run(w, steps[..i]), steps[i]).Owner?
  {
    if i == 0 {
    } else {
      LeaseExclusion(w, steps, claim, until, i - 1);
      RunStep(w, steps, i - 1);
      LeaseStep(Run(w, steps[..i - 1]), steps[i - 1], claim, until);
    }
    if i < |steps| {
      LeaseStep(Run(w, steps[..i]), steps[i], claim, until);
    }
  }

  /** An Owner answer or a successful renewal starts a full lease. */
  lemma LeaseStarts(w: World, step: Step, claim: Claim)
    requires Sound(w) && Enabled(w, step)
    requires AnswerOf(w, step) == Owner(claim) || (step.action == Renew(claim) && AnswerOf(w, step) == Renewed(true))
    ensures HoldsUntil(Next(w, step), claim, step.now + LEASE)
  {
    if claim.key in w.rows { assert RowSound(w, claim.key); }
  }

  /** The time of the claim's latest renewal attempt, or of its admission. */
  function LastBeat(steps: seq<Step>, claim: Claim, admitted: int): int {
    if steps == [] then admitted
    else
      var n := |steps| - 1;
      if steps[n].action == Renew(claim) then steps[n].now else LastBeat(steps[..n], claim, admitted)
  }

  ghost predicate Beating(w: World, steps: seq<Step>, claim: Claim, admitted: int) {
    forall j :: 0 <= j < |steps| ==>
      steps[j].now < LastBeat(steps[..j], claim, admitted) + LEASE && !Closes(Run(w, steps[..j]), steps[j], claim)
  }

  lemma LastBeatStep(steps: seq<Step>, claim: Claim, admitted: int, i: nat)
    requires i < |steps|
    ensures LastBeat(steps[..i + 1], claim, admitted)
         == if steps[i].action == Renew(claim) then steps[i].now else LastBeat(steps[..i], claim, admitted)
  {
    assert steps[..i + 1][..i] == steps[..i];
  }

  lemma BeatAt(w: World, steps: seq<Step>, claim: Claim, admitted: int, i: nat)
    requires Legal(w, steps) && Beating(w, steps, claim, admitted) && i < |steps|
    requires HoldsUntil(Run(w, steps[..i]), claim, LastBeat(steps[..i], claim, admitted) + LEASE)
    ensures HoldsUntil(Run(w, steps[..i + 1]), claim, LastBeat(steps[..i + 1], claim, admitted) + LEASE)
    ensures steps[i].action == Renew(claim) ==> AnswerOf(Run(w, steps[..i]), steps[i]) == Renewed(true)
  {
    RunStep(w, steps, i);
    LastBeatStep(steps, claim, admitted, i);
    LeaseStep(Run(w, steps[..i]), steps[i], claim, LastBeat(steps[..i], claim, admitted) + LEASE);
  }

  /** A claim renewed at gaps strictly under 30 s keeps its row for any length of run, past the row's
      retention limit too, and every one of its renewals succeeds. */
  lemma {:induction false} HeartbeatKeepsOwnership(w: World, steps: seq<Step>, claim: Claim, admitted: int, i: nat)
    requires Legal(w, steps) && HoldsUntil(w, claim, admitted + LEASE) && Beating(w, steps, claim, admitted)
    requires i <= |steps|
    ensures HoldsUntil(Run(w, steps[..i]), claim, LastBeat(steps[..i], claim, admitted) + LEASE)
    ensures i < |steps| && steps[i].action == Renew(claim) ==>
      AnswerOf(Run(w, steps[..i]), steps[i]) == Renewed(true)
  {
    if i == 0 {
    } else {
      HeartbeatKeepsOwnership(w, steps, claim, admitted, i - 1);
      BeatAt(w, steps, claim, admitted, i - 1);
    }
    if i < |steps| { BeatAt(w, steps, claim, admitted, i); }
  }
}
