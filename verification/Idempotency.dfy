/** Idempotency keys (apps/api/src/idempotency.rs): the table of leased rows, the
    transactions on it, and the store that runs them. */
module Idempotency {
  import opened Common

  /** Times are microseconds, the resolution of the stored timestamps. */
  const LEASE: int := 30 * 1_000_000
  const RETENTION: int := 24 * 3600 * 1_000_000
  const MAX_RESPONSE_BYTES: int := 512 * 1024

  type Digest = string
  type Token = nat

  datatype Scope = Project(id: string) | Organization(id: string)
  datatype Key = Key(scope: Scope, operation: string, keyHash: Digest)
  datatype Claim = Claim(key: Key, token: Token)

  datatype Row = Row(
    requestHash: Digest, status: Option<int>, body: Option<string>,
    owner: Option<Token>, lease: Option<int>, expires: int)

  type Table = map<Key, Row>

  datatype Error = InvalidKey | InvalidRequest | InvalidStoredResponse | ResponseTooLarge | Unavailable

  datatype Answer =
    | Owner(claim: Claim)
    | Replay(status: int, body: string)
    | Conflict
    | InProgress
    | Renewed(held: bool)
    | Done
    | Refused(error: Error)

  // ---------------------------------------------------------------- row predicates

  predicate Expired(row: Row, now: int) { row.expires <= now }

  predicate LeaseExpired(row: Row, now: int) { row.lease.None? || row.lease.value <= now }

  predicate Free(row: Row, now: int) { LeaseExpired(row, now) || row.owner.None? }

  predicate Purgeable(row: Row, now: int) { Expired(row, now) && (row.owner.None? || LeaseExpired(row, now)) }

  predicate ServerError(status: int) { 500 <= status < 600 }

  predicate WireStatus(status: int) { 100 <= status < 1000 }

  type StatusCode = status: int | 100 <= status < 1000 witness 200

  predicate Answerable(row: Row) { row.status.Some? && row.body.Some? }

  predicate OwnedBy(rows: Table, claim: Claim) {
    && claim.key in rows && rows[claim.key].owner == Some(claim.token) && rows[claim.key].body.None?
  }

  /** The row written both by a first insert and by a reset. */
  function FreshRow(hash: Digest, token: Token, now: int): Row {
    Row(hash, None, None, Some(token), Some(now + LEASE), now + RETENTION)
  }

  // ---------------------------------------------------------------- transactions

  function AdmitRow(rows: Table, key: Key, hash: Digest, token: Token, now: int): (Table, Answer) {
    var inserted := if key in rows then rows else rows[key := FreshRow(hash, token, now)];
    var row := inserted[key];
    var claim := Claim(key, token);
    if row.owner == Some(token) then (inserted, Owner(claim))
    else if Expired(row, now) && Free(row, now) then (rows[key := FreshRow(hash, token, now)], Owner(claim))
    else if row.requestHash != hash then (inserted, Conflict)
    else if Answerable(row) then
      if WireStatus(row.status.value) && !ServerError(row.status.value)
      then (inserted, Replay(row.status.value, row.body.value))
      else (rows, Refused(InvalidStoredResponse))
    else if Free(row, now) then
      (inserted[key := row.(owner := Some(token), lease := Some(now + LEASE))], Owner(claim))
    else (inserted, InProgress)
  }

  /** `storedBytes` is the size of the body as the database renders it, which its CHECK bounds. */
  function CompleteRow(rows: Table, claim: Claim, status: StatusCode, body: string, storedBytes: nat): (Table, Answer) {
    if ServerError(status) || status == 401 || status == 403 then (rows, Refused(InvalidStoredResponse))
    else if MAX_RESPONSE_BYTES < |body| then (rows, Refused(ResponseTooLarge))
    else if MAX_RESPONSE_BYTES < storedBytes || !OwnedBy(rows, claim) then (rows, Refused(Unavailable))
    else
      (rows[claim.key := rows[claim.key].(status := Some(status), body := Some(body),
          owner := None, lease := None)], Done)
  }

  function AbandonRow(rows: Table, claim: Claim): (Table, Answer) {
    (if OwnedBy(rows, claim) then rows - {claim.key} else rows, Done)
  }

  function RenewRow(rows: Table, claim: Claim, now: int): (Table, Answer) {
    if OwnedBy(rows, claim)
    then (rows[claim.key := rows[claim.key].(lease := Some(now + LEASE))], Renewed(true))
    else (rows, Renewed(false))
  }

  // ---------------------------------------------------------------- the store

  predicate KeyAccepted(key: string) {
    && 8 <= |key| <= 256
    && forall i :: 0 <= i < |key| ==> '!' <= key[i] <= '~' && key[i] != ',' && key[i] != ';'
  }

  /** Too short or too long a key, or one with a blank, a control character, a comma or a semicolon. */
  lemma WrongKeysRefused(key: string)
    requires |key| < 8 || 256 < |key| || exists c :: c in key && (c <= ' ' || '~' < c || c in {',', ';'})
    ensures !KeyAccepted(key)
  {
    if c :| c in key && (c <= ' ' || '~' < c || c in {',', ';'}) {
      var i :| 0 <= i < |key| && key[i] == c;
    }
  }

  /** What a bounded purge may remove: unlocked purgeable rows, the earliest expiry first, as many as
      the limit allows. */
  ghost predicate PurgeChoice(rows: Table, locked: set<Key>, now: int, limit: nat, victims: set<Key>) {
    && (forall k :: k in victims ==> k in rows && k !in locked && Purgeable(rows[k], now))
    && |victims| <= limit
    && (forall k, v :: k in rows && k !in locked && Purgeable(rows[k], now) && k !in victims && v in victims ==>
          rows[v].expires <= rows[k].expires)
    && ((forall k :: k in rows && k !in locked && Purgeable(rows[k], now) ==> k in victims) || |victims| == limit)
  }

  /** The victims so far and the rows still to choose from: together all that may go, earliest first. */
  ghost predicate PurgeUnderWay(rows: map<Key, Row>, locked: set<Key>, now: int, victims: set<Key>,
                                candidates: set<Key>) {
    && victims !! candidates
    && (forall k :: (k in rows && k !in locked && Purgeable(rows[k], now)) <==> k in victims + candidates)
    && (forall k, v :: k in candidates && v in victims ==> rows[v].expires <= rows[k].expires)
  }

  function Candidates(rows: map<Key, Row>, locked: set<Key>, now: int): set<Key> {
    set k | k in rows && k !in locked && Purgeable(rows[k], now)
  }

  lemma PurgeStarts(rows: map<Key, Row>, locked: set<Key>, now: int)
    ensures PurgeUnderWay(rows, locked, now, {}, Candidates(rows, locked, now)) && rows - {} == rows
  {
    assert {} + Candidates(rows, locked, now) == Candidates(rows, locked, now);
  }

  lemma PurgeNext(rows: map<Key, Row>, locked: set<Key>, now: int, victims: set<Key>, candidates: set<Key>, k: Key)
    requires PurgeUnderWay(rows, locked, now, victims, candidates) && k in candidates
    requires candidates <= (rows - victims).Keys
    requires forall j :: j in candidates ==> (rows - victims)[k].expires <= (rows - victims)[j].expires
    ensures PurgeUnderWay(rows, locked, now, victims + {k}, candidates - {k})
    ensures k !in victims && rows - (victims + {k}) == (rows - victims) - {k}
  {
    var left := rows - victims;
    assert forall j :: j in candidates ==> left[j] == rows[j];
    forall j, v | j in candidates - {k} && v in victims + {k} ensures rows[v].expires <= rows[j].expires {
      assert j in candidates && left[k].expires <= left[j].expires;
    }
  }

  lemma PurgeLeft(rows: map<Key, Row>, locked: set<Key>, now: int, victims: set<Key>, candidates: set<Key>)
    requires PurgeUnderWay(rows, locked, now, victims, candidates)
    ensures candidates <= (rows - victims).Keys
  {
    forall k | k in candidates ensures k in (rows - victims).Keys { assert k in victims + candidates; }
  }

  lemma PurgeOver(rows: map<Key, Row>, locked: set<Key>, now: int, limit: nat, victims: set<Key>, candidates: set<Key>)
    requires PurgeUnderWay(rows, locked, now, victims, candidates)
    requires |victims| <= limit && (|victims| == limit || candidates == {})
    ensures PurgeChoice(rows, locked, now, limit, victims)
  {
    assert forall k :: k in victims || k in candidates <==> k in victims + candidates;
  }

  class IdempotencyStore {
    var rows: Table

    constructor ()
      ensures rows == map[]
    {
      rows := map[];
    }

    /** Deletes expired rows nobody holds. `locked` are the rows other transactions hold. */
    method PurgeExpired(now: int, limit: nat, locked: set<Key>) returns (answer: Answer, ghost victims: set<Key>)
      modifies this
      ensures 1 <= limit <= 10_000 ==> answer == Done && PurgeChoice(old(rows), locked, now, limit, victims)
      ensures !(1 <= limit <= 10_000) ==> answer == Refused(InvalidRequest) && victims == {}
      ensures rows == old(rows) - victims
    {
      victims := {};
      if limit == 0 || 10_000 < limit {
        return Refused(InvalidRequest), {};
      }
      victims := DeleteExpired(now, limit, locked);
      answer := Done;
    }

    /** Picks the victims, earliest expiry first, and deletes them. */
    method DeleteExpired(now: int, limit: nat, locked: set<Key>) returns (ghost victims: set<Key>)
      modifies this
      ensures PurgeChoice(old(rows), locked, now, limit, victims) && rows == old(rows) - victims
    {
      victims := {};
      var all := rows;
      var left, candidates, count := all, Candidates(all, locked, now), 0;
      PurgeStarts(all, locked, now);
      while count < limit && candidates != {}
        invariant count == |victims| <= limit && left == all - victims
        invariant PurgeUnderWay(all, locked, now, victims, candidates)
      {
        PurgeLeft(all, locked, now, victims, candidates);
        var k := EarliestExpiry(left, candidates);
        PurgeNext(all, locked, now, victims, candidates, k);
        left := left - {k};
        candidates := candidates - {k};
        victims := victims + {k};
        count := count + 1;
      }
      PurgeOver(all, locked, now, limit, victims, candidates);
      rows := left;
    }

    method EarliestExpiry(rows: Table, candidates: set<Key>) returns (first: Key)
      requires candidates != {} && candidates <= rows.Keys
      ensures first in candidates
      ensures forall k :: k in candidates ==> rows[first].expires <= rows[k].expires
    {
      first :| first in candidates;
      var rest := candidates - {first};
      while rest != {}
        invariant rest <= candidates && first in candidates
        invariant forall k :: k in candidates - rest ==> rows[first].expires <= rows[k].expires
      {
        var k :| k in rest;
        if rows[k].expires < rows[first].expires { first := k; }
        rest := rest - {k};
      }
    }

    /** One admission: validation, an opportunistic purge, then the admission transaction. */
    method Admit(scope: Scope, operation: string, key: string, hash: Digest, token: Token,
                 sha256: string -> Digest, purgeTime: int, now: int, locked: set<Key>)
      returns (answer: Answer, ghost victims: set<Key>)
      modifies this
      ensures !(1 <= |operation| <= 128) ==> answer == Refused(InvalidRequest) && rows == old(rows)
      ensures 1 <= |operation| <= 128 && !KeyAccepted(key) ==> answer == Refused(InvalidKey) && rows == old(rows)
      ensures 1 <= |operation| <= 128 && KeyAccepted(key) ==>
        && PurgeChoice(old(rows), locked, purgeTime, 64, victims)
        && (rows, answer) == AdmitRow(old(rows) - victims, Key(scope, operation, sha256(key)), hash, token, now)
    {
      if operation == "" || 128 < |operation| {
        return Refused(InvalidRequest), {};
      }
      if !KeyAccepted(key) {
        return Refused(InvalidKey), {};
      }
      var k := Key(scope, operation, sha256(key));
      var purged;
      purged, victims := PurgeExpired(purgeTime, 64, locked);
      var savepoint := rows;
      if k !in rows {
        rows := rows[k := FreshRow(hash, token, now)];
      }
      var row := rows[k];
      if row.owner == Some(token) {
        answer := Owner(Claim(k, token));
      } else if Expired(row, now) && Free(row, now) {
        rows := rows[k := FreshRow(hash, token, now)];
        answer := Owner(Claim(k, token));
      } else if row.requestHash != hash {
        answer := Conflict;
      } else if Answerable(row) {
        if !WireStatus(row.status.value) || ServerError(row.status.value) {
          rows := savepoint;
          return Refused(InvalidStoredResponse), victims;
        }
        answer := Replay(row.status.value, row.body.value);
      } else if Free(row, now) {
        rows := rows[k := row.(owner := Some(token), lease := Some(now + LEASE))];
        answer := Owner(Claim(k, token));
      } else {
        answer := InProgress;
      }
    }

    method Complete(claim: Claim, status: StatusCode, body: string, storedBytes: nat) returns (answer: Answer)
      modifies this
      ensures (rows, answer) == CompleteRow(old(rows), claim, status, body, storedBytes)
    {
      if ServerError(status) || status == 401 || status == 403 {
        return Refused(InvalidStoredResponse);
      }
      if MAX_RESPONSE_BYTES < |body| {
        return Refused(ResponseTooLarge);
      }
      if storedBytes <= MAX_RESPONSE_BYTES && OwnedBy(rows, claim) {
        var row := rows[claim.key];
        rows := rows[claim.key := row.(status := Some(status), body := Some(body), owner := None, lease := None)];
        return Done;
      }
      return Refused(Unavailable);
    }

    method Abandon(claim: Claim)
      modifies this
      ensures rows == AbandonRow(old(rows), claim).0
    {
      if OwnedBy(rows, claim) {
        rows := rows - {claim.key};
      }
    }

    method Renew(claim: Claim, now: int) returns (held: bool)
      modifies this
      ensures (rows, Renewed(held)) == RenewRow(old(rows), claim, now)
    {
      held := OwnedBy(rows, claim);
      if held {
        rows := rows[claim.key := rows[claim.key].(lease := Some(now + LEASE))];
      }
    }
  }
}
