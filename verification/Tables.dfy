/**
 * The tables of the secret store and its committed transactions, as functions on table contents:
 * internal/adapter/postgres/secret_repo.go over the queries in internal/adapter/postgres/dbsqlc.
 */
module Tables {
  import opened Bytes

  type Time = int
  type Hash = string
  type PublicId = string
  type SessionId = string

  /** domain.UploadStorageKey: every upload session writes to a key of its own. */
  datatype Key = BlobKey(session: SessionId)

  const TOMBSTONE_RETENTION := 7 * 24 * 60 * 60

  /** The token hashes that travel from the upload session to the secret. */
  datatype Share = Share(metadata: Hash, blob: Hash, deletion: Hash)

  /** Only a pending session holds share material. */
  datatype SessionState = Pending(share: Share) | Completed(completedAt: Time) | Aborted(abortedAt: Time)

  datatype Session = Session(publicId: PublicId, key: Key, burn: bool, secretExpires: Time, uploadExpires: Time,
                             state: SessionState)

  datatype Secret = Secret(share: Share, burn: bool, expires: Time, created: Time, retrieved: Option<Time>, key: Key)

  datatype Retrieval = Retrieval(publicId: PublicId, expires: Time, created: Time)

  datatype Outcome = Opened | Expired | Deleted

  datatype Tombstone = Tombstone(metadata: Hash, deletion: Hash, outcome: Outcome, burn: bool, ended: Time,
                                 firstOpened: Option<Time>, openedByOwner: bool, keepUntil: Time)

  datatype Tables = Tables(sessions: map<SessionId, Session>, secrets: map<PublicId, Secret>,
                           retrievals: map<Hash, Retrieval>, tombstones: map<PublicId, Tombstone>)

  datatype RepoError = NotFound | Forbidden | Conflict | Duplicate

  // ------------------------------------------------------ tombstones

  function TombstoneKeepUntil(expires: Time, ended: Time): Time {
    if ended > expires then ended + TOMBSTONE_RETENTION else expires + TOMBSTONE_RETENTION
  }

  /** When a recipient first opened a reusable secret. */
  function RecipientOpenedAt(secret: Secret): Option<Time> {
    if secret.burn then None else secret.retrieved
  }

  function TombstoneFor(secret: Secret, outcome: Outcome, now: Time, byOwner: bool): Tombstone {
    Tombstone(secret.share.metadata, secret.share.deletion, outcome, secret.burn, now,
              if outcome == Opened && !byOwner then Some(now) else RecipientOpenedAt(secret),
              byOwner, TombstoneKeepUntil(secret.expires, now))
  }

  /** The row CreateTombstonesForExpiredSecrets inserts, and the shape GetTombstone answers with. */
  function ExpiredTombstone(secret: Secret, keepUntil: Time): Tombstone {
    Tombstone(secret.share.metadata, secret.share.deletion, Expired, secret.burn, secret.expires,
              RecipientOpenedAt(secret), false, keepUntil)
  }

  /** INSERT ... ON CONFLICT DO NOTHING: the first outcome recorded stays. */
  function PutFirst<K, V>(m: map<K, V>, k: K, v: V): map<K, V> {
    if k in m then m else m[k := v]
  }

  // ------------------------------------------------------ upload sessions

  predicate PendingSession(t: Tables, id: SessionId) {
    id in t.sessions && t.sessions[id].state.Pending?
  }

  /** The partial unique index on pending public ids, and the primary key. */
  predicate SessionClashes(t: Tables, id: SessionId, publicId: PublicId) {
    || id in t.sessions
    || exists other :: other in t.sessions && PendingSession(t, other) && t.sessions[other].publicId == publicId
  }

  function SecretOf(session: Session, now: Time): Secret
    requires session.state.Pending?
  {
    Secret(session.state.share, session.burn, session.secretExpires, now, None, session.key)
  }

  /** The writes of CompleteUploadSession, once its callback has stored the object. */
  function CompleteSession(t: Tables, id: SessionId, now: Time): Result<Tables, RepoError> {
    if id !in t.sessions then Err(NotFound)
    else
      var session := t.sessions[id];
      match session.state
      case Completed(_) => Ok(t)
      case Aborted(_) => Err(Conflict)
      case Pending(_) =>
        if session.publicId in t.secrets then Err(Duplicate)
        else Ok(t.(secrets := t.secrets[session.publicId := SecretOf(session, now)],
                   sessions := t.sessions[id := session.(state := Completed(now))]))
  }

  function AbortSession(t: Tables, id: SessionId, now: Time): Result<Tables, RepoError> {
    if id !in t.sessions then Err(NotFound)
    else if !t.sessions[id].state.Pending? then Err(Conflict)
    else Ok(AbortSessions(t, {id}, now))
  }

  /** MarkUploadSessionsAborted: the pending ones among ids. */
  function AbortSessions(t: Tables, ids: set<SessionId>, now: Time): Tables {
    t.(sessions := map id | id in t.sessions ::
         if id in ids && t.sessions[id].state.Pending? then t.sessions[id].(state := Aborted(now)) else t.sessions[id])
  }

  predicate FinishedBefore(session: Session, before: Time) {
    match session.state
    case Pending(_) => false
    case Completed(at) => at < before
    case Aborted(at) => at < before
  }

  function PurgeSessions(t: Tables, before: Time): Tables {
    t.(sessions := map id | id in t.sessions && !FinishedBefore(t.sessions[id], before) :: t.sessions[id])
  }

  // ------------------------------------------------------ secrets

  /** The owner's link carries the deletion token too. */
  predicate ByOwner(secret: Secret, deletion: Hash) {
    deletion != "" && deletion == secret.share.deletion
  }

  /** A one-time secret that has been opened. */
  predicate Consumed(secret: Secret) {
    secret.burn && secret.retrieved.Some?
  }

  function Marked(secret: Secret, byOwner: bool, now: Time): Secret {
    if secret.burn || (!byOwner && secret.retrieved.None?) then secret.(retrieved := Some(now)) else secret
  }

  function StartRetrieval(t: Tables, p: PublicId, blob: Hash, deletion: Hash, token: Hash, expires: Time, now: Time)
    : Result<Tables, RepoError>
  {
    if p !in t.secrets || t.secrets[p].expires <= now then Err(NotFound)
    else
      var secret := t.secrets[p];
      if Consumed(secret) then Err(NotFound)
      else if blob != secret.share.blob then Err(Forbidden)
      else if token in t.retrievals then Err(Duplicate)
      else
        var byOwner := ByOwner(secret, deletion);
        Ok(t.(secrets := t.secrets[p := Marked(secret, byOwner, now)],
              tombstones := if secret.burn then PutFirst(t.tombstones, p, TombstoneFor(secret, Opened, now, byOwner))
                            else t.tombstones,
              retrievals := t.retrievals[token := Retrieval(p, expires, now)]))
  }

  /** Deleting rows, with the cascade to their retrieval sessions. */
  function WithoutSecrets(t: Tables, ids: set<PublicId>): Tables {
    t.(secrets := t.secrets - ids,
       retrievals := map h | h in t.retrievals && t.retrievals[h].publicId !in ids :: t.retrievals[h])
  }

  function DeleteSecret(t: Tables, p: PublicId, now: Time): Result<Tables, RepoError> {
    if p !in t.secrets then Err(NotFound)
    else
      var tomb := TombstoneFor(t.secrets[p], Deleted, now, false);
      Ok(WithoutSecrets(t, {p}).(tombstones := PutFirst(t.tombstones, p, tomb)))
  }

  predicate LiveRetrieval(t: Tables, h: Hash, p: PublicId, now: Time) {
    h in t.retrievals && t.retrievals[h].publicId == p && t.retrievals[h].expires > now
  }

  /** The condition of SelectSecretsForCleanup. */
  predicate Due(t: Tables, p: PublicId, now: Time) {
    && p in t.secrets
    && (|| t.secrets[p].expires < now
        || (Consumed(t.secrets[p]) && forall h :: h in t.retrievals ==> !LiveRetrieval(t, h, p, now)))
  }

  function ExpiredTombstones(t: Tables, ids: set<PublicId>, now: Time): map<PublicId, Tombstone> {
    map p | p in t.secrets && p in ids && t.secrets[p].expires < now && p !in t.tombstones ::
      ExpiredTombstone(t.secrets[p], now + TOMBSTONE_RETENTION)
  }

  /** The writes of a DeleteExpired batch whose removable rows are ids. */
  function CleanupSecrets(t: Tables, ids: set<PublicId>, now: Time): Tables {
    WithoutSecrets(t, ids).(tombstones := t.tombstones + ExpiredTombstones(t, ids, now))
  }

  function PurgeRetrievals(t: Tables, now: Time): Tables {
    t.(retrievals := map h | h in t.retrievals && t.retrievals[h].expires >= now :: t.retrievals[h])
  }

  function PurgeTombstones(t: Tables, now: Time): Tables {
    t.(tombstones := map p | p in t.tombstones && t.tombstones[p].keepUntil > now :: t.tombstones[p])
  }

  // ------------------------------------------------------ reads

  function GetByPublicId(t: Tables, p: PublicId, now: Time): Option<Secret> {
    if p in t.secrets && t.secrets[p].expires > now then Some(t.secrets[p]) else None
  }

  function GetByRetrievalSession(t: Tables, p: PublicId, token: Hash, now: Time): Option<Secret> {
    if LiveRetrieval(t, token, p, now) then GetByPublicId(t, p, now) else None
  }

  function RecordedTombstone(t: Tables, p: PublicId, now: Time): Option<Tombstone> {
    if p in t.tombstones && t.tombstones[p].keepUntil > now then Some(t.tombstones[p]) else None
  }

  /** The second read of GetTombstone: an expired row the cleanup has not reached. */
  function OutcomeOfRow(t: Tables, p: PublicId, now: Time): Option<Tombstone> {
    if p in t.secrets && t.secrets[p].expires <= now
    then Some(ExpiredTombstone(t.secrets[p], TombstoneKeepUntil(t.secrets[p].expires, now)))
    else None
  }

  /** GetTombstone with its two reads in two table states. */
  function GetTombstoneSplit(first: Tables, second: Tables, p: PublicId, now: Time): Option<Tombstone> {
    match RecordedTombstone(first, p, now)
    case Some(tomb) => Some(tomb)
    case None => OutcomeOfRow(second, p, now)
  }

  function GetTombstone(t: Tables, p: PublicId, now: Time): Option<Tombstone> {
    GetTombstoneSplit(t, t, p, now)
  }

  /** What a metadata request is answered. */
  datatype Answer = Live(secret: Secret) | Gone(tombstone: Tombstone) | WrongToken | Unknown

  function SecretGone(tomb: Option<Tombstone>, metadata: Hash): Answer {
    if tomb.Some? && tomb.value.metadata == metadata then Gone(tomb.value) else Unknown
  }

  /** authenticateMetadata: its three reads happen in three table states. */
  function AuthenticateMetadata(row: Tables, first: Tables, second: Tables, p: PublicId, metadata: Hash,
                                now: Time): Answer
  {
    match GetByPublicId(row, p, now)
    case None => SecretGone(GetTombstoneSplit(first, second, p, now), metadata)
    case Some(secret) =>
      if metadata != secret.share.metadata then WrongToken
      else if Consumed(secret) then SecretGone(GetTombstoneSplit(first, second, p, now), metadata)
      else Live(secret)
  }
}
