/**
 * Uploads, secrets and their objects under every interleaving of handlers, cleanup and crashes.
 * A committed transaction is one step and so is each storage call; a handler that makes storage calls
 * inside a transaction holds row locks meanwhile. Any handler may stop anywhere, and any transaction
 * may be lost, or commit with its answer lost.
 * (internal/adapter/httpserver/upload_handler.go, secret_handler.go; internal/cleanup/worker.go)
 */
module Lifecycle {
  import opened Bytes
  import opened Tables
  import opened Story

  type HandlerId = nat

  /** Where CompleteUploadSession is: row locked; storage call made; storage call answered. */
  datatype Progress = Locked | Checked | Stored

  datatype Handler =
    | Completing(session: SessionId, uploadExpires: Time, now: Time, progress: Progress)
    | Discarding(session: SessionId, aborted: bool)
    | CleaningSessions(cleanNow: Time, sessions: set<SessionId>, askedSessions: set<SessionId>)
    | CleaningSecrets(cleanNow: Time, keys: map<PublicId, Key>, askedSecrets: set<PublicId>)
    | OwnerDeleting(publicId: PublicId, key: Key, asked: bool)

  datatype State = State(
    story: Story,
    // Storage: what it holds, which completions were asked for and took effect, which deletions were
    // asked for. A request may take effect at any later time, or never.
    objects: set<Key>, requested: set<Key>, landed: set<Key>, deleting: set<Key>,
    sessionLocks: map<SessionId, HandlerId>, secretLocks: map<PublicId, HandlerId>,
    handlers: map<HandlerId, Handler>,
    // History: sessions ever created, aborted and completed; secrets whose owner has begun a deletion.
    used: set<SessionId>, abortedEver: set<SessionId>, completedEver: set<SessionId>,
    ownerKeys: set<Key>, ownerIds: set<PublicId>)

  datatype Step =
    | Tick(t: Time)
    | BeginUpload(id: SessionId, session: Session)
    | LockUpload(h: HandlerId, id: SessionId, now: Time)
    | CheckUpload(h: HandlerId)
    | ObjectLands(key: Key)
    | StorageAnswers(h: HandlerId)
    | StorageRefuses(h: HandlerId, notFound: bool)
    | CommitUpload(h: HandlerId, answerLost: bool)
    | RollBackUpload(h: HandlerId)
    | DiscardAborts(h: HandlerId, now: Time, answerLost: bool)
    | DiscardDeletes(h: HandlerId)
    | ClientAborts(id: SessionId, now: Time)
    | LockSessions(h: HandlerId, now: Time, sessions: set<SessionId>)
    | AskSessionObject(h: HandlerId, id: SessionId)
    | CommitSessions(h: HandlerId, ids: set<SessionId>)
    | LockSecrets(h: HandlerId, now: Time, rows: set<PublicId>)
    | AskSecretObject(h: HandlerId, p: PublicId)
    | CommitSecrets(h: HandlerId, rows: set<PublicId>)
    | OwnerBegins(h: HandlerId, p: PublicId, now: Time)
    | OwnerAsks(h: HandlerId)
    | OwnerCommits(h: HandlerId, now: Time)
    | ObjectGoes(key: Key)
    | Retrieves(tx: Tx)
    | Forgets(tx: Tx)
    | TransactionLost(h: HandlerId)
    | Stops(h: HandlerId)

  // ------------------------------------------------------ pieces of steps

  function Db(s: State): Tables {
    s.story.db
  }

  function Released<K>(locks: map<K, HandlerId>, h: HandlerId): map<K, HandlerId> {
    map k | k in locks && locks[k] != h :: locks[k]
  }

  function LockedBy<K>(locks: map<K, HandlerId>, ids: set<K>, h: HandlerId): map<K, HandlerId> {
    locks + map k | k in ids :: h
  }

  predicate Holds<K>(locks: map<K, HandlerId>, k: K, h: HandlerId) {
    k in locks && locks[k] == h
  }

  /** The handler's transaction ends: its locks go, and it goes on as next, or not at all. */
  function Ended(s: State, h: HandlerId, next: Option<Handler>): State {
    s.(sessionLocks := Released(s.sessionLocks, h), secretLocks := Released(s.secretLocks, h),
       handlers := if next.Some? then s.handlers[h := next.value] else s.handlers - {h})
  }

  function At(s: State, h: HandlerId, next: Handler): State {
    s.(handlers := s.handlers[h := next])
  }

  function Commits(s: State, tx: Tx): State {
    s.(story := Commit(s.story, tx))
  }

  function UploadCompleted(s: State, h: HandlerId, next: Option<Handler>): State
    requires h in s.handlers && s.handlers[h].Completing?
  {
    Commits(Ended(s, h, next), Complete(s.handlers[h].session, s.handlers[h].now))
    .(completedEver := s.completedEver + {s.handlers[h].session})
  }

  function UploadCommitted(s: State, h: HandlerId, answerLost: bool): State
    requires h in s.handlers && s.handlers[h].Completing?
  {
    var discard := Some(Discarding(s.handlers[h].session, false));
    if !CompleteSession(Db(s), s.handlers[h].session, s.handlers[h].now).Ok? then Ended(s, h, discard)
    else UploadCompleted(s, h, if answerLost then discard else None)
  }

  function DiscardAborted(s: State, h: HandlerId, now: Time, answerLost: bool): State
    requires h in s.handlers && s.handlers[h].Discarding?
  {
    var id := s.handlers[h].session;
    if !AbortSession(Db(s), id, now).Ok? then Ended(s, h, None)
    else Commits(Ended(s, h, if answerLost then None else Some(Discarding(id, true))), Abort({id}, now))
         .(abortedEver := s.abortedEver + {id})
  }

  predicate IsCompleting(s: State, h: HandlerId, progress: Progress) {
    h in s.handlers && s.handlers[h].Completing? && s.handlers[h].progress == progress
  }

  predicate IsDiscarding(s: State, h: HandlerId, aborted: bool) {
    h in s.handlers && s.handlers[h].Discarding? && s.handlers[h].aborted == aborted
  }

  // ------------------------------------------------------ steps

  ghost predicate Enabled(s: State, step: Step) {
    match step
    case Tick(t) => s.story.clock <= t
    case BeginUpload(id, session) =>
      && id !in s.used && session.key == BlobKey(id) && session.state.Pending?
      && !SessionClashes(Db(s), id, session.publicId)
    case LockUpload(h, id, now) =>
      h !in s.handlers && PendingSession(Db(s), id) && id !in s.sessionLocks && now <= s.story.clock
    case CheckUpload(h) =>
      && IsCompleting(s, h, Locked)
      && s.story.clock <= s.handlers[h].uploadExpires
    case ObjectLands(key) => key in s.requested
    case StorageAnswers(h) =>
      IsCompleting(s, h, Checked) && BlobKey(s.handlers[h].session) in s.landed
    case StorageRefuses(h, _) => IsCompleting(s, h, Checked)
    case CommitUpload(h, _) =>
      && IsCompleting(s, h, Stored)
      && Holds(s.sessionLocks, s.handlers[h].session, h)
    case RollBackUpload(h) => IsCompleting(s, h, Stored)
    case DiscardAborts(h, now, _) =>
      && IsDiscarding(s, h, false) && now <= s.story.clock
      && s.handlers[h].session !in s.sessionLocks
    case DiscardDeletes(h) => IsDiscarding(s, h, true)
    case ClientAborts(id, now) => PendingSession(Db(s), id) && id !in s.sessionLocks && now <= s.story.clock
    case LockSessions(h, now, ids) =>
      && h !in s.handlers && now <= s.story.clock
      && forall id :: id in ids ==>
           PendingSession(Db(s), id) && Db(s).sessions[id].uploadExpires < now && id !in s.sessionLocks
    case AskSessionObject(h, id) => h in s.handlers && s.handlers[h].CleaningSessions? && id in s.handlers[h].sessions
    case CommitSessions(h, ids) =>
      && h in s.handlers && s.handlers[h].CleaningSessions? && ids <= s.handlers[h].askedSessions
      && forall id :: id in ids ==> Holds(s.sessionLocks, id, h)
    case LockSecrets(h, now, rows) =>
      && h !in s.handlers && now <= s.story.clock
      && forall p :: p in rows ==> Due(Db(s), p, now) && p !in s.secretLocks
    case AskSecretObject(h, p) => h in s.handlers && s.handlers[h].CleaningSecrets? && p in s.handlers[h].keys
    case CommitSecrets(h, rows) =>
      && h in s.handlers && s.handlers[h].CleaningSecrets? && rows <= s.handlers[h].askedSecrets
      && forall p :: p in rows ==> Holds(s.secretLocks, p, h)
    case OwnerBegins(h, p, now) =>
      && h !in s.handlers && now <= s.story.clock
      && GetByPublicId(Db(s), p, now).Some? && !Consumed(Db(s).secrets[p])
    case OwnerAsks(h) => h in s.handlers && s.handlers[h].OwnerDeleting?
    case OwnerCommits(h, now) =>
      && h in s.handlers && s.handlers[h].OwnerDeleting? && s.handlers[h].asked
      && s.handlers[h].publicId !in s.secretLocks && now <= s.story.clock
    case ObjectGoes(key) => key in s.deleting
    case Retrieves(tx) => tx.Start? && tx.now <= s.story.clock && tx.publicId !in s.secretLocks
    case Forgets(tx) =>
      tx.ForgetSessions? || ((tx.ForgetRetrievals? || tx.ForgetTombstones?) && tx.now <= s.story.clock)
    case TransactionLost(h) => h in s.handlers
    case Stops(h) => h in s.handlers
  }

  function Next(s: State, step: Step): State
    requires Enabled(s, step)
  {
    match step
    case Tick(t) => s.(story := s.story.(clock := t))
    case BeginUpload(id, session) => Commits(s, CreateSession(id, session)).(used := s.used + {id})
    case LockUpload(h, id, now) =>
      At(s, h, Completing(id, Db(s).sessions[id].uploadExpires, now, Locked))
      .(sessionLocks := LockedBy(s.sessionLocks, {id}, h))
    case CheckUpload(h) =>
      At(s, h, s.handlers[h].(progress := Checked)).(requested := s.requested + {BlobKey(s.handlers[h].session)})
    case ObjectLands(key) => s.(objects := s.objects + {key}, landed := s.landed + {key})
    case StorageAnswers(h) => At(s, h, s.handlers[h].(progress := Stored))
    case StorageRefuses(h, notFound) =>
      Ended(s, h, if notFound then Some(Discarding(s.handlers[h].session, false)) else None)
    case CommitUpload(h, answerLost) =>
      UploadCommitted(s, h, answerLost)
    case RollBackUpload(h) => Ended(s, h, Some(Discarding(s.handlers[h].session, false)))
    case DiscardAborts(h, now, answerLost) =>
      DiscardAborted(s, h, now, answerLost)
    case DiscardDeletes(h) => Ended(s, h, None).(deleting := s.deleting + {BlobKey(s.handlers[h].session)})
    case ClientAborts(id, now) => Commits(s, Abort({id}, now)).(abortedEver := s.abortedEver + {id})
    case LockSessions(h, now, ids) =>
      At(s, h, CleaningSessions(now, ids, {})).(sessionLocks := LockedBy(s.sessionLocks, ids, h))
    case AskSessionObject(h, id) =>
      At(s, h, s.handlers[h].(askedSessions := s.handlers[h].askedSessions + {id}))
      .(deleting := s.deleting + {BlobKey(id)})
    case CommitSessions(h, ids) =>
      Commits(Ended(s, h, None), Abort(ids, s.handlers[h].cleanNow)).(abortedEver := s.abortedEver + ids)
    case LockSecrets(h, now, rows) =>
      At(s, h, CleaningSecrets(now, map p | p in rows :: Db(s).secrets[p].key, {}))
      .(secretLocks := LockedBy(s.secretLocks, rows, h))
    case AskSecretObject(h, p) =>
      At(s, h, s.handlers[h].(askedSecrets := s.handlers[h].askedSecrets + {p}))
      .(deleting := s.deleting + {s.handlers[h].keys[p]})
    case CommitSecrets(h, rows) => Commits(Ended(s, h, None), Cleanup(rows, s.handlers[h].cleanNow))
    case OwnerBegins(h, p, now) =>
      var key := Db(s).secrets[p].key;
      At(s, h, OwnerDeleting(p, key, false)).(ownerKeys := s.ownerKeys + {key}, ownerIds := s.ownerIds + {p})
    case OwnerAsks(h) =>
      At(s, h, s.handlers[h].(asked := true)).(deleting := s.deleting + {s.handlers[h].key})
    case OwnerCommits(h, now) => Commits(Ended(s, h, None), Delete(s.handlers[h].publicId, now))
    case ObjectGoes(key) => s.(objects := s.objects - {key})
    case Retrieves(tx) => Commits(s, tx)
    case Forgets(tx) => Commits(s, tx)
    case TransactionLost(h) => Ended(s, h, Some(s.handlers[h]))
    case Stops(h) => Ended(s, h, None)
  }

  function Initial(): State {
    State(Empty(), {}, {}, {}, {}, map[], map[], map[], {}, {}, {}, {}, {})
  }

  ghost predicate Moves(s: State, step: Step, s': State) {
    Enabled(s, step) && s' == Next(s, step)
  }

  /** The states that these steps pass through, from the empty store. */
  ghost predicate IsExecution(run: seq<State>, steps: seq<Step>) {
    && |run| == |steps| + 1 && run[0] == Initial()
    && forall i {:trigger steps[i]} :: 0 <= i < |steps| ==> Moves(run[i], steps[i], run[i + 1])
  }
}
