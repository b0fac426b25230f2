/** What holds in every execution of the lifecycle. */
module Executions {
  import opened Bytes
  import opened Tables
  import opened Story
  import opened Lifecycle
  import opened ObjectSafety

  lemma SafeMoves(s: State, step: Step, s': State)
    requires Safe(s) && Moves(s, step, s')
    ensures Safe(s') && Grows(s, s')
  {
    SafeNext(s, step);
  }

  lemma {:induction false} AlwaysSafe(run: seq<State>, steps: seq<Step>, i: nat)
    requires IsExecution(run, steps) && i < |run|
    ensures Safe(run[i])
  {
    if i > 0 {
      AlwaysSafe(run, steps, i - 1);
      SafeMoves(run[i - 1], steps[i - 1], run[i - 1 + 1]);
    }
  }

  lemma {:induction false} AbortedForever(run: seq<State>, steps: seq<Step>, i: nat, j: nat)
    requires IsExecution(run, steps) && i <= j < |run|
    ensures run[i].abortedEver <= run[j].abortedEver
  {
    if i < j {
      AbortedForever(run, steps, i, j - 1);
      AlwaysSafe(run, steps, j - 1);
      SafeMoves(run[j - 1], steps[j - 1], run[j - 1 + 1]);
    }
  }

  // ------------------------------------------------------ objects

  /** A secret that is neither due for cleanup nor being deleted by its owner has its object. */
  lemma SecretHasObject(run: seq<State>, steps: seq<Step>, i: nat, p: PublicId)
    requires IsExecution(run, steps) && i < |run| && p in Db(run[i]).secrets
    requires !Due(Db(run[i]), p, run[i].story.clock) && Db(run[i]).secrets[p].key !in run[i].ownerKeys
    ensures Db(run[i]).secrets[p].key in run[i].objects
  {
    AlwaysSafe(run, steps, i);
  }

  /** An aborted session never becomes a secret. */
  lemma AbortedStaysAborted(run: seq<State>, steps: seq<Step>, i: nat, j: nat, id: SessionId, p: PublicId)
    requires IsExecution(run, steps) && i <= j < |run| && id in run[i].abortedEver && p in Db(run[j]).secrets
    ensures Db(run[j]).secrets[p].key != BlobKey(id)
  {
    AbortedForever(run, steps, i, j);
    AlwaysSafe(run, steps, j);
  }

  /** When discardUpload deletes an object, no secret holds its key then or ever after. */
  lemma DiscardHitsNoSecret(run: seq<State>, steps: seq<Step>, i: nat, j: nat, h: HandlerId, p: PublicId)
    requires IsExecution(run, steps) && i <= j < |run| && Enabled(run[i], DiscardDeletes(h)) && p in Db(run[j]).secrets
    ensures Db(run[j]).secrets[p].key != BlobKey(run[i].handlers[h].session)
  {
    AlwaysSafe(run, steps, i);
    assert HandlerTrue(run[i], run[i].handlers[h]);
    AbortedStaysAborted(run, steps, i, j, run[i].handlers[h].session, p);
  }

  // ------------------------------------------------------ every execution tells a story

  /** The transaction a step commits, if any. */
  function TxOf(s: State, step: Step): Option<Tx>
    requires Enabled(s, step)
  {
    match step
    case BeginUpload(id, session) => Some(CreateSession(id, session))
    case CommitUpload(h, _) =>
      if CompleteSession(Db(s), s.handlers[h].session, s.handlers[h].now).Ok?
      then Some(Complete(s.handlers[h].session, s.handlers[h].now)) else None
    case DiscardAborts(h, now, _) =>
      if AbortSession(Db(s), s.handlers[h].session, now).Ok? then Some(Abort({s.handlers[h].session}, now)) else None
    case ClientAborts(id, now) => Some(Abort({id}, now))
    case CommitSessions(h, ids) => Some(Abort(ids, s.handlers[h].cleanNow))
    case CommitSecrets(h, rows) => Some(Cleanup(rows, s.handlers[h].cleanNow))
    case OwnerCommits(h, now) => Some(Delete(s.handlers[h].publicId, now))
    case Retrieves(tx) => Some(tx)
    case Forgets(tx) => Some(tx)
    case _ => None
  }

  lemma CleanupTimely(s: State, h: HandlerId, rows: set<PublicId>)
    requires SecretLocksTrue(s) && HandlersTrue(s) && Enabled(s, CommitSecrets(h, rows))
    ensures Timely(s.story, Cleanup(rows, s.handlers[h].cleanNow))
  {
    assert HandlerTrue(s, s.handlers[h]);
    forall p | p in rows ensures Due(Db(s), p, s.handlers[h].cleanNow) {
      assert SecretLockTrue(s, p);
    }
  }

  lemma QuietUpload(s: State, step: Step)
    requires Enabled(s, step) && TxOf(s, step).None? && (step.CommitUpload? || step.DiscardAborts?)
    ensures Next(s, step).story == s.story
  {
  }

  lemma QuietMoves(s: State, step: Step, s': State)
    requires Moves(s, step, s') && TxOf(s, step).None?
    ensures s.story.clock <= s'.story.clock && s'.story == s.story.(clock := s'.story.clock)
  {
    if step.CommitUpload? || step.DiscardAborts? {
      QuietUpload(s, step);
    }
  }

  lemma TxMoves(s: State, step: Step, s': State)
    requires Moves(s, step, s') && TxOf(s, step).Some?
    ensures s'.story == Commit(s.story, TxOf(s, step).value)
  {
  }

  /** Every secret and every opening in the history has the key of a completed session. */
  ghost predicate KeysUsed(s: State) {
    && (forall p :: p in s.story.born ==> s.story.born[p].key.session in s.completedEver)
    && (forall i :: 0 <= i < |s.story.opens| ==> s.story.opens[i].key.session in s.completedEver)
  }

  lemma CompletionRecorded(s: State, step: Step, s': State)
    requires SessionsTrue(s) && Moves(s, step, s') && TxOf(s, step).Some? && Creates(Db(s), TxOf(s, step).value)
    ensures Db(s).sessions[TxOf(s, step).value.id].key.session in s'.completedEver
  {
    assert step.CommitUpload?;
    assert SessionTrue(s, s.handlers[step.h].session);
  }

  lemma KeysUsedCommit(s: State, tx: Tx, s': State)
    requires SecretsTrue(s) && KeysUsed(s) && s.completedEver <= s'.completedEver && s'.story == Commit(s.story, tx)
    requires Creates(Db(s), tx) ==> Db(s).sessions[tx.id].key.session in s'.completedEver
    ensures KeysUsed(s')
  {
    assert Grants(Db(s), tx) ==> SecretTrue(s, tx.publicId);
  }

  lemma KeysUsedMoves(s: State, step: Step, s': State)
    requires Safe(s) && KeysUsed(s) && Moves(s, step, s')
    ensures KeysUsed(s')
  {
    SafeMoves(s, step, s');
    if TxOf(s, step).None? {
      QuietMoves(s, step, s');
    } else {
      TxMoves(s, step, s');
      if Creates(Db(s), TxOf(s, step).value) {
        CompletionRecorded(s, step, s');
      }
      KeysUsedCommit(s, TxOf(s, step).value, s');
    }
  }

  lemma {:induction false} AlwaysKeysUsed(run: seq<State>, steps: seq<Step>, i: nat)
    requires IsExecution(run, steps) && i < |run|
    ensures KeysUsed(run[i])
  {
    if i > 0 {
      AlwaysSafe(run, steps, i - 1);
      AlwaysKeysUsed(run, steps, i - 1);
      KeysUsedMoves(run[i - 1], steps[i - 1], run[i - 1 + 1]);
    }
  }

  /** A new secret's key is its own. */
  lemma CompleteTimely(s: State, h: HandlerId)
    requires SessionsTrue(s) && HandlersTrue(s) && KeysUsed(s)
    requires IsCompleting(s, h, Stored)
    ensures Timely(s.story, Complete(s.handlers[h].session, s.handlers[h].now))
  {
    var id := s.handlers[h].session;
    assert HandlerTrue(s, s.handlers[h]);
    assert id in Db(s).sessions ==> SessionTrue(s, id);
  }

  /** A step commits one timely transaction, or moves only the clock; only an owner's request deletes. */
  lemma StoryMoves(s: State, step: Step, s': State)
    requires Safe(s) && KeysUsed(s) && Moves(s, step, s')
    ensures match TxOf(s, step)
            case None => s.story.clock <= s'.story.clock && s'.story == s.story.(clock := s'.story.clock)
            case Some(tx) =>
              && Timely(s.story, tx) && s'.story == Commit(s.story, tx)
              && (tx.Delete? ==> tx.publicId in s.ownerIds)
  {
    if TxOf(s, step).None? {
      QuietMoves(s, step, s');
    } else {
      TxMoves(s, step, s');
      TxTimely(s, step);
    }
  }

  lemma TxTimely(s: State, step: Step)
    requires Safe(s) && KeysUsed(s) && Enabled(s, step) && TxOf(s, step).Some?
    ensures var tx := TxOf(s, step).value; Timely(s.story, tx) && (tx.Delete? ==> tx.publicId in s.ownerIds)
  {
    if step.CommitSecrets? {
      CleanupTimely(s, step.h, step.rows);
    } else if step.CommitUpload? {
      CompleteTimely(s, step.h);
    } else if step.CommitSessions? || step.OwnerCommits? {
      assert HandlerTrue(s, s.handlers[step.h]);
    }
  }

  /** The event is the transaction the step commits, if any. */
  ghost predicate EventFits(s: State, step: Step, e: Event) {
    Enabled(s, step) ==> if TxOf(s, step).Some? then e == Happens(TxOf(s, step).value) else e.Passes?
  }

  ghost predicate TellsStory(run: seq<State>, steps: seq<Step>, h: History) {
    && |h.states| == |run| == |steps| + 1 && |h.events| == |steps|
    && (forall i :: 0 <= i < |run| ==> h.states[i] == run[i].story)
    && (forall i {:trigger steps[i]} :: 0 <= i < |steps| ==> EventFits(run[i], steps[i], h.events[i]))
  }

  lemma MoveOccurs(s: State, step: Step, s': State) returns (e: Event)
    requires Safe(s) && KeysUsed(s) && Moves(s, step, s')
    ensures Occurs(s.story, e, s'.story) && EventFits(s, step, e)
  {
    e := if TxOf(s, step).Some? then Happens(TxOf(s, step).value) else Passes(s'.story.clock);
    StoryMoves(s, step, s');
  }

  /** So what holds of stories holds of the machine. */
  lemma ExecutionTellsStory(run: seq<State>, steps: seq<Step>) returns (h: History)
    requires IsExecution(run, steps)
    ensures TellsStory(run, steps, h) && IsRun(h)
  {
    h := StoryUpTo(run, steps, |steps|);
    assert run[..|steps| + 1] == run && steps[..|steps|] == steps;
  }

  lemma {:induction false} StoryUpTo(run: seq<State>, steps: seq<Step>, n: nat) returns (h: History)
    requires IsExecution(run, steps) && n <= |steps|
    ensures TellsStory(run[..n + 1], steps[..n], h) && IsRun(h)
  {
    if n == 0 {
      h := History([Empty()], []);
    } else {
      var earlier := StoryUpTo(run, steps, n - 1);
      var e := EventOccurs(run, steps, n - 1);
      RunExtended(earlier, e, run[n].story);
      h := History(earlier.states + [run[n].story], earlier.events + [e]);
      StoryExtended(run, steps, n, earlier, e);
    }
  }

  lemma StoryExtended(run: seq<State>, steps: seq<Step>, n: nat, h: History, e: Event)
    requires |run| == |steps| + 1 && 0 < n <= |steps| && TellsStory(run[..n], steps[..n - 1], h)
    requires EventFits(run[n - 1], steps[n - 1], e)
    ensures TellsStory(run[..n + 1], steps[..n], History(h.states + [run[n].story], h.events + [e]))
  {
    forall i | 0 <= i < n ensures EventFits(run[..n + 1][i], steps[..n][i], (h.events + [e])[i]) {
      assert i < n - 1 ==> EventFits(run[..n][i], steps[..n - 1][i], h.events[i]);
    }
  }

  lemma RunExtended(h: History, e: Event, s: Story)
    requires IsRun(h) && Occurs(h.states[|h.states| - 1], e, s)
    ensures IsRun(History(h.states + [s], h.events + [e]))
  {
    var h' := History(h.states + [s], h.events + [e]);
    forall i | 0 <= i < |h'.events| ensures Occurs(h'.states[i], h'.events[i], h'.states[i + 1]) {
      assert i < |h.events| ==> Occurs(h.states[i], h.events[i], h.states[i + 1]);
    }
  }

  lemma EventOccurs(run: seq<State>, steps: seq<Step>, i: nat) returns (e: Event)
    requires IsExecution(run, steps) && i < |steps|
    ensures Occurs(run[i].story, e, run[i + 1].story) && EventFits(run[i], steps[i], e)
  {
    AlwaysSafe(run, steps, i);
    AlwaysKeysUsed(run, steps, i);
    assert Moves(run[i], steps[i], run[i + 1]);
    e := MoveOccurs(run[i], steps[i], run[i + 1]);
  }

  /** At most one retrieval session for a one-time secret, in every execution and whatever ids are used. */
  lemma OneRetrievalEver(run: seq<State>, steps: seq<Step>, i: nat, a: nat, b: nat)
    requires IsExecution(run, steps) && i < |run| && a < |run[i].story.opens| && b < |run[i].story.opens|
    requires run[i].story.opens[a].key == run[i].story.opens[b].key && run[i].story.opens[a].burn
    ensures a == b
  {
    var h := ExecutionTellsStory(run, steps);
    assert h.states[i] == run[i].story;
    OneRetrieval(h, i, a, b);
  }

  // ------------------------------------------------------ what links are told

  /** Step c creates a secret under p. */
  predicate BornIn(run: seq<State>, c: nat, p: PublicId) {
    c + 1 < |run| && Appears(run[c].story, run[c + 1].story, p)
  }

  /** Neither step c nor a later one up to k creates a secret under p over a kept tombstone. */
  ghost predicate UnreusedIn(run: seq<State>, c: nat, k: nat, p: PublicId) {
    forall e: nat {:trigger BornIn(run, e, p)} :: c <= e < k && BornIn(run, e, p) ==> p !in Db(run[e]).tombstones
  }

  lemma SameBirths(run: seq<State>, steps: seq<Step>, h: History, c: nat, k: nat, p: PublicId)
    requires TellsStory(run, steps, h) && k < |run| && UnreusedIn(run, c, k, p)
    ensures Unreused(h, c, k, p)
  {
    forall e: nat | c <= e < k ensures FreshAt(h, e, p) {
      assert BornIn(run, e, p) <==> Born(h, e, p);
    }
  }

  /**
   * In every execution: up to a week past its expiry a secret's link is answered live or gone, but for the
   * race, if no secret is created under its own public id over a kept tombstone.
   */
  lemma LinkIsAnswered(run: seq<State>, steps: seq<Step>, c: nat, i: nat, j: nat, k: nat, p: PublicId, now: Time)
    requires IsExecution(run, steps) && BornIn(run, c, p) && c < i <= j <= k < |run| && UnreusedIn(run, c, k, p)
    requires now <= run[i].story.clock
    requires run[k].story.clock < Db(run[c + 1]).secrets[p].expires + TOMBSTONE_RETENTION
    ensures var secret := Db(run[c + 1]).secrets[p];
            var told := Told(run[i].story, run[j].story, run[k].story, p, secret, now);
            told != WrongToken && (told == Unknown <==> Raced(run[j].story, run[k].story, p, secret, now))
  {
    var h := ExecutionTellsStory(run, steps);
    SameBirths(run, steps, h, c, k, p);
    AnswerKnown(h, c, i, j, k, p, now);
  }

  /** And once the owner's deletion of an unconsumed secret has committed, it is told as that deletion. */
  lemma DeletionIsToldEver(run: seq<State>, steps: seq<Step>, c: nat, i: nat, j: nat, q: Time)
    requires IsExecution(run, steps) && c < i < j < |run| && steps[i].OwnerCommits? && Enabled(run[i], steps[i])
    requires var p := run[i].handlers[steps[i].h].publicId;
             && BornIn(run, c, p) && UnreusedIn(run, c, j, p)
             && p in Db(run[i]).secrets && !Consumed(Db(run[i]).secrets[p])
             && q <= run[j].story.clock < Db(run[c + 1]).secrets[p].expires + TOMBSTONE_RETENTION
    ensures var p := run[i].handlers[steps[i].h].publicId;
            var tomb := GetTombstone(Db(run[j]), p, q);
            tomb.Some? && TellsDeletion(tomb.value, Db(run[i]).secrets[p], steps[i].now, run[j].story.opens)
  {
    var p := run[i].handlers[steps[i].h].publicId;
    var h := ExecutionTellsStory(run, steps);
    SameBirths(run, steps, h, c, j, p);
    assert EventFits(run[i], steps[i], h.events[i]);
    DeletionIsTold(h, c, i, j, p, steps[i].now, q);
  }

  // ------------------------------------------------------ readers

  /** The secret's row and the retrieval session are there. */
  predicate Granted(t: Tables, p: PublicId, token: Hash, key: Key, secretExpires: Time, expires: Time) {
    && p in t.secrets && t.secrets[p].key == key && t.secrets[p].expires == secretExpires
    && token in t.retrievals && t.retrievals[token].publicId == p && t.retrievals[token].expires == expires
  }

  lemma GrantedStays(s: Story, tx: Tx, p: PublicId, token: Hash, key: Key, secretExpires: Time, expires: Time)
    requires Granted(s.db, p, token, key, secretExpires, expires) && s.clock < secretExpires && s.clock < expires
    requires Timely(s, tx) && !(tx.Delete? && tx.publicId == p)
    ensures Granted(Run(s.db, tx), p, token, key, secretExpires, expires)
  {
    assert LiveRetrieval(s.db, token, p, s.clock);
  }

  /** Step e is not the commit of an owner's deletion under p. */
  predicate DeletesNot(run: seq<State>, steps: seq<Step>, e: nat, p: PublicId) {
    e < |steps| && e < |run| && steps[e].OwnerCommits? && steps[e].h in run[e].handlers ==>
      var x := run[e].handlers[steps[e].h]; !(x.OwnerDeleting? && x.publicId == p)
  }

  ghost predicate NoDeletionCommits(run: seq<State>, steps: seq<Step>, i: nat, j: nat, p: PublicId) {
    forall e: nat {:trigger DeletesNot(run, steps, e, p)} :: i <= e < j ==> DeletesNot(run, steps, e, p)
  }

  lemma {:induction false} GrantedUntil(run: seq<State>, steps: seq<Step>, i: nat, j: nat, p: PublicId, token: Hash,
                                        key: Key, secretExpires: Time, expires: Time)
    requires IsExecution(run, steps) && i <= j < |run| && NoDeletionCommits(run, steps, i, j, p)
    requires Granted(Db(run[i]), p, token, key, secretExpires, expires)
    requires run[j].story.clock < secretExpires && run[j].story.clock < expires
    ensures Granted(Db(run[j]), p, token, key, secretExpires, expires)
  {
    if i < j {
      AlwaysSafe(run, steps, j - 1);
      AlwaysKeysUsed(run, steps, j - 1);
      assert Moves(run[j - 1], steps[j - 1], run[j - 1 + 1]);
      SafeMoves(run[j - 1], steps[j - 1], run[j]);
      GrantedUntil(run, steps, i, j - 1, p, token, key, secretExpires, expires);
      assert DeletesNot(run, steps, j - 1, p);
      GrantedMoves(run[j - 1], steps[j - 1], run[j], p, token, key, secretExpires, expires);
    }
  }

  lemma GrantedMoves(s: State, step: Step, s': State, p: PublicId, token: Hash, key: Key, secretExpires: Time,
                     expires: Time)
    requires Safe(s) && KeysUsed(s) && Moves(s, step, s')
    requires step.OwnerCommits? ==> s.handlers[step.h].publicId != p
    requires Granted(Db(s), p, token, key, secretExpires, expires)
    requires s.story.clock < secretExpires && s.story.clock < expires
    ensures Granted(Db(s'), p, token, key, secretExpires, expires)
  {
    StoryMoves(s, step, s');
    if TxOf(s, step).Some? {
      OnlyOwnersDelete(s, step);
      GrantedStays(s.story, TxOf(s, step).value, p, token, key, secretExpires, expires);
    }
  }

  lemma OnlyOwnersDelete(s: State, step: Step)
    requires Enabled(s, step) && TxOf(s, step).Some?
    ensures TxOf(s, step).value.Delete? ==>
              step.OwnerCommits? && TxOf(s, step).value.publicId == s.handlers[step.h].publicId
  {
  }

  /**
   * From the commit of StartRetrievalSession until the session or the secret expires, the session's reads find
   * the secret and its object, unless its owner begins to delete it or a deletion begun for an earlier secret
   * of the same public id commits.
   */
  lemma ReaderIsServed(run: seq<State>, steps: seq<Step>, i: nat, j: nat)
    requires IsExecution(run, steps) && i < j < |run| && steps[i].Retrieves? && Grants(Db(run[i]), steps[i].tx)
    requires var tx, now := steps[i].tx, run[j].story.clock;
             && now < tx.expires && now < Db(run[i]).secrets[tx.publicId].expires
             && NoDeletionCommits(run, steps, i, j, tx.publicId)
             && Db(run[i]).secrets[tx.publicId].key !in run[j].ownerKeys
    ensures var tx, key := steps[i].tx, Db(run[i]).secrets[steps[i].tx.publicId].key;
            var row := GetByRetrievalSession(Db(run[j]), tx.publicId, tx.token, run[j].story.clock);
            row.Some? && row.value.key == key && key in run[j].objects
  {
    var tx, now, p := steps[i].tx, run[j].story.clock, steps[i].tx.publicId;
    assert Moves(run[i], steps[i], run[i + 1]);
    var secret := Db(run[i]).secrets[p];
    GrantedUntil(run, steps, i + 1, j, p, tx.token, secret.key, secret.expires, tx.expires);
    assert LiveRetrieval(Db(run[j]), tx.token, p, now);
    assert !Due(Db(run[j]), p, now);
    SecretHasObject(run, steps, j, p);
  }

  // ------------------------------------------------------ an execution

  const EXAMPLE_SESSION := Session("p", BlobKey("s"), true, 300, 86400, Pending(Share("m", "b", "d")))

  /** A session with at most one handler at work on it. */
  function Uploading(x: Option<Handler>, requested: set<Key>, landed: set<Key>): State {
    State(Story(0, Tables(map["s" := EXAMPLE_SESSION], map[], map[], map[]), map[], []), landed, requested, landed, {},
          if x.Some? then map["s" := 0] else map[], map[],
          if x.Some? then map[0 := x.value] else map[], {"s"}, {}, {}, {}, {})
  }

  /** The session became a secret. */
  function Uploaded(handlers: map<HandlerId, Handler>): State {
    var secret := SecretOf(EXAMPLE_SESSION, 0);
    State(Story(0, Tables(map["s" := EXAMPLE_SESSION.(state := Completed(0))], map["p" := secret], map[], map[]),
                map["p" := secret], []),
          {BlobKey("s")}, {BlobKey("s")}, {BlobKey("s")}, {}, map[], map[], handlers, {"s"}, {}, {"s"}, {}, {})
  }

  lemma ExampleBegins()
    ensures Moves(Initial(), BeginUpload("s", EXAMPLE_SESSION), Uploading(None, {}, {}))
    ensures Moves(Uploading(None, {}, {}), LockUpload(0, "s", 0),
                  Uploading(Some(Completing("s", 86400, 0, Locked)), {}, {}))
  {
    assert !SessionClashes(Db(Initial()), "s", "p");
    assert LockedBy(map[], {"s"}, 0) == map["s" := 0];
  }

  lemma ExampleStores()
    ensures var x, k := Completing("s", 86400, 0, Locked), BlobKey("s");
            && Moves(Uploading(Some(x), {}, {}), CheckUpload(0), Uploading(Some(x.(progress := Checked)), {k}, {}))
            && Moves(Uploading(Some(x.(progress := Checked)), {k}, {}), ObjectLands(k),
                     Uploading(Some(x.(progress := Checked)), {k}, {k}))
            && Moves(Uploading(Some(x.(progress := Checked)), {k}, {k}), StorageAnswers(0),
                     Uploading(Some(x.(progress := Stored)), {k}, {k}))
  {
  }

  lemma ExampleStory()
    ensures Commit(Uploading(None, {}, {}).story, Complete("s", 0)) == Uploaded(map[]).story
  {
  }

  lemma NoLocks(locks: map<SessionId, HandlerId>)
    requires locks == map[] || locks == map["s" := 0]
    ensures Released(locks, 0) == map[]
  {
  }

  lemma ExampleCommits()
    ensures Moves(Uploading(Some(Completing("s", 86400, 0, Stored)), {BlobKey("s")}, {BlobKey("s")}),
                  CommitUpload(0, true), Uploaded(map[0 := Discarding("s", false)]))
  {
    ExampleStory();
    NoLocks(map["s" := 0]);
    NoLocks(map[]);
  }

  lemma ExampleDiscards()
    ensures Moves(Uploaded(map[0 := Discarding("s", false)]), DiscardAborts(0, 0, false), Uploaded(map[]))
  {
    NoLocks(map[]);
  }

  function ExampleSteps(): seq<Step> {
    [BeginUpload("s", EXAMPLE_SESSION), LockUpload(0, "s", 0), CheckUpload(0), ObjectLands(BlobKey("s")),
     StorageAnswers(0), CommitUpload(0, true), DiscardAborts(0, 0, false)]
  }

  function ExampleRun(): seq<State> {
    var x, k := Completing("s", 86400, 0, Locked), BlobKey("s");
    [Initial(), Uploading(None, {}, {}), Uploading(Some(x), {}, {}), Uploading(Some(x.(progress := Checked)), {k}, {}),
     Uploading(Some(x.(progress := Checked)), {k}, {k}), Uploading(Some(x.(progress := Stored)), {k}, {k}),
     Uploaded(map[0 := Discarding("s", false)]), Uploaded(map[])]
  }

  /** An upload whose commit goes through but whose answer is lost: the discard that follows deletes nothing. */
  lemma LostAnswer() returns (run: seq<State>, steps: seq<Step>)
    ensures IsExecution(run, steps) && |run| == 8 && steps[5] == CommitUpload(0, true)
            && steps[6] == DiscardAborts(0, 0, false)
    ensures run[7] == Uploaded(map[])
  {
    steps, run := ExampleSteps(), ExampleRun();
    forall i | 0 <= i < |steps| ensures Moves(run[i], steps[i], run[i + 1]) {
      ExampleMoves(i);
    }
  }

  lemma ExampleMoves(i: nat)
    requires i < 7
    ensures Moves(ExampleRun()[i], ExampleSteps()[i], ExampleRun()[i + 1])
  {
    if i < 2 {
      ExampleBegun(i);
    } else if i < 5 {
      ExampleStored(i);
    } else {
      ExampleEnded(i);
    }
  }

  lemma ExampleBegun(i: nat)
    requires i < 2
    ensures Moves(ExampleRun()[i], ExampleSteps()[i], ExampleRun()[i + 1])
  {
    ExampleBegins();
  }

  lemma ExampleStored(i: nat)
    requires 2 <= i < 5
    ensures Moves(ExampleRun()[i], ExampleSteps()[i], ExampleRun()[i + 1])
  {
    ExampleStores();
  }

  lemma ExampleEnded(i: nat)
    requires 5 <= i < 7
    ensures Moves(ExampleRun()[i], ExampleSteps()[i], ExampleRun()[i + 1])
  {
    ExampleCommits();
    ExampleDiscards();
  }
}
