/** The relay's table as an object, and the handler that writes a leg once. */
module TransferRepo {
  import opened Bytes
  import opened Fates
  import opened Relay

  datatype CreateError = AllTaken | DuplicateId
  datatype ClaimError = NoTransfer | AlreadyClaimed | ClaimFailed

  class TransferRepo {
    var transfers: Transfers

    constructor ()
      ensures transfers == map[]
    {
      transfers := map[];
    }

    /** NextFreeNameplate */
    method NextFreeNameplate(limit: nat) returns (r: Option<nat>)
      ensures r == FirstFree(transfers, 1, limit)
    {
      var n := 1;
      while n <= limit
        invariant 1 <= n <= limit + 1
        invariant FirstFree(transfers, 1, limit) == FirstFree(transfers, n, limit)
      {
        var m := transfers;
        if !Taken(m, n) {
          return Some(n);
        }
        n := n + 1;
      }
      r := None;
    }

    /** CreateTransfer: one transaction under the advisory lock; an error rolls it back. */
    method CreateTransfer(id: TransferId, sender: Hash, offer: Buffer, expires: Time, limit: nat, now: Time)
      returns (r: Result<nat, CreateError>)
      modifies this
      ensures transfers == Apply(old(transfers), Create(id, sender, offer, expires, limit, now))
      ensures match r
              case Ok(n) => id !in old(transfers) && FirstFree(CloseExpired(old(transfers), now), 1, limit) == Some(n)
              case Err(AllTaken) => forall n :: 1 <= n <= limit ==> Taken(CloseExpired(old(transfers), now), n)
              case Err(DuplicateId) => id in old(transfers)
    {
      var before := transfers;
      transfers := CloseExpired(transfers, now);
      var nameplate := NextFreeNameplate(limit);
      if nameplate.None? {
        transfers := before;
        return Err(AllTaken);
      }
      if id in transfers {
        transfers := before;
        return Err(DuplicateId);
      }
      transfers := transfers[id := Transfer(nameplate.value, sender, None, offer, None, None, None, expires)];
      r := Ok(nameplate.value);
    }

    /**
     * ClaimTransfer: the row it returns is the one it claimed. When there is none, a second statement asks for
     * a claimed one, with the requests of others in between; fate and checkFails are of the two statements.
     */
    method ClaimTransfer(nameplate: int, receiver: Hash, now: Time, fate: Fate, others: Transfers -> Transfers,
                         checkFails: bool, ghost limit: nat)
      returns (r: Result<TransferId, ClaimError>)
      requires Inv(transfers, limit)
      modifies this
      ensures fate == RollsBack ==> r == Err(ClaimFailed) && transfers == old(transfers)
      ensures fate == AnswerLost ==>
                r == Err(ClaimFailed) && transfers == Apply(old(transfers), Claim(nameplate, receiver, now))
      ensures fate == Commits && r.Ok? ==>
                && r.value in old(transfers) && Claimable(old(transfers)[r.value], nameplate, now)
                && transfers == Apply(old(transfers), Claim(nameplate, receiver, now))
                             == old(transfers)[r.value := old(transfers)[r.value].(receiver := Some(receiver))]
      ensures fate == Commits && r.Err? ==>
                && (forall id :: id in old(transfers) ==> !Claimable(old(transfers)[id], nameplate, now))
                && transfers == others(old(transfers))
                && r.error == if checkFails then ClaimFailed
                              else if ClaimedUnder(transfers, nameplate, now) then AlreadyClaimed else NoTransfer
    {
      var m := transfers;
      if fate == RollsBack {
        return Err(ClaimFailed);
      }
      var matching := set id | id in m && Claimable(m[id], nameplate, now);
      transfers := Apply(transfers, Claim(nameplate, receiver, now));
      if fate == AnswerLost {
        return Err(ClaimFailed);
      }
      if matching == {} {
        assert forall id :: id in m && Claimable(m[id], nameplate, now) ==> id in matching;
        assert transfers == m;
        Others(others);
        var after := transfers;
        return if checkFails then Err(ClaimFailed)
               else if ClaimedUnder(after, nameplate, now) then Err(AlreadyClaimed) else Err(NoTransfer);
      }
      var id :| id in matching;
      assert forall other :: other in matching ==> other == id;
      assert transfers == m[id := m[id].(receiver := Some(receiver))];
      r := Ok(id);
    }

    /** AnswerTransfer and DeliverTransfer report whether a row was updated, or an error. */
    method StoreLeg(id: TransferId, leg: Leg, now: Time, fate: Fate) returns (r: Result<bool, Fate>)
      modifies this
      ensures transfers == if fate == RollsBack then old(transfers) else Apply(old(transfers), WriteOf(id, leg, now))
      ensures r == if fate == Commits then Ok(Storable(old(transfers), id, leg, now)) else Err(fate)
      ensures r == Ok(true) ==> id in transfers && Stored(transfers[id], leg)
    {
      if fate == RollsBack {
        return Err(fate);
      }
      var stored := false;
      match leg {
        case AnswerLeg(answer) =>
          if id in transfers && Answerable(transfers[id], now) {
            transfers := transfers[id := transfers[id].(answer := Some(answer))];
            stored := true;
          }
        case DeliveryLeg(sealed) =>
          if id in transfers && Deliverable(transfers[id], now) {
            transfers := transfers[id := transfers[id].(delivery := Some(sealed), closed := Some(Closed(Done, now)))];
            stored := true;
          }
      }
      r := if fate == Commits then Ok(stored) else Err(fate);
    }

    /** What becomes of the table in between. */
    method Others(effect: Transfers -> Transfers)
      modifies this
      ensures transfers == effect(old(transfers))
    {
      transfers := effect(transfers);
    }
  }

  /** ClaimedTransferExists: a claimed transfer under this number is neither closed nor expired. */
  predicate ClaimedUnder(m: Transfers, nameplate: int, now: Time) {
    exists id :: id in m && m[id].nameplate == nameplate && m[id].receiver.Some? && !m[id].Ended(now)
  }

  /** It is asked for one that has a receiver, that nobody closed and whose time is not over. */
  lemma ClaimedExactly(m: Transfers, nameplate: int, now: Time)
    ensures ClaimedUnder(m, nameplate, now) <==>
            exists id :: id in m && m[id].nameplate == nameplate && m[id].receiver != None && m[id].closed == None
                         && now < m[id].expires
  {
    if id :| id in m && m[id].nameplate == nameplate && m[id].receiver != None && m[id].closed == None
             && now < m[id].expires {
      assert m[id].nameplate == nameplate && m[id].receiver.Some? && !m[id].Ended(now);
    }
  }

  datatype Leg = AnswerLeg(answer: Answer) | DeliveryLeg(sealed: Buffer)

  function WriteOf(id: TransferId, leg: Leg, now: Time): Op {
    match leg
    case AnswerLeg(answer) => WriteAnswer(id, answer, now)
    case DeliveryLeg(sealed) => Deliver(id, sealed, now)
  }

  /** The leg exists with this value, or with another. */
  predicate Stored(t: Transfer, leg: Leg) {
    match leg
    case AnswerLeg(answer) => t.answer == Some(answer)
    case DeliveryLeg(sealed) => t.delivery == Some(sealed)
  }

  predicate Exists(t: Transfer, leg: Leg) {
    match leg
    case AnswerLeg(_) => t.answer.Some?
    case DeliveryLeg(_) => t.delivery.Some?
  }

  /**
   * "No transfer" under a number that had some at the claim: whatever others did until the check, each of them
   * has ended by now or is gone.
   */
  lemma NoTransferTruly(m: Transfers, ops: seq<Op>, nameplate: int, now: Time, limit: nat, id: TransferId)
    requires Inv(m, limit) && OthersOps(ops, limit, id)
    requires !ClaimedUnder(ApplyAll(m, ops), nameplate, now)
    requires id in m && m[id].nameplate == nameplate && !Claimable(m[id], nameplate, now)
    ensures id in ApplyAll(m, ops) ==> ApplyAll(m, ops)[id].Ended(now)
  {
    OthersExtend(m, ops, limit, id);
  }

  /** The leg that has to be there before this one. */
  predicate Before(t: Transfer, leg: Leg) {
    match leg
    case AnswerLeg(_) => t.receiver.Some?
    case DeliveryLeg(_) => t.answer.Some?
  }

  predicate Storable(m: Transfers, id: TransferId, leg: Leg, now: Time) {
    id in m && if leg.AnswerLeg? then Answerable(m[id], now) else Deliverable(m[id], now)
  }

  // ------------------------------------------------------ other requests

  function ApplyAll(m: Transfers, ops: seq<Op>): Transfers
    decreases |ops|
  {
    if ops == [] then m else ApplyAll(Apply(m, ops[0]), ops[1..])
  }

  /** Any statements, but no transfer under the same id again. */
  ghost predicate OthersOps(ops: seq<Op>, limit: nat, id: TransferId) {
    forall op :: op in ops ==> ValidOp(op, limit) && !(op.Create? && op.id == id)
  }

  lemma NotRecreated(m: Transfers, op: Op, id: TransferId)
    requires id in Apply(m, op) && !(op.Create? && op.id == id)
    ensures id in m
  {
  }

  /** Whatever the others do, the invariant holds and nothing that was set changes. */
  lemma {:induction false} OthersExtend(m: Transfers, ops: seq<Op>, limit: nat, id: TransferId)
    requires Inv(m, limit) && OthersOps(ops, limit, id)
    ensures Inv(ApplyAll(m, ops), limit)
    ensures id in ApplyAll(m, ops) ==> id in m && Extends(m[id], ApplyAll(m, ops)[id])
    decreases |ops|
  {
    if ops != [] {
      assert ops[0] in ops;
      InvApply(m, ops[0], limit);
      OthersExtend(Apply(m, ops[0]), ops[1..], limit, id);
      if id in ApplyAll(m, ops) {
        NotRecreated(m, ops[0], id);
        ApplyExtends(m, ops[0], limit, id);
      }
    }
  }

  /** The statement writes the leg that has to be there before this one. */
  predicate Provides(m: Transfers, op: Op, id: TransferId, leg: Leg) {
    && id in m
    && match leg
       case AnswerLeg(_) => op.Claim? && Claimable(m[id], op.nameplate, op.now)
       case DeliveryLeg(_) => op.WriteAnswer? && op.id == id && Answerable(m[id], op.now)
  }

  predicate Provided(m: Transfers, ops: seq<Op>, id: TransferId, leg: Leg)
    decreases |ops|
  {
    ops != [] && (Provides(m, ops[0], id, leg) || Provided(Apply(m, ops[0]), ops[1..], id, leg))
  }

  /** The leg before is there afterwards exactly when it was or one of the statements wrote it. */
  lemma {:induction false} ProvidedExactly(m: Transfers, ops: seq<Op>, limit: nat, id: TransferId, leg: Leg)
    requires Inv(m, limit) && OthersOps(ops, limit, id) && id in m && id in ApplyAll(m, ops)
    ensures Before(ApplyAll(m, ops)[id], leg) <==> Before(m[id], leg) || Provided(m, ops, id, leg)
    decreases |ops|
  {
    if ops != [] {
      assert ops[0] in ops;
      InvApply(m, ops[0], limit);
      OthersExtend(Apply(m, ops[0]), ops[1..], limit, id);
      ProvidedExactly(Apply(m, ops[0]), ops[1..], limit, id, leg);
      ProvidedByOne(m, ops[0], limit, id, leg);
    }
  }

  lemma ProvidedByOne(m: Transfers, op: Op, limit: nat, id: TransferId, leg: Leg)
    requires Inv(m, limit) && id in m && id in Apply(m, op)
    ensures Before(Apply(m, op)[id], leg) <==> Before(m[id], leg) || Provides(m, op, id, leg)
  {
    ApplyExtends(m, op, limit, id);
  }

  lemma {:induction false} ProvidedJoins(m: Transfers, a: seq<Op>, b: seq<Op>, id: TransferId, leg: Leg)
    ensures ApplyAll(m, a + b) == ApplyAll(ApplyAll(m, a), b)
    ensures Provided(m, a + b, id, leg) <==> Provided(m, a, id, leg) || Provided(ApplyAll(m, a), b, id, leg)
    decreases |a|
  {
    if a == [] {
      assert a + b == b;
    } else {
      assert (a + b)[1..] == a[1..] + b;
      ProvidedJoins(Apply(m, a[0]), a[1..], b, id, leg);
    }
  }

  // ------------------------------------------------------ writing a leg once

  datatype Outcome = NoContent | AlreadyWritten | Gone(reason: Reason) | OtherSideFirst | Failed

  /** What becomes of the two stores, and whether the re-read fails. */
  datatype Faults = Faults(first: Fate, reread: bool, second: Fate)

  function TransferGone(t: Transfer): Outcome {
    Gone(if t.closed.None? then Expired else t.closed.value.reason)
  }

  /** The tables the two stores find: others(0) comes before the first, others(1) and others(2) around the re-read. */
  function AtFirst(m: Transfers, others: nat -> Transfers -> Transfers): Transfers {
    others(0)(m)
  }

  function AtReread(m: Transfers, others: nat -> Transfers -> Transfers): Transfers {
    others(1)(AtFirst(m, others))
  }

  function AtSecond(m: Transfers, others: nat -> Transfers -> Transfers): Transfers {
    others(2)(AtReread(m, others))
  }

  /** What the handler answers from a transfer it has read, before it tries to store. */
  function Judged(t: Transfer, leg: Leg, now: Time): Option<Outcome> {
    if Exists(t, leg) then Some(if Stored(t, leg) then NoContent else AlreadyWritten)
    else if t.Ended(now) then Some(TransferGone(t))
    else None
  }

  /** What one attempt to store tells, from the transfer t as read and the table m it finds. */
  function Round(m: Transfers, t: Transfer, id: TransferId, leg: Leg, now: Time, fate: Fate): Option<Outcome> {
    if Judged(t, leg, now).Some? then Judged(t, leg, now)
    else if fate != Commits then Some(Failed)
    else if Storable(m, id, leg, now) then Some(NoContent)
    else None
  }

  function RoundLeft(m: Transfers, t: Transfer, id: TransferId, leg: Leg, now: Time, fate: Fate): Transfers {
    if Judged(t, leg, now).None? && fate != RollsBack && Storable(m, id, leg, now)
    then Apply(m, WriteOf(id, leg, now)) else m
  }

  /** From the three tables: what the handler tells, and the table it leaves. */
  function ToldOf(first: Transfers, reread: Transfers, second: Transfers, id: TransferId, seen: Transfer, leg: Leg,
                  nows: nat -> Time, faults: Faults): Outcome {
    match Round(first, seen, id, leg, nows(0), faults.first)
    case Some(told) => told
    case None =>
      if faults.reread then Failed
      else if id !in reread then Gone(Expired)
      else
        match Round(second, reread[id], id, leg, nows(1), faults.second)
        case Some(told) => told
        case None => OtherSideFirst
  }

  function LeftOf(first: Transfers, reread: Transfers, second: Transfers, id: TransferId, seen: Transfer, leg: Leg,
                  nows: nat -> Time, faults: Faults): Transfers {
    if Round(first, seen, id, leg, nows(0), faults.first).Some?
    then RoundLeft(first, seen, id, leg, nows(0), faults.first)
    else if faults.reread || id !in reread then reread
    else RoundLeft(second, reread[id], id, leg, nows(1), faults.second)
  }

  function Told(m: Transfers, id: TransferId, seen: Transfer, leg: Leg, nows: nat -> Time, faults: Faults,
                others: nat -> Transfers -> Transfers): Outcome {
    ToldOf(AtFirst(m, others), AtReread(m, others), AtSecond(m, others), id, seen, leg, nows, faults)
  }

  function Left(m: Transfers, id: TransferId, seen: Transfer, leg: Leg, nows: nat -> Time, faults: Faults,
                others: nat -> Transfers -> Transfers): Transfers {
    LeftOf(AtFirst(m, others), AtReread(m, others), AtSecond(m, others), id, seen, leg, nows, faults)
  }

  /** One round of its loop. */
  method TryStore(repo: TransferRepo, id: TransferId, transfer: Transfer, leg: Leg, now: Time, fate: Fate)
    returns (told: Option<Outcome>, tried: bool)
    modifies repo
    ensures tried <==> Judged(transfer, leg, now).None?
    ensures told == Round(old(repo.transfers), transfer, id, leg, now, fate)
    ensures repo.transfers == RoundLeft(old(repo.transfers), transfer, id, leg, now, fate)
  {
    if Exists(transfer, leg) {
      return Some(if Stored(transfer, leg) then NoContent else AlreadyWritten), false;
    }
    if transfer.Ended(now) {
      return Some(TransferGone(transfer)), false;
    }
    var stored := repo.StoreLeg(id, leg, now, fate);
    RefusedUnchanged(old(repo.transfers), id, leg, now);
    tried := true;
    told := if stored.Err? then Some(Failed) else if stored.value then Some(NoContent) else None;
  }

  lemma RefusedUnchanged(m: Transfers, id: TransferId, leg: Leg, now: Time)
    ensures !Storable(m, id, leg, now) ==> Apply(m, WriteOf(id, leg, now)) == m
  {
  }

  /**
   * writeOnce, with the requests of others between any two of its steps, each of which may fail. seen is the
   * transfer as authenticate read it; nows are the times it reads.
   */
  method WriteOnce(repo: TransferRepo, id: TransferId, seen: Transfer, leg: Leg, nows: nat -> Time, faults: Faults,
                   others: nat -> Transfers -> Transfers)
    returns (r: Outcome, stores: nat)
    modifies repo
    ensures stores <= 2
    ensures r == Told(old(repo.transfers), id, seen, leg, nows, faults, others)
    ensures repo.transfers == Left(old(repo.transfers), id, seen, leg, nows, faults, others)
  {
    var transfer := seen;
    stores := 0;
    while true
      invariant stores <= 1
      invariant if stores == 0 then transfer == seen && repo.transfers == old(repo.transfers)
                else && Round(AtFirst(old(repo.transfers), others), seen, id, leg, nows(0), faults.first).None?
                     && !faults.reread && repo.transfers == AtReread(old(repo.transfers), others)
                     && id in repo.transfers && transfer == repo.transfers[id]
      decreases 2 - stores
    {
      repo.Others(others(2 * stores));
      var fate := if stores == 0 then faults.first else faults.second;
      var told, tried := TryStore(repo, id, transfer, leg, nows(stores), fate);
      stores := if tried then stores + 1 else stores;
      if told.Some? {
        return told.value, stores;
      }
      if stores > 1 {
        return OtherSideFirst, stores;
      }
      repo.Others(others(1));
      if faults.reread {
        return Failed, stores;
      }
      if id !in repo.transfers {
        return Gone(Expired), stores;
      }
      transfer := repo.transfers[id];
    }
  }

  /** The effect of other requests' statements, one after the other. */
  function Ran(ops: nat -> seq<Op>): nat -> Transfers -> Transfers {
    (n: nat) => (m: Transfers) => ApplyAll(m, ops(n))
  }

  /** The transfer was there before, and what was set of it is as it was. */
  predicate Kept(a: Transfers, b: Transfers, id: TransferId) {
    id in b ==> id in a && Extends(a[id], b[id])
  }

  lemma TablesKept(m: Transfers, id: TransferId, others: nat -> seq<Op>, limit: nat)
    requires Inv(m, limit) && forall n :: OthersOps(others(n), limit, id)
    ensures var first, reread, second := AtFirst(m, Ran(others)), AtReread(m, Ran(others)), AtSecond(m, Ran(others));
            && Inv(first, limit) && Inv(reread, limit) && Inv(second, limit)
            && Kept(m, first, id) && Kept(first, reread, id) && Kept(reread, second, id)
            && second == ApplyAll(ApplyAll(first, others(1)), others(2))
  {
    OthersExtend(m, others(0), limit, id);
    OthersExtend(AtFirst(m, Ran(others)), others(1), limit, id);
    OthersExtend(AtReread(m, Ran(others)), others(2), limit, id);
  }

  /** It ended for that reason: it was closed with it, or its time was over. */
  predicate GoneFor(t: Transfer, reason: Reason, now: Time) {
    (t.closed.Some? && t.closed.value.reason == reason) || (reason == Expired && t.expires <= now)
  }

  /** The table the handler found at the store that decided, if it got that far, or at its re-read. */
  function FoundOf(first: Transfers, reread: Transfers, second: Transfers, id: TransferId, seen: Transfer, leg: Leg,
                   nows: nat -> Time, faults: Faults): Transfers {
    if Round(first, seen, id, leg, nows(0), faults.first).Some? then first
    else if faults.reread || id !in reread then reread
    else second
  }

  /** Only a success, or a store whose answer was lost, may leave the table other than it was found. */
  lemma RefusedWritesNothing(first: Transfers, reread: Transfers, second: Transfers, id: TransferId, seen: Transfer,
                             leg: Leg, nows: nat -> Time, faults: Faults)
    ensures var r := ToldOf(first, reread, second, id, seen, leg, nows, faults);
            var left := LeftOf(first, reread, second, id, seen, leg, nows, faults);
            var found := FoundOf(first, reread, second, id, seen, leg, nows, faults);
            && (r != NoContent && r != Failed ==> left == found)
            && (r == NoContent && !Exists(seen, leg) && !(id in reread && Exists(reread[id], leg)) ==>
                id in left && Stored(left[id], leg))
            && (Exists(seen, leg) ==> left == first && r == if Stored(seen, leg) then NoContent else AlreadyWritten)
            && (faults.first != AnswerLost && faults.second != AnswerLost && r == Failed ==> left == found)
            && (forall other :: other != id ==>
                  (other in left <==> other in found) && (other in left ==> left[other] == found[other]))
  {
    RoundWrites(first, seen, id, leg, nows(0), faults.first);
    if id in reread {
      RoundWrites(second, reread[id], id, leg, nows(1), faults.second);
    }
  }

  lemma RoundWrites(m: Transfers, t: Transfer, id: TransferId, leg: Leg, now: Time, fate: Fate)
    ensures var told, left := Round(m, t, id, leg, now, fate), RoundLeft(m, t, id, leg, now, fate);
            && (told != Some(NoContent) && !(told == Some(Failed) && fate == AnswerLost) ==> left == m)
            && (told == Some(NoContent) && !Exists(t, leg) ==> id in left && Stored(left[id], leg))
            && (Exists(t, leg) ==> left == m && told == Some(if Stored(t, leg) then NoContent else AlreadyWritten))
            && (forall other :: other != id ==>
                  (other in left <==> other in m) && (other in left ==> left[other] == m[other]))
  {
  }

  /** The outcome is true of a transfer as the handler leaves it. */
  predicate True(r: Outcome, t: Transfer, leg: Leg, nows: nat -> Time) {
    && (r == NoContent ==> Stored(t, leg))
    && (r == AlreadyWritten ==> Exists(t, leg) && !Stored(t, leg))
    && (r.Gone? ==>
        if r.reason == Expired then GoneFor(t, Expired, nows(0)) || GoneFor(t, Expired, nows(1))
        else t.closed.Some? && t.closed.value.reason == r.reason)
  }

  /**
   * Whatever other requests do: success means that the stored leg is this value, "already written" that
   * it is another one, "gone" that the transfer has ended for the reason given; and the invariant is kept.
   */
  lemma ToldTruly(m: Transfers, id: TransferId, seen: Transfer, leg: Leg, nows: nat -> Time,
                  faults: Faults, others: nat -> seq<Op>, limit: nat)
    requires Inv(m, limit) && (id in m ==> Extends(seen, m[id]))
    requires forall n :: OthersOps(others(n), limit, id)
    ensures var r := Told(m, id, seen, leg, nows, faults, Ran(others));
            var left := Left(m, id, seen, leg, nows, faults, Ran(others));
            Inv(left, limit) && (id in left ==> True(r, left[id], leg, nows))
  {
    TablesKept(m, id, others, limit);
    TrulyOf(AtFirst(m, Ran(others)), AtReread(m, Ran(others)), AtSecond(m, Ran(others)), id, seen, leg, nows, faults,
            limit);
  }

  lemma TrulyOf(first: Transfers, reread: Transfers, second: Transfers, id: TransferId, seen: Transfer, leg: Leg,
                nows: nat -> Time, faults: Faults, limit: nat)
    requires Inv(first, limit) && Inv(reread, limit) && Inv(second, limit)
    requires (id in first ==> Extends(seen, first[id])) && Kept(reread, second, id)
    ensures var r, left := ToldOf(first, reread, second, id, seen, leg, nows, faults),
                           LeftOf(first, reread, second, id, seen, leg, nows, faults);
            Inv(left, limit) && (id in left ==> True(r, left[id], leg, nows))
  {
    RoundTruly(first, seen, id, leg, nows(0), faults.first, limit);
    if id in reread {
      RoundTruly(second, reread[id], id, leg, nows(1), faults.second, limit);
    }
  }

  lemma RoundTruly(m: Transfers, t: Transfer, id: TransferId, leg: Leg, now: Time, fate: Fate, limit: nat)
    requires Inv(m, limit) && (id in m ==> Extends(t, m[id]))
    ensures var told, left := Round(m, t, id, leg, now, fate), RoundLeft(m, t, id, leg, now, fate);
            Inv(left, limit) && (told.Some? && id in left ==> True(told.value, left[id], leg, (n: nat) => now))
  {
    StoredTruly(m, id, leg, now, limit);
    if id in m {
      JudgedTruly(t, m[id], leg, now);
    }
  }

  lemma StoredTruly(m: Transfers, id: TransferId, leg: Leg, now: Time, limit: nat)
    requires Inv(m, limit)
    ensures var m' := Apply(m, WriteOf(id, leg, now));
            Inv(m', limit) && (Storable(m, id, leg, now) ==> id in m' && Stored(m'[id], leg))
  {
    InvApply(m, WriteOf(id, leg, now), limit);
  }

  /** What is judged from an earlier read still holds of the transfer as it is now. */
  lemma JudgedTruly(t: Transfer, t': Transfer, leg: Leg, now: Time)
    requires Extends(t, t')
    ensures Judged(t, leg, now) == Some(NoContent) ==> Stored(t', leg)
    ensures Judged(t, leg, now) == Some(AlreadyWritten) ==> Exists(t', leg) && !Stored(t', leg)
    ensures Judged(t, leg, now).Some? && Judged(t, leg, now).value.Gone? ==>
              t'.Ended(now) && GoneFor(t', Judged(t, leg, now).value.reason, now)
  {
  }

  /**
   * A request told that the other side has not written its part: at the first store the transfer was
   * open, without this leg and without the one before it. That one is still missing at the end exactly
   * when no other request wrote it since.
   */
  lemma RefusedTwice(m: Transfers, id: TransferId, seen: Transfer, leg: Leg, nows: nat -> Time,
                     faults: Faults, others: nat -> seq<Op>, limit: nat)
    requires Inv(m, limit) && (id in m ==> Extends(seen, m[id]))
    requires forall n :: OthersOps(others(n), limit, id)
    requires Told(m, id, seen, leg, nows, faults, Ran(others)) == OtherSideFirst
    ensures var first := AtFirst(m, Ran(others));
            id in first && !Before(first[id], leg) && !Exists(first[id], leg) && !first[id].Ended(nows(0))
    ensures id in AtSecond(m, Ran(others)) ==>
              (!Before(AtSecond(m, Ran(others))[id], leg) <==>
               !Provided(AtFirst(m, Ran(others)), others(1) + others(2), id, leg))
  {
    var first, reread, second := AtFirst(m, Ran(others)), AtReread(m, Ran(others)), AtSecond(m, Ran(others));
    TablesKept(m, id, others, limit);
    RefusedOf(first, reread, second, id, seen, leg, nows, faults);
    if id in second {
      ProvidedBetween(first, others(1), others(2), limit, id, leg);
    }
  }

  lemma RefusedOf(first: Transfers, reread: Transfers, second: Transfers, id: TransferId, seen: Transfer, leg: Leg,
                  nows: nat -> Time, faults: Faults)
    requires (id in first ==> Extends(seen, first[id])) && Kept(first, reread, id)
    requires ToldOf(first, reread, second, id, seen, leg, nows, faults) == OtherSideFirst
    ensures id in first && !Before(first[id], leg) && !Exists(first[id], leg) && !first[id].Ended(nows(0))
  {
  }

  lemma ProvidedBetween(m: Transfers, a: seq<Op>, b: seq<Op>, limit: nat, id: TransferId, leg: Leg)
    requires Inv(m, limit) && OthersOps(a, limit, id) && OthersOps(b, limit, id)
    requires id in m && id in ApplyAll(ApplyAll(m, a), b) && !Before(m[id], leg)
    ensures Before(ApplyAll(ApplyAll(m, a), b)[id], leg) <==> Provided(m, a + b, id, leg)
  {
    ProvidedJoins(m, a, b, id, leg);
    BothOthers(a, b, limit, id);
    ProvidedExactly(m, a + b, limit, id, leg);
  }

  lemma BothOthers(a: seq<Op>, b: seq<Op>, limit: nat, id: TransferId)
    requires OthersOps(a, limit, id) && OthersOps(b, limit, id)
    ensures OthersOps(a + b, limit, id)
  {
  }

  const NO_FAULTS := Faults(Commits, false, Commits)

  /** What a request is told when no other comes in between and nothing fails. */
  function Undisturbed(t: Transfer, leg: Leg, nows: nat -> Time): Outcome {
    if Judged(t, leg, nows(0)).Some? then Judged(t, leg, nows(0)).value
    else if Before(t, leg) then NoContent
    else if t.Ended(nows(1)) then TransferGone(t)
    else OtherSideFirst
  }

  lemma ToldUndisturbed(m: Transfers, id: TransferId, leg: Leg, nows: nat -> Time, others: nat -> seq<Op>, limit: nat)
    requires Inv(m, limit) && id in m && forall n :: others(n) == []
    ensures Told(m, id, m[id], leg, nows, NO_FAULTS, Ran(others)) == Undisturbed(m[id], leg, nows)
  {
    assert RowOk(m[id], limit);
  }

  /** A delivery refused for want of an answer; then the answer comes and the transfer is closed; refused again. */
  lemma AnsweredMeanwhile()
    ensures var t := Transfer(1, "s", Some("r"), [], None, None, None, 600);
            var m := map["id" := t];
            var others := (n: nat) =>
              if n == 2 then [WriteAnswer("id", Answer([], []), 2), Close("id", Cancelled, 3)] else [];
            && Inv(m, 999) && (forall n :: OthersOps(others(n), 999, "id"))
            && Told(m, "id", t, DeliveryLeg([]), (n: nat) => n, NO_FAULTS, Ran(others)) == OtherSideFirst
            && "id" in AtSecond(m, Ran(others)) && Before(AtSecond(m, Ran(others))["id"], DeliveryLeg([]))
  {
    var t := Transfer(1, "s", Some("r"), [], None, None, None, 600);
    var m := map["id" := t];
    var others := (n: nat) =>
      if n == 2 then [WriteAnswer("id", Answer([], []), 2), Close("id", Cancelled, 3)] else [];
    assert others(0) == [] && others(1) == [] && ApplyAll(m, []) == m;
    assert AtFirst(m, Ran(others)) == m;
    assert AtReread(m, Ran(others)) == m;
    AnswerThenClose(m, t);
    var second := AtSecond(m, Ran(others));
    assert second["id"].closed.Some?;
    assert ToldOf(m, m, second, "id", t, DeliveryLeg([]), (n: nat) => n, NO_FAULTS) == OtherSideFirst;
  }

  lemma AnswerThenClose(m: Transfers, t: Transfer)
    requires "id" in m && m["id"] == t && Answerable(t, 2)
    ensures var m' := ApplyAll(m, [WriteAnswer("id", Answer([], []), 2), Close("id", Cancelled, 3)]);
            m' == m["id" := t.(answer := Some(Answer([], [])), closed := Some(Closed(Cancelled, 3)))]
  {
    var answer, close := WriteAnswer("id", Answer([], []), 2), Close("id", Cancelled, 3);
    assert [answer, close][1..] == [close] && [close][1..] == [];
    assert ApplyAll(m, [answer, close]) == ApplyAll(Apply(m, answer), [close])
           == ApplyAll(Apply(Apply(m, answer), close), []);
  }
}
