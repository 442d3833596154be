/** Stretches of the concurrent system: the states that one client call, or one restart, can reach by its own steps. */
module Stretches {
  import opened Types
  import opened QueueModel
  import opened Tables
  import opened Ledger
  import opened Protocol
  import ServiceModel
  import Routing

  type World = ServiceModel.World
  type Mint = ServiceModel.Mint

  /** Who takes a stretch of steps: one client call, or a restart that meets no repository failure. */
  datatype Actor = Client(t: nat) | Restorer

  predicate IsOf(step: Step, a: Actor) {
    match step
    case BeginPublish(t, _, _, _) => a == Client(t)
    case PublishTransient(t, _) => a == Client(t)
    case PublishMissing(t) => a == Client(t)
    case PublishSave(t, _, _, _) => a == Client(t)
    case PublishEnqueue(t) => a == Client(t)
    case PublishDone(t) => a == Client(t)
    case FetchStep(t, _, _) => a == Client(t)
    case MarkStep(t, _) => a == Client(t)
    case AckStep(t, _, _, _) => a == Client(t)
    case DeleteAcked(t, _) => a == Client(t)
    case NackStep(t, _, _, _) => a == Client(t)
    case DeleteRejected(t, _) => a == Client(t)
    case SaveLetter(t, _, _) => a == Client(t)
    case DisconnectStep(t, _, _, _) => a == Client(t)
    case ReleaseStep(t, _) => a == Client(t)
    case JoinStep(_, _) => a.Client?
    case AddTransient(_, _, _, _) => a.Client?
    case DropTransient(_) => a.Client?
    case Crash => a == Restorer
    case Load(_, _) => a == Restorer
    case RestoreNext => a == Restorer
    case RestoreMark(reply) => a == Restorer && reply.Success?
    case Open => a == Restorer
  }

  ghost predicate IsNext(s: State, limit: int, step: Step, s': State) {
    Enabled(s, limit, step) && s' == Apply(s, limit, step)
  }

  ghost predicate IsStretch(states: seq<State>, limit: int, steps: seq<Step>, a: Actor) {
    && |states| == |steps| + 1
    && forall i :: 0 <= i < |steps| ==> IsOf(steps[i], a) && IsNext(states[i], limit, steps[i], states[i + 1])
  }

  /** `a` alone can take the system from `s` to `s'`. */
  ghost predicate Reaches(limit: int, a: Actor, s: State, s': State) {
    exists states, steps :: IsStretch(states, limit, steps, a) && states[0] == s && states[|steps|] == s'
  }

  lemma Stays(limit: int, a: Actor, s: State)
    ensures Reaches(limit, a, s, s)
  {
    assert IsStretch([s], limit, [], a);
  }

  lemma Then(limit: int, a: Actor, s: State, s1: State, s2: State)
    requires Reaches(limit, a, s, s1) && Reaches(limit, a, s1, s2)
    ensures Reaches(limit, a, s, s2)
  {
    var states, steps :| IsStretch(states, limit, steps, a) && states[0] == s && states[|steps|] == s1;
    var more, next :| IsStretch(more, limit, next, a) && more[0] == s1 && more[|next|] == s2;
    var all, path := states + more[1..], steps + next;
    Joined(limit, a, states, steps, more, next);
    assert all[0] == s && all[|path|] == s2;
    hide IsStretch;
  }

  lemma Joined(limit: int, a: Actor, states: seq<State>, steps: seq<Step>, more: seq<State>, next: seq<Step>)
    requires IsStretch(states, limit, steps, a) && IsStretch(more, limit, next, a) && states[|steps|] == more[0]
    ensures IsStretch(states + more[1..], limit, steps + next, a)
  {
    hide IsNext, IsOf;
    var all, path := states + more[1..], steps + next;
    assert forall i :: 0 <= i <= |steps| ==> all[i] == states[i];
    assert forall i :: |steps| <= i <= |path| ==> all[i] == more[i - |steps|];
    forall i | 0 <= i < |path| ensures IsOf(path[i], a) && IsNext(all[i], limit, path[i], all[i + 1]) {
      assert path[i] == if i < |steps| then steps[i] else next[i - |steps|];
      if i >= |steps| { assert all[i + 1] == more[i - |steps| + 1]; }
    }
  }

  /** A stretch that starts where a run ends makes it a longer run. */
  lemma StretchExtendsRun(states: seq<State>, limit: int, steps: seq<Step>, a: Actor, s': State)
      returns (longer: seq<State>, path: seq<Step>)
    requires IsRun(states, limit, steps) && Reaches(limit, a, states[|steps|], s')
    ensures IsRun(longer, limit, path) && steps <= path && states <= longer && longer[|path|] == s'
    ensures forall i :: |steps| <= i < |path| ==> IsOf(path[i], a)
  {
    hide Enabled, Apply, Init, IsOf;
    var more, next :| IsStretch(more, limit, next, a) && more[0] == states[|steps|] && more[|next|] == s';
    longer, path := states + more[1..], steps + next;
    forall i | 0 <= i < |path|
      ensures Enabled(longer[i], limit, path[i]) && longer[i + 1] == Apply(longer[i], limit, path[i])
      ensures i >= |steps| ==> IsOf(path[i], a)
    {
      if i < |steps| {
        assert longer[i] == states[i] && longer[i + 1] == states[i + 1] && path[i] == steps[i];
      } else {
        var j := i - |steps|;
        assert longer[i] == more[j] && longer[i + 1] == more[j + 1] && path[i] == next[j];
        assert IsNext(more[j], limit, next[j], more[j + 1]);
      }
    }
  }

  // ---------------------------------------------------------------- single steps

  lemma Moves(limit: int, a: Actor, s: State, step: Step)
    requires IsOf(step, a) && Enabled(s, limit, step)
    ensures Reaches(limit, a, s, Apply(s, limit, step))
  {
    hide Enabled, Apply, IsOf;
    assert IsStretch([s, Apply(s, limit, step)], limit, [step], a);
  }

  lemma FetchMoves(limit: int, s: State, t: nat, key: QueueKey, c: string)
    requires Fresh(s, t) && key in s.mem && CanFetch(s.mem[key], c, limit)
    ensures Reaches(limit, Client(t), s, DoFetch(s, t, key, c))
  {
    hide Owned, DoFetch, Reaches;
    Moves(limit, Client(t), s, FetchStep(t, key, c));
  }

  lemma MarkMoves(limit: int, s: State, t: nat, reply: Reply)
    requires t in s.calls && s.calls[t].Marking?
    ensures Reaches(limit, Client(t), s, DoMark(s, t, reply))
  {
    hide DoMark, Reaches;
    Moves(limit, Client(t), s, MarkStep(t, reply));
  }

  lemma AckMoves(limit: int, s: State, t: nat, key: QueueKey, id: Id, c: string)
    requires CanSettle(s, t, key, id, c)
    ensures Reaches(limit, Client(t), s, DoAck(s, t, key, id, c))
  {
    hide CanSettle, DoAck, Reaches;
    Moves(limit, Client(t), s, AckStep(t, key, id, c));
  }

  lemma DeleteMoves(limit: int, s: State, t: nat, reply: Reply)
    requires t in s.calls && s.calls[t].Deleting?
    ensures Reaches(limit, Client(t), s, DoDeleteAcked(s, t, reply))
  {
    hide DoDeleteAcked, Reaches;
    Moves(limit, Client(t), s, DeleteAcked(t, reply));
  }

  lemma NackMoves(limit: int, s: State, t: nat, key: QueueKey, id: Id, c: string)
    requires CanSettle(s, t, key, id, c)
    ensures Reaches(limit, Client(t), s, DoNack(s, t, key, id, c))
  {
    hide CanSettle, DoNack, Reaches;
    Moves(limit, Client(t), s, NackStep(t, key, id, c));
  }

  lemma ReleaseMoves(limit: int, s: State, t: nat, reply: Reply)
    requires t in s.calls && s.calls[t].Releasing? && s.calls[t].pending != []
    ensures Reaches(limit, Client(t), s, DoRelease(s, t, reply))
  {
    hide DoRelease, Reaches;
    Moves(limit, Client(t), s, ReleaseStep(t, reply));
  }

  lemma BuryMoves(limit: int, s: State, t: nat, reply: Reply)
    requires t in s.calls && s.calls[t].Burying?
    ensures Reaches(limit, Client(t), s, DoDeleteRejected(s, t, reply))
  {
    hide DoDeleteRejected, Reaches;
    Moves(limit, Client(t), s, DeleteRejected(t, reply));
  }

  lemma LetterMoves(limit: int, s: State, t: nat, letterId: Id, reply: Reply)
    requires t in s.calls && s.calls[t].Lettering?
    requires !reply.Refused? ==> CanSaveLetter(s.db, s.calls[t].key.exchange, letterId)
    ensures Reaches(limit, Client(t), s, DoSaveLetter(s, t, letterId, reply))
  {
    hide DoSaveLetter, Reaches;
    Moves(limit, Client(t), s, SaveLetter(t, letterId, reply));
  }

  lemma DisconnectMoves(limit: int, s: State, t: nat, key: QueueKey, c: string, returned: seq<Delivery>)
    requires Fresh(s, t) && key in s.mem && IsReturnOrder(s.mem[key], c, returned)
    ensures Reaches(limit, Client(t), s, DoDisconnect(s, t, key, c, returned))
  {
    hide DoDisconnect, IsReturnOrder, Reaches;
    Moves(limit, Client(t), s, DisconnectStep(t, key, c, returned));
  }

  lemma BeginMoves(limit: int, s: State, t: nat, exchange: string, message: Message, todo: seq<QueueKey>)
    requires Fresh(s, t) && Routing.IsValidKey(message.routingKey) && IsRoute(s.mem, exchange, message.routingKey, todo)
    ensures Reaches(limit, Client(t), s, Begin(s, t, Publishing(todo, message, {})))
  {
    hide Reaches, IsRoute, Routing.IsValidKey;
    Moves(limit, Client(t), s, BeginPublish(t, exchange, message, todo));
  }

  lemma TransientMoves(limit: int, s: State, t: nat, id: Id)
    requires CanOffer(s, t, id, false)
    ensures Reaches(limit, Client(t), s, DoPublishTransient(s, t, id))
  {
    hide Reaches, CanOffer, DoPublishTransient;
    Moves(limit, Client(t), s, PublishTransient(t, id));
  }

  lemma SaveMoves(limit: int, s: State, t: nat, id: Id, now: nat, reply: Reply)
    requires CanOffer(s, t, id, true) && (!reply.Refused? ==> CanSaveDelivery(s.db, s.calls[t].todo[0], id))
    ensures Reaches(limit, Client(t), s, DoPublishSave(s, t, id, now, reply))
  {
    hide Reaches, DoPublishSave;
    Moves(limit, Client(t), s, PublishSave(t, id, now, reply));
  }

  lemma EnqueueMoves(limit: int, s: State, t: nat)
    requires t in s.calls && s.calls[t].Saved? && s.calls[t].key in s.mem
    ensures Reaches(limit, Client(t), s, DoPublishEnqueue(s, t))
  {
    hide Reaches, DoPublishEnqueue;
    Moves(limit, Client(t), s, PublishEnqueue(t));
  }

  lemma DoneMoves(limit: int, s: State, t: nat)
    requires AtPublish(s, t) && s.calls[t].todo == []
    ensures Reaches(limit, Client(t), s, DoPublishDone(s, t))
  {
    hide Reaches, DoPublishDone;
    Moves(limit, Client(t), s, PublishDone(t));
  }

  lemma CrashMoves(limit: int, s: State)
    ensures Reaches(limit, Restorer, s, DoCrash(s))
  {
    hide Reaches, DoCrash;
    Moves(limit, Restorer, s, Crash);
  }

  lemma LoadMoves(limit: int, s: State, order: seq<Id>, filterLists: map<QueueKey, seq<string>>)
    requires s.phase.Down? && IsDeliveryOrder(s.db, order) && filterLists.Keys == s.db.queues.Keys
    requires forall k :: k in filterLists ==> (set f | f in filterLists[k]) == FiltersOf(s.db, k)
    ensures Reaches(limit, Restorer, s, DoLoad(s, order, filterLists))
  {
    hide Reaches, IsDeliveryOrder, DoLoad, FiltersOf;
    Moves(limit, Restorer, s, Load(order, filterLists));
  }

  lemma RestoreMoves(limit: int, s: State)
    requires CanRestore(s)
    ensures Reaches(limit, Restorer, s, DoRestoreNext(s))
  {
    hide Reaches, CanRestore, DoRestoreNext;
    Moves(limit, Restorer, s, RestoreNext);
  }

  lemma UnmarkMoves(limit: int, s: State)
    requires s.phase.Restoring? && s.phase.unmarked.Some?
    ensures Reaches(limit, Restorer, s, DoRestoreMark(s, Success))
  {
    hide Reaches, DoRestoreMark;
    Moves(limit, Restorer, s, RestoreMark(Success));
  }

  lemma OpenMoves(limit: int, s: State)
    requires s.phase.Restoring? && s.phase.unmarked.None? && s.phase.next == |s.phase.order|
    ensures Reaches(limit, Restorer, s, s.(phase := Serving))
  {
    hide Reaches;
    Moves(limit, Restorer, s, Open);
  }
}
