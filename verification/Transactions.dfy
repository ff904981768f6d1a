/**
 The synchronous transaction policy, over every run of transactions: those that do not commit leave
 no trace, and the fields are always what replaying the persisted transactions gives.
 */
module Transactions {
  import opened StreamLog
  import opened Journal

  /** How the body of a transaction ends. */
  datatype Ending = Returns(value: int) | RollsBackWith(value: int) | RollsBack | Throws

  datatype Result =
    | Committed(value: int)
    | RolledBack(optional: Option<int>)
    | Failed
    | InShutdown

  /** A transaction in the stream. */
  datatype Persisted = Persisted(us: nat, beginUs: nat, endUs: nat, meta: map<string, string>, mutations: seq<Mutation>)

  /** The storage between transactions. */
  datatype Storage = Storage(fields: Fields, log: seq<Persisted>, destructing: bool)

  datatype Call =
    | ReadWrite(ops: seq<Op>, ending: Ending, beginUs: nat, endUs: nat, us: nat)
    | ReadOnly(ending: Ending)
    | GracefulShutdown

  function ResultOf(destructing: bool, ending: Ending): Result {
    if destructing then InShutdown
    else
      match ending
      case Returns(v) => Committed(v)
      case RollsBackWith(v) => RolledBack(Some(v))
      case RollsBack => RolledBack(None)
      case Throws => Failed
  }

  /** What a call means, with no journal at all. */
  function After(s: Storage, c: Call): Storage {
    match c
    case GracefulShutdown => s.(destructing := true)
    case ReadOnly(_) => s
    case ReadWrite(ops, ending, beginUs, endUs, us) =>
      var ms := Effects(s.fields, ops);
      if s.destructing || !ending.Returns? then s
      else
        s.(fields := ReplayAll(s.fields, ms),
           log := if ms == [] then s.log else s.log + [Persisted(us, beginUs, endUs, Metas(ops), ms)])
  }

  class Synchronous {
    const journal: MutationJournal
    const fields: Dictionary
    var log: seq<Persisted>
    var destructing: bool

    function State(): Storage
      reads this, fields
    {
      Storage(fields.Contents(), log, destructing)
    }

    predicate Ready()
      reads this, fields, journal
    {
      fields.journal == journal && journal.IsEmpty() && Consistent(fields.Contents())
    }

    constructor (fields: Dictionary)
      requires fields.journal.IsEmpty() && Consistent(fields.Contents())
      ensures Ready() && this.fields == fields && journal == fields.journal
      ensures State() == Storage(fields.Contents(), [], false)
    {
      this.fields, journal, log, destructing := fields, fields.journal, [], false;
    }

    /** The user's function, up to where it returns or throws. */
    method RunBody(ops: seq<Op>)
      requires fields.journal == journal && Consistent(fields.Contents())
      requires journal.commitLog == [] && journal.rollbackLog == [] && journal.meta == map[]
      modifies fields, journal
      ensures journal.commitLog == Effects(old(fields.Contents()), ops) && journal.meta == Metas(ops)
      ensures fields.Contents() == ReplayAll(old(fields.Contents()), journal.commitLog)
      ensures UndoAll(fields.Contents(), journal.rollbackLog) == old(fields.Contents())
      ensures unchanged(journal`beginUs, journal`endUs)
    {
      for i := 0 to |ops|
        invariant journal.commitLog == Effects(old(fields.Contents()), ops[..i]) && journal.meta == Metas(ops[..i])
        invariant fields.Contents() == ReplayAll(old(fields.Contents()), journal.commitLog)
        invariant UndoAll(fields.Contents(), journal.rollbackLog) == old(fields.Contents())
        invariant Consistent(fields.Contents())
        invariant unchanged(journal`beginUs, journal`endUs)
      {
        assert ops[..i + 1][..i] == ops[..i];
        Perform(ops[i], old(fields.Contents()));
      }
      assert ops[..|ops|] == ops;
    }

    /** One operation of a transaction that began with the fields at `start`. */
    method Perform(op: Op, ghost start: Fields)
      requires fields.journal == journal && Consistent(fields.Contents())
      requires fields.Contents() == ReplayAll(start, journal.commitLog)
      requires UndoAll(fields.Contents(), journal.rollbackLog) == start
      modifies fields, journal
      ensures Consistent(fields.Contents())
      ensures journal.commitLog == old(journal.commitLog) + Effect(old(fields.Contents()), op)
      ensures journal.meta == MetaAfter(old(journal.meta), op)
      ensures fields.Contents() == ReplayAll(start, journal.commitLog)
      ensures UndoAll(fields.Contents(), journal.rollbackLog) == start
      ensures unchanged(journal`beginUs, journal`endUs)
    {
      hide UndoAll, Undone, UndoOfPut, ReplayAll, Replay, Consistent;
      ghost var f, undos := fields.Contents(), journal.rollbackLog;
      ReplayAppend(start, journal.commitLog, Effect(f, op));
      ReplayKeepsConsistent(f, Effect(f, op));
      ReplayNone(f);
      match op
      case Put(o, now) =>
        ReplayOne(f, Updated(now, o));
        fields.Add(o, now);
        UndoAppend(fields.Contents(), undos, UndoOfPut(f, o.key));
        UndoUndoesPut(f, o, now);
      case Remove(k, now) =>
        ReplayOne(f, Deleted(now, k));
        fields.Erase(k, now);
        if k in f.entries {
          UndoAppend(fields.Contents(), undos, UndoOfPut(f, k));
          UndoUndoesRemove(f, k, now);
        }
      case SetMeta(n, v) =>
        assert journal.commitLog + [] == journal.commitLog;
        journal.meta := journal.meta[n := v];
      case EraseMeta(n) =>
        assert journal.commitLog + [] == journal.commitLog;
        journal.meta := journal.meta - {n};
    }

    method PersistJournal(us: nat)
      requires journal.commitLog != [] ==> journal.beginUs < journal.endUs
      modifies this`log, journal
      ensures journal.IsEmpty()
      ensures log == if old(journal.commitLog) == [] then old(log)
                     else old(log) + [Persisted(us, old(journal.beginUs), old(journal.endUs), old(journal.meta),
                                                old(journal.commitLog))]
    {
      if journal.commitLog != [] {
        log := log + [Persisted(us, journal.beginUs, journal.endUs, journal.meta, journal.commitLog)];
      }
      journal.Clear();
    }

    /** The three times are readings of a strictly increasing clock. */
    method Transaction(ops: seq<Op>, ending: Ending, beginUs: nat, endUs: nat, us: nat) returns (r: Result)
      requires Ready() && 0 < beginUs < endUs
      modifies this`log, fields, journal
      ensures Ready()
      ensures State() == After(old(State()), ReadWrite(ops, ending, beginUs, endUs, us))
      ensures r == ResultOf(destructing, ending)
      ensures r.Committed? <==> !destructing && ending.Returns?
      ensures r.Committed? ==> r.value == ending.value && Wrote(old(fields.Contents()), ops, fields.Contents())
      ensures r.Committed? && log != old(log) ==>
                exists ms :: ms != [] && log == old(log) + [Persisted(us, beginUs, endUs, Metas(ops), ms)]
      ensures r.RolledBack? <==> !destructing && (ending.RollsBackWith? || ending.RollsBack?)
      ensures r.RolledBack? ==> r.optional == if ending.RollsBackWith? then Some(ending.value) else None
      ensures !r.Committed? ==> fields.Contents() == old(fields.Contents()) && log == old(log)
    {
      hide Wrote;
      if destructing {
        return InShutdown;
      }
      journal.beginUs := beginUs;
      ghost var start := fields.Contents();
      RunBody(ops);
      ReplayKeepsConsistent(start, Effects(start, ops));
      EffectsWrite(start, ops);
      match ending
      case Returns(v) =>
        journal.endUs := endUs;
        PersistJournal(us);
        r := Committed(v);
      case RollsBackWith(v) =>
        journal.Rollback(fields);
        r := RolledBack(Some(v));
      case RollsBack =>
        journal.Rollback(fields);
        r := RolledBack(None);
      case Throws =>
        journal.Rollback(fields);
        r := Failed;
    }

    /** The body of a read-only transaction cannot reach the mutable fields. */
    method ReadOnlyTransaction(ending: Ending) returns (r: Result)
      requires Ready()
      ensures State() == After(old(State()), ReadOnly(ending))
      ensures r == ResultOf(destructing, ending)
    {
      if destructing {
        return InShutdown;
      }
      match ending
      case Returns(v) => r := Committed(v);
      case RollsBackWith(v) => r := RolledBack(Some(v));
      case RollsBack => r := RolledBack(None);
      case Throws => r := Failed;
    }
  }

  function Run(s: Storage, calls: seq<Call>): Storage {
    if calls == [] then s else After(Run(s, calls[..|calls| - 1]), calls[|calls| - 1])
  }

  /** Everything the stream tells. */
  function Mutations(log: seq<Persisted>): seq<Mutation> {
    if log == [] then [] else Mutations(log[..|log| - 1]) + log[|log| - 1].mutations
  }

  /** Over every run: the fields are the replay of all persisted transactions, nothing else. */
  lemma {:induction false} FieldsAreTheReplay(calls: seq<Call>)
    ensures var s := Run(Storage(BLANK, [], false), calls); s.fields == ReplayAll(BLANK, Mutations(s.log))
  {
    if calls != [] {
      var prior := calls[..|calls| - 1];
      FieldsAreTheReplay(prior);
      var s := Run(Storage(BLANK, [], false), prior);
      var c := calls[|calls| - 1];
      var t := After(s, c);
      if t.log != s.log {
        assert t.log[..|t.log| - 1] == s.log;
        ReplayAppend(BLANK, Mutations(s.log), Effects(s.fields, c.ops));
      }
    }
  }

  /** Over every run, each key holds what the last persisted mutation about it says. */
  lemma FieldsAreTheLastWrites(calls: seq<Call>, k: Key)
    ensures var s := Run(Storage(BLANK, [], false), calls);
            var last := LastFor(Mutations(s.log), k);
            && (k in s.fields.entries <==> last.Some? && last.value.Updated?)
            && (k in s.fields.entries ==> s.fields.entries[k] == last.value.data)
            && (k in s.fields.modified <==> last.Some?)
            && (k in s.fields.modified ==> s.fields.modified[k] == last.value.us)
  {
    FieldsAreTheReplay(calls);
    LastWriteWins(BLANK, Mutations(Run(Storage(BLANK, [], false), calls).log), k);
  }

  lemma NotCommitted(s: Storage, c: Call)
    requires c.ReadWrite? && !ResultOf(s.destructing, c.ending).Committed?
    ensures After(s, c) == s
  {
  }

  /** A transaction that does not commit could as well not have been, whatever comes before and after. */
  lemma {:induction false} UncommittedLeavesNoTrace(s: Storage, before: seq<Call>, c: Call, after: seq<Call>)
    requires c.ReadWrite? && !ResultOf(Run(s, before).destructing, c.ending).Committed?
    ensures Run(s, before + [c] + after) == Run(s, before + after)
    decreases |after|
  {
    hide After;
    if after == [] {
      NotCommitted(Run(s, before), c);
      assert before + [c] + after == before + [c] && before + after == before;
      assert (before + [c])[..|before|] == before;
    } else {
      var n := |after| - 1;
      UncommittedLeavesNoTrace(s, before, c, after[..n]);
      var all, short := before + [c] + after, before + after;
      assert all[..|all| - 1] == before + [c] + after[..n] && short[..|short| - 1] == before + after[..n];
    }
  }

  /** A storage that starts, or catches up, from the stream: it replays the transactions from `from`. */
  method SyncReplayStream(fields: Dictionary, log: seq<Persisted>, from: nat)
    requires from <= |log|
    requires fields.Contents() == ReplayAll(BLANK, Mutations(log[..from]))
    modifies fields
    ensures fields.Contents() == ReplayAll(BLANK, Mutations(log))
  {
    for i := from to |log|
      invariant fields.Contents() == ReplayAll(BLANK, Mutations(log[..i]))
    {
      ghost var done := Mutations(log[..i]);
      var ms := log[i].mutations;
      assert done + ms[..0] == done;
      for j := 0 to |ms|
        invariant fields.Contents() == ReplayAll(BLANK, done + ms[..j])
      {
        assert done + ms[..j + 1] == (done + ms[..j]) + [ms[j]];
        ReplayAppend(BLANK, done + ms[..j], [ms[j]]);
        fields.Update(ms[j]);
      }
      assert ms[..|ms|] == ms && log[..i + 1][..i] == log[..i];
    }
    assert log[..|log|] == log;
  }
}
