/**
 Transactions over the fields of a storage: the dictionary that logs an undo with every mutation
 (storage/container/dictionary.h), the journal of one transaction (storage/base.h), and the policy
 that rolls it back or persists it (storage/transaction_policy.h, storage/persister/stream.h).
 */
module Journal {
  import opened StreamLog

  datatype Key = Key(field: nat, id: int)
  datatype Object = Object(key: Key, data: int)

  /** All fields of a storage: the entries, and when each key was last modified. */
  datatype Fields = Fields(entries: map<Key, Object>, modified: map<Key, nat>)

  const BLANK := Fields(map[], map[])

  datatype Mutation = Updated(us: nat, data: Object) | Deleted(us: nat, key: Key)

  /** What the rollback function of one mutation does. */
  datatype Undo = PutBack(key: Key, data: Object, us: nat) | TakeOut(key: Key, us: nat) | Forget(key: Key)

  predicate Consistent(f: Fields) {
    forall k :: k in f.entries ==> k in f.modified && f.entries[k].key == k
  }

  // What replaying a persisted event does.
  function Replay(f: Fields, m: Mutation): Fields {
    match m
    case Updated(us, o) => Fields(f.entries[o.key := o], f.modified[o.key := us])
    case Deleted(us, k) => Fields(f.entries - {k}, f.modified[k := us])
  }

  function ReplayAll(f: Fields, ms: seq<Mutation>): Fields
    decreases |ms|
  {
    if ms == [] then f else ReplayAll(Replay(f, ms[0]), ms[1..])
  }

  function Undone(f: Fields, u: Undo): Fields {
    match u
    case PutBack(k, o, us) => Fields(f.entries[k := o], f.modified[k := us])
    case TakeOut(k, us) => Fields(f.entries - {k}, f.modified[k := us])
    case Forget(k) => Fields(f.entries - {k}, f.modified - {k})
  }

  /** Undo the last first. */
  function UndoAll(f: Fields, us: seq<Undo>): Fields
    decreases |us|
  {
    if us == [] then f else UndoAll(Undone(f, us[|us| - 1]), us[..|us| - 1])
  }

  function UndoOfPut(f: Fields, k: Key): Undo
    requires Consistent(f)
  {
    if k in f.entries then PutBack(k, f.entries[k], f.modified[k])
    else if k in f.modified then TakeOut(k, f.modified[k])
    else Forget(k)
  }

  // What the body of a transaction can do to the storage.
  datatype Op =
    | Put(data: Object, now: nat)
    | Remove(key: Key, now: nat)
    | SetMeta(name: string, value: string)
    | EraseMeta(name: string)

  /** What an operation on the fields amounts to. */
  function Effect(f: Fields, op: Op): seq<Mutation> {
    match op
    case Put(o, now) => [Updated(now, o)]
    case Remove(k, now) => if k in f.entries then [Deleted(now, k)] else []
    case _ => []
  }

  function Effects(f: Fields, ops: seq<Op>): seq<Mutation> {
    if ops == [] then []
    else var ms := Effects(f, ops[..|ops| - 1]); ms + Effect(ReplayAll(f, ms), ops[|ops| - 1])
  }

  function MetaAfter(meta: map<string, string>, op: Op): map<string, string> {
    match op
    case SetMeta(n, v) => meta[n := v]
    case EraseMeta(n) => meta - {n}
    case _ => meta
  }

  function Metas(ops: seq<Op>): map<string, string> {
    if ops == [] then map[] else MetaAfter(Metas(ops[..|ops| - 1]), ops[|ops| - 1])
  }

  lemma {:induction false} ReplayAppend(f: Fields, ms: seq<Mutation>, ns: seq<Mutation>)
    ensures ReplayAll(f, ms + ns) == ReplayAll(ReplayAll(f, ms), ns)
    decreases |ms|
  {
    if ms == [] {
      assert ms + ns == ns;
    } else {
      assert (ms + ns)[1..] == ms[1..] + ns;
      ReplayAppend(Replay(f, ms[0]), ms[1..], ns);
    }
  }

  lemma {:induction false} ReplayKeepsConsistent(f: Fields, ms: seq<Mutation>)
    requires Consistent(f)
    ensures Consistent(ReplayAll(f, ms))
    decreases |ms|
  {
    if ms != [] { ReplayKeepsConsistent(Replay(f, ms[0]), ms[1..]); }
  }

  lemma ReplayOne(f: Fields, m: Mutation)
    ensures ReplayAll(f, [m]) == Replay(f, m)
  {
    assert [m][1..] == [];
  }

  lemma ReplayNone(f: Fields)
    ensures ReplayAll(f, []) == f
  {
  }

  // What a key holds, without replaying.

  function KeyOf(m: Mutation): Key {
    match m
    case Updated(_, o) => o.key
    case Deleted(_, k) => k
  }

  /** The last mutation about `k`. */
  function LastFor(ms: seq<Mutation>, k: Key): Option<Mutation> {
    if ms == [] then None
    else if KeyOf(ms[|ms| - 1]) == k then Some(ms[|ms| - 1])
    else LastFor(ms[..|ms| - 1], k)
  }

  /** The last write wins, for what a key holds and for when it was modified. */
  lemma {:induction false} LastWriteWins(f: Fields, ms: seq<Mutation>, k: Key)
    ensures var g, last := ReplayAll(f, ms), LastFor(ms, k);
            && (k in g.entries <==> if last.None? then k in f.entries else last.value.Updated?)
            && (k in g.modified <==> last.Some? || k in f.modified)
            && (k in g.entries ==> g.entries[k] == if last.None? then f.entries[k] else last.value.data)
            && (k in g.modified ==> g.modified[k] == if last.None? then f.modified[k] else last.value.us)
    decreases |ms|
  {
    if ms != [] {
      var n := |ms| - 1;
      LastWriteWins(f, ms[..n], k);
      assert ms[..n] + [ms[n]] == ms;
      ReplayAppend(f, ms[..n], [ms[n]]);
      ReplayOne(ReplayAll(f, ms[..n]), ms[n]);
    }
  }

  /** The last operation of a transaction that puts or removes `k`. */
  function LastOp(ops: seq<Op>, k: Key): Option<Op> {
    if ops == [] then None
    else
      var op := ops[|ops| - 1];
      if (op.Put? && op.data.key == k) || (op.Remove? && op.key == k) then Some(op)
      else LastOp(ops[..|ops| - 1], k)
  }

  /** What key `k` holds in `g`, if `last` was the last operation on it since `f`. */
  predicate Holds(f: Fields, last: Option<Op>, g: Fields, k: Key) {
    if last.None? then
      && (k in g.entries <==> k in f.entries) && (k in g.entries && k in f.entries ==> g.entries[k] == f.entries[k])
      && (k in g.modified <==> k in f.modified) && (k in g.modified && k in f.modified ==> g.modified[k] == f.modified[k])
    else if last.value.Put? then
      && k in g.entries && g.entries[k] == last.value.data
      && k in g.modified && g.modified[k] == last.value.now
    else
      k !in g.entries
  }

  /** For every key, the last operation decides. */
  ghost predicate Wrote(f: Fields, ops: seq<Op>, g: Fields) {
    forall k :: Holds(f, LastOp(ops, k), g, k)
  }

  lemma {:induction false} EffectsWrite(f: Fields, ops: seq<Op>)
    ensures Wrote(f, ops, ReplayAll(f, Effects(f, ops)))
  {
    if ops != [] {
      var n := |ops| - 1;
      var ms := Effects(f, ops[..n]);
      EffectsWrite(f, ops[..n]);
      var g := ReplayAll(f, ms);
      ReplayAppend(f, ms, Effect(g, ops[n]));
      EffectWrites(f, ops, g);
    }
  }

  lemma EffectWrites(f: Fields, ops: seq<Op>, g: Fields)
    requires ops != [] && Wrote(f, ops[..|ops| - 1], g)
    ensures Wrote(f, ops, ReplayAll(g, Effect(g, ops[|ops| - 1])))
  {
    hide ReplayAll;
    var op := ops[|ops| - 1];
    ReplayNone(g);
    if op.Put? { ReplayOne(g, Updated(op.now, op.data)); }
    if op.Remove? { ReplayOne(g, Deleted(op.now, op.key)); }
    var g' := ReplayAll(g, Effect(g, op));
    forall k ensures Holds(f, LastOp(ops, k), g', k) {
      assert Holds(f, LastOp(ops[..|ops| - 1], k), g, k);
    }
  }

  /** The value of a meta field is the one set last, if it was not erased since. */
  function LastMeta(ops: seq<Op>, name: string): Option<string> {
    if ops == [] then None
    else
      match ops[|ops| - 1]
      case SetMeta(n, v) => if n == name then Some(v) else LastMeta(ops[..|ops| - 1], name)
      case EraseMeta(n) => if n == name then None else LastMeta(ops[..|ops| - 1], name)
      case _ => LastMeta(ops[..|ops| - 1], name)
  }

  lemma {:induction false} MetaIsTheLastSet(ops: seq<Op>, name: string)
    ensures (if name in Metas(ops) then Some(Metas(ops)[name]) else None) == LastMeta(ops, name)
  {
    if ops != [] { MetaIsTheLastSet(ops[..|ops| - 1], name); }
  }

  lemma UndoAppend(f: Fields, us: seq<Undo>, u: Undo)
    ensures UndoAll(f, us + [u]) == UndoAll(Undone(f, u), us)
  {
    assert (us + [u])[..|us + [u]| - 1] == us;
  }

  /** Each rollback function restores the fields as they were when it was logged. */
  lemma UndoUndoesPut(f: Fields, o: Object, now: nat)
    requires Consistent(f)
    ensures Undone(Replay(f, Updated(now, o)), UndoOfPut(f, o.key)) == f
  {
  }

  lemma UndoUndoesRemove(f: Fields, k: Key, now: nat)
    requires Consistent(f) && k in f.entries
    ensures Undone(Replay(f, Deleted(now, k)), UndoOfPut(f, k)) == f
  {
  }

  class MutationJournal {
    var beginUs: nat
    var endUs: nat
    var meta: map<string, string>
    var commitLog: seq<Mutation>
    var rollbackLog: seq<Undo>

    predicate IsEmpty()
      reads this
    {
      beginUs == 0 && endUs == 0 && meta == map[] && commitLog == [] && rollbackLog == []
    }

    constructor ()
      ensures IsEmpty()
    {
      beginUs, endUs, meta, commitLog, rollbackLog := 0, 0, map[], [], [];
    }

    method LogMutation(m: Mutation, undo: Undo)
      modifies this
      ensures commitLog == old(commitLog) + [m] && rollbackLog == old(rollbackLog) + [undo]
      ensures unchanged(`beginUs, `endUs, `meta)
    {
      commitLog := commitLog + [m];
      rollbackLog := rollbackLog + [undo];
    }

    method Clear()
      modifies this
      ensures IsEmpty()
    {
      beginUs, endUs, meta := 0, 0, map[];
      commitLog, rollbackLog := [], [];
    }

    method Rollback(fields: Dictionary)
      modifies this, fields
      ensures IsEmpty()
      ensures fields.Contents() == UndoAll(old(fields.Contents()), old(rollbackLog))
    {
      var i := |rollbackLog|;
      assert rollbackLog[..i] == rollbackLog;
      while i > 0
        invariant 0 <= i <= |rollbackLog| && rollbackLog == old(rollbackLog)
        invariant UndoAll(fields.Contents(), rollbackLog[..i]) == UndoAll(old(fields.Contents()), rollbackLog)
        modifies fields
      {
        i := i - 1;
        UndoAppend(fields.Contents(), rollbackLog[..i], rollbackLog[i]);
        assert rollbackLog[..i] + [rollbackLog[i]] == rollbackLog[..i + 1];
        fields.Undo(rollbackLog[i]);
      }
      Clear();
    }
  }

  class Dictionary {
    var entries: map<Key, Object>
    var modified: map<Key, nat>
    const journal: MutationJournal

    function Contents(): Fields
      reads this
    {
      Fields(entries, modified)
    }

    constructor (journal: MutationJournal)
      ensures Contents() == BLANK && this.journal == journal
    {
      entries, modified, this.journal := map[], map[], journal;
    }

    method Add(o: Object, now: nat)
      requires Consistent(Contents())
      modifies this, journal
      ensures Contents() == Replay(old(Contents()), Updated(now, o))
      ensures entries == old(entries)[o.key := o] && modified == old(modified)[o.key := now]
      ensures journal.commitLog == old(journal.commitLog) + [Updated(now, o)]
      ensures journal.rollbackLog == old(journal.rollbackLog) + [UndoOfPut(old(Contents()), o.key)]
      ensures unchanged(journal`beginUs, journal`endUs, journal`meta)
    {
      var key := o.key;
      if key in entries {
        journal.LogMutation(Updated(now, o), PutBack(key, entries[key], modified[key]));
      } else if key in modified {
        journal.LogMutation(Updated(now, o), TakeOut(key, modified[key]));
      } else {
        journal.LogMutation(Updated(now, o), Forget(key));
      }
      modified := modified[key := now];
      entries := entries[key := o];
    }

    method Erase(key: Key, now: nat)
      requires Consistent(Contents())
      modifies this, journal
      ensures key !in old(entries) ==> unchanged(this) && unchanged(journal)
      ensures key in old(entries) ==>
        && Contents() == Replay(old(Contents()), Deleted(now, key))
        && entries == old(entries) - {key} && modified == old(modified)[key := now]
        && journal.commitLog == old(journal.commitLog) + [Deleted(now, key)]
        && journal.rollbackLog == old(journal.rollbackLog) + [UndoOfPut(old(Contents()), key)]
        && unchanged(journal`beginUs, journal`endUs, journal`meta)
    {
      if key in entries {
        var previous := entries[key];
        journal.LogMutation(Deleted(now, previous.key), PutBack(key, previous, modified[key]));
        modified := modified[key := now];
        entries := entries - {key};
      }
    }

    method Undo(u: Undo)
      modifies this
      ensures Contents() == Undone(old(Contents()), u)
    {
      match u
      case PutBack(k, o, us) =>
        modified := modified[k := us];
        entries := entries[k := o];
      case TakeOut(k, us) =>
        modified := modified[k := us];
        entries := entries - {k};
      case Forget(k) =>
        modified := modified - {k};
        entries := entries - {k};
    }

    /** The event handlers: what a mutation read from the stream does. */
    method Update(m: Mutation)
      modifies this
      ensures Contents() == Replay(old(Contents()), m)
      ensures m.Updated? ==> entries == old(entries)[m.data.key := m.data] && modified == old(modified)[m.data.key := m.us]
      ensures m.Deleted? ==> entries == old(entries) - {m.key} && modified == old(modified)[m.key := m.us]
    {
      match m
      case Updated(us, o) =>
        modified := modified[o.key := us];
        entries := entries[o.key := o];
      case Deleted(us, k) =>
        modified := modified[k := us];
        entries := entries - {k};
    }
  }
}
