/**
 The persisted stream that every part of the stream subsystem reads and writes: an append-only
 log of entries with strictly increasing timestamps, plus a HEAD that may run ahead of the last
 entry. `Stream` is the value; `Persister` is the object whose methods change it in place.
 */
module StreamLog {

  datatype Option<+T> = None | Some(value: T)

  datatype Entry = Entry(us: int, payload: string)

  datatype Stream = Stream(log: seq<Entry>, head: int)

  /** A newly created stream: no entries, HEAD one microsecond before the epoch. */
  const EMPTY := Stream([], -1)

  /** The timestamp of the last entry, or the initial HEAD of an empty log. */
  function LastUs(log: seq<Entry>): int {
    if log == [] then -1 else log[|log| - 1].us
  }

  ghost predicate Ordered(log: seq<Entry>) {
    forall i, j :: 0 <= i < j < |log| ==> log[i].us < log[j].us
  }

  ghost predicate Valid(s: Stream) {
    && Ordered(s.log)
    && (forall i :: 0 <= i < |s.log| ==> 0 <= s.log[i].us <= s.head)
    && -1 <= s.head
  }

  /** Publishing is accepted only ahead of the HEAD, and moves the HEAD to the new entry. */
  function Publish(s: Stream, us: int, payload: string): Option<Stream> {
    if us > s.head then Some(Stream(s.log + [Entry(us, payload)], us)) else None
  }

  /** A HEAD update is accepted only ahead of the HEAD, and adds no entry. */
  function UpdateHead(s: Stream, us: int): Option<Stream> {
    if us > s.head then Some(Stream(s.log, us)) else None
  }

  /** The first index whose timestamp is at least `us`; the size of the log when there is none. */
  function FirstAt(log: seq<Entry>, us: int): (r: nat)
    ensures r <= |log|
    ensures forall j :: 0 <= j < r ==> log[j].us < us
    ensures r < |log| ==> us <= log[r].us
  {
    if log == [] || us <= log[0].us then 0
    else
      var t := FirstAt(log[1..], us);
      assert forall j :: 1 <= j < 1 + t ==> log[j] == log[1..][j - 1];
      1 + t
  }

  /** Every entry of `s` at index `n` or later is stamped after `us`. */
  ghost predicate Covered(s: Stream, n: nat, us: int) {
    forall j :: n <= j < |s.log| ==> us < s.log[j].us
  }

  /**
   `t` is a later state of `s`: what accepted publishes and HEAD updates can make of it. Read the
   other way, `s` is a faithful copy of a part of `t`: it holds a prefix of the log of `t`, its HEAD
   is not ahead, and it misses no entry stamped at or before its own HEAD.
   */
  ghost predicate Grows(s: Stream, t: Stream) {
    && |s.log| <= |t.log|
    && t.log[..|s.log|] == s.log
    && s.head <= t.head
    && Covered(t, |s.log|, s.head)
  }

  lemma GrowsTransitive(a: Stream, b: Stream, c: Stream)
    requires Grows(a, b) && Grows(b, c)
    ensures Grows(a, c)
  {
    assert c.log[..|a.log|] == b.log[..|a.log|] by { assert b.log == c.log[..|b.log|]; }
    forall j | |a.log| <= j < |c.log| ensures a.head < c.log[j].us {
      if j < |b.log| { assert c.log[j] == b.log[j]; }
    }
  }

  lemma FirstAtIs(log: seq<Entry>, us: int, r: nat)
    requires Ordered(log) && r <= |log|
    requires forall j :: 0 <= j < r ==> log[j].us < us
    requires forall j :: r <= j < |log| ==> us <= log[j].us
    ensures FirstAt(log, us) == r
  {
    var t := FirstAt(log, us);
    assert t < |log| ==> us <= log[t].us;
    assert r < |log| ==> us <= log[r].us;
  }

  /** The in-memory persister, blocks/persistence/memory.h. */
  class Persister {
    var entries: seq<Entry>
    var head: int

    function View(): Stream
      reads this
    {
      Stream(entries, head)
    }

    constructor ()
      ensures View() == EMPTY
    {
      entries, head := [], -1;
    }

    method PublishEntry(us: int, payload: string) returns (ok: bool)
      requires Valid(View())
      modifies this
      ensures Valid(View()) && Grows(old(View()), View())
      ensures ok == (us > old(head))
      ensures View() == if ok then Publish(old(View()), us, payload).value else old(View())
    {
      ok := us > head;
      if ok {
        entries := entries + [Entry(us, payload)];
        head := us;
      }
    }

    /** The raw-line variant also checks the index carried by the line. */
    method PublishUnsafe(index: nat, us: int, payload: string) returns (ok: bool)
      requires Valid(View())
      modifies this
      ensures Valid(View()) && Grows(old(View()), View())
      ensures ok == (index == |old(entries)| && us > old(head))
      ensures View() == if ok then Publish(old(View()), us, payload).value else old(View())
    {
      ok := false;
      if index == |entries| && us > head {
        entries := entries + [Entry(us, payload)];
        head := us;
        ok := true;
      }
    }

    method AdvanceHead(us: int) returns (ok: bool)
      requires Valid(View())
      modifies this
      ensures Valid(View()) && Grows(old(View()), View())
      ensures ok == (us > old(head))
      ensures View() == if ok then UpdateHead(old(View()), us).value else old(View())
    {
      ok := us > head;
      if ok { head := us; }
    }
  }
}
