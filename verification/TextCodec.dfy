/**
 A serialization that meets what is assumed of the one in use: numbers are written in unary, and
 the line breaks in an entry are escaped.
 */
module TextCodec {
  import opened StreamLog
  import opened Chunks
  import opened Replica
  import PubSub

  function Unary(n: nat): string {
    seq(n, _ => '1')
  }

  function Signed(us: int): string {
    if us < 0 then "-" + Unary(-us) else "+" + Unary(us)
  }

  function ReadSigned(s: string): int {
    if s == "" then 0 else if s[0] == '-' then 1 - |s| else |s| - 1
  }

  function Ones(s: string): (n: nat)
    ensures n <= |s|
  {
    if s == "" || s[0] != '1' then 0 else 1 + Ones(s[1..])
  }

  function IndexText(index: nat, us: int): string {
    Unary(index) + Signed(us)
  }

  function UsOf(s: string): int {
    ReadSigned(s[Ones(s)..])
  }

  function Escaped(c: char): string {
    if c == '\n' then "\\n" else if c == '\r' then "\\r" else if c == '\\' then "\\\\" else [c]
  }

  function Quote(s: string): string {
    if s == "" then "" else Escaped(s[0]) + Quote(s[1..])
  }

  function Unquote(s: string): string {
    if s == "" then ""
    else if s[0] == '\\' && |s| > 1 then
      [if s[1] == 'n' then '\n' else if s[1] == 'r' then '\r' else s[1]] + Unquote(s[2..])
    else [s[0]] + Unquote(s[1..])
  }

  function Parse(s: string): Option<Line> {
    var tab := PubSub.TabPos(s);
    if s == "" then None
    else if tab == |s| then Some(HeadLine(ReadSigned(s)))
    else Some(EntryLine(Ones(s[..tab]), UsOf(s[..tab]), Unquote(s[tab + 1..])))
  }

  const TEXT := Codec(IndexText, Quote, Signed, Parse, UsOf)

  lemma {:induction false} OnesOf(n: nat, rest: string)
    requires rest != "" && rest[0] != '1'
    ensures Ones(Unary(n) + rest) == n
  {
    if n == 0 {
      assert Unary(n) + rest == rest;
    } else {
      assert (Unary(n) + rest)[1..] == Unary(n - 1) + rest;
      OnesOf(n - 1, rest);
    }
  }

  lemma ReadsIndex(index: nat, us: int)
    ensures Ones(IndexText(index, us)) == index && UsOf(IndexText(index, us)) == us
    ensures '\t' !in IndexText(index, us) && BreakFree(IndexText(index, us))
  {
    OnesOf(index, Signed(us));
    assert IndexText(index, us)[index..] == Signed(us);
  }

  lemma {:induction false} ReadsPayload(s: string)
    ensures Unquote(Quote(s)) == s && BreakFree(Quote(s))
  {
    if s != "" {
      ReadsPayload(s[1..]);
      var e := Escaped(s[0]);
      assert Quote(s)[|e|..] == Quote(s[1..]);
    }
  }

  lemma {:induction false} TabAt(s: string, k: nat)
    requires k <= |s| && '\t' !in s[..k] && (k < |s| ==> s[k] == '\t')
    ensures PubSub.TabPos(s) == k
  {
    if k > 0 {
      assert s[..k] == [s[0]] + s[1..][..k - 1];
      TabAt(s[1..], k - 1);
    }
  }

  lemma ReadsLine(l: Line)
    ensures Parse(Render(TEXT, l)) == Some(l) && Render(TEXT, l) != "" && BreakFree(Render(TEXT, l))
  {
    var s := Render(TEXT, l);
    match l
    case EntryLine(index, us, payload) =>
      ReadsIndex(index, us);
      ReadsPayload(payload);
      var k := |IndexText(index, us)|;
      assert s[..k] == IndexText(index, us) && s[k + 1..] == Quote(payload);
      TabAt(s, k);
    case HeadLine(us) =>
      assert s[..|s|] == s;
      TabAt(s, |s|);
  }

  /** The assumptions about the serialization can be met. */
  lemma TextIsFaithful()
    ensures Faithful(TEXT)
  {
    forall l: Line
      ensures TEXT.parse(Render(TEXT, l)) == Some(l) && Render(TEXT, l) != "" && BreakFree(Render(TEXT, l))
    {
      ReadsLine(l);
    }
    forall index: nat, us: int
      ensures TEXT.usOf(TEXT.idxts(index, us)) == us && '\t' !in TEXT.idxts(index, us)
    {
      ReadsIndex(index, us);
    }
  }
}
