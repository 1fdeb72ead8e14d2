/** The fencing token: how a lease handle is laid out in bytes, and how the Go
    side and the Lua side take it apart again. */
module Lease {

  type Raw = string

  const SEP: char := '\U{1f}'

  predicate Plain(s: Raw) { SEP !in s }

  /** A uuid string: whatever it is, it has no unit separator in it. */
  type Token = t: string | Plain(t) witness ""

  function Tagged(token: Token, evt: Raw): Raw { token + [SEP] + evt }

  /** strings.IndexByte: the first position of c, or -1. */
  function IndexByte(s: string, c: char): (i: int)
    ensures -1 <= i < |s|
    ensures i == -1 <==> c !in s
    ensures i >= 0 ==> s[i] == c && forall k :: 0 <= k < i ==> s[k] != c
  {
    if s == [] then -1
    else if s[0] == c then 0
    else
      var i := IndexByte(s[1..], c);
      assert s == [s[0]] + s[1..];
      if i < 0 then -1 else i + 1
  }

  function StripToken(member: Raw): Raw {
    var i := IndexByte(member, SEP);
    if i >= 0 then member[i + 1..] else member
  }

  /** The part before the separator: the token of a tagged member. */
  function TokenOf(member: Raw): Raw {
    var i := IndexByte(member, SEP);
    if i >= 0 then member[..i] else member
  }

  /** Lua's string.find(s, '\31', 1, true): 1-based, nil when absent. */
  datatype Found = Nil | At(pos: nat)

  function LuaFind(s: string, c: char, from: nat): (r: Found)
    requires from >= 1
    ensures r.At? ==> from <= r.pos <= |s| && s[r.pos - 1] == c
    ensures r.At? ==> forall k :: from - 1 <= k < r.pos - 1 ==> s[k] != c
    ensures r.Nil? ==> forall k :: from - 1 <= k < |s| ==> s[k] != c
    decreases |s| + 1 - from
  {
    if from > |s| then Nil
    else if s[from - 1] == c then At(from)
    else LuaFind(s, c, from + 1)
  }

  /** Lua's string.sub(s, i): from 1-based position i to the end. */
  function LuaSub(s: string, i: nat): string
    requires i >= 1
  {
    if i > |s| then "" else s[i - 1..]
  }

  function LuaStrip(member: Raw): Raw {
    match LuaFind(member, SEP, 1)
    case Nil => member
    case At(i) => LuaSub(member, i + 1)
  }

  /** The two languages agree on every byte string, tagged or not. */
  lemma StripAgrees(member: Raw)
    ensures LuaStrip(member) == StripToken(member)
  {
    var i := IndexByte(member, SEP);
    match LuaFind(member, SEP, 1) {
      case Nil => assert i == -1;
      case At(p) =>
        assert member[p - 1] == SEP;
        assert i == p - 1;
    }
  }

  /** Stripping undoes tagging whatever the payload holds, and is the identity on
      a payload that was never tagged. */
  lemma StripUndoesTag(token: Token, evt: Raw)
    ensures StripToken(Tagged(token, evt)) == evt
    ensures TokenOf(Tagged(token, evt)) == token
    ensures Plain(evt) ==> StripToken(evt) == evt
  {
    var m := Tagged(token, evt);
    assert m[|token|] == SEP;
    var i := IndexByte(m, SEP);
    assert forall k :: 0 <= k < |token| ==> m[k] == token[k] && token[k] in token;
    assert i == |token|;
    assert m[..i] == token && m[i + 1..] == evt;
  }

  /** One handle names one pick of one payload. */
  lemma TaggedInjective(t1: Token, e1: Raw, t2: Token, e2: Raw)
    ensures Tagged(t1, e1) == Tagged(t2, e2) <==> t1 == t2 && e1 == e2
  {
    StripUndoesTag(t1, e1);
    StripUndoesTag(t2, e2);
  }

  /** Redis compares members with equal scores as byte strings. */
  predicate BytesLess(a: Raw, b: Raw) {
    if b == [] then false
    else if a == [] then true
    else a[0] < b[0] || (a[0] == b[0] && BytesLess(a[1..], b[1..]))
  }

  /** The two agree before k, and there a ends or has the smaller byte. */
  predicate SmallerAt(a: Raw, b: Raw, k: nat) {
    k <= |a| && k < |b| && (forall i :: 0 <= i < k ==> a[i] == b[i]) && (k == |a| || a[k] < b[k])
  }

  /** That is: the first byte to differ decides, and of two where none does the shorter
      comes first. */
  lemma {:induction false} FirstByteDecides(a: Raw, b: Raw)
    ensures BytesLess(a, b) <==> exists k: nat :: SmallerAt(a, b, k)
    decreases |a|
  {
    if a != [] && b != [] && a[0] == b[0] {
      FirstByteDecides(a[1..], b[1..]);
      if k: nat :| SmallerAt(a[1..], b[1..], k) { assert SmallerAt(a, b, k + 1); }
      if k: nat :| SmallerAt(a, b, k) { assert SmallerAt(a[1..], b[1..], k - 1); }
    } else if BytesLess(a, b) {
      assert SmallerAt(a, b, 0);
    }
  }

  lemma {:induction false} BytesIrreflexive(a: Raw)
    ensures !BytesLess(a, a)
  {
    if a != [] { BytesIrreflexive(a[1..]); }
  }

  lemma {:induction false} BytesTransitive(a: Raw, b: Raw, c: Raw)
    requires BytesLess(a, b) && BytesLess(b, c)
    ensures BytesLess(a, c)
  {
    if a != [] && a[0] == b[0] == c[0] { BytesTransitive(a[1..], b[1..], c[1..]); }
  }

  lemma {:induction false} BytesConnected(a: Raw, b: Raw)
    requires a != b
    ensures BytesLess(a, b) || BytesLess(b, a)
  {
    if a != [] && b != [] && a[0] == b[0] {
      assert a == [a[0]] + a[1..] && b == [b[0]] + b[1..];
      BytesConnected(a[1..], b[1..]);
    }
  }
}
