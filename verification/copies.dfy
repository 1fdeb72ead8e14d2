/** Counting the copies of one payload across the queue, and what each atomic step
    does to that count. `hidden` is a set of leases left out of the count: empty for
    the queue alone, the leases of busy workers when handlers are in play. */
module Copies {
  import opened Lease
  import opened QueueModel

  function Leases(z: map<Raw, int>, hidden: set<Raw>, r: Raw): set<Raw> {
    set m | m in z && m !in hidden && StripToken(m) == r
  }

  function Count(orgOf: Raw -> Org, s: State, hidden: set<Raw>, r: Raw): nat {
    multiset(ListAt(s.pending, orgOf(r)))[r]
    + (if r in s.scheduled then 1 else 0)
    + |Leases(s.processing, hidden, r)|
  }

  lemma PushCount(orgOf: Raw -> Org, s: State, raw: Raw, hidden: set<Raw>, r: Raw)
    ensures Count(orgOf, Push(s, orgOf(raw), raw), hidden, r)
         == Count(orgOf, s, hidden, r) + (if r == raw then 1 else 0)
  {
    var l := ListAt(s.pending, orgOf(raw));
    assert multiset(l + [raw]) == multiset(l) + multiset{raw};
  }

  lemma LeaseAdded(z: map<Raw, int>, hidden: set<Raw>, m: Raw, d: int, r: Raw)
    requires m !in z && m !in hidden
    ensures |Leases(z[m := d], hidden, r)| == |Leases(z, hidden, r)| + (if StripToken(m) == r then 1 else 0)
    ensures Leases(z[m := d], hidden + {m}, r) == Leases(z, hidden, r)
  {
    var was := Leases(z, hidden, r);
    if StripToken(m) == r {
      assert Leases(z[m := d], hidden, r) == was + {m};
    } else {
      assert Leases(z[m := d], hidden, r) == was;
    }
  }

  lemma LeaseRemoved(z: map<Raw, int>, hidden: set<Raw>, m: Raw, r: Raw)
    ensures |Leases(z - {m}, hidden, r)|
         == |Leases(z, hidden, r)| - (if m in z && m !in hidden && StripToken(m) == r then 1 else 0)
    ensures Leases(z - {m}, hidden - {m}, r) == Leases(z - {m}, hidden, r)
  {
    var was := Leases(z, hidden, r);
    if m in z && m !in hidden && StripToken(m) == r {
      assert Leases(z - {m}, hidden, r) == was - {m};
    } else {
      assert Leases(z - {m}, hidden, r) == was;
    }
  }

  lemma PickedPending(orgOf: Raw -> Org, s: State, deadline: int, token: Token, r: Raw)
    requires RingOk(orgOf, s) && s.ring != []
    ensures var l := ListAt(s.pending, s.ring[0]);
            && l != []
            && multiset(ListAt(FairPick(s, deadline, token).after.pending, orgOf(r)))[r]
               == multiset(ListAt(s.pending, orgOf(r)))[r] - (if r == l[0] then 1 else 0)
  {
    var o := s.ring[0];
    assert o in s.ring;
    var l := s.pending[o];
    assert l == [l[0]] + l[1..];
    assert orgOf(l[0]) == o;
    assert ListAt(FairPick(s, deadline, token).after.pending, o) == l[1..];
  }

  /** A pick moves one copy from pending to a lease; hiding the new lease at the
      same time takes that copy out of the count. */
  lemma PickCount(orgOf: Raw -> Org, s: State, deadline: int, token: Token, hidden: set<Raw>, r: Raw)
    requires RingOk(orgOf, s)
    requires var got := FairPick(s, deadline, token).got;
             got.Some? ==> got.value !in s.processing && got.value !in hidden
    ensures var pick := FairPick(s, deadline, token);
            && Count(orgOf, pick.after, hidden, r) == Count(orgOf, s, hidden, r)
            && (pick.got.Some? ==>
                  Count(orgOf, pick.after, hidden + {pick.got.value}, r)
                  == Count(orgOf, s, hidden, r) - (if StripToken(pick.got.value) == r then 1 else 0))
  {
    if s.ring != [] {
      PickedPending(orgOf, s, deadline, token, r);
      var evt := ListAt(s.pending, s.ring[0])[0];
      StripUndoesTag(token, evt);
      LeaseAdded(s.processing, hidden, Tagged(token, evt), deadline, r);
    }
  }

  lemma DropCount(orgOf: Raw -> Org, s: State, m: Raw, hidden: set<Raw>, r: Raw)
    ensures var gone := if m in s.processing && m !in hidden && StripToken(m) == r then 1 else 0;
            && Count(orgOf, Ack(s, m), hidden, r) == Count(orgOf, s, hidden, r) - gone
            && Count(orgOf, DeadLetter(s, m), hidden, r) == Count(orgOf, s, hidden, r) - gone
            && Count(orgOf, Ack(s, m), hidden - {m}, r) == Count(orgOf, s, hidden, r) - gone
            && Count(orgOf, DeadLetter(s, m), hidden - {m}, r) == Count(orgOf, s, hidden, r) - gone
  {
    LeaseRemoved(s.processing, hidden, m, r);
  }

  lemma ScheduleCount(orgOf: Raw -> Org, s: State, raw: Raw, at: int, hidden: set<Raw>, r: Raw)
    ensures Count(orgOf, Schedule(s, raw, at), hidden, r)
         == Count(orgOf, s, hidden, r) + (if r == raw && raw !in s.scheduled then 1 else 0)
  {
  }

  lemma PromoteOneCount(orgOf: Raw -> Org, s: State, raw: Raw, hidden: set<Raw>, r: Raw)
    requires raw in s.scheduled
    ensures Count(orgOf, PromoteOne(orgOf, s, raw), hidden, r) == Count(orgOf, s, hidden, r)
  {
    PushCount(orgOf, s.(scheduled := s.scheduled - {raw}), raw, hidden, r);
  }

  predicate Distinct(l: seq<Raw>) { forall i, j :: 0 <= i < j < |l| ==> l[i] != l[j] }

  function Elements(l: seq<Raw>): set<Raw> { set k | k in l }

  lemma ElementsSnoc(l: seq<Raw>)
    requires l != []
    ensures Elements(l) == Elements(l[..|l| - 1]) + {l[|l| - 1]}
    ensures Distinct(l) ==> l[|l| - 1] !in Elements(l[..|l| - 1])
  {
    assert l == l[..|l| - 1] + [l[|l| - 1]];
  }

  lemma {:induction false} PromoteAllKeys(orgOf: Raw -> Org, s: State, due: seq<Raw>)
    ensures PromoteAll(orgOf, s, due).scheduled == s.scheduled - Elements(due)
    ensures PromoteAll(orgOf, s, due).processing == s.processing
    ensures PromoteAll(orgOf, s, due).dead == s.dead
    decreases |due|
  {
    if due != [] {
      PromoteAllKeys(orgOf, s, due[..|due| - 1]);
      ElementsSnoc(due);
    }
  }

  lemma {:induction false} PromoteAllCount(orgOf: Raw -> Org, s: State, due: seq<Raw>, hidden: set<Raw>, r: Raw)
    requires Distinct(due) && forall k :: k in due ==> k in s.scheduled
    ensures Count(orgOf, PromoteAll(orgOf, s, due), hidden, r) == Count(orgOf, s, hidden, r)
    decreases |due|
  {
    if due != [] {
      var n := |due| - 1;
      PromoteAllCount(orgOf, s, due[..n], hidden, r);
      PromoteAllKeys(orgOf, s, due[..n]);
      ElementsSnoc(due);
      assert due[n] in due;
      PromoteOneCount(orgOf, PromoteAll(orgOf, s, due[..n]), due[n], hidden, r);
    }
  }

  lemma PromoteDueCount(orgOf: Raw -> Org, s: State, now: int, limit: int, hidden: set<Raw>, r: Raw)
    ensures Count(orgOf, PromoteDue(orgOf, s, now, limit), hidden, r) == Count(orgOf, s, hidden, r)
    ensures PromoteDue(orgOf, s, now, limit).processing == s.processing
  {
    var all := Due(s.scheduled, now);
    var due := Limited(all, limit);
    assert forall k :: k in due ==> k in all;
    PromoteAllCount(orgOf, s, due, hidden, r);
    PromoteAllKeys(orgOf, s, due);
  }

  // ---- recovery ------------------------------------------------------------

  /** The copies that recovery merges into an entry already scheduled. */
  function Merged(s: State, now: int, expired: seq<Raw>): multiset<Raw>
    decreases |expired|
  {
    if expired == [] then multiset{} else
      var n := |expired| - 1;
      var raw := StripToken(expired[n]);
      Merged(s, now, expired[..n])
      + (if raw in RecoverAll(s, now, expired[..n]).scheduled then multiset{raw} else multiset{})
  }

  function Payloads(l: seq<Raw>): set<Raw> { set k | k in l :: StripToken(k) }

  lemma PayloadsSnoc(l: seq<Raw>)
    requires l != []
    ensures Payloads(l) == Payloads(l[..|l| - 1]) + {StripToken(l[|l| - 1])}
  {
    assert l == l[..|l| - 1] + [l[|l| - 1]];
  }

  lemma {:induction false} RecoverAllKeys(s: State, now: int, expired: seq<Raw>)
    ensures RecoverAll(s, now, expired).processing == s.processing - Elements(expired)
    ensures RecoverAll(s, now, expired).scheduled.Keys == s.scheduled.Keys + Payloads(expired)
    ensures forall k :: k in RecoverAll(s, now, expired).scheduled ==>
              RecoverAll(s, now, expired).scheduled[k] == if k in Payloads(expired) then now else s.scheduled[k]
    decreases |expired|
  {
    if expired != [] {
      RecoverAllKeys(s, now, expired[..|expired| - 1]);
      ElementsSnoc(expired);
      PayloadsSnoc(expired);
      StripAgrees(expired[|expired| - 1]);
    }
  }

  lemma {:induction false} RecoverAllCount(orgOf: Raw -> Org, s: State, now: int, expired: seq<Raw>, hidden: set<Raw>, r: Raw)
    requires Distinct(expired)
    requires forall k :: k in expired ==> k in s.processing && k !in hidden
    ensures Count(orgOf, RecoverAll(s, now, expired), hidden, r) + Merged(s, now, expired)[r]
         == Count(orgOf, s, hidden, r)
    decreases |expired|
  {
    if expired != [] {
      var n := |expired| - 1;
      var m := expired[n];
      RecoverAllCount(orgOf, s, now, expired[..n], hidden, r);
      RecoverAllKeys(s, now, expired[..n]);
      var mid := RecoverAll(s, now, expired[..n]);
      assert m in expired;
      ElementsSnoc(expired);
      StripAgrees(m);
      LeaseRemoved(mid.processing, hidden, m, r);
      assert RecoverAll(s, now, expired) == RecoverOne(mid, now, m);
    }
  }

  /** Recovery may merge copies but never loses the last one. */
  lemma RecoverCount(orgOf: Raw -> Org, s: State, now: int, hidden: set<Raw>, r: Raw)
    requires forall k :: k in s.processing && s.processing[k] <= now ==> k !in hidden
    ensures Count(orgOf, Recover(s, now), hidden, r) + Merged(s, now, Due(s.processing, now))[r]
         == Count(orgOf, s, hidden, r)
    ensures Count(orgOf, s, hidden, r) > 0 ==> Count(orgOf, Recover(s, now), hidden, r) > 0
  {
    var expired := Due(s.processing, now);
    RecoverAllCount(orgOf, s, now, expired, hidden, r);
    RecoverLeavesPending(s, now, expired);
    RecoverAllKeys(s, now, expired);
    var s' := Recover(s, now);
    if r !in s'.scheduled {
      forall m | m in Leases(s.processing, hidden, r) ensures m in Leases(s'.processing, hidden, r) {
        assert m !in expired;
      }
      assert Leases(s.processing, hidden, r) <= Leases(s'.processing, hidden, r);
      assert Leases(s'.processing, hidden, r) <= Leases(s.processing, hidden, r);
    }
  }
}
