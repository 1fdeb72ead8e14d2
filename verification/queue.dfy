/** The queue as the object it is: Redis keys changed in place, one method per
    client call, each tied to its function in QueueModel. */
module FairQueue {
  import opened Lease
  import opened Ordering
  import opened QueueModel
  import opened Payloads

  datatype PickReply = Empty | Undecodable(member: Raw) | Leased(member: Raw, payload: Payload)

  lemma SortedIsDue(z: map<Raw, int>, max: int)
    ensures StrictTotal(EntryLess) && Members(Sort(EntryLess, Entries(z, max))) == Due(z, max)
  {
    EntryOrder();
    var sorted := Sort(EntryLess, Entries(z, max));
    SortedMembers(z, max, sorted);
    DueUnique(z, max, Members(sorted));
  }

  lemma MembersPrefix(es: seq<Entry>, n: nat)
    requires n <= |es|
    ensures Members(es[..n]) == Members(es)[..n]
  {
  }

  /** ZRANGEBYSCORE z -inf max LIMIT 0 limit. */
  method RangeByScore(z: map<Raw, int>, max: int, limit: int) returns (r: seq<Raw>)
    ensures r == Limited(Due(z, max), limit)
  {
    EntryOrder();
    var all: set<Entry> := set k | k in z && z[k] <= max :: Entry(z[k], k);
    var n := if 0 <= limit < |all| then limit else |all|;
    var es := ReadTop(EntryLess, all, n);
    r := Members(es);
    assert all == Entries(z, max);
    SortedIsDue(z, max);
    MembersPrefix(Sort(EntryLess, all), n);
  }

  class Queue {
    const codec: Codec
    var ring: seq<Org>
    var pending: map<Org, seq<Raw>>
    var processing: map<Raw, int>
    var scheduled: map<Raw, int>
    var dead: seq<Raw>
    var notify: nat

    function Now(): State
      reads this
    {
      State(ring, pending, processing, scheduled, dead, notify)
    }

    constructor (codec: Codec)
      ensures this.codec == codec
      ensures Now() == EMPTY
    {
      this.codec := codec;
      ring, pending, processing, scheduled, dead, notify := [], map[], map[], map[], [], 0;
    }

    /** RPUSH plus the ring rule shared by every script that makes work pending. */
    method PushPending(org: Org, raw: Raw) returns (n: nat)
      modifies this`ring, this`pending
      ensures Now() == Push(old(Now()), org, raw)
      ensures n == |ListAt(pending, org)|
    {
      var l := if org in pending then pending[org] else [];
      pending := pending[org := l + [raw]];
      n := |l| + 1;
      if n == 1 { ring := ring + [org]; }
    }

    method TrimNotify()
      modifies this`notify
      ensures Now() == Woken(old(Now()), 0)
    {
      if notify > NOTIFY_CAP { notify := NOTIFY_CAP; }
    }

    method Enqueue(p: Payload) returns (n: nat)
      modifies this
      ensures Now() == QueueModel.Enqueue(old(Now()), p.org, codec.enc(p))
      ensures n == |ListAt(pending, p.org)|
    {
      n := PushPending(p.org, codec.enc(p));
      notify := notify + 1;
      TrimNotify();
    }

    method Schedule(p: Payload, at: int)
      modifies this`scheduled
      ensures Now() == QueueModel.Schedule(old(Now()), codec.enc(p), at)
    {
      scheduled := scheduled[codec.enc(p) := at];
    }

    method FairPick(now: int, leaseMs: int, token: Token) returns (reply: PickReply)
      modifies this
      ensures var pick := QueueModel.FairPick(old(Now()), now + leaseMs, token);
              && Now() == pick.after
              && (reply.Empty? <==> pick.got.None?)
              && (!reply.Empty? ==> Some(reply.member) == pick.got)
              && (!reply.Empty? ==> codec.dec(StripToken(reply.member))
                                    == if reply.Leased? then Some(reply.payload) else None)
    {
      if ring == [] { return Empty; }
      var org := ring[0];
      ring := ring[1..];
      if org !in pending || pending[org] == [] { return Empty; }
      var evt := pending[org][0];
      pending := StoreList(pending, org, pending[org][1..]);
      var member := Tagged(token, evt);
      processing := processing[member := now + leaseMs];
      if org in pending { ring := ring + [org]; }
      var p := codec.dec(StripToken(member));
      return if p.Some? then Leased(member, p.value) else Undecodable(member);
    }

    /** BRPOP notify, or the end of its timeout. */
    method WaitNotify()
      modifies this`notify
      ensures Now() == TakeNotify(old(Now()))
    {
      if notify > 0 { notify := notify - 1; }
    }

    method Ack(member: Raw)
      modifies this`processing
      ensures Now() == QueueModel.Ack(old(Now()), member)
    {
      processing := processing - {member};
    }

    method DeadLetter(member: Raw)
      modifies this`processing, this`dead
      ensures Now() == QueueModel.DeadLetter(old(Now()), member)
    {
      dead := dead + [LuaStrip(member)];
      if |dead| > DEAD_CAP { dead := dead[|dead| - DEAD_CAP..]; }
      processing := processing - {member};
    }

    method PromoteEach(due: seq<Raw>)
      modifies this
      ensures Now() == PromoteAll(codec.OrgOf, old(Now()), due).(notify := old(notify) + |due|)
    {
      ghost var before := Now();
      for i := 0 to |due|
        invariant Now() == PromoteAll(codec.OrgOf, before, due[..i]).(notify := before.notify + i)
      {
        assert due[..i + 1][..i] == due[..i];
        scheduled := scheduled - {due[i]};
        var _ := PushPending(codec.OrgOf(due[i]), due[i]);
        notify := notify + 1;
      }
      assert due[..|due|] == due;
    }

    method PromoteDue(now: int, limit: int) returns (n: nat)
      modifies this
      ensures Now() == QueueModel.PromoteDue(codec.OrgOf, old(Now()), now, limit)
      ensures n == |Limited(Due(old(scheduled), now), limit)|
    {
      var due := RangeByScore(scheduled, now, limit);
      PromoteLeavesNotify(codec.OrgOf, Now(), due);
      PromoteEach(due);
      TrimNotify();
      n := |due|;
    }

    method RecoverEach(now: int, expired: seq<Raw>)
      modifies this`processing, this`scheduled
      ensures Now() == RecoverAll(old(Now()), now, expired)
    {
      ghost var before := Now();
      for i := 0 to |expired|
        invariant Now() == RecoverAll(before, now, expired[..i])
      {
        assert expired[..i + 1][..i] == expired[..i];
        processing := processing - {expired[i]};
        scheduled := scheduled[LuaStrip(expired[i]) := now];
      }
      assert expired[..|expired|] == expired;
    }

    method Recover(now: int) returns (n: nat)
      modifies this`processing, this`scheduled
      ensures Now() == QueueModel.Recover(old(Now()), now)
      ensures n == |Due(old(processing), now)|
    {
      var expired := RangeByScore(processing, now, -1);
      RecoverEach(now, expired);
      n := |expired|;
    }

    /** None when the admin's text is not a payload; otherwise whether it was still
        on the dead list. The attempt count starts over. */
    method RequeueDead(raw: Raw, now: int) returns (moved: Option<bool>)
      requires codec.Valid()
      modifies this
      ensures moved.None? <==> codec.dec(raw).None?
      ensures moved.None? ==> Now() == old(Now())
      ensures moved.Some? ==>
        var p := codec.dec(raw).value;
        && moved.value == (raw in old(dead))
        && Now() == QueueModel.RequeueDead(codec.OrgOf, old(Now()), raw,
                                           codec.enc(p.(attempt := 0, enqueuedAt := now)))
    {
      var decoded := codec.dec(raw);
      if decoded.None? { return None; }
      var p := decoded.value.(attempt := 0, enqueuedAt := now);
      if raw !in dead { return Some(false); }
      dead := WithoutFirst(dead, raw);
      assert codec.OrgOf(codec.enc(p)) == p.org;
      var _ := Enqueue(p);
      return Some(true);
    }

    method PromoteScheduled(raw: Raw) returns (moved: Option<bool>)
      modifies this
      ensures moved.None? <==> codec.dec(raw).None?
      ensures moved.None? ==> Now() == old(Now())
      ensures moved.Some? ==>
        && moved.value == (raw in old(scheduled))
        && Now() == QueueModel.PromoteScheduled(codec.OrgOf, old(Now()), raw)
    {
      if codec.dec(raw).None? { return None; }
      if raw !in scheduled { return Some(false); }
      scheduled := scheduled - {raw};
      var _ := PushPending(codec.OrgOf(raw), raw);
      notify := notify + 1;
      TrimNotify();
      return Some(true);
    }

    method DrainDead() returns (n: nat)
      modifies this`dead
      ensures Now() == QueueModel.DrainDead(old(Now())) && n == |old(dead)|
      ensures dead == []
    {
      n := |dead|;
      dead := [];
    }
  }
}
