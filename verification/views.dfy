/** One task's share of the world, and what a list of effects makes of it. */
module Views {
  import opened Lease
  import opened QueueModel
  import opened Payloads
  import opened Handlers

  datatype View = View(row: Row, records: seq<int>, posts: nat, q: State)

  function ViewOf(w: World, t: Task): View
    requires t in w.rows
  {
    View(w.rows[t], RecordsOf(w, t), w.posts[t], w.q)
  }

  function See(site: Site, t: Task, member: Raw, v: View, e: Effect): View {
    match e
    case Drop => v.(q := Ack(v.q, member))
    case Bury => v.(q := DeadLetter(v.q, member))
    case Defer(p, at) => v.(q := Schedule(v.q, site.codec.enc(p), at))
    case Mark(_) | Start | RetryAt(_) | Hold(_) => v.(row := Written(t, v.row, e))
    case Record(n) => if n in v.records then v else v.(records := v.records + [n])
    case Post => v.(posts := v.posts + 1)
    case _ => v
  }

  function SeeAll(site: Site, t: Task, member: Raw, v: View, es: seq<Effect>): View
    decreases |es|
  {
    if es == [] then v else SeeAll(site, t, member, See(site, t, member, v, es[0]), es[1..])
  }

  lemma PerformSeen(site: Site, w: World, t: Task, member: Raw, e: Effect)
    requires t in w.rows
    ensures var w' := Perform(site, w, t, member, e);
            t in w'.rows && ViewOf(w', t) == See(site, t, member, ViewOf(w, t), e)
  {
  }

  lemma {:induction false} AllSeen(site: Site, w: World, t: Task, member: Raw, es: seq<Effect>)
    requires t in w.rows
    ensures var w' := PerformAll(site, w, t, member, es);
            t in w'.rows && ViewOf(w', t) == SeeAll(site, t, member, ViewOf(w, t), es)
    decreases |es|
  {
    if es != [] {
      PerformFront(site, w, t, member, es);
      PerformSeen(site, w, t, member, es[0]);
      AllSeen(site, Perform(site, w, t, member, es[0]), t, member, es[1..]);
    }
  }

  lemma SeeCons(site: Site, t: Task, member: Raw, v: View, e: Effect, es: seq<Effect>)
    ensures SeeAll(site, t, member, v, [e] + es) == SeeAll(site, t, member, See(site, t, member, v, e), es)
  {
    assert ([e] + es)[1..] == es;
  }

  lemma {:induction false} SeeJoin(site: Site, t: Task, member: Raw, v: View, a: seq<Effect>, b: seq<Effect>)
    ensures SeeAll(site, t, member, v, a + b) == SeeAll(site, t, member, SeeAll(site, t, member, v, a), b)
    decreases |a|
  {
    if a == [] {
      assert a + b == b;
    } else {
      assert (a + b)[1..] == a[1..] + b;
      SeeJoin(site, t, member, See(site, t, member, v, a[0]), a[1..], b);
    }
  }

  lemma SeeTwo(site: Site, t: Task, member: Raw, v: View, e1: Effect, e2: Effect)
    ensures SeeAll(site, t, member, v, [e1, e2]) == See(site, t, member, See(site, t, member, v, e1), e2)
  {
    assert [e1, e2] == [e1] + ([e2] + []);
    SeeCons(site, t, member, v, e1, [e2] + []);
    SeeCons(site, t, member, See(site, t, member, v, e1), e2, []);
  }

  lemma SlotUnseen(site: Site, t: Task, member: Raw, v: View, slot: Slot, es: seq<Effect>)
    ensures SeeAll(site, t, member, v, [Take(slot)] + es + [Give(slot)]) == SeeAll(site, t, member, v, es)
    ensures SeeAll(site, t, member, v, [Take(slot), Give(slot)] + es) == SeeAll(site, t, member, v, es)
  {
    SeeJoin(site, t, member, v, [Take(slot)] + es, [Give(slot)]);
    SeeCons(site, t, member, v, Take(slot), es);
    SeeCons(site, t, member, SeeAll(site, t, member, v, es), Give(slot), []);
    assert [Give(slot)] + [] == [Give(slot)];
    SeeTwo(site, t, member, v, Take(slot), Give(slot));
    SeeJoin(site, t, member, v, [Take(slot), Give(slot)], es);
  }

  lemma SeeThree(site: Site, t: Task, member: Raw, v: View, e1: Effect, e2: Effect, e3: Effect)
    ensures SeeAll(site, t, member, v, [e1, e2, e3])
         == See(site, t, member, See(site, t, member, See(site, t, member, v, e1), e2), e3)
  {
    assert [e1, e2, e3] == [e1] + [e2, e3];
    SeeCons(site, t, member, v, e1, [e2, e3]);
    SeeTwo(site, t, member, See(site, t, member, v, e1), e2, e3);
  }
}
