/** Who belongs to which org: the member handlers, ownership transfer, invites and
    the login bootstrap, each one step. */
module Membership {
  import opened QueueModel

  type User = nat
  type Email = nat

  datatype Role = Member | Admin | Owner

  datatype Seat = Seat(org: Org, user: User)

  /** The schema lets an invite carry any role but owner. */
  datatype Invite = Invite(org: Org, email: Email, admin: bool, expires: int, accepted: bool) {
    function Role(): Role { if admin then Admin else Member }
  }

  datatype Directory = Directory(
    orgs: set<Org>,
    seats: map<Seat, Role>,
    users: map<Email, User>,
    invites: map<nat, Invite>)

  datatype Reply = Done | BadRequest | Forbidden | NotFound | Conflict

  predicate Rank(r: Role, min: Role) {
    match min
    case Member => true
    case Admin => !r.Member?
    case Owner => r.Owner?
  }

  function Owners(d: Directory, o: Org): set<User> {
    set s | s in d.seats && s.org == o && d.seats[s].Owner? :: s.user
  }

  function Put(d: Directory, s: Seat, r: Role): Directory { d.(seats := d.seats[s := r]) }

  // ---- the statements --------------------------------------------------------------

  /** INSERT INTO org_members: a seat already taken is a unique violation, which every
      caller here turns into keeping the seat as it is. */
  function AddOrgMember(d: Directory, s: Seat, r: Role): Directory {
    if s in d.seats then d else Put(d, s, r)
  }

  function DemoteOrgOwnerIfNotLast(d: Directory, s: Seat, r: Role): (Directory, bool) {
    if s in d.seats && d.seats[s].Owner? && |Owners(d, s.org)| > 1 then (Put(d, s, r), true) else (d, false)
  }

  function DeleteOrgOwnerIfNotLast(d: Directory, s: Seat): (Directory, bool) {
    if s in d.seats && d.seats[s].Owner? && |Owners(d, s.org)| > 1
    then (d.(seats := d.seats - {s}), true) else (d, false)
  }

  function TransferOrgOwnership(d: Directory, o: Org, caller: User, to: User): (Directory, bool) {
    if Seat(o, caller) in d.seats && d.seats[Seat(o, caller)].Owner? && Seat(o, to) in d.seats
    then (Put(Put(d, Seat(o, caller), Admin), Seat(o, to), Owner), true) else (d, false)
  }

  // ---- the handlers ----------------------------------------------------------------

  function PatchMember(d: Directory, o: Org, caller: User, target: User, role: Role): (Directory, Reply) {
    var (c, t) := (Seat(o, caller), Seat(o, target));
    if c !in d.seats || !Rank(d.seats[c], Admin) then (d, Forbidden)
    else if t !in d.seats then (d, NotFound)
    else if role.Owner? && !d.seats[t].Owner? then (d, BadRequest)
    else if d.seats[t].Owner? && !role.Owner? then
      if !d.seats[c].Owner? then (d, Forbidden) else
        var (d', done) := DemoteOrgOwnerIfNotLast(d, t, role);
        (d', if done then Done else Conflict)
    else if d.seats[t] == role then (d, Done)
    else (Put(d, t, role), Done)
  }

  function RemoveMember(d: Directory, o: Org, caller: User, target: User): (Directory, Reply) {
    var (c, t) := (Seat(o, caller), Seat(o, target));
    if c !in d.seats || (caller != target && !Rank(d.seats[c], Admin)) then (d, Forbidden)
    else if t !in d.seats then (d, NotFound)
    else if d.seats[t].Owner? then
      if caller != target && !d.seats[c].Owner? then (d, Forbidden) else
        var (d', done) := DeleteOrgOwnerIfNotLast(d, t);
        (d', if done then Done else Conflict)
    else (d.(seats := d.seats - {t}), Done)
  }

  function TransferOwnership(d: Directory, o: Org, caller: User, to: User): (Directory, Reply) {
    if to == caller then (d, BadRequest) else
      var (d', done) := TransferOrgOwnership(d, o, caller, to);
      (d', if done then Done else Forbidden)
  }

  /** CreateOrganization and its owner in one transaction; the id is new. */
  function CreateOrg(d: Directory, caller: User, o: Org): Directory {
    Put(d.(orgs := d.orgs + {o}), Seat(o, caller), Owner)
  }

  function DeleteOrg(d: Directory, o: Org, caller: User): (Directory, Reply) {
    if Seat(o, caller) !in d.seats || !d.seats[Seat(o, caller)].Owner? then (d, Forbidden)
    else (d.(orgs := d.orgs - {o},
             seats := map s | s in d.seats && s.org != o :: d.seats[s],
             invites := map i | i in d.invites && d.invites[i].org != o :: d.invites[i]), Done)
  }

  /** Applying an invite: a seat unless there is one already, and the invite is spent. */
  function Accept(d: Directory, id: nat, user: User): Directory
    requires id in d.invites
  {
    var inv := d.invites[id];
    AddOrgMember(d, Seat(inv.org, user), inv.Role()).(invites := d.invites[id := inv.(accepted := true)])
  }

  // ---- login -------------------------------------------------------------------------

  function Pending(d: Directory, email: Email, now: int): set<nat> {
    set id | id in d.invites && d.invites[id].email == email && !d.invites[id].accepted && d.invites[id].expires > now
  }

  predicate Belongs(d: Directory, u: User) { exists s :: s in d.seats && s.user == u }

  /** The invites in `ids` applied for u: every org invited to has a seat, no seat that
      was there has changed, new seats carry an invited role, the invites are spent. */
  ghost predicate Joined(d: Directory, d': Directory, u: User, ids: set<nat>) {
    && d'.orgs == d.orgs && d'.users == d.users
    && (forall s :: s in d.seats ==> s in d'.seats && d'.seats[s] == d.seats[s])
    && (forall s :: s in d'.seats && s !in d.seats ==>
          s.user == u && exists id :: id in ids && id in d.invites && d.invites[id].org == s.org && d.invites[id].Role() == d'.seats[s])
    && d'.invites.Keys == d.invites.Keys
    && (forall id :: id in ids && id in d.invites ==> Seat(d.invites[id].org, u) in d'.seats)
    && (forall id :: id in d.invites ==> d'.invites[id] == if id in ids then d.invites[id].(accepted := true) else d.invites[id])
  }

  lemma JoinOne(d: Directory, d': Directory, u: User, ids: set<nat>, id: nat)
    requires Joined(d, d', u, ids) && id in d.invites && id !in ids
    ensures Joined(d, Accept(d', id, u), u, ids + {id})
  {
    var d2 := Accept(d', id, u);
    forall s | s in d2.seats && s !in d.seats
      ensures s.user == u && exists i :: i in ids + {id} && i in d.invites && d.invites[i].org == s.org && d.invites[i].Role() == d2.seats[s]
    {
      if s in d'.seats {
        var i :| i in ids && i in d.invites && d.invites[i].org == s.org && d.invites[i].Role() == d'.seats[s];
        assert i in ids + {id};
      } else {
        assert id in ids + {id} && d.invites[id].Role() == d2.seats[s];
      }
    }
  }

  /** What a deployment says about users without an org. */
  datatype Fallback = Personal | Unknown | Into(org: Org, role: Role)

  /** What a successful login leaves. */
  ghost predicate LoggedIn(d: Directory, d': Directory, email: Email, now: int, u: User, fallback: Fallback, newOrg: Org) {
    exists mid: Directory ::
      && Joined(d.(users := d.users[email := u]), mid, u, Pending(d, email, now))
      && (email in d.users ==> u == d.users[email])
      && (Belongs(mid, u) || !fallback.Unknown?)
      && d' == if Belongs(mid, u) then mid
               else if fallback.Into? then AddOrgMember(mid, Seat(fallback.org, u), fallback.role)
               else CreateOrg(mid, u, newOrg)
  }

  lemma BelongsAfter(d: Directory, d': Directory, u: User, ids: set<nat>)
    requires Joined(d, d', u, ids) && ids <= d.invites.Keys
    ensures Belongs(d', u) <==> ids != {} || Belongs(d, u)
  {
    if id :| id in ids { assert Seat(d.invites[id].org, u) in d'.seats; }
    if s :| s in d.seats && s.user == u { assert s in d'.seats; }
    if Belongs(d', u) && ids == {} {
      var s :| s in d'.seats && s.user == u;
      assert s in d.seats;
    }
  }

  class Login {
    var orgs: set<Org>
    var seats: map<Seat, Role>
    var users: map<Email, User>
    var invites: map<nat, Invite>

    function Now(): Directory
      reads this
    {
      Directory(orgs, seats, users, invites)
    }

    constructor (d: Directory)
      ensures Now() == d
    {
      orgs, seats, users, invites := d.orgs, d.seats, d.users, d.invites;
    }

    method Add(s: Seat, r: Role)
      modifies this`seats
      ensures Now() == AddOrgMember(old(Now()), s, r)
    {
      if s !in seats { seats := seats[s := r]; }
    }

    method AcceptOne(id: nat, u: User)
      requires id in invites
      modifies this`seats, this`invites
      ensures Now() == Accept(old(Now()), id, u)
    {
      var inv := invites[id];
      Add(Seat(inv.org, u), inv.Role());
      invites := invites[id := inv.(accepted := true)];
    }

    method ApplyInvites(u: User, pending: set<nat>)
      requires pending <= invites.Keys
      modifies this`seats, this`invites
      ensures Joined(old(Now()), Now(), u, pending)
    {
      ghost var before := Now();
      var left := pending;
      ghost var done: set<nat> := {};
      while left != {}
        invariant left !! done && left + done == pending
        invariant Joined(before, Now(), u, done)
        decreases left
      {
        var id :| id in left;
        JoinOne(before, Now(), u, done, id);
        AcceptOne(id, u);
        left := left - {id};
        done := done + {id};
      }
      assert done == pending;
    }

    /** None is the misconfigured default org: the transaction rolls back. `newUser` is
        the id a first login gets, `newOrg` the id a new workspace gets. */
    method BootstrapSession(email: Email, now: int, fallback: Fallback, newUser: User, newOrg: Org) returns (r: Option<User>)
      requires email !in users ==> !Belongs(Now(), newUser)
      modifies this
      ensures r.None? <==> fallback.Unknown? && Pending(old(Now()), email, now) == {}
                           && (email in old(users) ==> !Belongs(old(Now()), old(users)[email]))
      ensures r.None? ==> Now() == old(Now())
      ensures r.Some? ==> LoggedIn(old(Now()), Now(), email, now, r.value, fallback, newOrg)
    {
      ghost var before := Now();
      var savedSeats, savedUsers, savedInvites := seats, users, invites;
      var u := if email in users then users[email] else newUser;
      users := users[email := u];
      ghost var start := Now();
      var pending := Pending(Now(), email, now);
      assert pending == Pending(before, email, now);
      ApplyInvites(u, pending);
      ghost var mid := Now();
      assert Joined(start, mid, u, pending);
      assert Belongs(mid, u) <==> pending != {} || Belongs(before, u) by { BelongsAfter(start, mid, u, pending); }
      if exists s :: s in seats && s.user == u {
        assert Belongs(mid, u);
        return Some(u);
      }
      match fallback {
        case Unknown =>
          seats, users, invites := savedSeats, savedUsers, savedInvites;
          return None;
        case Into(org, role) =>
          Add(Seat(org, u), role);
        case Personal =>
          orgs := orgs + {newOrg};
          seats := seats[Seat(newOrg, u) := Owner];
      }
      return Some(u);
    }
  }

  lemma JoinSettles(d: Directory, mid: Directory, email: Email, now: int, u: User)
    requires Joined(d.(users := d.users[email := u]), mid, u, Pending(d, email, now))
    ensures Pending(mid, email, now) == {} && mid.orgs == d.orgs
    ensures forall id :: id in Pending(d, email, now) ==> Seat(d.invites[id].org, u) in mid.seats
    ensures forall s :: s in d.seats ==> s in mid.seats && mid.seats[s] == d.seats[s]
    ensures forall s :: s in mid.seats && s !in d.seats ==> s.user == u
  {
    forall id | id in mid.invites ensures id !in Pending(mid, email, now) {
      assert id in d.invites;
    }
  }

  /** Login, from any state: the user ends up in some org, no invite of theirs is left
      pending, no seat anyone already held has changed, and nobody else gains one. */
  lemma LoginSettles(d: Directory, d': Directory, email: Email, now: int, u: User, fallback: Fallback, newOrg: Org)
    requires LoggedIn(d, d', email, now, u, fallback, newOrg) && newOrg !in d.orgs
    requires forall s :: s in d.seats ==> s.org in d.orgs
    ensures Belongs(d', u)
    ensures Pending(d', email, now) == {}
    ensures forall id :: id in d.invites && d.invites[id].email == email && !d.invites[id].accepted && d.invites[id].expires > now
              ==> Seat(d.invites[id].org, u) in d'.seats
    ensures forall s :: s in d.seats ==> s in d'.seats && d'.seats[s] == d.seats[s]
    ensures forall s :: s in d'.seats && s !in d.seats ==> s.user == u
  {
    var mid: Directory :|
      && Joined(d.(users := d.users[email := u]), mid, u, Pending(d, email, now))
      && d' == if Belongs(mid, u) then mid
               else if fallback.Into? then AddOrgMember(mid, Seat(fallback.org, u), fallback.role)
               else CreateOrg(mid, u, newOrg);
    JoinSettles(d, mid, email, now, u);
    if !Belongs(mid, u) {
      SeatGiven(d', if fallback.Into? then Seat(fallback.org, u) else Seat(newOrg, u));
    }
    assert Seat(newOrg, u) !in d.seats;
    assert Pending(d', email, now) == Pending(mid, email, now);
  }

  lemma SeatGiven(d': Directory, s: Seat)
    requires s in d'.seats
    ensures Belongs(d', s.user)
  {
  }

  /** Which role a login gives: every new seat of a user with invites is one an invite
      names, admin exactly if it says so; a user with neither org nor invite gets the one
      seat the deployment names, or owns a new workspace. */
  lemma LoginRoles(d: Directory, d': Directory, email: Email, now: int, u: User, fallback: Fallback, newOrg: Org, s: Seat)
    requires LoggedIn(d, d', email, now, u, fallback, newOrg)
    requires s in d'.seats && s !in d.seats
    ensures Pending(d, email, now) != {} ==>
              exists id :: id in d.invites
                && d.invites[id].email == email && !d.invites[id].accepted && d.invites[id].expires > now
                && d.invites[id].org == s.org
                && (if d.invites[id].admin then d'.seats[s] == Admin else d'.seats[s] == Member)
    ensures Pending(d, email, now) == {} ==>
              !Belongs(d, u) && if fallback.Into? then s.org == fallback.org && d'.seats[s] == fallback.role
                                else s.org == newOrg && d'.seats[s] == Owner
  {
    var (start, ids) := (d.(users := d.users[email := u]), Pending(d, email, now));
    var mid: Directory :|
      && Joined(start, mid, u, ids)
      && (Belongs(mid, u) || !fallback.Unknown?)
      && d' == if Belongs(mid, u) then mid
               else if fallback.Into? then AddOrgMember(mid, Seat(fallback.org, u), fallback.role)
               else CreateOrg(mid, u, newOrg);
    BelongsAfter(start, mid, u, ids);
    assert Belongs(start, u) <==> Belongs(d, u);
  }

  // ---- what the member handlers answer and do --------------------------------------------

  /** A role is changed exactly when the caller is an admin or an owner, the target is a
      member, nobody is made an owner this way, and an owner is demoted only by an owner
      and never as the last; then that seat has the new role. */
  lemma Patched(d: Directory, o: Org, caller: User, target: User, role: Role)
    ensures var (c, t) := (Seat(o, caller), Seat(o, target));
            var (d', reply) := PatchMember(d, o, caller, target, role);
            && (reply.Done? <==>
                  && c in d.seats && d.seats[c] != Member && t in d.seats
                  && (if d.seats[t] != Owner then role != Owner
                      else role == Owner || (d.seats[c] == Owner && |Owners(d, o)| > 1)))
            && d' == if reply.Done? then d.(seats := d.seats[t := role]) else d
  {
    var (c, t) := (Seat(o, caller), Seat(o, target));
    if t in d.seats && d.seats[t] == role { assert d.seats[t := role] == d.seats; }
  }

  /** A member is removed exactly when they leave themselves or an admin or an owner
      removes them, an owner only by an owner and never as the last; then that seat is
      gone. */
  lemma Removed(d: Directory, o: Org, caller: User, target: User)
    ensures var (c, t) := (Seat(o, caller), Seat(o, target));
            var (d', reply) := RemoveMember(d, o, caller, target);
            && (reply.Done? <==>
                  && c in d.seats && t in d.seats
                  && (caller == target || d.seats[c] == Owner || (d.seats[c] == Admin && d.seats[t] != Owner))
                  && (d.seats[t] == Owner ==> |Owners(d, o)| > 1))
            && d' == if reply.Done? then d.(seats := d.seats - {t}) else d
  {
  }

  /** Ownership passes exactly from an owner to another member, and leaves the old owner
      an admin. */
  lemma Transferred(d: Directory, o: Org, caller: User, to: User)
    ensures var (c, t) := (Seat(o, caller), Seat(o, to));
            var (d', reply) := TransferOwnership(d, o, caller, to);
            && (reply.Done? <==> caller != to && c in d.seats && d.seats[c] == Owner && t in d.seats)
            && (reply.Done? ==>
                  && d' == d.(seats := d'.seats) && d'.seats.Keys == d.seats.Keys
                  && d'.seats[t] == Owner && d'.seats[c] == Admin
                  && forall s :: s in d.seats && s != c && s != t ==> d'.seats[s] == d.seats[s])
            && (!reply.Done? ==> d' == d)
  {
  }

  // ---- owners over whole runs ----------------------------------------------------------

  /** The operator's `org create` is two statements without a transaction: the org, and
      then its owner's seat, by the same statement as any seat the operator adds. */
  datatype Act =
    | Patch(org: Org, caller: User, target: User, role: Role)
    | Remove(org: Org, caller: User, target: User)
    | Transfer(org: Org, caller: User, to: User)
    | Create(caller: User, newOrg: Org)
    | Delete(org: Org, caller: User)
    | AcceptInvite(id: nat, user: User)
    | SendInvite(id: nat, invite: Invite)
    | CreateByOperator(org: Org)
    | AddByOperator(s: Seat, role: Role)
    | LogIn(email: Email, now: int, u: User, fallback: Fallback, newOrg: Org, after: Directory)

  ghost predicate Possible(d: Directory, a: Act) {
    match a
    case Create(_, o) => o !in d.orgs
    case CreateByOperator(o) => o !in d.orgs
    case AcceptInvite(id, _) => id in d.invites
    case SendInvite(id, inv) => id !in d.invites && inv.org in d.orgs
    case AddByOperator(s, _) => s.org in d.orgs
    case LogIn(email, now, u, fallback, o, after) =>
      o !in d.orgs && (fallback.Into? ==> fallback.org in d.orgs) && LoggedIn(d, after, email, now, u, fallback, o)
    case _ => true
  }

  function Acted(d: Directory, a: Act): Directory
    requires a.AcceptInvite? ==> a.id in d.invites
  {
    match a
    case Patch(o, caller, target, role) => PatchMember(d, o, caller, target, role).0
    case Remove(o, caller, target) => RemoveMember(d, o, caller, target).0
    case Transfer(o, caller, to) => TransferOwnership(d, o, caller, to).0
    case Create(caller, o) => CreateOrg(d, caller, o)
    case Delete(o, caller) => DeleteOrg(d, o, caller).0
    case AcceptInvite(id, user) => Accept(d, id, user)
    case SendInvite(id, inv) => d.(invites := d.invites[id := inv])
    case CreateByOperator(o) => d.(orgs := d.orgs + {o})
    case AddByOperator(s, role) => AddOrgMember(d, s, role)
    case LogIn(_, _, _, _, _, after) => after
  }

  predicate HasOwner(d: Directory, o: Org) {
    exists s :: s in d.seats && s.org == o && d.seats[s].Owner?
  }

  /** The foreign keys. */
  ghost predicate Linked(d: Directory) {
    && (forall s :: s in d.seats ==> s.org in d.orgs)
    && (forall id :: id in d.invites ==> d.invites[id].org in d.orgs)
  }

  /** More than one owner means another one. */
  lemma AnotherOwner(d: Directory, t: Seat) returns (s: Seat)
    requires t in d.seats && d.seats[t].Owner? && |Owners(d, t.org)| > 1
    ensures s in d.seats && s.org == t.org && d.seats[s].Owner? && s != t
  {
    var others := Owners(d, t.org) - {t.user};
    assert others != {} by { assert Owners(d, t.org) == others + {t.user}; }
    var u :| u in others;
    s := Seat(t.org, u);
  }

  /** An org whose owners keep their seats and roles keeps an owner. */
  lemma KeepsOwner(d: Directory, d': Directory, o: Org)
    requires HasOwner(d, o)
    requires forall s :: s in d.seats && s.org == o && d.seats[s].Owner? ==> s in d'.seats && d'.seats[s].Owner?
    ensures HasOwner(d', o)
  {
    var s :| s in d.seats && s.org == o && d.seats[s].Owner?;
    assert s in d'.seats;
  }

  lemma SeatLost(d: Directory, d': Directory, t: Seat, o: Org)
    requires t in d.seats && HasOwner(d, o)
    requires forall s :: s != t ==> (s in d'.seats <==> s in d.seats) && (s in d.seats ==> d'.seats[s] == d.seats[s])
    requires d.seats[t].Owner? ==> |Owners(d, t.org)| > 1
    ensures HasOwner(d', o)
  {
    if o == t.org && d.seats[t].Owner? {
      var s := AnotherOwner(d, t);
      assert s in d'.seats;
    } else {
      KeepsOwner(d, d', o);
    }
  }

  lemma TransferKeeps(d: Directory, o: Org, caller: User, to: User, x: Org)
    requires HasOwner(d, x)
    ensures HasOwner(TransferOwnership(d, o, caller, to).0, x)
  {
    var d' := TransferOwnership(d, o, caller, to).0;
    if x != o || d' == d { KeepsOwner(d, d', x); } else { assert Seat(o, to) in d'.seats; }
  }

  lemma LoginKeeps(d: Directory, a: Act)
    requires Linked(d) && Possible(d, a) && a.LogIn?
    ensures Linked(a.after)
    ensures forall o :: o in d.orgs && HasOwner(d, o) ==> HasOwner(a.after, o)
    ensures forall o :: o in a.after.orgs && o !in d.orgs ==> HasOwner(a.after, o)
  {
    var u := a.u;
    LoginSettles(d, a.after, a.email, a.now, u, a.fallback, a.newOrg);
    var mid: Directory :|
      && Joined(d.(users := d.users[a.email := u]), mid, u, Pending(d, a.email, a.now))
      && a.after == if Belongs(mid, u) then mid
               else if a.fallback.Into? then AddOrgMember(mid, Seat(a.fallback.org, u), a.fallback.role)
               else CreateOrg(mid, u, a.newOrg);
    JoinLinked(d.(users := d.users[a.email := u]), mid, u, Pending(d, a.email, a.now));
    forall o | o in d.orgs && HasOwner(d, o) ensures HasOwner(a.after, o) { KeepsOwner(d, a.after, o); }
    forall o | o in a.after.orgs && o !in d.orgs ensures HasOwner(a.after, o) {
      assert Seat(a.newOrg, u) in a.after.seats;
    }
  }

  lemma JoinLinked(d: Directory, mid: Directory, u: User, ids: set<nat>)
    requires Linked(d) && Joined(d, mid, u, ids)
    ensures Linked(mid)
  {
  }

  lemma LinkedKept(d: Directory, a: Act)
    requires Linked(d) && Possible(d, a)
    ensures Linked(Acted(d, a))
  {
    if a.LogIn? { LoginKeeps(d, a); }
  }

  /** No act takes an org's last owner, short of deleting the org. */
  lemma OwnerKept(d: Directory, a: Act, o: Org)
    requires Linked(d) && Possible(d, a) && HasOwner(d, o) && o in d.orgs && o in Acted(d, a).orgs
    ensures HasOwner(Acted(d, a), o)
  {
    var d' := Acted(d, a);
    match a {
      case Patch(org, _, target, _) => if d' != d { SeatLost(d, d', Seat(org, target), o); }
      case Remove(org, _, target) => if d' != d { SeatLost(d, d', Seat(org, target), o); }
      case Transfer(org, caller, to) => TransferKeeps(d, org, caller, to, o);
      case LogIn(_, _, _, _, _, _) => LoginKeeps(d, a);
      case _ => KeepsOwner(d, d', o);
    }
  }

  /** An org is born with its owner, but for the operator's. */
  lemma BornOwned(d: Directory, a: Act, o: Org)
    requires Linked(d) && Possible(d, a) && o !in d.orgs && o in Acted(d, a).orgs && !a.CreateByOperator?
    ensures HasOwner(Acted(d, a), o)
  {
    match a {
      case Create(caller, _) => assert Seat(o, caller) in Acted(d, a).seats;
      case LogIn(_, _, _, _, _, _) => LoginKeeps(d, a);
      case _ =>
    }
  }

  ghost predicate AllPossible(d: Directory, acts: seq<Act>)
    decreases |acts|
  {
    acts == [] || (Possible(d, acts[0]) && AllPossible(Acted(d, acts[0]), acts[1..]))
  }

  ghost function ActedAll(d: Directory, acts: seq<Act>): Directory
    requires AllPossible(d, acts)
    decreases |acts|
  {
    if acts == [] then d else ActedAll(Acted(d, acts[0]), acts[1..])
  }

  /** The acts that give an org without an owner its first one: the operator's owner
      seat, where there is none yet, and the login of a user with neither org nor
      invite into a default org that takes users as owners. */
  predicate Gives(d: Directory, a: Act, o: Org) {
    match a
    case AddByOperator(s, role) => s.org == o && role.Owner? && s !in d.seats
    case LogIn(email, now, u, fallback, _, _) =>
      fallback == Into(o, Owner) && Pending(d, email, now) == {} && !Belongs(d, u)
    case _ => false
  }

  lemma JoinGivesNone(d: Directory, mid: Directory, u: User, ids: set<nat>, o: Org)
    requires Joined(d, mid, u, ids) && !HasOwner(d, o)
    ensures !HasOwner(mid, o)
  {
  }

  lemma FallbackGives(mid: Directory, s: Seat, r: Role, o: Org)
    requires !HasOwner(mid, o) && s !in mid.seats
    ensures HasOwner(Put(mid, s, r), o) <==> s.org == o && r.Owner?
  {
    if s.org == o && r.Owner? { assert s in Put(mid, s, r).seats; }
  }

  lemma LoginGives(d: Directory, a: Act, o: Org)
    requires Linked(d) && Possible(d, a) && a.LogIn? && o in d.orgs && !HasOwner(d, o)
    ensures o in a.after.orgs
    ensures HasOwner(a.after, o) <==> Gives(d, a, o)
  {
    var (u, start) := (a.u, d.(users := d.users[a.email := a.u]));
    var mid: Directory :|
      && Joined(start, mid, u, Pending(d, a.email, a.now))
      && (Belongs(mid, u) || !a.fallback.Unknown?)
      && a.after == if Belongs(mid, u) then mid
               else if a.fallback.Into? then AddOrgMember(mid, Seat(a.fallback.org, u), a.fallback.role)
               else CreateOrg(mid, u, a.newOrg);
    BelongsAfter(start, mid, u, Pending(d, a.email, a.now));
    assert Belongs(start, u) <==> Belongs(d, u);
    JoinGivesNone(start, mid, u, Pending(d, a.email, a.now), o);
    if !Belongs(mid, u) {
      if a.fallback.Into? {
        FallbackGives(mid, Seat(a.fallback.org, u), a.fallback.role, o);
      } else {
        FallbackGives(mid.(orgs := mid.orgs + {a.newOrg}), Seat(a.newOrg, u), Owner, o);
      }
    }
  }

  /** Exactly those acts, and no act removes such an org. */
  lemma GivesOwner(d: Directory, a: Act, o: Org)
    requires Linked(d) && Possible(d, a) && o in d.orgs && !HasOwner(d, o)
    ensures o in Acted(d, a).orgs
    ensures HasOwner(Acted(d, a), o) <==> Gives(d, a, o)
  {
    match a {
      case LogIn(_, _, _, _, _, _) => LoginGives(d, a, o);
      case AddByOperator(s, _) => if Gives(d, a, o) { assert s in Acted(d, a).seats; }
      case _ =>
    }
  }

  /** The orgs waiting for their first owner: joined by the operator's first statement,
      left by an act that gives. */
  function Waits(d: Directory, a: Act, waiting: set<Org>): set<Org> {
    if a.CreateByOperator? then waiting + {a.org} else set o | o in waiting && !Gives(d, a, o)
  }

  ghost function WaitingAfter(d: Directory, acts: seq<Act>, waiting: set<Org>): set<Org>
    requires AllPossible(d, acts)
    decreases |acts|
  {
    if acts == [] then waiting else WaitingAfter(Acted(d, acts[0]), acts[1..], Waits(d, acts[0], waiting))
  }

  /** Exactly these orgs have no owner. */
  ghost predicate OwnedBut(d: Directory, waiting: set<Org>) {
    Linked(d) && waiting <= d.orgs && forall o :: o in d.orgs ==> (HasOwner(d, o) <==> o !in waiting)
  }

  lemma OwnedButStep(d: Directory, a: Act, waiting: set<Org>)
    requires OwnedBut(d, waiting) && Possible(d, a)
    ensures OwnedBut(Acted(d, a), Waits(d, a, waiting))
  {
    var d' := Acted(d, a);
    LinkedKept(d, a);
    forall o | o in waiting ensures o in d'.orgs && (HasOwner(d', o) <==> Gives(d, a, o)) { GivesOwner(d, a, o); }
    forall o | o in d'.orgs ensures HasOwner(d', o) <==> o !in Waits(d, a, waiting) {
      if o in d.orgs && HasOwner(d, o) {
        OwnerKept(d, a, o);
      } else if o !in d.orgs && !a.CreateByOperator? {
        BornOwned(d, a, o);
      }
    }
  }

  lemma {:induction false} OwnedRun(d: Directory, acts: seq<Act>, waiting: set<Org>)
    requires OwnedBut(d, waiting) && AllPossible(d, acts)
    ensures OwnedBut(ActedAll(d, acts), WaitingAfter(d, acts, waiting))
    decreases |acts|
  {
    if acts != [] {
      OwnedButStep(d, acts[0], waiting);
      OwnedRun(Acted(d, acts[0]), acts[1..], Waits(d, acts[0], waiting));
    }
  }

  /** Whatever members, admins, owners, invitees, logins and operators do, in any order,
      an org is without an owner exactly while it waits: from the operator's first
      statement to the first act that gives it one. */
  lemma EveryOrgOwned(acts: seq<Act>, o: Org)
    requires AllPossible(NOBODY, acts) && o in ActedAll(NOBODY, acts).orgs
    ensures HasOwner(ActedAll(NOBODY, acts), o) <==> o !in WaitingAfter(NOBODY, acts, {})
    ensures (forall i :: 0 <= i < |acts| ==> acts[i] != CreateByOperator(o)) ==> HasOwner(ActedAll(NOBODY, acts), o)
  {
    OwnedRun(NOBODY, acts, {});
    if forall i :: 0 <= i < |acts| ==> acts[i] != CreateByOperator(o) {
      NeverWaits(NOBODY, acts, {}, o);
    }
  }

  lemma {:induction false} NeverWaits(d: Directory, acts: seq<Act>, waiting: set<Org>, o: Org)
    requires AllPossible(d, acts) && o !in waiting
    requires forall i :: 0 <= i < |acts| ==> acts[i] != CreateByOperator(o)
    ensures o !in WaitingAfter(d, acts, waiting)
    decreases |acts|
  {
    if acts != [] {
      assert forall i :: 0 <= i < |acts| - 1 ==> acts[1..][i] == acts[i + 1];
      NeverWaits(Acted(d, acts[0]), acts[1..], Waits(d, acts[0], waiting), o);
    }
  }

  const NOBODY := Directory({}, map[], map[], map[])

  /** The operator's first statement alone: an org nobody owns. */
  lemma BareOrg(o: Org)
    ensures Possible(NOBODY, CreateByOperator(o))
    ensures var d := Acted(NOBODY, CreateByOperator(o)); o in d.orgs && !HasOwner(d, o)
    ensures forall u :: HasOwner(Acted(Acted(NOBODY, CreateByOperator(o)), AddByOperator(Seat(o, u), Owner)), o)
  {
    forall u ensures HasOwner(Acted(Acted(NOBODY, CreateByOperator(o)), AddByOperator(Seat(o, u), Owner)), o) {
      assert Seat(o, u) in Acted(Acted(NOBODY, CreateByOperator(o)), AddByOperator(Seat(o, u), Owner)).seats;
    }
  }

  /** Ownership is out of reach for anyone who does not own the org: no member or admin
      makes or unmakes an owner through the API. */
  lemma OnlyOwnersTouchOwners(d: Directory, a: Act)
    requires a.Patch? || a.Remove? || a.Transfer? || a.Delete?
    requires !(Seat(a.org, a.caller) in d.seats && d.seats[Seat(a.org, a.caller)].Owner?)
    ensures forall o :: Owners(Acted(d, a), o) == Owners(d, o)
  {
    var d' := Acted(d, a);
    forall o ensures Owners(d', o) == Owners(d, o) {
      forall u ensures u in Owners(d', o) <==> u in Owners(d, o) {
        assert u in Owners(d', o) <==> Seat(o, u) in d'.seats && d'.seats[Seat(o, u)].Owner?;
        assert u in Owners(d, o) <==> Seat(o, u) in d.seats && d.seats[Seat(o, u)].Owner?;
      }
    }
  }
}
