/** The per-thread password cache of g3proxy's user groups: for each group the users most
    recently used, with the passwords that were found good and until when. */
module PasswordCache {

  type Name = string
  type Time = nat

  const DEFAULT_CACHE_USER_COUNT: nat := 128

  /** A group's users, the most recently used first, and their passwords' expiry times. */
  datatype Group = Group(cap: nat, order: seq<Name>, passwords: map<Name, map<Name, Time>>)

  ghost predicate Distinct(order: seq<Name>) {
    order != [] ==> order[0] !in order[1..] && Distinct(order[1..])
  }

  ghost predicate Sound(g: Group) {
    && 0 < g.cap && |g.order| <= g.cap && Distinct(g.order)
    && (forall u :: u in g.order <==> u in g.passwords)
  }

  function Empty(cap: nat): Group {
    Group(cap, [], map[])
  }

  function Without(order: seq<Name>, u: Name): seq<Name> {
    if order == [] then []
    else if order[0] == u then order[1..]
    else [order[0]] + Without(order[1..], u)
  }

  /** The users used more recently than `u`. */
  function Ahead(order: seq<Name>, u: Name): set<Name> {
    if order == [] || order[0] == u then {} else {order[0]} + Ahead(order[1..], u)
  }

  function Promote(g: Group, u: Name): Group {
    g.(order := [u] + Without(g.order, u))
  }

  function Keep(g: Group, n: nat): Group
    requires n <= |g.order|
  {
    Group(g.cap, g.order[..n], map u | u in g.passwords && u in g.order[..n] :: g.passwords[u])
  }

  function Resize(g: Group, cap: nat): Group {
    if cap == g.cap then g
    else (if |g.order| <= cap then g else Keep(g, cap)).(cap := cap)
  }

  /** Room for one more. */
  function Room(g: Group): Group
    requires 0 < g.cap
  {
    if |g.order| < g.cap then g else Keep(g, |g.order| - 1)
  }

  /** The user in front, made if it was not there, at the cost of the last one if full. */
  function GetOrInsert(g: Group, u: Name): Group
    requires 0 < g.cap
  {
    if u in g.passwords then Promote(g, u)
    else
      var room := Room(g);
      room.(order := [u] + room.order, passwords := room.passwords[u := map[]])
  }

  lemma {:induction false} WithoutMembers(order: seq<Name>, u: Name)
    requires Distinct(order)
    ensures Distinct(Without(order, u))
    ensures forall x :: x in Without(order, u) <==> x in order && x != u
    ensures u in order ==> |Without(order, u)| == |order| - 1
    ensures u !in order ==> Without(order, u) == order
  {
    if order != [] {
      assert order == [order[0]] + order[1..];
      if order[0] != u {
        WithoutMembers(order[1..], u);
      }
    }
  }

  lemma {:induction false} AheadCount(order: seq<Name>, u: Name)
    requires Distinct(order)
    ensures u !in Ahead(order, u)
    ensures forall x :: x in Ahead(order, u) ==> x in order
    ensures |Ahead(order, u)| <= |order|
    ensures u in order ==> |Ahead(order, u)| < |order| && order[|Ahead(order, u)|] == u
  {
    if order != [] && order[0] != u {
      AheadCount(order[1..], u);
      assert order == [order[0]] + order[1..];
    }
  }

  lemma {:induction false} DistinctPrefix(order: seq<Name>, n: nat)
    requires Distinct(order) && n <= |order|
    ensures Distinct(order[..n])
  {
    if n > 0 {
      DistinctPrefix(order[1..], n - 1);
      assert order[..n][1..] == order[1..][..n - 1];
    }
  }

  lemma {:induction false} AheadPrefix(order: seq<Name>, u: Name, n: nat)
    requires Distinct(order) && u in order && n <= |order|
    ensures u in order[..n] <==> |Ahead(order, u)| < n
    ensures u in order[..n] ==> Ahead(order[..n], u) == Ahead(order, u)
  {
    if n > 0 {
      assert order[..n] == [order[0]] + order[1..][..n - 1];
      if order[0] != u {
        assert u in order[1..];
        AheadPrefix(order[1..], u, n - 1);
        AheadCount(order[1..], u);
        assert order[..n][1..] == order[1..][..n - 1];
      }
    }
  }

  lemma {:induction false} AheadWithout(order: seq<Name>, u: Name, w: Name)
    requires Distinct(order) && u in order && u != w
    ensures Ahead(Without(order, w), u) == Ahead(order, u) - {w}
  {
    if order[0] == w {
      AheadCount(order[1..], u);
    } else if order[0] != u {
      AheadWithout(order[1..], u, w);
      assert Without(order, w)[1..] == Without(order[1..], w);
    } else {
      assert Without(order, w)[0] == u;
    }
  }

  lemma KeepSound(g: Group, n: nat)
    requires Sound(g) && n <= |g.order|
    ensures Sound(Keep(g, n))
  {
    DistinctPrefix(g.order, n);
  }

  lemma KeepKeeps(g: Group, n: nat, u: Name)
    requires Sound(g) && n <= |g.order|
    ensures u in Keep(g, n).order <==> u in g.order && |Ahead(g.order, u)| < n
    ensures u in Keep(g, n).order ==>
      Ahead(Keep(g, n).order, u) == Ahead(g.order, u) && Keep(g, n).passwords[u] == g.passwords[u]
  {
    if u in g.order {
      AheadPrefix(g.order, u, n);
    }
  }

  lemma ResizeSound(g: Group, cap: nat)
    requires Sound(g) && 0 < cap
    ensures Sound(Resize(g, cap)) && Resize(g, cap).cap == cap
  {
    if cap < |g.order| {
      KeepSound(g, cap);
    }
  }

  lemma ResizeKeeps(g: Group, cap: nat, u: Name)
    requires Sound(g) && 0 < cap
    ensures var r := Resize(g, cap);
            && (u in r.order <==> u in g.order && |Ahead(g.order, u)| < cap)
            && (u in r.order ==> Ahead(r.order, u) == Ahead(g.order, u) && r.passwords[u] == g.passwords[u])
  {
    AheadCount(g.order, u);
    if cap < |g.order| {
      KeepKeeps(g, cap, u);
    }
  }

  lemma PromoteSound(g: Group, w: Name)
    requires Sound(g) && w in g.passwords
    ensures Sound(Promote(g, w))
  {
    WithoutMembers(g.order, w);
    assert ([w] + Without(g.order, w))[1..] == Without(g.order, w);
  }

  lemma AheadCons(w: Name, order: seq<Name>, u: Name)
    requires u != w
    ensures Ahead([w] + order, u) == {w} + Ahead(order, u)
  {
    assert ([w] + order)[1..] == order;
  }

  lemma PromoteKeeps(g: Group, w: Name, u: Name)
    requires Sound(g) && w in g.order && u != w
    ensures u in Promote(g, w).order <==> u in g.order
    ensures u in g.order ==> Ahead(Promote(g, w).order, u) == Ahead(g.order, u) + {w}
    ensures u in g.order ==> |Ahead(g.order, u) + {w}| < |g.order|
  {
    WithoutMembers(g.order, w);
    if u in g.order {
      AheadWithout(g.order, u, w);
      AheadCons(w, Without(g.order, w), u);
      PromoteSound(g, w);
      AheadCount(Promote(g, w).order, u);
    }
  }

  lemma RoomSound(g: Group)
    requires Sound(g)
    ensures Sound(Room(g)) && Room(g).cap == g.cap && |Room(g).order| < g.cap
    ensures forall x :: x in Room(g).order ==> x in g.order
  {
    if |g.order| == g.cap {
      KeepSound(g, |g.order| - 1);
    }
  }

  lemma RoomKeeps(g: Group, u: Name)
    requires Sound(g)
    ensures var r := Room(g);
            && (u in r.order <==> u in g.order && |Ahead(g.order, u)| + 1 < g.cap)
            && (u in r.order ==> Ahead(r.order, u) == Ahead(g.order, u))
            && (u in r.passwords && u in g.passwords ==> r.passwords[u] == g.passwords[u])
  {
    hide Ahead, Distinct;
    AheadCount(g.order, u);
    if |g.order| == g.cap {
      KeepKeeps(g, |g.order| - 1, u);
    }
  }

  lemma InsertSound(g: Group, w: Name)
    requires Sound(g)
    ensures var a := GetOrInsert(g, w);
            Sound(a) && a.cap == g.cap && a.order != [] && a.order[0] == w
  {
    hide Room;
    if w in g.passwords {
      PromoteSound(g, w);
    } else {
      RoomSound(g);
      assert ([w] + Room(g).order)[1..] == Room(g).order;
    }
  }

  /** `u` is in `a` as it was in `g`, with `w` in front of it now. */
  ghost predicate Behind(g: Group, a: Group, w: Name, u: Name) {
    && u in g.passwords && u in a.passwords && a.passwords[u] == g.passwords[u]
    && Ahead(a.order, u) == Ahead(g.order, u) + {w}
  }

  lemma InsertAbsent(g: Group, w: Name, u: Name)
    requires Sound(g) && u != w && w !in g.passwords
    ensures var a := GetOrInsert(g, w);
            && (u in a.order <==> u in g.order && |Ahead(g.order, u) + {w}| < g.cap)
            && (u in a.order ==> Behind(g, a, w, u))
  {
    hide Ahead, Room, Distinct;
    RoomSound(g);
    RoomKeeps(g, u);
    AheadCount(g.order, u);
    AheadCons(w, Room(g).order, u);
    var a := GetOrInsert(g, w);
    assert a.order == [w] + Room(g).order && a.passwords == Room(g).passwords[w := map[]];
    hide GetOrInsert;
    assert |Ahead(g.order, u) + {w}| == |Ahead(g.order, u)| + 1;
  }

  lemma InsertKeeps(g: Group, w: Name, u: Name)
    requires Sound(g) && u != w
    ensures var a := GetOrInsert(g, w);
            && (u in a.order <==> u in g.order && |Ahead(g.order, u) + {w}| < g.cap)
            && (u in a.order ==> Behind(g, a, w, u))
  {
    hide Ahead, Room;
    if w in g.passwords {
      PromoteKeeps(g, w, u);
    } else {
      InsertAbsent(g, w, u);
    }
  }

  /** A save: the group takes the requested size, then the user comes first. */
  function Saved(g: Group, cap: nat, w: Name): Group
    requires 0 < cap
  {
    GetOrInsert(Resize(g, cap), w)
  }

  /** Besides the user saved, exactly those stay who have fewer than `cap` others used
      since, the one saved included; and what is known of them stays. */
  lemma SaveKeeps(g: Group, cap: nat, w: Name, u: Name)
    requires Sound(g) && 0 < cap && u != w
    ensures var a := Saved(g, cap, w);
            && (u in a.order <==> u in g.order && |Ahead(g.order, u) + {w}| < cap)
            && (u in a.order ==> Behind(g, a, w, u))
  {
    hide GetOrInsert, Resize, Ahead;
    ResizeSound(g, cap);
    ResizeKeeps(g, cap, u);
    InsertKeeps(Resize(g, cap), w, u);
    SubsetSize(Ahead(g.order, u), Ahead(g.order, u) + {w});
  }

  lemma {:induction false} SubsetSize(a: set<Name>, b: set<Name>)
    requires a <= b
    ensures |a| <= |b|
  {
    if a != {} {
      var x :| x in a;
      SubsetSize(a - {x}, b - {x});
    }
  }

  datatype Login = Login(group: Name, user: Name, password: Name)

  /** `u` is not pushed out by a save of `w`: fewer than `cap` others are more recent then. */
  ghost predicate Stays(g: Group, cap: nat, w: Name, u: Name) {
    |Ahead(g.order, u) + {w} - {u}| < cap
  }

  lemma SaveUser(g: Group, cap: nat, w: Name)
    requires Sound(g) && 0 < cap
    ensures var a := Saved(g, cap, w);
            && Sound(a) && a.cap == cap && a.order[0] == w && w in a.passwords
            && a.passwords[w] == if w in g.passwords && Stays(g, cap, w, w) then g.passwords[w] else map[]
  {
    hide Ahead, Distinct;
    ResizeSound(g, cap);
    ResizeKeeps(g, cap, w);
    InsertSound(Resize(g, cap), w);
    AheadCount(g.order, w);
    assert Ahead(g.order, w) + {w} - {w} == Ahead(g.order, w);
  }

  lemma SaveOther(g: Group, cap: nat, w: Name, u: Name)
    requires Sound(g) && 0 < cap && u != w
    ensures var a := Saved(g, cap, w);
            && (u in a.passwords <==> u in g.passwords && Stays(g, cap, w, u))
            && (u in a.passwords ==> Behind(g, a, w, u))
  {
    hide Ahead, Distinct, Saved, Behind;
    SaveUser(g, cap, w);
    SaveKeeps(g, cap, w, u);
    AheadCount(g.order, u);
    assert Ahead(g.order, u) + {w} - {u} == Ahead(g.order, u) + {w};
  }

  /** What is held after a save of `l`: that, and what was held, except the logins of
      users of the group who now have `cap` others more recent. */
  ghost function HeldAfter(held: set<Login>, g: Group, cap: nat, l: Login): set<Login> {
    {l} + set m | m in held && (m.group == l.group ==> Stays(g, cap, l.user, m.user))
  }

  ghost predicate Listed(groups: map<Name, Group>, l: Login) {
    && l.group in groups && l.user in groups[l.group].passwords
    && l.password in groups[l.group].passwords[l.user]
  }

  /** What the cache knows of `l`: what is listed is held and expires when the latest save
      says; what is held and not listed has expired; the users of what is held are there. */
  ghost predicate Known(groups: map<Name, Group>, clock: Time, latest: map<Login, Time>, held: set<Login>, l: Login) {
    && (Listed(groups, l) ==>
          l in held && l in latest && groups[l.group].passwords[l.user][l.password] == latest[l])
    && (l in held ==> l in latest && (Listed(groups, l) || latest[l] <= clock))
    && (l in held ==> l.group in groups && l.user in groups[l.group].passwords)
  }

  function Before(groups: map<Name, Group>, group: Name, cap: nat): Group {
    if group in groups then groups[group] else Empty(cap)
  }

  lemma SaveKnown(groups: map<Name, Group>, after: Group, last: Time, now: Time, latest: map<Login, Time>,
                  held: set<Login>, l: Login, cap: nat, t: Time, m: Login)
    requires Known(groups, last, latest, held, m) && last <= now
    requires Took(Before(groups, l.group, cap), after, cap, l.user, l.password, t)
    ensures Known(groups[l.group := after], now, latest[l := t],
                  HeldAfter(held, Before(groups, l.group, cap), cap, l), m)
  {
    hide Sound, Ahead, Stays;
  }

  class Cache {
    var groups: map<Name, Group>
    ghost var clock: Time
    /** when the latest save of each login expires */
    ghost var latest: map<Login, Time>
    /** the logins saved whose user was not pushed out since their latest save */
    ghost var held: set<Login>

    ghost predicate Valid()
      reads this
    {
      && (forall g :: g in groups ==> Sound(groups[g]))
      && (forall l :: Known(groups, clock, latest, held, l))
    }

    constructor ()
      ensures Valid() && groups == map[] && latest == map[] && held == {} && clock == 0
    {
      groups, clock, latest, held := map[], 0, map[], {};
    }

    /** The answer is true exactly when the latest save of this login has not expired and
        its user was not pushed out since. */
    method HasValidPassword(group: Name, user: Name, password: Name, now: Time) returns (r: bool)
      requires Valid() && clock <= now
      modifies this
      ensures Valid() && clock == now && latest == old(latest) && held == old(held)
      ensures var l := Login(group, user, password);
              r <==> l in held && l in latest && now < latest[l]
      ensures group in groups && groups == old(groups)[group := groups[group]]
      ensures var before := Before(old(groups), group, DEFAULT_CACHE_USER_COUNT);
              && groups[group].cap == before.cap && groups[group].passwords.Keys == before.passwords.Keys
              && (groups[group].order == if user in before.passwords then Promote(before, user).order else before.order)
              && (!r && user in before.passwords ==>
                    groups[group].passwords[user] == before.passwords[user] - {password})
              && (forall u :: u in before.passwords && (r || u != user) ==>
                    groups[group].passwords[u] == before.passwords[u])
    {
      hide Promote, Sound;
      assert Known(groups, clock, latest, held, Login(group, user, password));
      r := false;
      var g := Before(groups, group, DEFAULT_CACHE_USER_COUNT);
      EmptySound(DEFAULT_CACHE_USER_COUNT);
      if user in g.passwords {
        PromoteSound(g, user);
        PromoteFields(g, user);
        g := Promote(g, user);
        var known := g.passwords[user];
        if password in known {
          var t := known[password];
          known := known - {password};
          if t > now {
            known := known[password := t];
            r := true;
            assert known == g.passwords[user];
          }
        }
        PasswordsSound(g, user, known);
        g := g.(passwords := g.passwords[user := known]);
      }
      ghost var next := groups[group := g];
      forall l ensures Known(next, now, latest, held, l) {
        assert Known(groups, clock, latest, held, l);
      }
      groups, clock := groups[group := g], now;
    }

    /** The login is held from now on, until its user is pushed out. */
    method SaveUserPassword(group: Name, cap: nat, user: Name, password: Name, now: Time, expire: nat)
      requires Valid() && clock <= now && 0 < cap
      modifies this
      ensures Valid() && clock == now
      ensures latest == old(latest)[Login(group, user, password) := now + expire]
      ensures held == HeldAfter(old(held), Before(old(groups), group, cap), cap, Login(group, user, password))
      ensures group in groups && groups == old(groups)[group := groups[group]]
      ensures Took(Before(old(groups), group, cap), groups[group], cap, user, password, now + expire)
    {
      hide Sound, Took, Stays;
      var g := Before(groups, group, cap);
      EmptySound(cap);
      var t := now + expire;
      TakesIt(g, cap, user, password, t);
      var after := Store(g, cap, user, password, t);
      TookSound(g, after, cap, user, password, t);
      ghost var l := Login(group, user, password);
      ghost var next, saves, holds := groups[group := after], latest[l := t], HeldAfter(held, g, cap, l);
      forall m ensures Known(next, now, saves, holds, m) {
        SaveKnown(groups, after, clock, now, latest, held, l, cap, t, m);
      }
      groups := groups[group := after];
      clock, latest, held := now, saves, holds;
    }
  }

  /** A save: the password is good until `t`. */
  function Store(g: Group, cap: nat, w: Name, password: Name, t: Time): Group
    requires 0 < cap
  {
    var a := Saved(g, cap, w);
    if w !in a.passwords then a
    else
      var known: map<Name, Time> := a.passwords[w][password := t];
      a.(passwords := a.passwords[w := known])
  }

  /** What a save does to a group: no more than `cap` users, `w` in front, and of the others
      exactly those who stay, as they were. */
  ghost predicate Took(g: Group, a: Group, cap: nat, w: Name, password: Name, t: Time) {
    && Sound(a) && a.cap == cap && |a.order| <= cap && a.order != [] && a.order[0] == w && w in a.passwords
    && a.passwords[w] == (if w in g.passwords && Stays(g, cap, w, w) then g.passwords[w] else map[])[password := t]
    && (forall u :: u != w ==> (u in a.passwords <==> u in g.passwords && Stays(g, cap, w, u)))
    && (forall u :: u != w && u in a.passwords ==> Behind(g, a, w, u))
  }

  lemma TookSound(g: Group, a: Group, cap: nat, w: Name, password: Name, t: Time)
    requires Took(g, a, cap, w, password, t)
    ensures Sound(a)
  {
  }

  lemma TakesIt(g: Group, cap: nat, w: Name, password: Name, t: Time)
    requires Sound(g) && 0 < cap
    ensures Took(g, Store(g, cap, w, password, t), cap, w, password, t)
  {
    hide Stays, Saved, Ahead, Distinct;
    SaveUser(g, cap, w);
    var a := Saved(g, cap, w);
    PasswordsSound(a, w, a.passwords[w][password := t]);
    forall u | u != w
      ensures u in a.passwords <==> u in g.passwords && Stays(g, cap, w, u)
      ensures u in a.passwords ==> Behind(g, a, w, u)
    {
      SaveOther(g, cap, w, u);
    }
  }

  lemma EmptySound(cap: nat)
    requires 0 < cap
    ensures Sound(Empty(cap))
  {
  }

  lemma PasswordsSound(g: Group, w: Name, known: map<Name, Time>)
    requires Sound(g) && w in g.passwords
    ensures Sound(g.(passwords := g.passwords[w := known]))
  {
  }

  lemma PromoteFields(g: Group, w: Name)
    ensures Promote(g, w).cap == g.cap && Promote(g, w).passwords == g.passwords
  {
  }
}
