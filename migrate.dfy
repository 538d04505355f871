/** The phone-dedupe migration: for every phone held by more than one user,
    the user created first keeps it and every other holder's phone is set to
    null. The users table is an array; the grouping query and the ordered
    lookup are functions over it. Users created at the same instant are
    ordered by their position in the table. */
module PhoneMigration {
  import opened Util

  datatype User = User(id: string, phone: Option<string>, createdAt: nat)

  /** Two different users hold the phone. */
  predicate Shared(us: seq<User>, p: string)
  {
    exists i, j :: 0 <= i < j < |us| && us[i].phone == Some(p) && us[j].phone == Some(p)
  }

  /** The grouping query: the non-null phones held more than once. */
  function SharedPhones(us: seq<User>): set<string>
  {
    set i | 0 <= i < |us| && us[i].phone.Some? && Shared(us, us[i].phone.value) :: us[i].phone.value
  }

  /** The query returns exactly the shared phones. */
  lemma SharedPhonesAreShared(us: seq<User>, p: string)
    ensures p in SharedPhones(us) <==> Shared(us, p)
  {
    if Shared(us, p) {
      var i, j :| 0 <= i < j < |us| && us[i].phone == Some(p) && us[j].phone == Some(p);
      assert us[i].phone.value == p;
    }
  }

  /** Scanning from `i`, the holder of `p` created first, `best` being the
      earliest so far (-1 for none). Ties keep the earlier position. */
  function Earliest(us: seq<User>, p: string, i: nat, best: int): (r: int)
    requires i <= |us| && -1 <= best < i
    requires best >= 0 ==> us[best].phone == Some(p)
    ensures -1 <= r < |us|
    ensures r == -1 <==> best == -1 && forall t :: i <= t < |us| ==> us[t].phone != Some(p)
    ensures r >= 0 ==> us[r].phone == Some(p)
    decreases |us| - i
  {
    if i == |us| then best
    else if us[i].phone == Some(p) && (best < 0 || us[i].createdAt < us[best].createdAt) then
      Earliest(us, p, i + 1, i)
    else Earliest(us, p, i + 1, best)
  }

  /** `r` comes no later than `t` in the order `createdAt`, then position. */
  predicate NoLater(us: seq<User>, r: int, t: int)
    requires 0 <= r < |us| && 0 <= t < |us|
  {
    us[r].createdAt < us[t].createdAt || (us[r].createdAt == us[t].createdAt && r <= t)
  }

  lemma {:induction false} EarliestIsFirst(us: seq<User>, p: string, i: nat, best: int)
    requires i <= |us| && -1 <= best < i
    requires best >= 0 ==> us[best].phone == Some(p)
    ensures var r := Earliest(us, p, i, best);
            r >= 0 ==> (forall t :: i <= t < |us| && us[t].phone == Some(p) ==> NoLater(us, r, t))
                       && (best >= 0 ==> NoLater(us, r, best))
    decreases |us| - i
  {
    if i < |us| {
      if us[i].phone == Some(p) && (best < 0 || us[i].createdAt < us[best].createdAt) {
        EarliestIsFirst(us, p, i + 1, i);
      } else {
        EarliestIsFirst(us, p, i + 1, best);
      }
    }
  }

  /** `findMany({ where: { phone }, orderBy: { createdAt: 'asc' } })[0]`: the
      position of the first-created holder of `p`, or -1 when nobody holds it. */
  function Keeper(us: seq<User>, p: string): (k: int)
    ensures -1 <= k < |us|
    ensures k == -1 <==> forall t :: 0 <= t < |us| ==> us[t].phone != Some(p)
    ensures k >= 0 ==> us[k].phone == Some(p)
  {
    Earliest(us, p, 0, -1)
  }

  /** The keeper is the holder created first; among holders created at the
      same instant, the one earliest in the table. */
  lemma KeeperIsFirst(us: seq<User>, p: string, t: int)
    requires 0 <= t < |us| && us[t].phone == Some(p)
    ensures Keeper(us, p) >= 0 && NoLater(us, Keeper(us, p), t)
  {
    EarliestIsFirst(us, p, 0, -1);
  }

  /** A user after the phones in `done` have been processed: a holder of one
      of them other than its keeper has lost the phone. */
  function Cleared(us: seq<User>, done: set<string>, t: int): (u: User)
    requires 0 <= t < |us|
  {
    var u := us[t];
    if u.phone.Some? && u.phone.value in done && t != Keeper(us, u.phone.value) then u.(phone := None)
    else u
  }

  /** A user after the migration. */
  function Migrated(us: seq<User>, t: int): (u: User)
    requires 0 <= t < |us|
    ensures u.id == us[t].id && u.createdAt == us[t].createdAt
    ensures u.phone == us[t].phone || u.phone.None?
    ensures us[t].phone.None? || !Shared(us, us[t].phone.value) ==> u == us[t]
    ensures us[t].phone.Some? && Shared(us, us[t].phone.value) ==>
              (u.phone.Some? <==> t == Keeper(us, us[t].phone.value))
  {
    if us[t].phone.Some? then SharedPhonesAreShared(us, us[t].phone.value); Cleared(us, SharedPhones(us), t)
    else Cleared(us, SharedPhones(us), t)
  }

  /** The keeper depends only on who holds the phone and when they were created. */
  lemma {:induction false} EarliestSameHolders(a: seq<User>, b: seq<User>, p: string, i: nat, best: int)
    requires |a| == |b| && i <= |a| && -1 <= best < i
    requires best >= 0 ==> a[best].phone == Some(p)
    requires forall t :: 0 <= t < |a| ==> (a[t].phone == Some(p) <==> b[t].phone == Some(p))
    requires forall t :: 0 <= t < |a| ==> a[t].createdAt == b[t].createdAt
    ensures Earliest(a, p, i, best) == Earliest(b, p, i, best)
    decreases |a| - i
  {
    if i < |a| {
      assert a[i].phone == Some(p) <==> b[i].phone == Some(p);
      assert a[i].createdAt == b[i].createdAt;
      if a[i].phone == Some(p) && (best < 0 || a[i].createdAt < a[best].createdAt) {
        EarliestSameHolders(a, b, p, i + 1, i);
      } else {
        EarliestSameHolders(a, b, p, i + 1, best);
      }
    }
  }

  /** The update loop over one phone's holders: every holder of `p` except
      the one at `keeper` has its phone set to null. */
  method ClearPhone(users: array<User>, p: string, keeper: int)
    modifies users
    ensures forall t :: 0 <= t < users.Length ==>
              users[t] == (if old(users[t]).phone == Some(p) && t != keeper
                           then old(users[t]).(phone := None) else old(users[t]))
  {
    var j := 0;
    while j < users.Length
      invariant 0 <= j <= users.Length
      invariant forall t :: 0 <= t < j ==>
                  users[t] == (if old(users[t]).phone == Some(p) && t != keeper
                               then old(users[t]).(phone := None) else old(users[t]))
      invariant forall t :: j <= t < users.Length ==> users[t] == old(users[t])
    {
      if users[j].phone == Some(p) && j != keeper {
        users[j] := users[j].(phone := None);
      }
      j := j + 1;
    }
  }

  /** Processing one more phone: while `p` is still unprocessed its holders
      are exactly the original ones, so its keeper is the original keeper,
      and clearing it yields the state with `p` processed. */
  lemma ClearedStep(orig: seq<User>, cur: seq<User>, done: set<string>, p: string)
    requires |cur| == |orig| && p !in done
    requires forall t :: 0 <= t < |orig| ==> cur[t] == Cleared(orig, done, t)
    ensures Keeper(cur, p) == Keeper(orig, p)
    ensures forall t :: 0 <= t < |orig| ==>
              Cleared(orig, done + {p}, t) ==
                (if cur[t].phone == Some(p) && t != Keeper(orig, p) then cur[t].(phone := None) else cur[t])
  {
    assert forall t :: 0 <= t < |orig| ==> (cur[t].phone == Some(p) <==> orig[t].phone == Some(p));
    assert forall t :: 0 <= t < |orig| ==> cur[t].createdAt == orig[t].createdAt;
    EarliestSameHolders(cur, orig, p, 0, -1);
  }

  /** One iteration of the migration's loop: the holders of `p` are looked
      up on the current table and all but the first-created lose the phone. */
  method DedupePhone(users: array<User>, p: string, ghost orig: seq<User>, ghost done: set<string>)
    requires users.Length == |orig| && p !in done
    requires forall t :: 0 <= t < users.Length ==> users[t] == Cleared(orig, done, t)
    modifies users
    ensures forall t :: 0 <= t < users.Length ==> users[t] == Cleared(orig, done + {p}, t)
  {
    ghost var cur := users[..];
    ClearedStep(orig, cur, done, p);
    var keeper := Keeper(users[..], p);
    ClearPhone(users, p, keeper);
    forall t | 0 <= t < users.Length
      ensures users[t] == Cleared(orig, done + {p}, t)
    {
      assert old(users[t]) == cur[t];
    }
  }

  /** `migratePhoneUnique`: for each shared phone, in no particular order,
      look up its first-created holder and clear the phone of every other
      holder. */
  method MigratePhoneUnique(users: array<User>)
    modifies users
    ensures forall t :: 0 <= t < users.Length ==> users[t] == Migrated(old(users[..]), t)
  {
    ghost var orig := users[..];
    var remaining := SharedPhones(users[..]);
    ghost var shared := remaining;
    ghost var done: set<string> := {};
    while remaining != {}
      invariant users.Length == |orig|
      invariant remaining + done == shared && remaining !! done
      invariant forall t :: 0 <= t < users.Length ==> users[t] == Cleared(orig, done, t)
      decreases remaining
    {
      var p :| p in remaining;
      DedupePhone(users, p, orig, done);
      remaining := remaining - {p};
      done := done + {p};
    }
    assert done == SharedPhones(orig);
    forall t | 0 <= t < users.Length
      ensures users[t] == Migrated(orig, t)
    {
      assert users[t] == Cleared(orig, SharedPhones(orig), t);
    }
  }

  // ---------------------------------------------------------------------------
  // What the migration achieves

  function After(us: seq<User>): (r: seq<User>)
    ensures |r| == |us| && forall t :: 0 <= t < |us| ==> r[t] == Migrated(us, t)
  {
    seq(|us|, t requires 0 <= t < |us| => Migrated(us, t))
  }

  /** No two users share a non-null phone: what the unique constraint needs. */
  predicate NoShared(us: seq<User>)
  {
    forall i, j :: 0 <= i < j < |us| && us[i].phone.Some? ==> us[i].phone != us[j].phone
  }

  /** The distinct non-null phones. */
  function PhoneSet(us: seq<User>): set<string>
  {
    set t | 0 <= t < |us| && us[t].phone.Some? :: us[t].phone.value
  }

  /** After the migration no phone is shared. */
  lemma NoSharedAfter(us: seq<User>)
    ensures NoShared(After(us))
  {
    var a := After(us);
    forall i, j | 0 <= i < j < |a| && a[i].phone.Some?
      ensures a[i].phone != a[j].phone
    {
      if a[i].phone == a[j].phone {
        var p := a[i].phone.value;
        assert us[i].phone == Some(p) && us[j].phone == Some(p);
        assert Shared(us, p);
      }
    }
  }

  /** Every phone held before is still held by someone, and no new one appears. */
  lemma PhonesKept(us: seq<User>)
    ensures PhoneSet(After(us)) == PhoneSet(us)
  {
    var a := After(us);
    forall p | p in PhoneSet(us) ensures p in PhoneSet(a) {
      var t :| 0 <= t < |us| && us[t].phone == Some(p);
      if Shared(us, p) {
        var k := Keeper(us, p);
        assert a[k].phone == Some(p);
      } else {
        assert a[t].phone == Some(p);
      }
    }
  }

  /** The number of users with a phone. */
  function CountPhones(us: seq<User>): nat
  {
    if us == [] then 0 else CountPhones(us[..|us| - 1]) + (if us[|us| - 1].phone.Some? then 1 else 0)
  }

  /** The phones of a table with one more user at the end. */
  lemma PhoneSetSnoc(init: seq<User>, last: User)
    ensures PhoneSet(init + [last]) == PhoneSet(init) + (if last.phone.Some? then {last.phone.value} else {})
  {
    var us := init + [last];
    forall q | q in PhoneSet(us) ensures q in PhoneSet(init) || (last.phone.Some? && q == last.phone.value) {
      var t :| 0 <= t < |us| && us[t].phone.Some? && us[t].phone.value == q;
      if t < |init| {
        assert init[t] == us[t];
      }
    }
    forall q | q in PhoneSet(init) ensures q in PhoneSet(us) {
      var t :| 0 <= t < |init| && init[t].phone.Some? && init[t].phone.value == q;
      assert us[t] == init[t];
    }
    if last.phone.Some? {
      assert us[|init|] == last;
    }
  }

  /** Without sharing, the last user's phone is held by nobody before it. */
  lemma LastPhoneFresh(us: seq<User>)
    requires us != [] && NoShared(us) && us[|us| - 1].phone.Some?
    ensures us[|us| - 1].phone.value !in PhoneSet(us[..|us| - 1])
  {
    var init := us[..|us| - 1];
    forall t | 0 <= t < |init| && init[t].phone.Some? ensures init[t].phone != us[|us| - 1].phone {
      assert init[t] == us[t];
    }
  }

  /** Without sharing, there are as many users with a phone as distinct phones. */
  lemma {:induction false} CountDistinct(us: seq<User>)
    requires NoShared(us)
    ensures CountPhones(us) == |PhoneSet(us)|
  {
    if us != [] {
      var init := us[..|us| - 1];
      var last := us[|us| - 1];
      assert us == init + [last];
      assert NoShared(init) by {
        forall i, j | 0 <= i < j < |init| && init[i].phone.Some? ensures init[i].phone != init[j].phone {
          assert init[i] == us[i] && init[j] == us[j];
        }
      }
      CountDistinct(init);
      PhoneSetSnoc(init, last);
      if last.phone.Some? {
        LastPhoneFresh(us);
      }
    }
  }

  /** After the migration, as many users have a phone as there were distinct
      phones before it. */
  lemma PhoneCountAfter(us: seq<User>)
    ensures CountPhones(After(us)) == |PhoneSet(us)|
  {
    NoSharedAfter(us);
    PhonesKept(us);
    CountDistinct(After(us));
  }

  /** Running the migration again changes nothing. */
  lemma MigrationIdempotent(us: seq<User>)
    ensures After(After(us)) == After(us)
  {
    NoSharedAfter(us);
    var a := After(us);
    forall t | 0 <= t < |a| ensures Migrated(a, t) == a[t] {
      if a[t].phone.Some? {
        assert !Shared(a, a[t].phone.value);
      }
    }
  }
}
