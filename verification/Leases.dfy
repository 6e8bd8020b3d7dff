/** The lease of a subscription: at most one owner at a time, for a limited time. */
module Leases {
  import opened Wrappers

  datatype LeaseRecord = LeaseRecord(active: bool, owner: Option<string>, expires: Option<int>)

  datatype Request =
    | Claim(owner: string, now: int, lease: int)
    | Renew(owner: string, now: int, lease: int)
    | Release(owner: string, now: int)
    | SetActive(on: bool, now: int)
    | Upsert(now: int)

  // A claim takes a lease that nobody holds or that ran out strictly before now.
  predicate MayClaim(l: LeaseRecord, now: int) {
    l.active && (l.owner.None? || l.expires.None? || l.expires.value < now)
  }

  predicate MayRenew(l: LeaseRecord, owner: string) {
    l.active && l.owner == Some(owner)
  }

  function AfterClaim(l: LeaseRecord, owner: string, now: int, lease: int): LeaseRecord {
    if MayClaim(l, now) then l.(owner := Some(owner), expires := Some(now + lease)) else l
  }

  function AfterRenew(l: LeaseRecord, owner: string, now: int, lease: int): LeaseRecord {
    if MayRenew(l, owner) then l.(expires := Some(now + lease)) else l
  }

  function AfterRelease(l: LeaseRecord, owner: string): LeaseRecord {
    if l.owner == Some(owner) then l.(owner := None, expires := None) else l
  }

  function After(l: LeaseRecord, q: Request): LeaseRecord {
    match q
    case Claim(owner, now, lease) => AfterClaim(l, owner, now, lease)
    case Renew(owner, now, lease) => AfterRenew(l, owner, now, lease)
    case Release(owner, _) => AfterRelease(l, owner)
    case SetActive(on, _) => l.(active := on)
    case Upsert(_) => l
  }

  /** The record after the first n requests. */
  function RecordAt(l: LeaseRecord, reqs: seq<Request>, n: nat): LeaseRecord
    requires n <= |reqs|
  {
    if n == 0 then l else After(RecordAt(l, reqs, n - 1), reqs[n - 1])
  }

  predicate AsksLease(q: Request) {
    q.Claim? || q.Renew?
  }

  /** Request i asked for the lease and got it. */
  predicate Granted(l: LeaseRecord, reqs: seq<Request>, i: nat)
    requires i < |reqs|
  {
    var before := RecordAt(l, reqs, i);
    match reqs[i]
    case Claim(_, now, _) => MayClaim(before, now)
    case Renew(owner, _, _) => MayRenew(before, owner)
    case _ => false
  }

  predicate Chronological(reqs: seq<Request>) {
    forall i, j :: 0 <= i < j < |reqs| ==> reqs[i].now <= reqs[j].now
  }

  // A runner asks for the same lease length for as long as it runs.
  predicate NeverShortens(reqs: seq<Request>, i: nat, j: nat)
    requires i <= j <= |reqs|
    requires i < |reqs| && AsksLease(reqs[i])
  {
    forall k :: i < k < j && AsksLease(reqs[k]) && reqs[k].owner == reqs[i].owner ==> reqs[i].lease <= reqs[k].lease
  }

  predicate ReleasedBetween(reqs: seq<Request>, owner: string, i: nat, j: nat)
    requires i <= j <= |reqs|
  {
    exists k :: i < k < j && reqs[k].Release? && reqs[k].owner == owner
  }

  lemma {:induction false} GrantStands(l: LeaseRecord, reqs: seq<Request>, i: nat, j: nat)
    requires i < j <= |reqs|
    requires Chronological(reqs) && Granted(l, reqs, i) && NeverShortens(reqs, i, j)
    requires !ReleasedBetween(reqs, reqs[i].owner, i, j)
    requires reqs[j - 1].now <= reqs[i].now + reqs[i].lease
    ensures var r := RecordAt(l, reqs, j);
            r.owner == Some(reqs[i].owner) && r.expires.Some? && reqs[i].now + reqs[i].lease <= r.expires.value
    decreases j
  {
    if i + 1 < j {
      assert reqs[j - 2].now <= reqs[j - 1].now;
      GrantStands(l, reqs, i, j - 1);
      assert reqs[i].now <= reqs[j - 1].now;
      assert !(reqs[j - 1].Release? && reqs[j - 1].owner == reqs[i].owner);
    }
  }

  /** Between a grant and its expiry, inclusive, nobody else is granted the lease unless the holder released it. */
  lemma LeaseExclusion(l: LeaseRecord, reqs: seq<Request>, i: nat, j: nat)
    requires i < j < |reqs|
    requires Granted(l, reqs, i) && Granted(l, reqs, j)
    requires Chronological(reqs) && NeverShortens(reqs, i, j)
    requires reqs[j].owner != reqs[i].owner
    requires reqs[j].now <= reqs[i].now + reqs[i].lease
    ensures ReleasedBetween(reqs, reqs[i].owner, i, j)
  {
    if !ReleasedBetween(reqs, reqs[i].owner, i, j) {
      assert reqs[j - 1].now <= reqs[j].now;
      GrantStands(l, reqs, i, j);
    }
  }

  /** Without a fixed lease length the holder can cut its own lease short, and exclusion ends early. */
  lemma ShorterRenewalEndsExclusion()
    ensures exists l: LeaseRecord, reqs: seq<Request> ::
      && |reqs| == 3 && Chronological(reqs)
      && Granted(l, reqs, 0) && Granted(l, reqs, 2)
      && reqs[2].owner != reqs[0].owner
      && reqs[2].now <= reqs[0].now + reqs[0].lease
      && !ReleasedBetween(reqs, reqs[0].owner, 0, 2)
  {
    var l := LeaseRecord(true, None, None);
    var reqs := [Claim("a", 0, 10), Renew("a", 1, 2), Claim("b", 5, 10)];
    var l1 := AfterClaim(l, "a", 0, 10);
    var l2 := AfterRenew(l1, "a", 1, 2);
    assert RecordAt(l, reqs, 0) == l;
    assert RecordAt(l, reqs, 1) == l1;
    assert RecordAt(l, reqs, 2) == l2;
    assert "b"[0] != "a"[0];
    assert Granted(l, reqs, 0) && Granted(l, reqs, 2);
  }

  // ---------------- The same lease as SQL updates ----------------

  // lease_expires_at < now is not true for NULL.
  predicate SqlMayClaim(l: LeaseRecord, now: int) {
    l.active && (l.owner.None? || (l.expires.Some? && l.expires.value < now))
  }

  predicate Paired(l: LeaseRecord) {
    l.owner.Some? <==> l.expires.Some?
  }

  lemma {:induction false} AlwaysPaired(l: LeaseRecord, reqs: seq<Request>, n: nat)
    requires n <= |reqs| && Paired(l)
    ensures Paired(RecordAt(l, reqs, n))
  {
    if 0 < n {
      AlwaysPaired(l, reqs, n - 1);
    }
  }

  /** The two claim guards agree at all times except on an active record with an owner and no expiry. */
  lemma ClaimGuardsAgree(l: LeaseRecord)
    ensures (forall now :: MayClaim(l, now) == SqlMayClaim(l, now)) <==> !(l.active && l.owner.Some? && l.expires.None?)
  {
    if l.active && l.owner.Some? && l.expires.None? {
      assert MayClaim(l, 0) != SqlMayClaim(l, 0);
    }
  }

  /** From a fresh subscription no sequence of requests tells the two engines apart. */
  lemma EnginesGrantAlike(reqs: seq<Request>, n: nat, now: int)
    requires n <= |reqs|
    ensures var l := RecordAt(LeaseRecord(true, None, None), reqs, n); MayClaim(l, now) == SqlMayClaim(l, now)
  {
    AlwaysPaired(LeaseRecord(true, None, None), reqs, n);
  }

  // The row as the UPDATE of each request leaves it: the SET clause where the WHERE clause is true.
  function SqlAfter(l: LeaseRecord, q: Request): LeaseRecord {
    match q
    case Claim(owner, now, lease) =>
      if SqlMayClaim(l, now) then l.(owner := Some(owner), expires := Some(now + lease)) else l
    case Renew(owner, now, lease) =>
      if l.owner == Some(owner) && l.active then l.(expires := Some(now + lease)) else l
    case Release(owner, _) => if l.owner == Some(owner) then l.(owner := None, expires := None) else l
    case SetActive(on, _) => l.(active := on)
    case Upsert(_) => l
  }

  function SqlRecordAt(l: LeaseRecord, reqs: seq<Request>, n: nat): LeaseRecord
    requires n <= |reqs|
  {
    if n == 0 then l else SqlAfter(SqlRecordAt(l, reqs, n - 1), reqs[n - 1])
  }

  /** On a fresh subscription any sequence of requests leaves the same lease in both engines. */
  lemma {:induction false} EnginesKeepAlike(reqs: seq<Request>, n: nat)
    requires n <= |reqs|
    ensures SqlRecordAt(LeaseRecord(true, None, None), reqs, n) == RecordAt(LeaseRecord(true, None, None), reqs, n)
  {
    if 0 < n {
      EnginesKeepAlike(reqs, n - 1);
      AlwaysPaired(LeaseRecord(true, None, None), reqs, n - 1);
    }
  }
}
