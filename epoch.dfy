/** The order in which one epoch (`BPR::train_one_iteration`) visits
    (user, positive item) pairs, and what a trace of pair updates must look
    like to follow it. */
module Epoch {
  import opened Spec

  /** One visit of the epoch: a pair update for `uid` with positive item `iid`. */
  datatype Visit = Visit(uid: nat, iid: nat)

  /** Each user's rated items, in the order the trainer walks them. */
  type Rated = map<nat, seq<nat>>

  /** `n` copies of `v`. */
  function Repeat(v: Visit, n: nat): (r: seq<Visit>)
    ensures |r| == n
    ensures forall q :: 0 <= q < n ==> r[q] == v
  {
    if n == 0 then [] else Repeat(v, n - 1) + [v]
  }

  /** The visits of user `u`: `numNeg` consecutive visits per rated item, the
      items in their order. */
  function UserVisits(u: nat, items: seq<nat>, numNeg: nat): seq<Visit>
    decreases |items|
  {
    if |items| == 0 then []
    else UserVisits(u, items[..|items| - 1], numNeg) + Repeat(Visit(u, items[|items| - 1]), numNeg)
  }

  /** Every user below `n` has a rated-item entry. */
  predicate HasUsers(rated: Rated, n: nat)
  {
    forall u :: 0 <= u < n ==> u in rated
  }

  /** One more item adds its `numNeg` visits at the end. */
  lemma UserVisitsPrefix(u: nat, items: seq<nat>, p: nat, numNeg: nat)
    requires p < |items|
    ensures UserVisits(u, items[..p + 1], numNeg) == UserVisits(u, items[..p], numNeg) + Repeat(Visit(u, items[p]), numNeg)
  {
    assert items[..p + 1][..p] == items[..p];
  }

  /** The visits of users `0 .. n - 1`, in ascending user order. */
  function Schedule(rated: Rated, n: nat, numNeg: nat): seq<Visit>
    requires HasUsers(rated, n)
    decreases n, 1
  {
    if n == 0 then [] else ScheduleThrough(rated, n - 1, numNeg)
  }

  /** The visits of users `0 .. u`, user `u` included. */
  function ScheduleThrough(rated: Rated, u: nat, numNeg: nat): seq<Visit>
    requires HasUsers(rated, u + 1)
    decreases u + 1, 0
  {
    Schedule(rated, u, numNeg) + UserVisits(u, rated[u], numNeg)
  }

  /** The schedule for one more user appends that user's visits. */
  lemma ScheduleNext(rated: Rated, u: nat, numNeg: nat)
    requires HasUsers(rated, u + 1)
    ensures Schedule(rated, u + 1, numNeg) == Schedule(rated, u, numNeg) + UserVisits(u, rated[u], numNeg)
  {
    assert Schedule(rated, u + 1, numNeg) == ScheduleThrough(rated, u, numNeg);
  }

  /** The number of rated items of users `0 .. n - 1`. */
  function TotalRated(rated: Rated, n: nat): nat
    requires HasUsers(rated, n)
  {
    if n == 0 then 0 else TotalRated(rated, n - 1) + |rated[n - 1]|
  }

  /** Arithmetic steps for `UserVisitsLength`, `ScheduleLength` and `UserVisitsAt`, stated once so
      that their callers need not reason about products themselves. */
  lemma MulSucc(a: nat, b: nat)
    ensures a * (b + 1) == a * b + a
  {
  }

  lemma MulAdd(a: nat, b: nat, c: nat)
    ensures a * (b + c) == a * b + a * c
  {
  }

  lemma MulMono(a: nat, b: nat, c: nat)
    requires b <= c
    ensures a * b <= a * c
  {
  }

  /** The visits of one user number `numNeg` per rated item. */
  lemma {:induction false} UserVisitsLength(u: nat, items: seq<nat>, numNeg: nat)
    ensures |UserVisits(u, items, numNeg)| == numNeg * |items|
    decreases |items|
  {
    if |items| > 0 {
      UserVisitsLength(u, items[..|items| - 1], numNeg);
      MulSucc(numNeg, |items| - 1);
    }
  }

  /** One epoch makes `numNeg` pair updates per rated item of every user. */
  lemma {:induction false} ScheduleLength(rated: Rated, n: nat, numNeg: nat)
    requires HasUsers(rated, n)
    ensures |Schedule(rated, n, numNeg)| == numNeg * TotalRated(rated, n)
  {
    if n > 0 {
      ScheduleNext(rated, n - 1, numNeg);
      ScheduleLength(rated, n - 1, numNeg);
      UserVisitsLength(n - 1, rated[n - 1], numNeg);
      MulAdd(numNeg, TotalRated(rated, n - 1), |rated[n - 1]|);
    }
  }

  /** Visits `numNeg * p` to `numNeg * p + numNeg - 1` of a user all pair the
      user with its item at position `p`: each item's visits are consecutive
      and the items keep their order. */
  lemma {:induction false} UserVisitsAt(u: nat, items: seq<nat>, numNeg: nat, p: nat, r: nat)
    requires p < |items| && r < numNeg
    ensures var visits := UserVisits(u, items, numNeg);
      numNeg * p + r < |visits| && visits[numNeg * p + r] == Visit(u, items[p])
    decreases |items|
  {
    var m := |items| - 1;
    var front := items[..m];
    UserVisitsLength(u, items, numNeg);
    UserVisitsLength(u, front, numNeg);
    MulSucc(numNeg, p);
    if p < m {
      UserVisitsAt(u, front, numNeg, p, r);
      MulMono(numNeg, p + 1, m);
    } else {
      MulSucc(numNeg, m);
    }
  }

  /** The schedule for `n` users visits only users below `n`, in ascending
      order. */
  lemma {:induction false} ScheduleUsersAscending(rated: Rated, n: nat, numNeg: nat)
    requires HasUsers(rated, n)
    ensures forall q :: 0 <= q < |Schedule(rated, n, numNeg)| ==> Schedule(rated, n, numNeg)[q].uid < n
    ensures forall q1, q2 :: 0 <= q1 <= q2 < |Schedule(rated, n, numNeg)| ==>
              Schedule(rated, n, numNeg)[q1].uid <= Schedule(rated, n, numNeg)[q2].uid
  {
    if n > 0 {
      var sched := Schedule(rated, n, numNeg);
      var front := Schedule(rated, n - 1, numNeg);
      var last := UserVisits(n - 1, rated[n - 1], numNeg);
      ScheduleNext(rated, n - 1, numNeg);
      ScheduleUsersAscending(rated, n - 1, numNeg);
      UserVisitsOfUser(n - 1, rated[n - 1], numNeg);
      forall q | 0 <= q < |sched| ensures sched[q].uid < n {
        if q < |front| {
          assert sched[q] == front[q];
        } else {
          assert sched[q] == last[q - |front|];
        }
      }
      forall q1, q2 | 0 <= q1 <= q2 < |sched| ensures sched[q1].uid <= sched[q2].uid {
        if q2 < |front| {
          assert sched[q1] == front[q1] && sched[q2] == front[q2];
        } else if q1 < |front| {
          assert sched[q1] == front[q1] && sched[q2] == last[q2 - |front|];
        } else {
          assert sched[q1] == last[q1 - |front|] && sched[q2] == last[q2 - |front|];
        }
      }
    }
  }

  /** Every visit of a user's visits is for that user. */
  lemma {:induction false} UserVisitsOfUser(u: nat, items: seq<nat>, numNeg: nat)
    ensures forall q :: 0 <= q < |UserVisits(u, items, numNeg)| ==> UserVisits(u, items, numNeg)[q].uid == u
    decreases |items|
  {
    if |items| > 0 {
      UserVisitsOfUser(u, items[..|items| - 1], numNeg);
    }
  }

  /** No value occurs twice. */
  predicate Distinct(items: seq<nat>)
  {
    forall p, q :: 0 <= p < q < |items| ==> items[p] != items[q]
  }

  /** Every user below `n` has rated each of its items once, as the keys of a
      map are. */
  predicate DistinctItems(rated: Rated, n: nat)
    requires HasUsers(rated, n)
  {
    forall u :: 0 <= u < n ==> Distinct(rated[u])
  }

  /** Visits of `v` in `s`. */
  function Count(s: seq<Visit>, v: Visit): nat
  {
    if |s| == 0 then 0 else Count(s[..|s| - 1], v) + (if s[|s| - 1] == v then 1 else 0)
  }

  lemma {:induction false} CountAppend(a: seq<Visit>, b: seq<Visit>, v: Visit)
    ensures Count(a + b, v) == Count(a, v) + Count(b, v)
    decreases |b|
  {
    if |b| > 0 {
      var m := |b| - 1;
      assert (a + b)[..|a + b| - 1] == a + b[..m];
      assert (a + b)[|a + b| - 1] == b[m];
      CountAppend(a, b[..m], v);
    } else {
      assert a + b == a;
    }
  }

  lemma {:induction false} CountMultiplicity(s: seq<Visit>, v: Visit)
    ensures Count(s, v) == multiset(s)[v]
    decreases |s|
  {
    if |s| > 0 {
      var m := |s| - 1;
      assert s == s[..m] + [s[m]];
      CountMultiplicity(s[..m], v);
    }
  }

  lemma {:induction false} RepeatCount(x: Visit, n: nat, v: Visit)
    ensures Count(Repeat(x, n), v) == if v == x then n else 0
  {
    if n > 0 {
      assert Repeat(x, n)[..n - 1] == Repeat(x, n - 1);
      RepeatCount(x, n - 1, v);
    }
  }

  /** A user's visits hold `numNeg` visits of each of its rated items and no
      visit of another pair. */
  lemma {:induction false} UserVisitsCount(u: nat, items: seq<nat>, numNeg: nat, v: Visit)
    requires Distinct(items)
    ensures Count(UserVisits(u, items, numNeg), v) == if v.uid == u && v.iid in items then numNeg else 0
    decreases |items|
  {
    if |items| > 0 {
      var m := |items| - 1;
      var front, x := items[..m], items[m];
      assert items == front + [x];
      assert Distinct(front);
      assert x !in front;
      UserVisitsCount(u, front, numNeg, v);
      RepeatCount(Visit(u, x), numNeg, v);
      CountAppend(UserVisits(u, front, numNeg), Repeat(Visit(u, x), numNeg), v);
    }
  }

  /** A user's visits hold no visit of another user. */
  lemma {:induction false} UserVisitsCountOther(u: nat, items: seq<nat>, numNeg: nat, v: Visit)
    requires v.uid != u
    ensures Count(UserVisits(u, items, numNeg), v) == 0
    decreases |items|
  {
    if |items| > 0 {
      var m := |items| - 1;
      var front, x := items[..m], items[m];
      UserVisitsCountOther(u, front, numNeg, v);
      RepeatCount(Visit(u, x), numNeg, v);
      CountAppend(UserVisits(u, front, numNeg), Repeat(Visit(u, x), numNeg), v);
    }
  }

  /** The schedule for users below `n` does not visit user `n` or later. */
  lemma {:induction false} ScheduleCountLater(rated: Rated, n: nat, numNeg: nat, v: Visit)
    requires HasUsers(rated, n) && n <= v.uid
    ensures Count(Schedule(rated, n, numNeg), v) == 0
  {
    if n > 0 {
      ScheduleNext(rated, n - 1, numNeg);
      ScheduleCountLater(rated, n - 1, numNeg, v);
      UserVisitsCountOther(n - 1, rated[n - 1], numNeg, v);
      CountAppend(Schedule(rated, n - 1, numNeg), UserVisits(n - 1, rated[n - 1], numNeg), v);
    }
  }

  /** Users after `u` add no visit of `u`. */
  lemma {:induction false} ScheduleCountPrefix(rated: Rated, n: nat, numNeg: nat, v: Visit)
    requires HasUsers(rated, n) && v.uid < n
    ensures Count(Schedule(rated, n, numNeg), v) == Count(Schedule(rated, v.uid + 1, numNeg), v)
  {
    if v.uid + 1 < n {
      ScheduleCountOther(rated, n - 1, numNeg, v);
      ScheduleCountPrefix(rated, n - 1, numNeg, v);
    }
  }

  /** User `u` adds no visit of another user. */
  lemma ScheduleCountOther(rated: Rated, u: nat, numNeg: nat, v: Visit)
    requires HasUsers(rated, u + 1) && v.uid != u
    ensures Count(Schedule(rated, u + 1, numNeg), v) == Count(Schedule(rated, u, numNeg), v)
  {
    ScheduleNext(rated, u, numNeg);
    CountAppend(Schedule(rated, u, numNeg), UserVisits(u, rated[u], numNeg), v);
    UserVisitsCountOther(u, rated[u], numNeg, v);
  }

  /** User `u`'s own visits, which come after those of the users before it. */
  lemma ScheduleCountOwn(rated: Rated, u: nat, i: nat, numNeg: nat)
    requires HasUsers(rated, u + 1) && Distinct(rated[u])
    ensures Count(Schedule(rated, u + 1, numNeg), Visit(u, i)) == if i in rated[u] then numNeg else 0
  {
    var v := Visit(u, i);
    ScheduleNext(rated, u, numNeg);
    CountAppend(Schedule(rated, u, numNeg), UserVisits(u, rated[u], numNeg), v);
    ScheduleCountLater(rated, u, numNeg, v);
    UserVisitsCount(u, rated[u], numNeg, v);
  }

  /** In one epoch, each pair of a user below `n` and one of its rated items
      is visited exactly `numNeg` times, and no other pair is visited. */
  lemma ScheduleCount(rated: Rated, n: nat, numNeg: nat, v: Visit)
    requires HasUsers(rated, n) && DistinctItems(rated, n)
    ensures multiset(Schedule(rated, n, numNeg))[v] ==
            if v.uid < n && v.iid in rated[v.uid] then numNeg else 0
  {
    CountMultiplicity(Schedule(rated, n, numNeg), v);
    if v.uid < n {
      ScheduleCountPrefix(rated, n, numNeg, v);
      ScheduleCountOwn(rated, v.uid, v.iid, numNeg);
    } else {
      ScheduleCountLater(rated, n, numNeg, v);
    }
  }

  /** Call `c` is the update the epoch makes at visit `v`: label `1.0` and a
      negative item in range that `v`'s user has not rated. */
  predicate CallFollows(c: Call, v: Visit, rated: Rated, numItems: nat)
  {
    c.uid == v.uid && c.iid == v.iid && c.rui == 1.0 &&
    c.jid < numItems && v.uid in rated && c.jid !in rated[v.uid]
  }

  /** The calls of `t` are, one for one, the visits of `sched`. */
  predicate Follows(t: seq<Call>, sched: seq<Visit>, rated: Rated, numItems: nat)
  {
    |t| == |sched| && forall q :: 0 <= q < |t| ==> CallFollows(t[q], sched[q], rated, numItems)
  }

  lemma FollowsSnoc(t: seq<Call>, sched: seq<Visit>, rated: Rated, numItems: nat, c: Call, v: Visit)
    requires Follows(t, sched, rated, numItems) && CallFollows(c, v, rated, numItems)
    ensures Follows(t + [c], sched + [v], rated, numItems)
  {
  }

  lemma FollowsAppend(t1: seq<Call>, s1: seq<Visit>, t2: seq<Call>, s2: seq<Visit>, rated: Rated, numItems: nat)
    requires Follows(t1, s1, rated, numItems) && Follows(t2, s2, rated, numItems)
    ensures Follows(t1 + t2, s1 + s2, rated, numItems)
  {
  }

  /** The (user, positive item) pair of each call of a trace. */
  function Visits(t: seq<Call>): (r: seq<Visit>)
    ensures |r| == |t|
    ensures forall q :: 0 <= q < |t| ==> r[q] == Visit(t[q].uid, t[q].iid)
  {
    seq(|t|, q requires 0 <= q < |t| => Visit(t[q].uid, t[q].iid))
  }

  lemma FollowsVisits(t: seq<Call>, sched: seq<Visit>, rated: Rated, numItems: nat)
    requires Follows(t, sched, rated, numItems)
    ensures Visits(t) == sched
  {
  }

  /** A trace that follows the schedule of users `0 .. n - 1` makes
      `numNeg * TotalRated(rated, n)` calls, in ascending user order, with
      each (user, rated item) pair exactly `numNeg` times and no other pair,
      every call labelled `1.0` with a negative item in range that its user
      has not rated. */
  lemma EpochTrace(t: seq<Call>, rated: Rated, n: nat, numNeg: nat, numItems: nat)
    requires HasUsers(rated, n) && DistinctItems(rated, n)
    requires Follows(t, Schedule(rated, n, numNeg), rated, numItems)
    ensures |t| == numNeg * TotalRated(rated, n)
    ensures forall q1, q2 :: 0 <= q1 <= q2 < |t| ==> t[q1].uid <= t[q2].uid
    ensures forall v :: multiset(Visits(t))[v] == if v.uid < n && v.iid in rated[v.uid] then numNeg else 0
    ensures forall q :: 0 <= q < |t| ==>
              t[q].uid < n && t[q].rui == 1.0 && t[q].jid < numItems && t[q].jid !in rated[t[q].uid]
  {
    var sched := Schedule(rated, n, numNeg);
    ScheduleLength(rated, n, numNeg);
    ScheduleUsersAscending(rated, n, numNeg);
    FollowsVisits(t, sched, rated, numItems);
    forall v ensures multiset(Visits(t))[v] == if v.uid < n && v.iid in rated[v.uid] then numNeg else 0 {
      ScheduleCount(rated, n, numNeg, v);
    }
    forall q1, q2 | 0 <= q1 <= q2 < |t| ensures t[q1].uid <= t[q2].uid {
      assert t[q1].uid == sched[q1].uid && t[q2].uid == sched[q2].uid;
    }
  }

  /** In a trace that follows the epoch schedule, every positive item is one
      its user rated, so the negative item drawn beside it always differs from
      it. */
  lemma EpochDistinctItems(t: seq<Call>, rated: Rated, n: nat, numNeg: nat, numItems: nat)
    requires HasUsers(rated, n) && DistinctItems(rated, n)
    requires Follows(t, Schedule(rated, n, numNeg), rated, numItems)
    ensures forall q :: 0 <= q < |t| ==> t[q].iid in rated[t[q].uid] && t[q].jid != t[q].iid
  {
    EpochTrace(t, rated, n, numNeg, numItems);
    forall q | 0 <= q < |t| ensures t[q].iid in rated[t[q].uid] && t[q].jid != t[q].iid {
      var v := Visits(t)[q];
      assert v in multiset(Visits(t));
    }
  }

  /** The smallest user id below `n` without a rated-item entry, if any. */
  function FirstMissing(rated: Rated, n: nat): (m: nat)
    ensures m <= n && HasUsers(rated, m)
    ensures m < n ==> m !in rated
  {
    if n == 0 then 0
    else
      var m := FirstMissing(rated, n - 1);
      if m < n - 1 then m else if n - 1 in rated then n else n - 1
  }

  /** A user whose entry and those of all users before it exist lies before
      the first missing entry. */
  lemma FirstMissingAbove(rated: Rated, n: nat, u: nat)
    requires u < n && HasUsers(rated, u + 1)
    ensures u < FirstMissing(rated, n)
  {
  }

  /** `FirstMissing` is the one id below or at `n` such that every user
      before it has an entry and, unless it is `n`, it has none. */
  lemma {:induction false} FirstMissingIs(rated: Rated, n: nat, m: nat)
    requires m <= n && HasUsers(rated, m) && (m < n ==> m !in rated)
    ensures FirstMissing(rated, n) == m
  {
    if n > 0 {
      FirstMissingIs(rated, n - 1, if m < n - 1 then m else n - 1);
    }
  }

  /** With `numItems` ids in range and fewer distinct rated items than that,
      some id in range is not rated, so the negative sampler can succeed. */
  lemma {:induction false} ExistsNegative(items: seq<nat>, numItems: nat)
    requires Distinct(items) && |items| < numItems
    ensures exists j :: 0 <= j < numItems && j !in items
    decreases numItems
  {
    var top := numItems - 1;
    if top in items {
      var p :| 0 <= p < |items| && items[p] == top;
      var rest := items[..p] + items[p + 1..];
      assert forall q :: 0 <= q < |rest| ==> rest[q] == if q < p then items[q] else items[q + 1];
      assert Distinct(rest);
      ExistsNegative(rest, top);
      var j :| 0 <= j < top && j !in rest;
      forall q | 0 <= q < |items| && q != p ensures items[q] in rest {
        assert rest[if q < p then q else q - 1] == items[q];
      }
      assert j !in items;
    } else {
      assert 0 <= top < numItems && top !in items;
    }
  }

  /** The one-user scenario: a user who rated item 0 of three, with two
      negatives per item, gets two updates for item 0, each with a negative
      item among 1 and 2. */
  lemma OneUserScenario(t: seq<Call>)
    requires Follows(t, Schedule(map[0 := [0]], 1, 2), map[0 := [0]], 3)
    ensures |t| == 2
    ensures forall q :: 0 <= q < 2 ==> t[q].uid == 0 && t[q].iid == 0 && (t[q].jid == 1 || t[q].jid == 2)
  {
    var rated := map[0 := [0]];
    ScheduleNext(rated, 0, 2);
    assert Schedule(rated, 1, 2) == [Visit(0, 0), Visit(0, 0)];
  }
}
