/** The trainer object `BPR`: the parameter store held in arrays that are
    updated in place, `train_one_pair` and `train_one_iteration`. */
module Trainer {
  import opened Rows
  import opened Spec
  import opened Epoch

  /** How an epoch ends: it walks every user, or it stops at the first user
      without a rated-item entry, where the source's `CHECK` is fatal. */
  datatype EpochStatus = Completed | MissingRatedItems(uid: nat)

  /** Every user's rated items are distinct item ids in range. */
  predicate RatedWellFormed(rated: Rated, numItems: nat)
  {
    forall u :: u in rated ==> Distinct(rated[u]) && forall p :: 0 <= p < |rated[u]| ==> rated[u][p] < numItems
  }

  /** Every user the epoch reaches (those before the first missing entry)
      that has rated items leaves some item unrated, so a negative item can
      be drawn for it whenever one is drawn at all (`numNeg > 0`). */
  predicate LeavesNegatives(rated: Rated, numUsers: nat, numItems: nat, numNeg: nat)
  {
    forall u :: 0 <= u < FirstMissing(rated, numUsers) && 0 < numNeg && 0 < |rated[u]| ==> |rated[u]| < numItems
  }

  /** `sample_negative_item(item_map)`: some item id in range that the
      user has not rated. Which one is drawn is left open. */
  method SampleNegativeItem(items: seq<nat>, numItems: nat) returns (jid: nat)
    requires Distinct(items) && |items| < numItems
    ensures jid < numItems && jid !in items
  {
    ExistsNegative(items, numItems);
    jid :| jid < numItems && jid !in items;
  }

  /** Fresh, distinct arrays holding the four row matrices. */
  method RowArrays(a: seq<Vector>, b: seq<Vector>, c: seq<Vector>, d: seq<Vector>)
    returns (x: array<Vector>, y: array<Vector>, z: array<Vector>, w: array<Vector>)
    ensures fresh(x) && fresh(y) && fresh(z) && fresh(w)
    ensures x != y && x != z && x != w && y != z && y != w && z != w
    ensures x[..] == a && y[..] == b && z[..] == c && w[..] == d
  {
    x := new Vector[|a|](k requires 0 <= k < |a| => a[k]);
    y := new Vector[|b|](k requires 0 <= k < |b| => b[k]);
    z := new Vector[|c|](k requires 0 <= k < |c| => c[k]);
    w := new Vector[|d|](k requires 0 <= k < |d| => d[k]);
  }

  /** Fresh, distinct arrays holding the two bias vectors. */
  method RealArrays(a: seq<real>, b: seq<real>) returns (x: array<real>, y: array<real>)
    ensures fresh(x) && fresh(y) && x != y && x[..] == a && y[..] == b
  {
    x := new real[|a|](k requires 0 <= k < |a| => a[k]);
    y := new real[|b|](k requires 0 <= k < |b| => b[k]);
  }

  class Bpr {
    const cfg: BprConfig
    const co: Collaborators
    /** One array element per row of the Eigen matrices `uv_`, `iv_`,
        `uv_ag_`, `iv_ag_`; `ib` and `ibAg` are the vectors `ib_`, `ib_ag_`. */
    var uv: array<Vector>
    var iv: array<Vector>
    var ib: array<real>
    var uvAg: array<Vector>
    var ivAg: array<Vector>
    var ibAg: array<real>
    /** `user_rated_items_`: each user's rated items in iteration order. */
    var ratedItems: Rated

    /** The store the arrays hold. */
    function Snapshot(): Store
      reads this, uv, iv, ib, uvAg, ivAg, ibAg
    {
      Store(uv[..], iv[..], ib[..], uvAg[..], ivAg[..], ibAg[..])
    }

    predicate Valid()
      reads this, uv, iv, ib, uvAg, ivAg, ibAg
    {
      uv != iv && uv != uvAg && uv != ivAg && iv != uvAg && iv != ivAg && uvAg != ivAg && ib != ibAg &&
      WellShaped(Snapshot(), cfg.numDim) &&
      RatedWellFormed(ratedItems, iv.Length)
    }

    /** `BPR(const BPRConfig&)` with the collaborators it calls; the store is
        empty until `Reset`. */
    constructor (mcfg: BprConfig, collaborators: Collaborators)
      ensures cfg == mcfg && co == collaborators && Valid()
      ensures Snapshot() == Store([], [], [], [], [], []) && ratedItems == map[]
    {
      cfg := mcfg;
      co := collaborators;
      uv := new Vector[0];
      iv := new Vector[0];
      ib := new real[0];
      uvAg := new Vector[0];
      ivAg := new Vector[0];
      ibAg := new real[0];
      ratedItems := map[];
    }

    /** `reset`: installs the store and the rated items that `IMF::reset`
        builds from a data set. */
    method Reset(s: Store, rated: Rated)
      requires WellShaped(s, cfg.numDim) && RatedWellFormed(rated, |s.iv|)
      modifies this
      ensures Valid() && Snapshot() == s && ratedItems == rated
      ensures fresh(uv) && fresh(iv) && fresh(ib) && fresh(uvAg) && fresh(ivAg) && fresh(ibAg)
    {
      uv, iv, uvAg, ivAg := RowArrays(s.uv, s.iv, s.uvAg, s.ivAg);
      ib, ibAg := RealArrays(s.ib, s.ibAg);
      ratedItems := rated;
    }

    /** The bias half of the AdaGrad block: both bias accumulators grow by
        the squares of their gradients, then each bias gradient is divided
        by `beta` plus the square root of its accumulator. */
    method AdaGradBiasStep(iid: nat, jid: nat, ibGrad: real, jbGrad: real) returns (ibScaled: real, jbScaled: real)
      requires iid < ibAg.Length && jid < ibAg.Length
      modifies ibAg
      ensures (ibAg[..], ibScaled, jbScaled) == AdaGradBias(cfg.beta, co.sqrt, old(ibAg[..]), ibGrad, jbGrad, iid, jid)
    {
      ibAg[iid] := ibAg[iid] + ibGrad * ibGrad;
      ibAg[jid] := ibAg[jid] + jbGrad * jbGrad;
      ibScaled := Quot(ibGrad, cfg.beta + co.sqrt(ibAg[iid]));
      jbScaled := Quot(jbGrad, cfg.beta + co.sqrt(ibAg[jid]));
    }

    /** The row half of the AdaGrad accumulation: `uv_ag_.row(uid)`,
        `iv_ag_.row(iid)` and `iv_ag_.row(jid)` grow by the squares of their
        gradients, in that order. */
    method AccumulateRows(uid: nat, iid: nat, jid: nat, g: Grads)
      requires uvAg != ivAg && uid < uvAg.Length && iid < ivAg.Length && jid < ivAg.Length
      requires |uvAg[uid]| == |g.uv| && |ivAg[iid]| == |g.iv| && |ivAg[jid]| == |g.jv|
      modifies uvAg, ivAg
      ensures uvAg[..] == old(uvAg[..])[uid := Accumulate(old(uvAg[uid]), g.uv)]
      ensures var ivAg1 := old(ivAg[..])[iid := Accumulate(old(ivAg[iid]), g.iv)];
        ivAg[..] == ivAg1[jid := Accumulate(ivAg1[jid], g.jv)]
    {
      uvAg[uid] := Accumulate(uvAg[uid], g.uv);
      ivAg[iid] := Accumulate(ivAg[iid], g.iv);
      ivAg[jid] := Accumulate(ivAg[jid], g.jv);
    }

    /** The AdaGrad block of `train_one_pair` for the raw gradients `g`:
        the accumulators grow in place and the rescaled gradients come back. */
    method AdaGradStep(uid: nat, iid: nat, jid: nat, g: Grads) returns (e: Grads)
      requires Valid() && uid < uv.Length && iid < iv.Length && jid < iv.Length
      requires |g.uv| == |g.iv| == |g.jv| == cfg.numDim
      modifies uvAg, ivAg, ibAg
      ensures Valid()
      ensures (Snapshot(), e) == AdaGrad(cfg, co.sqrt, old(Snapshot()), g, uid, iid, jid)
    {
      var ibGrad, jbGrad := g.ib, g.jb;
      if cfg.usingBiasTerm {
        ibGrad, jbGrad := AdaGradBiasStep(iid, jid, ibGrad, jbGrad);
      }
      AccumulateRows(uid, iid, jid, g);
      var uvGrad := Rescale(g.uv, uvAg[uid], cfg.beta, co.sqrt);
      var ivGrad := Rescale(g.iv, ivAg[iid], cfg.beta, co.sqrt);
      var jvGrad := Rescale(g.jv, ivAg[jid], cfg.beta, co.sqrt);
      e := Grads(ibGrad, jbGrad, uvGrad, ivGrad, jvGrad);
    }

    /** The bias half of the descent step: `ib_(iid)`, then `ib_(jid)`,
        each moves against its gradient. */
    method DescendBiasStep(lr: real, iid: nat, jid: nat, ibGrad: real, jbGrad: real)
      requires iid < ib.Length && jid < ib.Length
      modifies ib
      ensures ib[..] == DescendBias(lr, old(ib[..]), ibGrad, jbGrad, iid, jid)
    {
      ib[iid] := ib[iid] - lr * ibGrad;
      ib[jid] := ib[jid] - lr * jbGrad;
    }

    /** The row half of the descent step: `uv_.row(uid)`, `iv_.row(iid)`,
        `iv_.row(jid)` each move against their gradients, in that order. */
    method DescendRows(uid: nat, iid: nat, jid: nat, g: Grads)
      requires uv != iv && uid < uv.Length && iid < iv.Length && jid < iv.Length
      requires |uv[uid]| == |g.uv| && |iv[iid]| == |g.iv| && |iv[jid]| == |g.jv|
      modifies uv, iv
      ensures uv[..] == old(uv[..])[uid := Step(old(uv[uid]), cfg.learnRate, g.uv)]
      ensures var iv1 := old(iv[..])[iid := Step(old(iv[iid]), cfg.learnRate, g.iv)];
        iv[..] == iv1[jid := Step(iv1[jid], cfg.learnRate, g.jv)]
    {
      var lr := cfg.learnRate;
      uv[uid] := Step(uv[uid], lr, g.uv);
      iv[iid] := Step(iv[iid], lr, g.iv);
      iv[jid] := Step(iv[jid], lr, g.jv);
    }

    /** The descent step of `train_one_pair`: each touched parameter moves
        against the gradient `g`, the biases only with the bias term. */
    method DescendStep(uid: nat, iid: nat, jid: nat, g: Grads)
      requires Valid() && uid < uv.Length && iid < iv.Length && jid < iv.Length
      requires |g.uv| == |g.iv| == |g.jv| == cfg.numDim
      modifies uv, iv, ib
      ensures Valid()
      ensures Snapshot() == Descend(cfg, old(Snapshot()), g, uid, iid, jid)
    {
      if cfg.usingBiasTerm {
        DescendBiasStep(cfg.learnRate, iid, jid, g.ib, g.jb);
      }
      DescendRows(uid, iid, jid, g);
    }

    /** The first half of `train_one_pair`: the loss gradient of the
        predicted margin and the five raw gradients, all read from the store
        at entry. */
    method PairGradients(uid: nat, iid: nat, jid: nat, rui: real) returns (gradient: real, g: Grads)
      requires Valid() && uid < uv.Length && iid < iv.Length && jid < iv.Length
      ensures gradient == LossGradient(co, Snapshot(), uid, iid, jid, rui)
      ensures g == RawGradients(cfg, Snapshot(), uid, iid, jid, gradient)
    {
      var predI := co.predict(Snapshot(), uid, iid);
      var predJ := co.predict(Snapshot(), uid, jid);
      gradient := co.gradient(predI - predJ, rui);

      var twoLambda := 2.0 * cfg.lambda;
      var ibGrad := gradient + twoLambda * ib[iid];
      var jbGrad := -gradient + twoLambda * ib[jid];
      var uvGrad := UserGradient(gradient, twoLambda, iv[iid], iv[jid], uv[uid]);
      var ivGrad := ItemGradient(gradient, twoLambda, uv[uid], iv[iid]);
      var jvGrad := ItemGradient(-gradient, twoLambda, uv[uid], iv[jid]);
      g := Grads(ibGrad, jbGrad, uvGrad, ivGrad, jvGrad);
    }

    /** `train_one_pair(uid, iid, jid, rui)`: the gradients from the store at
        entry, the AdaGrad block when it is on, then the descent step. */
    method TrainOnePair(uid: nat, iid: nat, jid: nat, rui: real)
      requires Valid() && uid < uv.Length && iid < iv.Length && jid < iv.Length
      modifies uv, iv, ib, uvAg, ivAg, ibAg
      ensures Valid()
      ensures Snapshot() == TrainPair(cfg, co, old(Snapshot()), uid, iid, jid, rui)
    {
      ghost var s0 := Snapshot();
      var gradient, g := PairGradients(uid, iid, jid, rui);
      ghost var p := Prepared(cfg, co.sqrt, s0, uid, iid, jid, gradient);
      if cfg.usingAdagrad {
        g := AdaGradStep(uid, iid, jid, g);
      }
      assert Snapshot() == p.0 && g == p.1;
      DescendStep(uid, iid, jid, g);
      assert Snapshot() == PairUpdate(cfg, co.sqrt, s0, uid, iid, jid, gradient);
    }

    /** The innermost loop of `train_one_iteration`: `num_neg` pair updates
        for user `uid` and its rated item `iid`, each with label `1.0` and a
        freshly drawn negative item. `calls` is the trace they make. */
    method TrainNegatives(uid: nat, iid: nat) returns (ghost calls: seq<Call>)
      requires Valid() && uid in ratedItems && (0 < cfg.numNeg ==> |ratedItems[uid]| < iv.Length)
      requires uid < uv.Length && iid < iv.Length
      modifies uv, iv, ib, uvAg, ivAg, ibAg
      ensures Valid()
      ensures Follows(calls, Repeat(Visit(uid, iid), cfg.numNeg), ratedItems, iv.Length)
      ensures Reaches(cfg, co, old(Snapshot()), calls, Snapshot())
    {
      ghost var s0 := Snapshot();
      var items := ratedItems[uid];
      calls := [];
      ReachesNone(cfg, co, s0);
      var idx := 0;
      while idx < cfg.numNeg
        invariant Valid() && idx <= cfg.numNeg
        invariant Follows(calls, Repeat(Visit(uid, iid), idx), ratedItems, iv.Length)
        invariant Reaches(cfg, co, s0, calls, Snapshot())
      {
        var jid := SampleNegativeItem(items, iv.Length);
        ghost var c := Call(uid, iid, jid, 1.0);
        ghost var mid := Snapshot();
        TrainOnePair(uid, iid, jid, 1.0);
        ReachesSnoc(cfg, co, s0, calls, mid, c);
        FollowsSnoc(calls, Repeat(Visit(uid, iid), idx), ratedItems, iv.Length, c, Visit(uid, iid));
        calls := calls + [c];
        idx := idx + 1;
      }
    }

    /** The body of the user loop of `train_one_iteration` for a user with a
        rated-item entry: its items in order, `num_neg` updates each. */
    method TrainUser(uid: nat) returns (ghost calls: seq<Call>)
      requires Valid() && uid in ratedItems && uid < uv.Length
      requires 0 < cfg.numNeg && 0 < |ratedItems[uid]| ==> |ratedItems[uid]| < iv.Length
      modifies uv, iv, ib, uvAg, ivAg, ibAg
      ensures Valid()
      ensures Follows(calls, UserVisits(uid, ratedItems[uid], cfg.numNeg), ratedItems, iv.Length)
      ensures Reaches(cfg, co, old(Snapshot()), calls, Snapshot())
    {
      ghost var s0 := Snapshot();
      var items := ratedItems[uid];
      calls := [];
      ReachesNone(cfg, co, s0);
      var p := 0;
      while p < |items|
        invariant Valid() && p <= |items|
        invariant Follows(calls, UserVisits(uid, items[..p], cfg.numNeg), ratedItems, iv.Length)
        invariant Reaches(cfg, co, s0, calls, Snapshot())
      {
        ghost var mid := Snapshot();
        var more := TrainNegatives(uid, items[p]);
        ReachesAppend(cfg, co, s0, calls, mid, more, Snapshot());
        FollowsAppend(calls, UserVisits(uid, items[..p], cfg.numNeg), more, Repeat(Visit(uid, items[p]), cfg.numNeg), ratedItems, iv.Length);
        UserVisitsPrefix(uid, items, p, cfg.numNeg);
        calls := calls + more;
        p := p + 1;
      }
      assert items[..p] == items;
    }

    /** `train_one_iteration`: users `0 .. num_users - 1` in ascending order,
        each rated item of each user in order, `num_neg` pair updates per
        item with label `1.0` and a freshly drawn negative item. The epoch
        stops at the first user without a rated-item entry. The ghost result
        `t` is the trace of pair updates made. */
    method TrainOneIteration() returns (status: EpochStatus, ghost t: seq<Call>)
      requires Valid() && LeavesNegatives(ratedItems, uv.Length, iv.Length, cfg.numNeg)
      modifies uv, iv, ib, uvAg, ivAg, ibAg
      ensures Valid()
      ensures status == if FirstMissing(ratedItems, uv.Length) < uv.Length
                        then MissingRatedItems(FirstMissing(ratedItems, uv.Length)) else Completed
      ensures Follows(t, Schedule(ratedItems, FirstMissing(ratedItems, uv.Length), cfg.numNeg), ratedItems, iv.Length)
      ensures Reaches(cfg, co, old(Snapshot()), t, Snapshot())
    {
      ghost var s0 := Snapshot();
      t := [];
      ReachesNone(cfg, co, s0);
      var uid := 0;
      while uid < uv.Length && uid in ratedItems
        invariant Valid() && uid <= uv.Length && HasUsers(ratedItems, uid)
        invariant Follows(t, Schedule(ratedItems, uid, cfg.numNeg), ratedItems, iv.Length)
        invariant Reaches(cfg, co, s0, t, Snapshot())
      {
        FirstMissingAbove(ratedItems, uv.Length, uid);
        ghost var mid := Snapshot();
        var more := TrainUser(uid);
        ScheduleNext(ratedItems, uid, cfg.numNeg);
        ReachesAppend(cfg, co, s0, t, mid, more, Snapshot());
        FollowsAppend(t, Schedule(ratedItems, uid, cfg.numNeg), more, UserVisits(uid, ratedItems[uid], cfg.numNeg), ratedItems, iv.Length);
        t := t + more;
        uid := uid + 1;
      }
      // The loop stops at the first user without an entry, or after the last user.
      FirstMissingIs(ratedItems, uv.Length, uid);
      status := if uid < uv.Length then MissingRatedItems(uid) else Completed;
    }
  }
}
