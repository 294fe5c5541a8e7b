/** The parameter store of the BPR trainer and the pure meaning of one pairwise
    update (`BPR::train_one_pair`) and of a sequence of them. The class in
    `Trainer` is proved to change its arrays exactly as `PairUpdate` says. */
module Spec {
  import opened Rows

  /** Tags chosen by `BPRConfig::lt` and `BPRConfig::pt`. Only the defaults
      named by the trainer are spelled out; the loss library is not part of
      this model. */
  datatype LossType = LOG | OtherLoss(code: nat)
  datatype PenaltyType = L2 | OtherPenalty(code: nat)

  /** `BPRConfig`. */
  datatype BprConfig = BprConfig(
    learnRate: real,
    beta: real,
    lambda: real,
    lt: LossType,
    pt: PenaltyType,
    numDim: nat,
    numNeg: nat,
    usingBiasTerm: bool,
    usingAdagrad: bool)

  /** The defaults of `BPRConfig`. */
  const DefaultConfig := BprConfig(0.1, 1.0, 0.01, LOG, L2, 10, 5, true, true)

  /** The id-indexed parameter store of the base factorisation model:
      user rows `uv`, item rows `iv`, item biases `ib`, and the AdaGrad
      accumulators `uvAg`, `ivAg`, `ibAg` that shadow them. */
  datatype Store = Store(
    uv: seq<Vector>,
    iv: seq<Vector>,
    ib: seq<real>,
    uvAg: seq<Vector>,
    ivAg: seq<Vector>,
    ibAg: seq<real>)

  /** The code the trainer calls but that is not part of this model:
      the gradient of the configured loss (`loss_->gradient(margin, label)`),
      the base model's prediction (`predict_user_item_rating`, any function of
      the store and the two ids) and `std::sqrt`. */
  datatype Collaborators = Collaborators(
    gradient: (real, real) -> real,
    predict: (Store, nat, nat) -> real,
    sqrt: real -> real)

  /** The five gradients of one pairwise update. */
  datatype Grads = Grads(ib: real, jb: real, uv: Vector, iv: Vector, jv: Vector)

  predicate RowsHaveDim(rows: seq<Vector>, d: nat)
  {
    forall r :: 0 <= r < |rows| ==> |rows[r]| == d
  }

  /** Every accumulator mirrors the shape of the parameter it shadows, and
      every row has the latent dimension. */
  predicate WellShaped(s: Store, d: nat)
  {
    |s.uvAg| == |s.uv| && |s.ivAg| == |s.iv| && |s.ib| == |s.iv| && |s.ibAg| == |s.iv| &&
    RowsHaveDim(s.uv, d) && RowsHaveDim(s.iv, d) && RowsHaveDim(s.uvAg, d) && RowsHaveDim(s.ivAg, d)
  }

  predicate RowsNonNeg(rows: seq<Vector>)
  {
    forall r :: 0 <= r < |rows| ==> NonNeg(rows[r])
  }

  /** Accumulators of squared gradients are never negative. */
  predicate AccNonNeg(s: Store)
  {
    RowsNonNeg(s.uvAg) && RowsNonNeg(s.ivAg) && forall i :: 0 <= i < |s.ibAg| ==> 0.0 <= s.ibAg[i]
  }

  /** Every accumulator coordinate of `s` is at most the same coordinate of `t`. */
  predicate AccLe(s: Store, t: Store)
  {
    |s.uvAg| == |t.uvAg| && |s.ivAg| == |t.ivAg| && |s.ibAg| == |t.ibAg| &&
    (forall u :: 0 <= u < |s.uvAg| ==> Le(s.uvAg[u], t.uvAg[u])) &&
    (forall i :: 0 <= i < |s.ivAg| ==> Le(s.ivAg[i], t.ivAg[i])) &&
    (forall i :: 0 <= i < |s.ibAg| ==> s.ibAg[i] <= t.ibAg[i])
  }

  predicate InRange(s: Store, uid: nat, iid: nat, jid: nat)
  {
    uid < |s.uv| && iid < |s.iv| && jid < |s.iv|
  }

  /** `loss_->gradient(pred_i - pred_j, rui)` on the store at entry. */
  function LossGradient(co: Collaborators, s: Store, uid: nat, iid: nat, jid: nat, rui: real): real
  {
    co.gradient(co.predict(s, uid, iid) - co.predict(s, uid, jid), rui)
  }

  /** `gradient * (iv_.row(iid) - iv_.row(jid)) + 2 * lambda * uv_.row(uid)`. */
  function UserGradient(gradient: real, twoLambda: real, vi: Vector, vj: Vector, u: Vector): (r: Vector)
    requires |vi| == |vj| == |u|
    ensures |r| == |u|
  {
    seq(|u|, k => if 0 <= k < |u| then gradient * (vi[k] - vj[k]) + twoLambda * u[k] else 0.0)
  }

  /** `gradient * uv_.row(uid) + 2 * lambda * iv_.row(i)`; the negative item
      uses `-gradient`. */
  function ItemGradient(gradient: real, twoLambda: real, u: Vector, v: Vector): (r: Vector)
    requires |u| == |v|
    ensures |r| == |v|
  {
    seq(|v|, k => if 0 <= k < |v| then gradient * u[k] + twoLambda * v[k] else 0.0)
  }

  /** The five raw gradients for the loss gradient `gradient`, each the loss
      term plus the hard-coded L2 term `2 * lambda * parameter`, all read from
      the store `s` the update starts from. */
  function RawGradients(cfg: BprConfig, s: Store, uid: nat, iid: nat, jid: nat, gradient: real): (g: Grads)
    requires WellShaped(s, cfg.numDim) && InRange(s, uid, iid, jid)
    ensures |g.uv| == |g.iv| == |g.jv| == cfg.numDim
  {
    var twoLambda := 2.0 * cfg.lambda;
    Grads(gradient + twoLambda * s.ib[iid],
          -gradient + twoLambda * s.ib[jid],
          UserGradient(gradient, twoLambda, s.iv[iid], s.iv[jid], s.uv[uid]),
          ItemGradient(gradient, twoLambda, s.uv[uid], s.iv[iid]),
          ItemGradient(-gradient, twoLambda, s.uv[uid], s.iv[jid]))
  }

  /** The bias half of the AdaGrad block, run only with the bias term:
      `ib_ag_(iid) += ib_grad^2`, `ib_ag_(jid) += jb_grad^2`, then each bias
      gradient divided by `beta` plus the square root of its accumulator. */
  function AdaGradBias(beta: real, sqrt: real -> real, ibAg: seq<real>, ibGrad: real, jbGrad: real, iid: nat, jid: nat): (r: (seq<real>, real, real))
    requires iid < |ibAg| && jid < |ibAg|
    ensures |r.0| == |ibAg|
    ensures forall i :: 0 <= i < |ibAg| && i != iid && i != jid ==> r.0[i] == ibAg[i]
  {
    var a1 := ibAg[iid := ibAg[iid] + ibGrad * ibGrad];
    var a2 := a1[jid := a1[jid] + jbGrad * jbGrad];
    (a2, Quot(ibGrad, beta + sqrt(a2[iid])), Quot(jbGrad, beta + sqrt(a2[jid])))
  }

  /** The AdaGrad block: grow each touched accumulator by the square of its
      own gradient (the bias accumulators only with the bias term), then
      divide each gradient by `beta` plus the square root of its own grown
      accumulator. Returns the store with the new accumulators and the
      gradients to apply. */
  function AdaGrad(cfg: BprConfig, sqrt: real -> real, s: Store, g: Grads, uid: nat, iid: nat, jid: nat): (r: (Store, Grads))
    requires WellShaped(s, cfg.numDim) && InRange(s, uid, iid, jid)
    requires |g.uv| == |g.iv| == |g.jv| == cfg.numDim
    ensures WellShaped(r.0, cfg.numDim) && r.0.uv == s.uv && r.0.iv == s.iv && r.0.ib == s.ib
    ensures |r.1.uv| == |r.1.iv| == |r.1.jv| == cfg.numDim
    ensures !cfg.usingBiasTerm ==> r.0.ibAg == s.ibAg && r.1.ib == g.ib && r.1.jb == g.jb
  {
    var b := if cfg.usingBiasTerm then AdaGradBias(cfg.beta, sqrt, s.ibAg, g.ib, g.jb, iid, jid)
             else (s.ibAg, g.ib, g.jb);
    var uvAg1 := s.uvAg[uid := Accumulate(s.uvAg[uid], g.uv)];
    var ivAg1 := s.ivAg[iid := Accumulate(s.ivAg[iid], g.iv)];
    var ivAg2 := ivAg1[jid := Accumulate(ivAg1[jid], g.jv)];
    (s.(uvAg := uvAg1, ivAg := ivAg2, ibAg := b.0),
     Grads(b.1, b.2,
           Rescale(g.uv, uvAg1[uid], cfg.beta, sqrt),
           Rescale(g.iv, ivAg2[iid], cfg.beta, sqrt),
           Rescale(g.jv, ivAg2[jid], cfg.beta, sqrt)))
  }

  /** The store after the accumulator step and the gradients then applied. */
  function Prepared(cfg: BprConfig, sqrt: real -> real, s: Store, uid: nat, iid: nat, jid: nat, gradient: real): (r: (Store, Grads))
    requires WellShaped(s, cfg.numDim) && InRange(s, uid, iid, jid)
    ensures WellShaped(r.0, cfg.numDim) && r.0.uv == s.uv && r.0.iv == s.iv && r.0.ib == s.ib
    ensures |r.1.uv| == |r.1.iv| == |r.1.jv| == cfg.numDim
  {
    var g := RawGradients(cfg, s, uid, iid, jid, gradient);
    if cfg.usingAdagrad then AdaGrad(cfg, sqrt, s, g, uid, iid, jid) else (s, g)
  }

  /** The bias half of the descent step, run only with the bias term. */
  function DescendBias(lr: real, ib: seq<real>, ibGrad: real, jbGrad: real, iid: nat, jid: nat): (r: seq<real>)
    requires iid < |ib| && jid < |ib|
    ensures |r| == |ib|
    ensures forall i :: 0 <= i < |ib| && i != iid && i != jid ==> r[i] == ib[i]
  {
    var b1 := ib[iid := ib[iid] - lr * ibGrad];
    b1[jid := b1[jid] - lr * jbGrad]
  }

  /** The final descent step: each parameter minus `learnRate` times its
      gradient, the biases only with the bias term, in the source's order. */
  function Descend(cfg: BprConfig, s: Store, g: Grads, uid: nat, iid: nat, jid: nat): (r: Store)
    requires WellShaped(s, cfg.numDim) && InRange(s, uid, iid, jid)
    requires |g.uv| == |g.iv| == |g.jv| == cfg.numDim
    ensures WellShaped(r, cfg.numDim) && |r.uv| == |s.uv| && |r.iv| == |s.iv|
    ensures r.uvAg == s.uvAg && r.ivAg == s.ivAg && r.ibAg == s.ibAg
    ensures !cfg.usingBiasTerm ==> r.ib == s.ib
  {
    var lr := cfg.learnRate;
    var ib1 := if cfg.usingBiasTerm then DescendBias(lr, s.ib, g.ib, g.jb, iid, jid) else s.ib;
    var uv1 := s.uv[uid := Step(s.uv[uid], lr, g.uv)];
    var iv1 := s.iv[iid := Step(s.iv[iid], lr, g.iv)];
    var iv2 := iv1[jid := Step(iv1[jid], lr, g.jv)];
    s.(uv := uv1, iv := iv2, ib := ib1)
  }

  /** The store after `train_one_pair(uid, iid, jid, rui)` when the loss
      gradient of the margin is `gradient`. */
  function PairUpdate(cfg: BprConfig, sqrt: real -> real, s: Store, uid: nat, iid: nat, jid: nat, gradient: real): (r: Store)
    requires WellShaped(s, cfg.numDim) && InRange(s, uid, iid, jid)
    ensures WellShaped(r, cfg.numDim) && |r.uv| == |s.uv| && |r.iv| == |s.iv|
    ensures AccNonNeg(s) ==> AccNonNeg(r)
  {
    var p := Prepared(cfg, sqrt, s, uid, iid, jid, gradient);
    var r := Descend(cfg, p.0, p.1, uid, iid, jid);
    assert AccNonNeg(s) ==> AccNonNeg(r) by {
      if AccNonNeg(s) {
        PreparedAccNonNeg(cfg, sqrt, s, uid, iid, jid, gradient);
      }
    }
    r
  }

  lemma PreparedAccNonNeg(cfg: BprConfig, sqrt: real -> real, s: Store, uid: nat, iid: nat, jid: nat, gradient: real)
    requires WellShaped(s, cfg.numDim) && InRange(s, uid, iid, jid) && AccNonNeg(s)
    ensures AccNonNeg(Prepared(cfg, sqrt, s, uid, iid, jid, gradient).0)
  {
    if cfg.usingAdagrad {
      var g := RawGradients(cfg, s, uid, iid, jid, gradient);
      var t := AdaGrad(cfg, sqrt, s, g, uid, iid, jid).0;
      var ivAg1 := s.ivAg[iid := Accumulate(s.ivAg[iid], g.iv)];
      assert NonNeg(s.uvAg[uid]) && NonNeg(s.ivAg[iid]);
      AccumulateGrows(s.uvAg[uid], g.uv);
      AccumulateGrows(s.ivAg[iid], g.iv);
      assert NonNeg(ivAg1[jid]);
      AccumulateGrows(ivAg1[jid], g.jv);
      assert RowsNonNeg(t.uvAg);
      assert RowsNonNeg(t.ivAg);
      if cfg.usingBiasTerm {
        SquareNonNeg(g.ib);
        SquareNonNeg(g.jb);
      }
    }
  }

  /** `train_one_pair(uid, iid, jid, rui)` on store `s`: the loss gradient is
      taken of the margin predicted on `s` itself. */
  function TrainPair(cfg: BprConfig, co: Collaborators, s: Store, uid: nat, iid: nat, jid: nat, rui: real): (r: Store)
    requires WellShaped(s, cfg.numDim) && InRange(s, uid, iid, jid)
    ensures WellShaped(r, cfg.numDim) && |r.uv| == |s.uv| && |r.iv| == |s.iv|
    ensures AccNonNeg(s) ==> AccNonNeg(r)
  {
    PairUpdate(cfg, co.sqrt, s, uid, iid, jid, LossGradient(co, s, uid, iid, jid, rui))
  }

  /** One call of `train_one_pair` as recorded in a trace. */
  datatype Call = Call(uid: nat, iid: nat, jid: nat, rui: real)

  predicate CallsInRange(s: Store, t: seq<Call>)
  {
    forall p :: 0 <= p < |t| ==> InRange(s, t[p].uid, t[p].iid, t[p].jid)
  }

  /** The store after the calls of `t`, in order. */
  function ApplyCalls(cfg: BprConfig, co: Collaborators, s: Store, t: seq<Call>): (r: Store)
    requires WellShaped(s, cfg.numDim) && CallsInRange(s, t)
    ensures WellShaped(r, cfg.numDim) && |r.uv| == |s.uv| && |r.iv| == |s.iv|
    ensures AccNonNeg(s) ==> AccNonNeg(r)
    decreases |t|, 1
  {
    if |t| == 0 then s else ApplyLast(cfg, co, s, t)
  }

  /** The last call of a non-empty `t`, made on the store the others leave. */
  function ApplyLast(cfg: BprConfig, co: Collaborators, s: Store, t: seq<Call>): (r: Store)
    requires WellShaped(s, cfg.numDim) && CallsInRange(s, t) && |t| > 0
    ensures WellShaped(r, cfg.numDim) && |r.uv| == |s.uv| && |r.iv| == |s.iv|
    ensures AccNonNeg(s) ==> AccNonNeg(r)
    decreases |t|, 0
  {
    var c := t[|t| - 1];
    TrainPair(cfg, co, ApplyCalls(cfg, co, s, t[..|t| - 1]), c.uid, c.iid, c.jid, c.rui)
  }

  /** A non-empty trace ends with one pair update, made on the store that
      the calls before it leave. */
  lemma ApplyCallsLast(cfg: BprConfig, co: Collaborators, s: Store, t: seq<Call>)
    requires WellShaped(s, cfg.numDim) && CallsInRange(s, t) && |t| > 0
    ensures CallsInRange(s, t[..|t| - 1])
    ensures ApplyCalls(cfg, co, s, t) ==
            TrainPair(cfg, co, ApplyCalls(cfg, co, s, t[..|t| - 1]), t[|t| - 1].uid, t[|t| - 1].iid, t[|t| - 1].jid, t[|t| - 1].rui)
  {
    assert ApplyCalls(cfg, co, s, t) == ApplyLast(cfg, co, s, t);
  }

  /** One more call extends the trace by one pair update on the store the
      trace has produced so far. */
  lemma ApplyCallsSnoc(cfg: BprConfig, co: Collaborators, s: Store, t: seq<Call>, c: Call)
    requires WellShaped(s, cfg.numDim) && CallsInRange(s, t) && InRange(s, c.uid, c.iid, c.jid)
    ensures CallsInRange(s, t + [c])
    ensures ApplyCalls(cfg, co, s, t + [c]) == TrainPair(cfg, co, ApplyCalls(cfg, co, s, t), c.uid, c.iid, c.jid, c.rui)
  {
    assert (t + [c])[..|t|] == t;
    ApplyCallsLast(cfg, co, s, t + [c]);
  }

  /** Whether a call is in range depends only on the numbers of users and
      items. */
  lemma CallsInRangeAppend(s: Store, s': Store, t1: seq<Call>, t2: seq<Call>)
    requires CallsInRange(s, t1) && CallsInRange(s', t2) && |s'.uv| == |s.uv| && |s'.iv| == |s.iv|
    ensures CallsInRange(s, t1 + t2)
  {
  }

  /** Running two traces one after the other is running their
      concatenation. */
  lemma {:induction false} ApplyCallsAppend(cfg: BprConfig, co: Collaborators, s: Store, t1: seq<Call>, t2: seq<Call>)
    requires WellShaped(s, cfg.numDim) && CallsInRange(s, t1) && CallsInRange(ApplyCalls(cfg, co, s, t1), t2)
    ensures CallsInRange(s, t1 + t2)
    ensures ApplyCalls(cfg, co, s, t1 + t2) == ApplyCalls(cfg, co, ApplyCalls(cfg, co, s, t1), t2)
    decreases |t2|
  {
    var mid := ApplyCalls(cfg, co, s, t1);
    CallsInRangeAppend(s, mid, t1, t2);
    if |t2| == 0 {
      assert t1 + t2 == t1;
    } else {
      var m := |t2| - 1;
      var front := t2[..m];
      assert CallsInRange(mid, front);
      ApplyCallsAppend(cfg, co, s, t1, front);
      assert (t1 + t2)[..|t1 + t2| - 1] == t1 + front;
      assert (t1 + t2)[|t1 + t2| - 1] == t2[m];
    }
  }

  /** `r` is the store that the calls `t`, made in order, reach from `s`. */
  predicate Reaches(cfg: BprConfig, co: Collaborators, s: Store, t: seq<Call>, r: Store)
  {
    WellShaped(s, cfg.numDim) && CallsInRange(s, t) && r == ApplyCalls(cfg, co, s, t)
  }

  /** No calls leave the store as it is. */
  lemma ReachesNone(cfg: BprConfig, co: Collaborators, s: Store)
    requires WellShaped(s, cfg.numDim)
    ensures Reaches(cfg, co, s, [], s)
  {
  }

  /** One more call moves the reached store by one pair update. */
  lemma ReachesSnoc(cfg: BprConfig, co: Collaborators, s: Store, t: seq<Call>, mid: Store, c: Call)
    requires Reaches(cfg, co, s, t, mid) && InRange(mid, c.uid, c.iid, c.jid)
    ensures Reaches(cfg, co, s, t + [c], TrainPair(cfg, co, mid, c.uid, c.iid, c.jid, c.rui))
  {
    ApplyCallsSnoc(cfg, co, s, t, c);
  }

  /** Reaching `mid` by `t1` and then `r` by `t2` reaches `r` by `t1 + t2`. */
  lemma ReachesAppend(cfg: BprConfig, co: Collaborators, s: Store, t1: seq<Call>, mid: Store, t2: seq<Call>, r: Store)
    requires Reaches(cfg, co, s, t1, mid) && Reaches(cfg, co, mid, t2, r)
    ensures Reaches(cfg, co, s, t1 + t2, r)
  {
    ApplyCallsAppend(cfg, co, s, t1, t2);
  }
}
