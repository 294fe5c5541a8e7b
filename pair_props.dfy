/** What one pairwise update, and any sequence of them, does to the store. */
module PairProps {
  import opened Rows
  import opened Spec

  // Properties of one update.

  /** Among the user rows, only row `uid` and its accumulator row change. */
  lemma PairUpdateFrameUsers(cfg: BprConfig, sqrt: real -> real, s: Store, uid: nat, iid: nat, jid: nat, gradient: real)
    requires WellShaped(s, cfg.numDim) && InRange(s, uid, iid, jid)
    ensures var r := PairUpdate(cfg, sqrt, s, uid, iid, jid, gradient);
      forall u :: 0 <= u < |s.uv| && u != uid ==> r.uv[u] == s.uv[u] && r.uvAg[u] == s.uvAg[u]
  {
  }

  /** Among the item rows, only rows `iid` and `jid` and their accumulator rows
      change. */
  lemma PairUpdateFrameItems(cfg: BprConfig, sqrt: real -> real, s: Store, uid: nat, iid: nat, jid: nat, gradient: real)
    requires WellShaped(s, cfg.numDim) && InRange(s, uid, iid, jid)
    ensures var r := PairUpdate(cfg, sqrt, s, uid, iid, jid, gradient);
      forall i :: 0 <= i < |s.iv| && i != iid && i != jid ==> r.iv[i] == s.iv[i] && r.ivAg[i] == s.ivAg[i]
  {
  }

  /** Only biases `iid` and `jid` and their accumulators change. */
  lemma PairUpdateFrameBiases(cfg: BprConfig, sqrt: real -> real, s: Store, uid: nat, iid: nat, jid: nat, gradient: real)
    requires WellShaped(s, cfg.numDim) && InRange(s, uid, iid, jid)
    ensures var r := PairUpdate(cfg, sqrt, s, uid, iid, jid, gradient);
      forall i :: 0 <= i < |s.ib| && i != iid && i != jid ==> r.ib[i] == s.ib[i] && r.ibAg[i] == s.ibAg[i]
  {
  }

  /** Without AdaGrad no accumulator changes. */
  lemma PlainSgdKeepsAcc(cfg: BprConfig, sqrt: real -> real, s: Store, uid: nat, iid: nat, jid: nat, gradient: real)
    requires WellShaped(s, cfg.numDim) && InRange(s, uid, iid, jid) && !cfg.usingAdagrad
    ensures var r := PairUpdate(cfg, sqrt, s, uid, iid, jid, gradient);
      r.uvAg == s.uvAg && r.ivAg == s.ivAg && r.ibAg == s.ibAg
  {
  }

  /** Without AdaGrad (two distinct items), each touched row becomes its old
      value minus `learnRate` times its raw gradient. */
  lemma PlainSgdRows(cfg: BprConfig, sqrt: real -> real, s: Store, uid: nat, iid: nat, jid: nat, gradient: real)
    requires WellShaped(s, cfg.numDim) && InRange(s, uid, iid, jid)
    requires !cfg.usingAdagrad && iid != jid
    ensures var r := PairUpdate(cfg, sqrt, s, uid, iid, jid, gradient);
      var g, lr := RawGradients(cfg, s, uid, iid, jid, gradient), cfg.learnRate;
      r.uv[uid] == Step(s.uv[uid], lr, g.uv) &&
      r.iv[iid] == Step(s.iv[iid], lr, g.iv) &&
      r.iv[jid] == Step(s.iv[jid], lr, g.jv)
  {
  }

  /** Without AdaGrad but with the bias term (two distinct items), each touched
      bias becomes its old value minus `learnRate` times its raw gradient. */
  lemma PlainSgdBiases(cfg: BprConfig, sqrt: real -> real, s: Store, uid: nat, iid: nat, jid: nat, gradient: real)
    requires WellShaped(s, cfg.numDim) && InRange(s, uid, iid, jid)
    requires !cfg.usingAdagrad && cfg.usingBiasTerm && iid != jid
    ensures var r := PairUpdate(cfg, sqrt, s, uid, iid, jid, gradient);
      var g, lr := RawGradients(cfg, s, uid, iid, jid, gradient), cfg.learnRate;
      r.ib[iid] == s.ib[iid] - lr * g.ib && r.ib[jid] == s.ib[jid] - lr * g.jb
  {
  }

  /** When the negative item is the positive one, the user row still takes
      its own step, and the item row takes both steps, the positive one first. */
  lemma PlainSgdSameItem(cfg: BprConfig, sqrt: real -> real, s: Store, uid: nat, iid: nat, gradient: real)
    requires WellShaped(s, cfg.numDim) && InRange(s, uid, iid, iid) && !cfg.usingAdagrad
    ensures var r := PairUpdate(cfg, sqrt, s, uid, iid, iid, gradient);
      var g, lr := RawGradients(cfg, s, uid, iid, iid, gradient), cfg.learnRate;
      r.uv[uid] == Step(s.uv[uid], lr, g.uv) &&
      r.iv[iid] == Step(Step(s.iv[iid], lr, g.iv), lr, g.jv)
  {
  }

  /** With AdaGrad (two distinct items), each touched accumulator row grows by
      the squares of its own raw gradient, and each row moves by `learnRate`
      times its raw gradient rescaled by its own grown accumulator. */
  lemma AdaGradRows(cfg: BprConfig, sqrt: real -> real, s: Store, uid: nat, iid: nat, jid: nat, gradient: real)
    requires WellShaped(s, cfg.numDim) && InRange(s, uid, iid, jid)
    requires cfg.usingAdagrad && iid != jid
    ensures var r := PairUpdate(cfg, sqrt, s, uid, iid, jid, gradient);
      var g := RawGradients(cfg, s, uid, iid, jid, gradient);
      var lr, beta := cfg.learnRate, cfg.beta;
      r.uvAg[uid] == Accumulate(s.uvAg[uid], g.uv) &&
      r.ivAg[iid] == Accumulate(s.ivAg[iid], g.iv) &&
      r.ivAg[jid] == Accumulate(s.ivAg[jid], g.jv) &&
      r.uv[uid] == Step(s.uv[uid], lr, Rescale(g.uv, r.uvAg[uid], beta, sqrt)) &&
      r.iv[iid] == Step(s.iv[iid], lr, Rescale(g.iv, r.ivAg[iid], beta, sqrt)) &&
      r.iv[jid] == Step(s.iv[jid], lr, Rescale(g.jv, r.ivAg[jid], beta, sqrt))
  {
  }

  /** The bias half of the AdaGrad block, for two distinct items. */
  lemma AdaGradBiasDistinct(beta: real, sqrt: real -> real, ibAg: seq<real>, ibGrad: real, jbGrad: real, iid: nat, jid: nat)
    requires iid < |ibAg| && jid < |ibAg| && iid != jid
    ensures var b := AdaGradBias(beta, sqrt, ibAg, ibGrad, jbGrad, iid, jid);
      |b.0| == |ibAg| &&
      b.0[iid] == ibAg[iid] + ibGrad * ibGrad && b.0[jid] == ibAg[jid] + jbGrad * jbGrad &&
      b.1 == Quot(ibGrad, beta + sqrt(b.0[iid])) && b.2 == Quot(jbGrad, beta + sqrt(b.0[jid]))
  {
  }

  /** The bias half of the AdaGrad block when the two items coincide: the one
      accumulator entry grows by both squares before either gradient is
      divided, so both are divided by the twice-grown entry. */
  lemma AdaGradBiasSameItem(beta: real, sqrt: real -> real, ibAg: seq<real>, ibGrad: real, jbGrad: real, iid: nat)
    requires iid < |ibAg|
    ensures var b := AdaGradBias(beta, sqrt, ibAg, ibGrad, jbGrad, iid, iid);
      |b.0| == |ibAg| &&
      b.0[iid] == ibAg[iid] + ibGrad * ibGrad + jbGrad * jbGrad &&
      b.1 == Quot(ibGrad, beta + sqrt(b.0[iid])) && b.2 == Quot(jbGrad, beta + sqrt(b.0[iid]))
  {
  }

  /** With AdaGrad, when the negative item is the positive one, the user
      accumulator row and the user row change as for two distinct items, while
      the item accumulator row grows by the squares of both item gradients before
      either is rescaled, and the row then takes both rescaled steps, the
      positive one first. */
  lemma AdaGradSameItem(cfg: BprConfig, sqrt: real -> real, s: Store, uid: nat, iid: nat, gradient: real)
    requires WellShaped(s, cfg.numDim) && InRange(s, uid, iid, iid) && cfg.usingAdagrad
    ensures var r := PairUpdate(cfg, sqrt, s, uid, iid, iid, gradient);
      var g := RawGradients(cfg, s, uid, iid, iid, gradient);
      var lr, beta := cfg.learnRate, cfg.beta;
      r.uvAg[uid] == Accumulate(s.uvAg[uid], g.uv) &&
      r.uv[uid] == Step(s.uv[uid], lr, Rescale(g.uv, r.uvAg[uid], beta, sqrt)) &&
      r.ivAg[iid] == Accumulate(Accumulate(s.ivAg[iid], g.iv), g.jv) &&
      r.iv[iid] == Step(Step(s.iv[iid], lr, Rescale(g.iv, r.ivAg[iid], beta, sqrt)), lr, Rescale(g.jv, r.ivAg[iid], beta, sqrt))
  {
  }

  /** With the bias term, when the negative item is the positive one, its
      bias takes both steps, the positive one first; with AdaGrad both bias
      gradients are divided by the twice-grown accumulator entry. */
  lemma BiasesSameItem(cfg: BprConfig, sqrt: real -> real, s: Store, uid: nat, iid: nat, gradient: real)
    requires WellShaped(s, cfg.numDim) && InRange(s, uid, iid, iid) && cfg.usingBiasTerm
    ensures var r := PairUpdate(cfg, sqrt, s, uid, iid, iid, gradient);
      var g := RawGradients(cfg, s, uid, iid, iid, gradient);
      var lr, beta := cfg.learnRate, cfg.beta;
      if cfg.usingAdagrad then
        r.ibAg[iid] == s.ibAg[iid] + g.ib * g.ib + g.jb * g.jb &&
        r.ib[iid] == s.ib[iid] - lr * Quot(g.ib, beta + sqrt(r.ibAg[iid])) - lr * Quot(g.jb, beta + sqrt(r.ibAg[iid]))
      else
        r.ib[iid] == s.ib[iid] - lr * g.ib - lr * g.jb
  {
    var g := RawGradients(cfg, s, uid, iid, iid, gradient);
    if cfg.usingAdagrad {
      AdaGradBiasSameItem(cfg.beta, sqrt, s.ibAg, g.ib, g.jb, iid);
    }
  }

  /** With AdaGrad and the bias term (two distinct items), each touched bias
      accumulator grows by the square of its raw gradient and each bias moves
      by `learnRate` times its raw gradient divided by `beta` plus the square
      root of the grown accumulator. */
  lemma AdaGradBiases(cfg: BprConfig, sqrt: real -> real, s: Store, uid: nat, iid: nat, jid: nat, gradient: real)
    requires WellShaped(s, cfg.numDim) && InRange(s, uid, iid, jid)
    requires cfg.usingAdagrad && cfg.usingBiasTerm && iid != jid
    ensures var r := PairUpdate(cfg, sqrt, s, uid, iid, jid, gradient);
      var g := RawGradients(cfg, s, uid, iid, jid, gradient);
      var lr, beta := cfg.learnRate, cfg.beta;
      r.ibAg[iid] == s.ibAg[iid] + g.ib * g.ib && r.ibAg[jid] == s.ibAg[jid] + g.jb * g.jb &&
      r.ib[iid] == s.ib[iid] - lr * Quot(g.ib, beta + sqrt(r.ibAg[iid])) &&
      r.ib[jid] == s.ib[jid] - lr * Quot(g.jb, beta + sqrt(r.ibAg[jid]))
  {
    var g := RawGradients(cfg, s, uid, iid, jid, gradient);
    AdaGradBiasDistinct(cfg.beta, sqrt, s.ibAg, g.ib, g.jb, iid, jid);
  }

  /** Without AdaGrad (two distinct items), coordinate `k` of every touched
      parameter moves by `learnRate` times a gradient made only of values read
      at entry: the user row's gradient uses the old item rows, the item rows'
      gradients use the old user row, although the user row is written first. */
  lemma PlainSgdFromEntry(cfg: BprConfig, sqrt: real -> real, s: Store, uid: nat, iid: nat, jid: nat, gradient: real, k: nat)
    requires WellShaped(s, cfg.numDim) && InRange(s, uid, iid, jid)
    requires !cfg.usingAdagrad && iid != jid && k < cfg.numDim
    ensures var r := PairUpdate(cfg, sqrt, s, uid, iid, jid, gradient);
      r.uv[uid][k] == s.uv[uid][k] - cfg.learnRate * (gradient * (s.iv[iid][k] - s.iv[jid][k]) + 2.0 * cfg.lambda * s.uv[uid][k]) &&
      r.iv[iid][k] == s.iv[iid][k] - cfg.learnRate * (gradient * s.uv[uid][k] + 2.0 * cfg.lambda * s.iv[iid][k]) &&
      r.iv[jid][k] == s.iv[jid][k] - cfg.learnRate * (-gradient * s.uv[uid][k] + 2.0 * cfg.lambda * s.iv[jid][k])
    ensures var r := PairUpdate(cfg, sqrt, s, uid, iid, jid, gradient);
      cfg.usingBiasTerm ==>
        r.ib[iid] == s.ib[iid] - cfg.learnRate * (gradient + 2.0 * cfg.lambda * s.ib[iid]) &&
        r.ib[jid] == s.ib[jid] - cfg.learnRate * (-gradient + 2.0 * cfg.lambda * s.ib[jid])
  {
    PlainSgdRowsAt(cfg, sqrt, s, uid, iid, jid, gradient, k);
    if cfg.usingBiasTerm {
      PlainSgdBiasesAt(cfg, sqrt, s, uid, iid, jid, gradient);
    }
  }

  /** The biases of `PlainSgdFromEntry`. */
  lemma PlainSgdBiasesAt(cfg: BprConfig, sqrt: real -> real, s: Store, uid: nat, iid: nat, jid: nat, gradient: real)
    requires WellShaped(s, cfg.numDim) && InRange(s, uid, iid, jid)
    requires !cfg.usingAdagrad && cfg.usingBiasTerm && iid != jid
    ensures var r := PairUpdate(cfg, sqrt, s, uid, iid, jid, gradient);
      r.ib[iid] == s.ib[iid] - cfg.learnRate * (gradient + 2.0 * cfg.lambda * s.ib[iid]) &&
      r.ib[jid] == s.ib[jid] - cfg.learnRate * (-gradient + 2.0 * cfg.lambda * s.ib[jid])
  {
    var g := RawGradients(cfg, s, uid, iid, jid, gradient);
    PlainSgdBiases(cfg, sqrt, s, uid, iid, jid, gradient);
    StepBy(s.ib[iid], cfg.learnRate, g.ib, gradient + 2.0 * cfg.lambda * s.ib[iid]);
    StepBy(s.ib[jid], cfg.learnRate, g.jb, -gradient + 2.0 * cfg.lambda * s.ib[jid]);
  }

  /** The rows of `PlainSgdFromEntry`. */
  lemma PlainSgdRowsAt(cfg: BprConfig, sqrt: real -> real, s: Store, uid: nat, iid: nat, jid: nat, gradient: real, k: nat)
    requires WellShaped(s, cfg.numDim) && InRange(s, uid, iid, jid)
    requires !cfg.usingAdagrad && iid != jid && k < cfg.numDim
    ensures var r := PairUpdate(cfg, sqrt, s, uid, iid, jid, gradient);
      r.uv[uid][k] == s.uv[uid][k] - cfg.learnRate * (gradient * (s.iv[iid][k] - s.iv[jid][k]) + 2.0 * cfg.lambda * s.uv[uid][k]) &&
      r.iv[iid][k] == s.iv[iid][k] - cfg.learnRate * (gradient * s.uv[uid][k] + 2.0 * cfg.lambda * s.iv[iid][k]) &&
      r.iv[jid][k] == s.iv[jid][k] - cfg.learnRate * (-gradient * s.uv[uid][k] + 2.0 * cfg.lambda * s.iv[jid][k])
  {
    var g := RawGradients(cfg, s, uid, iid, jid, gradient);
    var r := PairUpdate(cfg, sqrt, s, uid, iid, jid, gradient);
    PlainSgdRows(cfg, sqrt, s, uid, iid, jid, gradient);
    GradientsAt(cfg, s, uid, iid, jid, gradient, k);
    StepAt(s.uv[uid], cfg.learnRate, g.uv, k, gradient * (s.iv[iid][k] - s.iv[jid][k]) + 2.0 * cfg.lambda * s.uv[uid][k]);
    StepAt(s.iv[iid], cfg.learnRate, g.iv, k, gradient * s.uv[uid][k] + 2.0 * cfg.lambda * s.iv[iid][k]);
    StepAt(s.iv[jid], cfg.learnRate, g.jv, k, -gradient * s.uv[uid][k] + 2.0 * cfg.lambda * s.iv[jid][k]);
    assert |r.uv[uid]| == |r.iv[iid]| == |r.iv[jid]| == cfg.numDim;
  }

  /** With AdaGrad (two distinct items), the same per coordinate: each
      accumulator coordinate grows by the square of a gradient made of values
      read at entry, and each parameter coordinate moves by that gradient
      divided by `beta` plus the root of the grown accumulator. */
  lemma AdaGradFromEntry(cfg: BprConfig, sqrt: real -> real, s: Store, uid: nat, iid: nat, jid: nat, gradient: real, k: nat)
    requires WellShaped(s, cfg.numDim) && InRange(s, uid, iid, jid)
    requires cfg.usingAdagrad && iid != jid && k < cfg.numDim
    ensures var r, gu := PairUpdate(cfg, sqrt, s, uid, iid, jid, gradient),
                         gradient * (s.iv[iid][k] - s.iv[jid][k]) + 2.0 * cfg.lambda * s.uv[uid][k];
      r.uvAg[uid][k] == s.uvAg[uid][k] + gu * gu &&
      r.uv[uid][k] == s.uv[uid][k] - cfg.learnRate * Quot(gu, sqrt(s.uvAg[uid][k] + gu * gu) + cfg.beta)
    ensures var r, gi := PairUpdate(cfg, sqrt, s, uid, iid, jid, gradient),
                         gradient * s.uv[uid][k] + 2.0 * cfg.lambda * s.iv[iid][k];
      r.ivAg[iid][k] == s.ivAg[iid][k] + gi * gi &&
      r.iv[iid][k] == s.iv[iid][k] - cfg.learnRate * Quot(gi, sqrt(s.ivAg[iid][k] + gi * gi) + cfg.beta)
    ensures var r, gj := PairUpdate(cfg, sqrt, s, uid, iid, jid, gradient),
                         -gradient * s.uv[uid][k] + 2.0 * cfg.lambda * s.iv[jid][k];
      r.ivAg[jid][k] == s.ivAg[jid][k] + gj * gj &&
      r.iv[jid][k] == s.iv[jid][k] - cfg.learnRate * Quot(gj, sqrt(s.ivAg[jid][k] + gj * gj) + cfg.beta)
  {
    AdaGradUserAt(cfg, sqrt, s, uid, iid, jid, gradient, k);
    AdaGradItemAt(cfg, sqrt, s, uid, iid, jid, gradient, k);
    AdaGradNegativeAt(cfg, sqrt, s, uid, iid, jid, gradient, k);
  }

  /** The user row of `AdaGradFromEntry`. */
  lemma AdaGradUserAt(cfg: BprConfig, sqrt: real -> real, s: Store, uid: nat, iid: nat, jid: nat, gradient: real, k: nat)
    requires WellShaped(s, cfg.numDim) && InRange(s, uid, iid, jid)
    requires cfg.usingAdagrad && iid != jid && k < cfg.numDim
    ensures var r, gu := PairUpdate(cfg, sqrt, s, uid, iid, jid, gradient),
                         gradient * (s.iv[iid][k] - s.iv[jid][k]) + 2.0 * cfg.lambda * s.uv[uid][k];
      r.uvAg[uid][k] == s.uvAg[uid][k] + gu * gu &&
      r.uv[uid][k] == s.uv[uid][k] - cfg.learnRate * Quot(gu, sqrt(s.uvAg[uid][k] + gu * gu) + cfg.beta)
  {
    var g := RawGradients(cfg, s, uid, iid, jid, gradient);
    var r := PairUpdate(cfg, sqrt, s, uid, iid, jid, gradient);
    AdaGradRows(cfg, sqrt, s, uid, iid, jid, gradient);
    AdaGradStepAt(s.uv[uid], cfg.learnRate, g.uv, s.uvAg[uid], cfg.beta, sqrt, k, gradient * (s.iv[iid][k] - s.iv[jid][k]) + 2.0 * cfg.lambda * s.uv[uid][k]);
    GradientsAt(cfg, s, uid, iid, jid, gradient, k);
    assert |r.uvAg[uid]| == |r.ivAg[iid]| == |r.ivAg[jid]| == cfg.numDim;
  }

  /** The positive item row of `AdaGradFromEntry`. */
  lemma AdaGradItemAt(cfg: BprConfig, sqrt: real -> real, s: Store, uid: nat, iid: nat, jid: nat, gradient: real, k: nat)
    requires WellShaped(s, cfg.numDim) && InRange(s, uid, iid, jid)
    requires cfg.usingAdagrad && iid != jid && k < cfg.numDim
    ensures var r, gi := PairUpdate(cfg, sqrt, s, uid, iid, jid, gradient),
                         gradient * s.uv[uid][k] + 2.0 * cfg.lambda * s.iv[iid][k];
      r.ivAg[iid][k] == s.ivAg[iid][k] + gi * gi &&
      r.iv[iid][k] == s.iv[iid][k] - cfg.learnRate * Quot(gi, sqrt(s.ivAg[iid][k] + gi * gi) + cfg.beta)
  {
    var g := RawGradients(cfg, s, uid, iid, jid, gradient);
    var r := PairUpdate(cfg, sqrt, s, uid, iid, jid, gradient);
    AdaGradRows(cfg, sqrt, s, uid, iid, jid, gradient);
    AdaGradStepAt(s.iv[iid], cfg.learnRate, g.iv, s.ivAg[iid], cfg.beta, sqrt, k, gradient * s.uv[uid][k] + 2.0 * cfg.lambda * s.iv[iid][k]);
    GradientsAt(cfg, s, uid, iid, jid, gradient, k);
    assert |r.uvAg[uid]| == |r.ivAg[iid]| == |r.ivAg[jid]| == cfg.numDim;
  }

  /** The negative item row of `AdaGradFromEntry`. */
  lemma AdaGradNegativeAt(cfg: BprConfig, sqrt: real -> real, s: Store, uid: nat, iid: nat, jid: nat, gradient: real, k: nat)
    requires WellShaped(s, cfg.numDim) && InRange(s, uid, iid, jid)
    requires cfg.usingAdagrad && iid != jid && k < cfg.numDim
    ensures var r, gj := PairUpdate(cfg, sqrt, s, uid, iid, jid, gradient),
                         -gradient * s.uv[uid][k] + 2.0 * cfg.lambda * s.iv[jid][k];
      r.ivAg[jid][k] == s.ivAg[jid][k] + gj * gj &&
      r.iv[jid][k] == s.iv[jid][k] - cfg.learnRate * Quot(gj, sqrt(s.ivAg[jid][k] + gj * gj) + cfg.beta)
  {
    var g := RawGradients(cfg, s, uid, iid, jid, gradient);
    var r := PairUpdate(cfg, sqrt, s, uid, iid, jid, gradient);
    AdaGradRows(cfg, sqrt, s, uid, iid, jid, gradient);
    AdaGradStepAt(s.iv[jid], cfg.learnRate, g.jv, s.ivAg[jid], cfg.beta, sqrt, k, -gradient * s.uv[uid][k] + 2.0 * cfg.lambda * s.iv[jid][k]);
    GradientsAt(cfg, s, uid, iid, jid, gradient, k);
    assert |r.uvAg[uid]| == |r.ivAg[iid]| == |r.ivAg[jid]| == cfg.numDim;
  }

  /** Coordinate `k` of the three raw row gradients. */
  lemma GradientsAt(cfg: BprConfig, s: Store, uid: nat, iid: nat, jid: nat, gradient: real, k: nat)
    requires WellShaped(s, cfg.numDim) && InRange(s, uid, iid, jid) && k < cfg.numDim
    ensures var g := RawGradients(cfg, s, uid, iid, jid, gradient);
      g.uv[k] == gradient * (s.iv[iid][k] - s.iv[jid][k]) + 2.0 * cfg.lambda * s.uv[uid][k] &&
      g.iv[k] == gradient * s.uv[uid][k] + 2.0 * cfg.lambda * s.iv[iid][k] &&
      g.jv[k] == -gradient * s.uv[uid][k] + 2.0 * cfg.lambda * s.iv[jid][k]
  {
  }

  /** Without the bias term the biases and their accumulators are left alone,
      although the bias gradients are still computed. */
  lemma PairUpdateBiasOff(cfg: BprConfig, sqrt: real -> real, s: Store, uid: nat, iid: nat, jid: nat, gradient: real)
    requires WellShaped(s, cfg.numDim) && InRange(s, uid, iid, jid) && !cfg.usingBiasTerm
    ensures var r := PairUpdate(cfg, sqrt, s, uid, iid, jid, gradient);
      r.ib == s.ib && r.ibAg == s.ibAg
  {
  }

  lemma LeTrans(a: Vector, b: Vector, c: Vector)
    requires Le(a, b) && Le(b, c)
    ensures Le(a, c)
  {
  }

  /** The AdaGrad block never lowers an accumulator coordinate, for any
      gradients. */
  lemma AdaGradAccLe(cfg: BprConfig, sqrt: real -> real, s: Store, g: Grads, uid: nat, iid: nat, jid: nat)
    requires WellShaped(s, cfg.numDim) && InRange(s, uid, iid, jid)
    requires |g.uv| == |g.iv| == |g.jv| == cfg.numDim
    ensures AccLe(s, AdaGrad(cfg, sqrt, s, g, uid, iid, jid).0)
  {
    AccumulateGrows(s.uvAg[uid], g.uv);
    SquareNonNeg(g.ib);
    SquareNonNeg(g.jb);
    AdaGradItemAccLe(cfg, sqrt, s, g, uid, iid, jid);
  }

  /** The item accumulator rows: when the two items coincide, row `iid` grows
      twice. */
  lemma AdaGradItemAccLe(cfg: BprConfig, sqrt: real -> real, s: Store, g: Grads, uid: nat, iid: nat, jid: nat)
    requires WellShaped(s, cfg.numDim) && InRange(s, uid, iid, jid)
    requires |g.uv| == |g.iv| == |g.jv| == cfg.numDim
    ensures var t := AdaGrad(cfg, sqrt, s, g, uid, iid, jid).0;
      |t.ivAg| == |s.ivAg| && forall i :: 0 <= i < |s.ivAg| ==> Le(s.ivAg[i], t.ivAg[i])
  {
    var t := AdaGrad(cfg, sqrt, s, g, uid, iid, jid).0;
    var ivAg1 := s.ivAg[iid := Accumulate(s.ivAg[iid], g.iv)];
    AccumulateGrows(s.ivAg[iid], g.iv);
    AccumulateGrows(ivAg1[jid], g.jv);
    forall i | 0 <= i < |s.ivAg| ensures Le(s.ivAg[i], t.ivAg[i]) {
      if i == jid && i == iid {
        LeTrans(s.ivAg[i], ivAg1[i], t.ivAg[i]);
      }
    }
  }

  /** No accumulator coordinate decreases, whatever the flags and even when the
      two items coincide. */
  lemma PairUpdateAccMonotone(cfg: BprConfig, sqrt: real -> real, s: Store, uid: nat, iid: nat, jid: nat, gradient: real)
    requires WellShaped(s, cfg.numDim) && InRange(s, uid, iid, jid)
    ensures AccLe(s, PairUpdate(cfg, sqrt, s, uid, iid, jid, gradient))
  {
    if cfg.usingAdagrad {
      AdaGradAccLe(cfg, sqrt, s, RawGradients(cfg, s, uid, iid, jid, gradient), uid, iid, jid);
    } else {
      forall u | 0 <= u < |s.uvAg| ensures Le(s.uvAg[u], s.uvAg[u]) {
      }
      forall i | 0 <= i < |s.ivAg| ensures Le(s.ivAg[i], s.ivAg[i]) {
      }
    }
  }

  /** The AdaGrad block, for any gradients, applies row gradients that keep
      the sign of the gradients it was given and are below one in every
      coordinate, once `beta > 0` and the accumulators are non-negative. */
  lemma AdaGradBlockKeepsSign(cfg: BprConfig, sqrt: real -> real, s: Store, g: Grads, uid: nat, iid: nat, jid: nat)
    requires WellShaped(s, cfg.numDim) && InRange(s, uid, iid, jid)
    requires |g.uv| == |g.iv| == |g.jv| == cfg.numDim
    requires AccNonNeg(s) && SqrtContract(sqrt) && 0.0 < cfg.beta
    ensures var e := AdaGrad(cfg, sqrt, s, g, uid, iid, jid).1;
      KeepsSigns(g.uv, e.uv) && KeepsSigns(g.iv, e.iv) && KeepsSigns(g.jv, e.jv)
  {
    assert NonNeg(s.uvAg[uid]);
    AccumulateDominates(s.uvAg[uid], g.uv);
    RescaleKeepsSigns(g.uv, Accumulate(s.uvAg[uid], g.uv), cfg.beta, sqrt);
    AdaGradBlockKeepsSignItems(cfg, sqrt, s, g, uid, iid, jid);
  }

  /** Both item gradients are rescaled by accumulators read after both item
      adds, so when the two items coincide each is divided by a row that has
      grown twice. That row still dominates both gradients. */
  lemma AdaGradBlockKeepsSignItems(cfg: BprConfig, sqrt: real -> real, s: Store, g: Grads, uid: nat, iid: nat, jid: nat)
    requires WellShaped(s, cfg.numDim) && InRange(s, uid, iid, jid)
    requires |g.uv| == |g.iv| == |g.jv| == cfg.numDim
    requires AccNonNeg(s) && SqrtContract(sqrt) && 0.0 < cfg.beta
    ensures var e := AdaGrad(cfg, sqrt, s, g, uid, iid, jid).1;
      KeepsSigns(g.iv, e.iv) && KeepsSigns(g.jv, e.jv)
  {
    assert NonNeg(s.ivAg[iid]) && NonNeg(s.ivAg[jid]);
    var once := Accumulate(s.ivAg[iid], g.iv);
    AccumulateDominates(s.ivAg[iid], g.iv);
    AccumulateGrows(s.ivAg[iid], g.iv);
    if iid == jid {
      var twice := Accumulate(once, g.jv);
      AccumulateGrows(once, g.jv);
      AccumulateDominates(once, g.jv);
      DominatesAbove(once, twice, g.iv);
      RescaleKeepsSigns(g.iv, twice, cfg.beta, sqrt);
      RescaleKeepsSigns(g.jv, twice, cfg.beta, sqrt);
    } else {
      AccumulateDominates(s.ivAg[jid], g.jv);
      RescaleKeepsSigns(g.iv, once, cfg.beta, sqrt);
      RescaleKeepsSigns(g.jv, Accumulate(s.ivAg[jid], g.jv), cfg.beta, sqrt);
    }
  }

  /** With AdaGrad, `beta > 0` and non-negative accumulators, every row
      gradient actually applied keeps the sign of its raw gradient in every
      coordinate and has magnitude below one, even when the two items
      coincide. */
  lemma PairUpdateKeepsSign(cfg: BprConfig, sqrt: real -> real, s: Store, uid: nat, iid: nat, jid: nat, gradient: real)
    requires WellShaped(s, cfg.numDim) && InRange(s, uid, iid, jid)
    requires AccNonNeg(s) && SqrtContract(sqrt) && cfg.usingAdagrad && 0.0 < cfg.beta
    ensures var g := RawGradients(cfg, s, uid, iid, jid, gradient);
      var e := Prepared(cfg, sqrt, s, uid, iid, jid, gradient).1;
      KeepsSigns(g.uv, e.uv) && KeepsSigns(g.iv, e.iv) && KeepsSigns(g.jv, e.jv)
  {
    AdaGradBlockKeepsSign(cfg, sqrt, s, RawGradients(cfg, s, uid, iid, jid, gradient), uid, iid, jid);
  }

  /** The same for the two bias gradients when the bias term is on. */
  lemma PairUpdateKeepsSignBias(cfg: BprConfig, sqrt: real -> real, s: Store, uid: nat, iid: nat, jid: nat, gradient: real)
    requires WellShaped(s, cfg.numDim) && InRange(s, uid, iid, jid)
    requires AccNonNeg(s) && SqrtContract(sqrt) && cfg.usingAdagrad && cfg.usingBiasTerm && 0.0 < cfg.beta
    ensures var g := RawGradients(cfg, s, uid, iid, jid, gradient);
      var e := Prepared(cfg, sqrt, s, uid, iid, jid, gradient).1;
      SameSignBelowOne(g.ib, e.ib) && SameSignBelowOne(g.jb, e.jb)
  {
    var g := RawGradients(cfg, s, uid, iid, jid, gradient);
    BiasRescaleKeepsSign(cfg.beta, sqrt, s.ibAg, g.ib, g.jb, iid, jid);
  }

  /** Under the default configuration (AdaGrad and the bias term on,
      `beta = 1`), every gradient the update applies keeps the sign of its raw
      gradient and has magnitude below one, once the accumulators are
      non-negative. */
  lemma DefaultConfigKeepsSign(sqrt: real -> real, s: Store, uid: nat, iid: nat, jid: nat, gradient: real)
    requires WellShaped(s, DefaultConfig.numDim) && InRange(s, uid, iid, jid)
    requires AccNonNeg(s) && SqrtContract(sqrt)
    ensures var g := RawGradients(DefaultConfig, s, uid, iid, jid, gradient);
      var e := Prepared(DefaultConfig, sqrt, s, uid, iid, jid, gradient).1;
      KeepsSigns(g.uv, e.uv) && KeepsSigns(g.iv, e.iv) && KeepsSigns(g.jv, e.jv) &&
      SameSignBelowOne(g.ib, e.ib) && SameSignBelowOne(g.jb, e.jb)
  {
    PairUpdateKeepsSign(DefaultConfig, sqrt, s, uid, iid, jid, gradient);
    PairUpdateKeepsSignBias(DefaultConfig, sqrt, s, uid, iid, jid, gradient);
  }

  /** The bias half of the AdaGrad block keeps both signs once the bias
      accumulators are non-negative. */
  lemma BiasRescaleKeepsSign(beta: real, sqrt: real -> real, ibAg: seq<real>, ibGrad: real, jbGrad: real, iid: nat, jid: nat)
    requires iid < |ibAg| && jid < |ibAg| && 0.0 <= ibAg[iid] && 0.0 <= ibAg[jid]
    requires SqrtContract(sqrt) && 0.0 < beta
    ensures var b := AdaGradBias(beta, sqrt, ibAg, ibGrad, jbGrad, iid, jid);
      SameSignBelowOne(ibGrad, b.1) && SameSignBelowOne(jbGrad, b.2)
  {
    var b := AdaGradBias(beta, sqrt, ibAg, ibGrad, jbGrad, iid, jid);
    SquareNonNeg(ibGrad);
    SquareNonNeg(jbGrad);
    assert ibGrad * ibGrad <= b.0[iid] && jbGrad * jbGrad <= b.0[jid];
    assert beta + sqrt(b.0[iid]) == sqrt(b.0[iid]) + beta;
    assert beta + sqrt(b.0[jid]) == sqrt(b.0[jid]) + beta;
    RescaleKeepsSign(ibGrad, b.0[iid], beta, sqrt);
    RescaleKeepsSign(jbGrad, b.0[jid], beta, sqrt);
  }

  // Properties of a sequence of updates.

  lemma AccLeTrans(a: Store, b: Store, c: Store)
    requires AccLe(a, b) && AccLe(b, c)
    ensures AccLe(a, c)
  {
    forall u | 0 <= u < |a.uvAg| ensures Le(a.uvAg[u], c.uvAg[u]) {
      LeTrans(a.uvAg[u], b.uvAg[u], c.uvAg[u]);
    }
    forall i | 0 <= i < |a.ivAg| ensures Le(a.ivAg[i], c.ivAg[i]) {
      LeTrans(a.ivAg[i], b.ivAg[i], c.ivAg[i]);
    }
  }

  /** Accumulators never decrease across any sequence of updates. */
  lemma {:induction false} ApplyCallsAccMonotone(cfg: BprConfig, co: Collaborators, s: Store, t: seq<Call>)
    requires WellShaped(s, cfg.numDim) && CallsInRange(s, t)
    ensures AccLe(s, ApplyCalls(cfg, co, s, t))
    decreases |t|
  {
    if |t| == 0 {
      forall u | 0 <= u < |s.uvAg| ensures Le(s.uvAg[u], s.uvAg[u]) {
      }
      forall i | 0 <= i < |s.ivAg| ensures Le(s.ivAg[i], s.ivAg[i]) {
      }
    } else {
      var c := t[|t| - 1];
      var prev := ApplyCalls(cfg, co, s, t[..|t| - 1]);
      ApplyCallsLast(cfg, co, s, t);
      ApplyCallsAccMonotone(cfg, co, s, t[..|t| - 1]);
      PairUpdateAccMonotone(cfg, co.sqrt, prev, c.uid, c.iid, c.jid, LossGradient(co, prev, c.uid, c.iid, c.jid, c.rui));
      AccLeTrans(s, prev, ApplyCalls(cfg, co, s, t));
    }
  }

  /** Whether some call of `t` names user `u`. */
  predicate TouchesUser(t: seq<Call>, u: nat)
  {
    exists p :: 0 <= p < |t| && t[p].uid == u
  }

  /** Whether some call of `t` names item `i`, as positive or negative. */
  predicate TouchesItem(t: seq<Call>, i: nat)
  {
    exists p :: 0 <= p < |t| && (t[p].iid == i || t[p].jid == i)
  }

  /** A user that no call of a sequence names keeps its row and accumulator
      row. */
  lemma {:induction false} ApplyCallsFrameUsers(cfg: BprConfig, co: Collaborators, s: Store, t: seq<Call>)
    requires WellShaped(s, cfg.numDim) && CallsInRange(s, t)
    ensures var r := ApplyCalls(cfg, co, s, t);
      forall u :: 0 <= u < |s.uv| && !TouchesUser(t, u) ==> r.uv[u] == s.uv[u] && r.uvAg[u] == s.uvAg[u]
    decreases |t|
  {
    if |t| > 0 {
      var c := t[|t| - 1];
      var front := t[..|t| - 1];
      var prev := ApplyCalls(cfg, co, s, front);
      ApplyCallsLast(cfg, co, s, t);
      ApplyCallsFrameUsers(cfg, co, s, front);
      PairUpdateFrameUsers(cfg, co.sqrt, prev, c.uid, c.iid, c.jid, LossGradient(co, prev, c.uid, c.iid, c.jid, c.rui));
      assert forall p :: 0 <= p < |front| ==> front[p] == t[p];
    }
  }

  /** An item that no call of a sequence names keeps its row and its
      accumulator row. */
  lemma {:induction false} ApplyCallsFrameItems(cfg: BprConfig, co: Collaborators, s: Store, t: seq<Call>)
    requires WellShaped(s, cfg.numDim) && CallsInRange(s, t)
    ensures var r := ApplyCalls(cfg, co, s, t);
      forall i :: 0 <= i < |s.iv| && !TouchesItem(t, i) ==> r.iv[i] == s.iv[i] && r.ivAg[i] == s.ivAg[i]
    decreases |t|
  {
    if |t| > 0 {
      var c := t[|t| - 1];
      var front := t[..|t| - 1];
      var prev := ApplyCalls(cfg, co, s, front);
      ApplyCallsLast(cfg, co, s, t);
      ApplyCallsFrameItems(cfg, co, s, front);
      PairUpdateFrameItems(cfg, co.sqrt, prev, c.uid, c.iid, c.jid, LossGradient(co, prev, c.uid, c.iid, c.jid, c.rui));
      assert forall p :: 0 <= p < |front| ==> front[p] == t[p];
    }
  }

  /** An item that no call of a sequence names keeps its bias and its bias
      accumulator. */
  lemma {:induction false} ApplyCallsFrameBiases(cfg: BprConfig, co: Collaborators, s: Store, t: seq<Call>)
    requires WellShaped(s, cfg.numDim) && CallsInRange(s, t)
    ensures var r := ApplyCalls(cfg, co, s, t);
      forall i :: 0 <= i < |s.ib| && !TouchesItem(t, i) ==> r.ib[i] == s.ib[i] && r.ibAg[i] == s.ibAg[i]
    decreases |t|
  {
    if |t| > 0 {
      var c := t[|t| - 1];
      var front := t[..|t| - 1];
      var prev := ApplyCalls(cfg, co, s, front);
      ApplyCallsLast(cfg, co, s, t);
      ApplyCallsFrameBiases(cfg, co, s, front);
      PairUpdateFrameBiases(cfg, co.sqrt, prev, c.uid, c.iid, c.jid, LossGradient(co, prev, c.uid, c.iid, c.jid, c.rui));
      assert forall p :: 0 <= p < |front| ==> front[p] == t[p];
    }
  }
}
