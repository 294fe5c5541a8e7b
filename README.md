# BPR trainer: a verified model

This project models the Bayesian Personalised Ranking trainer of libcf,
the class `BPR` in `src/model/recsys/bpr.hpp`. The class holds the following state:

- a configuration (`BPRConfig`);
- the parameter store of the underlying factorisation model:
  - user rows `uv_` and item rows `iv_`;
  - item biases `ib_`;
  - the AdaGrad accumulators `uv_ag_`, `iv_ag_` and `ib_ag_` that shadow them;
- each user's rated items.

One training epoch (`train_one_iteration`) works as follows:

- It walks the users in ascending id order.
- For each user it walks the user's rated items in order.
- For every rated item it makes `num_neg` pairwise updates (`train_one_pair`). Each update has label `1.0` and a freshly sampled negative item.
- Each update does three things in order:
  1. It computes the loss gradient of the predicted margin and five raw gradients. Each raw gradient is the loss term plus a hard-coded L2 term `2 * lambda * parameter`.
  2. With AdaGrad on, it grows the touched accumulators by the squared gradients and divides each gradient by `beta` plus the square root of its grown accumulator.
  3. It moves the touched parameters against their gradients. The biases move only with the bias term on.

The project has five modules:

- `Rows` (`rows.dfy`): element-wise row arithmetic, standing in for the Eigen row operations.
- `Spec` (`spec.dfy`):
  - the configuration and the store;
  - `PairUpdate`/`TrainPair`, which give the meaning of one update;
  - `ApplyCalls`, the store after a trace of updates.
- `Epoch` (`epoch.dfy`): the order in which an epoch visits (user, item) pairs, `Schedule`, and what a trace must look like to follow it.
- `Trainer` (`trainer.dfy`): the class `Bpr`.
  - The store lives in arrays updated in place (one array element per Eigen row).
  - Every method is proved to change them exactly as the pure functions of `Spec` say.
  - The three methods that loop over updates (`TrainNegatives`, `TrainUser` and `TrainOneIteration`) also return a ghost trace of the pair updates they made.
- `PairProps` (`pair_props.dfy`): properties of one update and of any sequence of updates:
  - frames;
  - the plain-SGD and AdaGrad update rules;
  - accumulator monotonicity;
  - sign preservation.

The code the trainer calls but that is not part of this model is passed in as the `Collaborators` value. It covers three functions:

- the loss gradient;
- the base model's prediction;
- `std::sqrt`.

Wherever a property needs something of `sqrt`, the lemma requires `SqrtContract`: a non-negative root whose square is the argument.

## Model

| member | source | states |
|---|---|---|
| Spec.UserGradient | src/model/recsys/bpr.hpp:80 | the user gradient row has the length of the user row |
| Spec.ItemGradient | src/model/recsys/bpr.hpp:81-82 | an item gradient row has the length of the item row |
| Spec.RawGradients | src/model/recsys/bpr.hpp:78-82 | the three raw gradient rows all have `num_dim` coordinates |
| Spec.AdaGradBias | src/model/recsys/bpr.hpp:86-89 | the bias AdaGrad step keeps the length of the bias accumulators and changes them only at `iid` and `jid` |
| Spec.AdaGrad | src/model/recsys/bpr.hpp:84-97 | the AdaGrad block changes no parameter and keeps the store well shaped; with the bias term off it leaves the bias accumulators and the bias gradients unchanged |
| Spec.Prepared | src/model/recsys/bpr.hpp:78-97 | computing and preparing the gradients changes no parameter, keeps the store well shaped, and gives `num_dim`-wide row gradients |
| Spec.DescendBias | src/model/recsys/bpr.hpp:99-102 | the bias descent keeps the length of the biases and changes them only at `iid` and `jid` |
| Spec.Descend | src/model/recsys/bpr.hpp:99-105 | the descent changes no accumulator and keeps the store well shaped; with the bias term off it leaves the biases unchanged |
| Spec.PairUpdate | src/model/recsys/bpr.hpp:84-105 | one update keeps the store well shaped, leaves the numbers of users and items unchanged, and keeps every accumulator non-negative |
| Spec.TrainPair | src/model/recsys/bpr.hpp:72-106 | one `train_one_pair` keeps the store well shaped with the same numbers of users and items, and keeps non-negative accumulators non-negative |
| Spec.PreparedAccNonNeg | src/model/recsys/bpr.hpp:84-97 | the AdaGrad block leaves non-negative accumulators non-negative |
| Spec.ApplyCalls | src/model/recsys/bpr.hpp:57-70 | any trace of updates keeps the store well shaped, with the same numbers of users and items and non-negative accumulators |
| Spec.ApplyCallsAppend | src/model/recsys/bpr.hpp:57-70 | running two traces one after the other gives the same store as running their concatenation |
| Spec.ReachesSnoc | src/model/recsys/bpr.hpp:64-67 | a trace that reaches a store, followed by one in-range call, reaches that call's update of the store |
| Spec.ReachesAppend | src/model/recsys/bpr.hpp:57-70 | reachability composes over concatenated traces |
| Rows.AccumulateGrows | src/model/recsys/bpr.hpp:91-93 | adding squared gradients never lowers an accumulator coordinate, and keeps a non-negative accumulator non-negative |
| Rows.RescaleKeepsSign | src/model/recsys/bpr.hpp:88-89 | dividing by `beta > 0` plus the square root of an accumulator holding at least `g * g` keeps the sign of `g` and gives a magnitude below one |
| Rows.RescaleKeepsSigns | src/model/recsys/bpr.hpp:94-96 | the same for every coordinate of a row rescaled by a dominating accumulator row |
| Epoch.Repeat | src/model/recsys/bpr.hpp:64-67 | the inner loop's visits: exactly `num_neg` copies of one visit |
| Epoch.UserVisitsLength | src/model/recsys/bpr.hpp:61-68 | one user's visits number `num_neg` per rated item |
| Epoch.UserVisitsAt | src/model/recsys/bpr.hpp:61-68 | visits `num_neg * p` to `num_neg * p + num_neg - 1` of a user all pair it with the item at position `p`, so the items keep their order and each item's visits are consecutive |
| Epoch.UserVisitsOfUser | src/model/recsys/bpr.hpp:61-68 | every visit of a user's loop is for that user |
| Epoch.UserVisitsCount | src/model/recsys/bpr.hpp:61-68 | within a user's loop, each of its distinct rated items is visited exactly `num_neg` times, and no other pair is visited |
| Epoch.ScheduleLength | src/model/recsys/bpr.hpp:58-68 | an epoch over `n` users makes `num_neg * Σ |rated(u)|` visits |
| Epoch.ScheduleUsersAscending | src/model/recsys/bpr.hpp:58 | an epoch visits only users below `n`, in ascending user order |
| Epoch.ScheduleCount | src/model/recsys/bpr.hpp:58-68 | an epoch visits every (user, rated item) pair exactly `num_neg` times and no other pair |
| Epoch.FirstMissing | src/model/recsys/bpr.hpp:58-60 | the first user without a rated-item entry: every user before it has one, and it has none unless it is `n` |
| Epoch.FirstMissingIs | src/model/recsys/bpr.hpp:58-60 | that first missing user is unique: any id with those two properties is it |
| Epoch.ExistsNegative | src/model/recsys/bpr.hpp:65 | with fewer distinct rated items than items, some item in range is unrated, so a negative can be drawn |
| Epoch.EpochTrace | src/model/recsys/bpr.hpp:57-70 | a trace following the epoch schedule has the following properties: 1. it has `num_neg * Σ |rated(u)|` calls; 2. users come in ascending order; 3. each (user, rated item) pair appears exactly `num_neg` times and no other pair appears; 4. every call has label `1.0` and a negative item that is in range and unrated by its user |
| Epoch.EpochDistinctItems | src/model/recsys/bpr.hpp:57-70 | in a trace that follows the epoch schedule, every call's positive item is rated by its user and differs from its negative item, so `iid != jid` throughout an epoch |
| Epoch.OneUserScenario | src/model/recsys/bpr.hpp:57-70 | one user who rated item 0 of three, with `num_neg = 2`: two updates for item 0, each with negative item 1 or 2 |
| Trainer.SampleNegativeItem | src/model/recsys/bpr.hpp:65 | the sampled negative is an item in range that the user has not rated |
| Trainer.Bpr.constructor | src/model/recsys/bpr.hpp:28-37 | stores the configuration and the collaborators (the loss object among them), and starts with an empty store |
| Trainer.Bpr.Reset | src/model/recsys/bpr.hpp:53-55 | installs a given well-shaped store and rated-item map in fresh arrays |
| Trainer.Bpr.PairGradients | src/model/recsys/bpr.hpp:73-82 | the loss gradient of the margin and the five raw gradients, all read from the store at entry |
| Trainer.Bpr.AdaGradBiasStep | src/model/recsys/bpr.hpp:86-89 | both bias accumulators grow by their squared gradients, then each bias gradient is divided by `beta` plus the square root of its grown accumulator |
| Trainer.Bpr.AccumulateRows | src/model/recsys/bpr.hpp:91-93 | the user accumulator row, then the two item accumulator rows, grow by their squared gradients; nothing else changes |
| Trainer.Bpr.AdaGradStep | src/model/recsys/bpr.hpp:84-97 | the AdaGrad block changes the accumulators as `Spec.AdaGrad` says and returns the rescaled gradients |
| Trainer.Bpr.DescendBiasStep | src/model/recsys/bpr.hpp:99-102 | the two biases each move against their gradients, in order |
| Trainer.Bpr.DescendRows | src/model/recsys/bpr.hpp:103-105 | the user row, then the two item rows, each move against their gradients; nothing else changes |
| Trainer.Bpr.DescendStep | src/model/recsys/bpr.hpp:99-105 | the descent step changes the parameters as `Spec.Descend` says |
| Trainer.Bpr.TrainOnePair | src/model/recsys/bpr.hpp:72-106 | the arrays afterwards hold `Spec.TrainPair` of the store at entry |
| Trainer.Bpr.TrainNegatives | src/model/recsys/bpr.hpp:64-67 | makes `num_neg` updates for (uid, iid), each with label `1.0` and an unrated negative item, and the store reached is their trace applied in order; the user must leave an item unrated only when `num_neg > 0` |
| Trainer.Bpr.TrainUser | src/model/recsys/bpr.hpp:61-68 | the trace follows the user's visits (every rated item in order, `num_neg` each) and the store reached is that trace applied in order; the user must leave an item unrated only when it has rated items and `num_neg > 0` |
| Trainer.Bpr.TrainOneIteration | src/model/recsys/bpr.hpp:57-70 | the epoch ends in one of two ways: 1. every user before the first user without an entry has been trained, and the epoch stops there with that user's id (`CHECK` at line 60); 2. with no user missing, it completes. In either case the trace follows the epoch schedule of the users trained, and the store reached is that trace applied in order |
| PairProps.PairUpdateFrameUsers | src/model/recsys/bpr.hpp:91-103 | among the user rows and their accumulators, only row `uid` changes |
| PairProps.PairUpdateFrameItems | src/model/recsys/bpr.hpp:92-105 | among the item rows and their accumulators, only rows `iid` and `jid` change |
| PairProps.PairUpdateFrameBiases | src/model/recsys/bpr.hpp:86-101 | among the biases and their accumulators, only entries `iid` and `jid` change |
| PairProps.PlainSgdKeepsAcc | src/model/recsys/bpr.hpp:84 | without AdaGrad no accumulator changes |
| PairProps.PlainSgdRows | src/model/recsys/bpr.hpp:103-105 | without AdaGrad, each touched row becomes its old value minus `learn_rate` times its raw gradient |
| PairProps.PlainSgdBiases | src/model/recsys/bpr.hpp:99-102 | without AdaGrad and with the bias term, each touched bias becomes its old value minus `learn_rate` times its raw gradient |
| PairProps.PlainSgdFromEntry | src/model/recsys/bpr.hpp:78-105 | without AdaGrad and with distinct items, coordinate `k` of each touched row, and each touched bias when the bias term is on, becomes its value at entry minus `learn_rate` times (the loss term plus `2 * lambda` times that value at entry) |
| PairProps.PlainSgdSameItem | src/model/recsys/bpr.hpp:103-105 | without AdaGrad and with `iid == jid`, the user row becomes its old value minus `learn_rate` times its raw gradient, and the item row takes both steps, the positive one first |
| PairProps.AdaGradRows | src/model/recsys/bpr.hpp:91-96 | with AdaGrad, each touched accumulator row grows by the squares of its raw gradient, and each row moves by `learn_rate` times its raw gradient rescaled by the grown accumulator |
| PairProps.AdaGradFromEntry | src/model/recsys/bpr.hpp:78-96 | with AdaGrad and distinct items, coordinate `k` of each touched accumulator row grows by the square of its raw gradient computed from the store at entry, and the row moves by `learn_rate` times that gradient divided by `beta` plus the square root of the grown accumulator |
| PairProps.AdaGradSameItem | src/model/recsys/bpr.hpp:91-105 | with AdaGrad and `iid == jid`, the user accumulator row grows by the squares of the user gradient and the user row moves by `learn_rate` times that gradient rescaled by the grown row; the item accumulator row grows by the squares of both item gradients before either is rescaled, and the row then takes both steps, the positive one first, each rescaled by the twice-grown row |
| PairProps.AdaGradBiasDistinct | src/model/recsys/bpr.hpp:86-89 | for distinct `iid` and `jid`, the bias accumulators grow by the squared bias gradients, which are then divided by `beta` plus the square root of the grown accumulator |
| PairProps.AdaGradBiases | src/model/recsys/bpr.hpp:86-89 | with AdaGrad and the bias term, each touched bias accumulator grows by its squared raw gradient and each bias moves by `learn_rate` times the rescaled gradient |
| PairProps.AdaGradBiasSameItem | src/model/recsys/bpr.hpp:86-89 | for `iid == jid`, the one bias accumulator entry grows by both squared bias gradients, and both are divided by `beta` plus the square root of the twice-grown entry |
| PairProps.BiasesSameItem | src/model/recsys/bpr.hpp:86-101 | with the bias term and `iid == jid`, the one bias takes both steps, the positive one first; with AdaGrad both gradients are rescaled by the twice-grown accumulator entry |
| PairProps.PairUpdateBiasOff | src/model/recsys/bpr.hpp:85-102 | without the bias term, the biases and their accumulators are unchanged |
| PairProps.AdaGradAccLe | src/model/recsys/bpr.hpp:84-93 | the AdaGrad block never lowers an accumulator coordinate, whatever the gradients |
| PairProps.AdaGradItemAccLe | src/model/recsys/bpr.hpp:92-93 | the item accumulator rows never decrease, even when the two item ids coincide |
| PairProps.PairUpdateAccMonotone | src/model/recsys/bpr.hpp:84-97 | one update never lowers an accumulator coordinate, whatever the flags |
| PairProps.AdaGradBlockKeepsSign | src/model/recsys/bpr.hpp:91-96 | the AdaGrad block applies row gradients that keep the signs of the given gradients and are below one in magnitude |
| PairProps.AdaGradBlockKeepsSignItems | src/model/recsys/bpr.hpp:92-96 | the same for the two item rows, including the case where they coincide and the accumulator row has grown twice |
| PairProps.PairUpdateKeepsSign | src/model/recsys/bpr.hpp:91-96 | with AdaGrad, `beta > 0` and non-negative accumulators, every applied row gradient keeps the sign of its raw gradient in every coordinate and has magnitude below one |
| PairProps.PairUpdateKeepsSignBias | src/model/recsys/bpr.hpp:86-89 | the same for the two bias gradients when the bias term is on |
| PairProps.DefaultConfigKeepsSign | src/model/recsys/bpr.hpp:12-23 | with the default configuration (AdaGrad and the bias term on, `beta = 1`), every applied gradient keeps the sign of its raw gradient and has magnitude below one |
| PairProps.BiasRescaleKeepsSign | src/model/recsys/bpr.hpp:86-89 | the bias rescaling keeps both signs once the bias accumulators are non-negative |
| PairProps.ApplyCallsAccMonotone | src/model/recsys/bpr.hpp:57-70 | accumulators never decrease across any trace of updates, and so across an epoch |
| PairProps.ApplyCallsFrameUsers | src/model/recsys/bpr.hpp:57-70 | a user that no call of a trace names keeps its row and its accumulator row |
| PairProps.ApplyCallsFrameItems | src/model/recsys/bpr.hpp:57-70 | an item that no call of a trace names keeps its row and its accumulator row |
| PairProps.ApplyCallsFrameBiases | src/model/recsys/bpr.hpp:57-70 | an item that no call of a trace names keeps its bias and its bias accumulator |

## Left out

- The base class `IMF` (`src/model/recsys/imf.hpp`) is not part of this model. This covers three things:
  - `IMF::reset` builds the store and the rated items from a data set; `Bpr.Reset` takes both as arguments instead.
  - `predict_user_item_rating` is any function of the store and the two ids, passed in `Collaborators`.
  - `sample_negative_item` is a nondeterministic choice of an unrated item in range.
- The loss library (`Loss::create`, `loss_->gradient`) is not part of this model. The loss gradient is an arbitrary function passed in `Collaborators`, and `lt` only tags the configuration.
- `Penalty::create` and `pt`: the penalty object is created and its type is written to the log (line 44), but it is never used in the update. The L2 term `2 * lambda * parameter` is written into the update, and the model does the same.
- `std::sqrt` is an abstract function. Properties that need it require `SqrtContract`.
- Floating point: values are mathematical reals. Division by `beta + sqrt(acc) == 0`, where IEEE arithmetic gives an infinity or NaN, yields `0.0` (`Rows.Quot`).
- The `LOG(INFO)` configuration dump in the constructor is output only and is left out.
- The random number generator behind the sampler is not modelled; which unrated item is drawn is left open.
- The base class's `num_users_` and its number of items (the bounds at lines 58 and 65) are taken to be the number of user rows `uv` and item rows `iv` in the store.
- Trainer.Bpr.TrainOneIteration: requires `LeavesNegatives`: when `num_neg > 0`, every user that the epoch reaches and that has rated items leaves some item unrated. The model assumes of the base class's `sample_negative_item` (in `imf.hpp`, which is not part of this model) that it returns whenever an unrated item exists in range, and never returns for a user who rated every item; the model has no such non-terminating path. Users with no rated items, users after the first missing entry, and epochs with `num_neg == 0` are not constrained. `TrainUser` and `TrainNegatives` require the same of their one user.
- Trainer.Bpr.TrainOneIteration: the fatal `CHECK` on a missing rated-item entry becomes a `MissingRatedItems(uid)` status. The store is left as the users before that one made it, where the source aborts the process.
- Trainer.Bpr.TrainOneIteration: takes no data set, because the source never reads its `train_data` parameter.
- Trainer.Bpr.TrainOneIteration: a user's rated items are walked in the order of a sequence. In the source they are the keys of `item_map`, whose iteration order comes from the container in `imf.hpp`.
- Trainer.Bpr.TrainOnePair and Spec.InRange: `uid`, `iid` and `jid` must be in range. The source indexes `uv_`, `iv_` and `ib_` without a check, which is an Eigen assertion in debug builds and undefined behaviour otherwise. Within an epoch the ranges are proved: `RatedWellFormed` covers the positive item and the sampler covers the negative one.
- Trainer.Bpr.TrainOnePair: an Eigen row is one array element holding a sequence, and it is replaced whole; the coordinate-wise loops inside Eigen are not modelled.
- PairProps.PlainSgdRows: requires `iid != jid`; the coinciding case, user row and item row, is `PairProps.PlainSgdSameItem`.
- PairProps.PlainSgdBiases: requires `iid != jid`; when the ids coincide both bias steps land on one entry, which `PairProps.BiasesSameItem` states.
- PairProps.AdaGradRows: requires `iid != jid`; when the ids coincide the item accumulator row grows twice before either item gradient is rescaled, and this case, with the user row and its accumulator row, is `PairProps.AdaGradSameItem`.
- PairProps.AdaGradBiases: requires `iid != jid` for the same reason; the coinciding case is `PairProps.BiasesSameItem`.
- PairProps.PlainSgdFromEntry: requires `iid != jid`; when the ids coincide the user row takes its own step and the row and bias of that item take both steps. `PairProps.PlainSgdSameItem` (whole user and item rows) and `PairProps.BiasesSameItem` state this, but not per coordinate.
- PairProps.AdaGradFromEntry: requires `iid != jid`; the coinciding case, where the item accumulator row grows twice before either gradient is rescaled, is `PairProps.AdaGradSameItem` for both the user row and the item row, stated per row rather than per coordinate.
- PairProps.AdaGradBiasDistinct: requires `iid != jid`; the coinciding case is `PairProps.AdaGradBiasSameItem`.
- An epoch never produces `iid == jid`, because the sampler excludes rated items (`Epoch.EpochDistinctItems`).
- Convergence and ranking quality are not claimed. They are statistical properties that depend on the data and on floating-point behaviour.
