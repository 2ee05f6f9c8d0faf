/**
 * The epoch control of FeedForwardNetwork::Train: resuming, checkpointing on
 * a new best accuracy, giving up after too many epochs without improvement,
 * and learning-rate decay with the weight-decay multiplier kept in step.
 * Training one epoch and testing after it are not repeated here: the cost of
 * each epoch and the number of test images it classifies correctly are inputs.
 */
module Training {
  import opened Wrappers
  import opened Networks

  const TooManyThreadsForTrainingSet := "Number of threads cannot be greater than the training set size."
  const TooManyThreadsForTestSet := "Number of threads cannot be greater than the test set size."

  /** previousTrainingCost starts this high so that the first epoch does not decay the rate. */
  const InitialPreviousCost: real := 1000000.0

  /** What one epoch produced: its average training cost and how many test images it classified correctly. */
  datatype Outcome = Outcome(trainingCost: real, numberCorrect: nat)

  /** The settings of one call of Train. */
  datatype Schedule = Schedule(target: nat, giveUpAfter: nat, decay: real, decayPoint: real, weightDecay: real)

  /**
   * The state carried from epoch to epoch: the network's epoch count, rate and
   * multiplier, the best accuracy so far and its epoch, the previous training
   * cost, the epochs whose network was saved, and whether training gave up.
   */
  datatype Progress = Progress(epochsTrained: nat, learningRate: real, multiplier: real, highest: nat,
                               bestEpoch: nat, previousCost: real, saved: seq<nat>, stopped: bool)

  /** When resuming, the epoch count is added to the number of epochs asked for. */
  function TargetEpochs(epochs: nat, epochsTrained: nat): (t: nat)
    ensures epochsTrained > 0 ==> t == epochs + epochsTrained
    ensures epochsTrained == 0 ==> t == epochs
  {
    if epochsTrained > 0 then epochs + epochsTrained else epochs
  }

  /**
   * trainingCost / previousTrainingCost > decayPoint in floating point: a zero
   * previous cost makes the quotient +∞ for a positive cost and NaN (never
   * greater) for a zero cost.
   */
  predicate DecayTriggered(cost: real, previous: real, decayPoint: real)
  {
    if previous == 0.0 then cost > 0.0 else cost / previous > decayPoint
  }

  /** The factor DecayWeights applies: 1 − weightDecay · learningRate. */
  function WeightDecayMultiplier(weightDecay: real, learningRate: real): real
  {
    1.0 - weightDecay * learningRate
  }

  /** The learning rate reduced by the decay fraction. */
  function Decayed(learningRate: real, decay: real): real
  {
    learningRate * (1.0 - decay)
  }

  /** The state Train sets up before its first epoch: no record yet, and no network saved. */
  function Start(epochsTrained: nat, learningRate: real, multiplier: real, weightDecay: real): (p: Progress)
    ensures p.epochsTrained == epochsTrained && p.learningRate == learningRate && !p.stopped
    ensures p.highest == 0 && p.bestEpoch == epochsTrained && p.saved == []
  {
    Progress(epochsTrained, learningRate, if weightDecay != 0.0 then WeightDecayMultiplier(weightDecay, learningRate) else multiplier,
             0, epochsTrained, InitialPreviousCost, [], false)
  }

  /** The learning rate after a cost that does not give up: decayed when the cost did not drop enough. */
  function AfterCost(p: Progress, cost: real, s: Schedule): Progress
  {
    if s.decay != 0.0 && DecayTriggered(cost, p.previousCost, s.decayPoint) then
      var rate := Decayed(p.learningRate, s.decay);
      p.(learningRate := rate,
         multiplier := if s.weightDecay != 0.0 then WeightDecayMultiplier(s.weightDecay, rate) else p.multiplier,
         previousCost := cost)
    else
      p.(previousCost := cost)
  }

  /** One pass of the epoch loop. */
  function Epoch(p: Progress, o: Outcome, s: Schedule): Progress
  {
    var e := p.epochsTrained + 1;
    if o.numberCorrect > p.highest then
      AfterCost(p.(epochsTrained := e, highest := o.numberCorrect, bestEpoch := e, saved := p.saved + [e]), o.trainingCost, s)
    else if e - p.bestEpoch >= s.giveUpAfter then
      p.(epochsTrained := e, stopped := true)
    else
      AfterCost(p.(epochsTrained := e), o.trainingCost, s)
  }

  /** The epoch loop: runs until the target is reached or training gives up, taking one outcome per epoch. */
  function Run(p: Progress, outcomes: seq<Outcome>, s: Schedule): Progress
    requires p.epochsTrained + |outcomes| >= s.target
    decreases |outcomes|
  {
    if p.stopped || p.epochsTrained >= s.target then p
    else Run(Epoch(p, outcomes[0], s), outcomes[1..], s)
  }

  /**
   * FeedForwardNetwork::Train: the thread-count checks, then the epoch loop
   * from the resumed epoch count up to the target. Returns the epochs after
   * which the network was saved.
   */
  method Train(net: FeedForwardNetwork, trainingSetSize: nat, testSetSize: nat, epochs: nat, giveUpAfter: nat,
               decay: real, decayPoint: real, outcomes: seq<Outcome>) returns (r: Result<seq<nat>>)
    requires net.epochsTrained + |outcomes| >= TargetEpochs(epochs, net.epochsTrained)
    modifies net`epochsTrained, net`learningRate, net`weightDecayMultiplier
    ensures r.Err? <==> trainingSetSize < net.threadCount || testSetSize < net.threadCount
    ensures trainingSetSize < net.threadCount ==> r == Err(TooManyThreadsForTrainingSet)
    ensures trainingSetSize >= net.threadCount && testSetSize < net.threadCount ==> r == Err(TooManyThreadsForTestSet)
    ensures r.Err? ==> unchanged(net)
    ensures r.Ok? ==>
      var f := Run(Start(old(net.epochsTrained), old(net.learningRate), old(net.weightDecayMultiplier), net.weightDecay),
                   outcomes,
                   Schedule(TargetEpochs(epochs, old(net.epochsTrained)), giveUpAfter, decay, decayPoint, net.weightDecay));
      net.epochsTrained == f.epochsTrained && net.learningRate == f.learningRate &&
      net.weightDecayMultiplier == f.multiplier && r.value == f.saved
  {
    if trainingSetSize < net.threadCount {
      return Err(TooManyThreadsForTrainingSet);
    }
    if testSetSize < net.threadCount {
      return Err(TooManyThreadsForTestSet);
    }
    var target := TargetEpochs(epochs, net.epochsTrained);
    ghost var s := Schedule(target, giveUpAfter, decay, decayPoint, net.weightDecay);
    ghost var p0 := Start(net.epochsTrained, net.learningRate, net.weightDecayMultiplier, net.weightDecay);
    if net.weightDecay != 0.0 {
      net.weightDecayMultiplier := WeightDecayMultiplier(net.weightDecay, net.learningRate);
    }
    var previousCost := InitialPreviousCost;
    var highest: nat := 0;
    var bestEpoch: nat := net.epochsTrained;
    var saved: seq<nat> := [];
    var stopped := false;
    var k := 0;
    while !stopped && net.epochsTrained < target
      invariant k <= |outcomes| && net.epochsTrained + |outcomes| - k >= target
      invariant Run(p0, outcomes, s) ==
        Run(Progress(net.epochsTrained, net.learningRate, net.weightDecayMultiplier, highest, bestEpoch, previousCost, saved, stopped),
            outcomes[k..], s)
      decreases target - net.epochsTrained, if stopped then 0 else 1
    {
      ghost var p := Progress(net.epochsTrained, net.learningRate, net.weightDecayMultiplier, highest, bestEpoch, previousCost, saved, stopped);
      assert outcomes[k..][1..] == outcomes[k + 1..];
      ghost var q := Epoch(p, outcomes[k], s);
      var trainingCost := outcomes[k].trainingCost;
      net.epochsTrained := net.epochsTrained + 1;
      var numberCorrect := outcomes[k].numberCorrect;
      if numberCorrect > highest {
        highest := numberCorrect;
        bestEpoch := net.epochsTrained;
        saved := saved + [net.epochsTrained];
      } else if net.epochsTrained - bestEpoch >= giveUpAfter {
        stopped := true;
      }
      if !stopped {
        if decay != 0.0 && DecayTriggered(trainingCost, previousCost, decayPoint) {
          net.learningRate := Decayed(net.learningRate, decay);
          if net.weightDecay != 0.0 {
            net.weightDecayMultiplier := WeightDecayMultiplier(net.weightDecay, net.learningRate);
          }
        }
        previousCost := trainingCost;
      }
      k := k + 1;
      assert q.epochsTrained == net.epochsTrained && q.highest == highest && q.bestEpoch == bestEpoch;
      assert q.saved == saved && q.stopped == stopped && q.previousCost == previousCost;
      assert q.learningRate == net.learningRate && q.multiplier == net.weightDecayMultiplier;
    }
    r := Ok(saved);
  }

  // ---------------------------------------------------------------------------
  // What the epoch loop guarantees.

  /** The best accuracy among `done`, starting from 0 as highestNumberCorrect does. */
  function Best(done: seq<Outcome>): nat
  {
    if done == [] then 0
    else
      var n := |done| - 1;
      var b := Best(done[..n]);
      if done[n].numberCorrect > b then done[n].numberCorrect else b
  }

  /** Best is the largest accuracy of `done`, or 0 when none is larger. */
  lemma {:induction false} BestIsMaximum(done: seq<Outcome>)
    ensures forall i | 0 <= i < |done| :: done[i].numberCorrect <= Best(done)
    ensures Best(done) == 0 || exists i | 0 <= i < |done| :: done[i].numberCorrect == Best(done)
  {
    if done != [] {
      var n := |done| - 1;
      BestIsMaximum(done[..n]);
      assert forall i | 0 <= i < n :: done[i] == done[..n][i];
    }
  }

  /** Whether epoch `i` of `done` beat every earlier epoch (and 0). */
  predicate IsRecord(done: seq<Outcome>, i: nat)
    requires i < |done|
  {
    done[i].numberCorrect > Best(done[..i])
  }

  /** How many epochs of `done` came up to and including its last record; 0 when there is none. */
  function LastRecord(done: seq<Outcome>): (n: nat)
    ensures n <= |done|
  {
    if done == [] then 0
    else
      var n := |done| - 1;
      if IsRecord(done, n) then n + 1 else LastRecord(done[..n])
  }

  /**
   * `p` is the state after the epochs `done`, started at epoch `start`: the best
   * accuracy and its epoch are those of the last record, and exactly the
   * record epochs were saved.
   */
  ghost predicate Consistent(p: Progress, done: seq<Outcome>, start: nat)
  {
    p.epochsTrained == start + |done| &&
    p.highest == Best(done) &&
    p.bestEpoch == start + LastRecord(done) &&
    (forall e | e in p.saved :: start < e <= p.epochsTrained) &&
    (forall i | 0 <= i < |done| :: (start + i + 1 in p.saved) <==> IsRecord(done, i))
  }

  lemma AfterCostKeepsRecords(p: Progress, cost: real, s: Schedule)
    ensures var q := AfterCost(p, cost, s);
      q.epochsTrained == p.epochsTrained && q.highest == p.highest && q.bestEpoch == p.bestEpoch &&
      q.saved == p.saved && q.stopped == p.stopped
  {
  }

  /** One epoch keeps the state consistent with the epochs run so far. */
  lemma {:induction false} EpochKeepsConsistent(p: Progress, done: seq<Outcome>, start: nat, o: Outcome, s: Schedule)
    requires Consistent(p, done, start)
    ensures Consistent(Epoch(p, o, s), done + [o], start)
  {
    var q := Epoch(p, o, s);
    var d := done + [o];
    var n := |done|;
    var e := start + n + 1;
    assert d[..n] == done;
    if o.numberCorrect > p.highest {
      AfterCostKeepsRecords(p.(epochsTrained := e, highest := o.numberCorrect, bestEpoch := e, saved := p.saved + [e]),
                            o.trainingCost, s);
      assert q.saved == p.saved + [e];
    } else if e - p.bestEpoch >= s.giveUpAfter {
      assert q.saved == p.saved;
    } else {
      AfterCostKeepsRecords(p.(epochsTrained := e), o.trainingCost, s);
      assert q.saved == p.saved;
    }
    forall i | 0 <= i < n
      ensures (start + i + 1 in q.saved) <==> IsRecord(d, i)
    {
      assert d[..i] == done[..i] && d[i] == done[i];
      assert IsRecord(d, i) == IsRecord(done, i);
      assert (start + i + 1 in q.saved) == (start + i + 1 in p.saved);
    }
  }

  /** The loop keeps the state consistent with the epochs it has run. */
  lemma {:induction false} RunConsistent(p: Progress, done: seq<Outcome>, start: nat, outcomes: seq<Outcome>, s: Schedule)
    requires Consistent(p, done, start) && p.epochsTrained + |outcomes| >= s.target
    ensures var f := Run(p, outcomes, s);
      p.epochsTrained <= f.epochsTrained <= p.epochsTrained + |outcomes| &&
      Consistent(f, done + outcomes[..f.epochsTrained - p.epochsTrained], start)
    decreases |outcomes|
  {
    if p.stopped || p.epochsTrained >= s.target {
      assert outcomes[..0] == [];
      assert done + [] == done;
    } else {
      var q := Epoch(p, outcomes[0], s);
      EpochKeepsConsistent(p, done, start, outcomes[0], s);
      RunConsistent(q, done + [outcomes[0]], start, outcomes[1..], s);
      var ran := Run(p, outcomes, s).epochsTrained - p.epochsTrained;
      assert (done + [outcomes[0]]) + outcomes[1..][..ran - 1] == done + outcomes[..ran];
    }
  }

  /**
   * Train saves the network after an epoch exactly when that epoch's accuracy
   * beats every earlier epoch of the call (and 0).
   */
  lemma {:induction false} SavedExactlyOnRecords(p: Progress, outcomes: seq<Outcome>, s: Schedule)
    requires p.highest == 0 && p.bestEpoch == p.epochsTrained && p.saved == []
    requires p.epochsTrained + |outcomes| >= s.target
    ensures var f := Run(p, outcomes, s);
      p.epochsTrained <= f.epochsTrained <= p.epochsTrained + |outcomes| &&
      forall i | 0 <= i < f.epochsTrained - p.epochsTrained :: (p.epochsTrained + i + 1 in f.saved) <==> IsRecord(outcomes, i)
  {
    var start := p.epochsTrained;
    RunConsistent(p, [], start, outcomes, s);
    var f := Run(p, outcomes, s);
    var d := outcomes[..f.epochsTrained - start];
    assert [] + d == d;
    SavedAreRecords(f, outcomes, start, |d|);
  }

  /** In a state consistent with the first n outcomes, the saved epochs are the records among them. */
  lemma SavedAreRecords(f: Progress, outcomes: seq<Outcome>, start: nat, n: nat)
    requires n <= |outcomes| && Consistent(f, outcomes[..n], start)
    ensures forall i | 0 <= i < n :: (start + i + 1 in f.saved) <==> IsRecord(outcomes, i)
  {
    RecordsOfPrefix(outcomes, n);
  }

  /** Whether an epoch set a record depends only on the epochs up to it. */
  lemma RecordsOfPrefix(xs: seq<Outcome>, n: nat)
    requires n <= |xs|
    ensures forall i | 0 <= i < n :: IsRecord(xs[..n], i) == IsRecord(xs, i)
  {
    forall i | 0 <= i < n
      ensures IsRecord(xs[..n], i) == IsRecord(xs, i)
    {
      assert xs[..n][..i] == xs[..i];
    }
  }

  /**
   * The loop ends either at the target or by giving up on an epoch that set no
   * record, at least giveUpAfter epochs after the best one; that epoch is not saved.
   */
  lemma {:induction false} RunEnds(p: Progress, outcomes: seq<Outcome>, s: Schedule)
    requires !p.stopped && p.epochsTrained + |outcomes| >= s.target
    requires forall e | e in p.saved :: e <= p.epochsTrained
    ensures var f := Run(p, outcomes, s);
      (!f.stopped ==> f.epochsTrained == if p.epochsTrained >= s.target then p.epochsTrained else s.target) &&
      (f.stopped ==> f.epochsTrained <= s.target && f.epochsTrained - f.bestEpoch >= s.giveUpAfter &&
                     f.epochsTrained !in f.saved)
    decreases |outcomes|
  {
    if p.epochsTrained < s.target {
      var q := Epoch(p, outcomes[0], s);
      AfterCostKeepsRecords(p.(epochsTrained := p.epochsTrained + 1, highest := outcomes[0].numberCorrect,
                               bestEpoch := p.epochsTrained + 1, saved := p.saved + [p.epochsTrained + 1]),
                            outcomes[0].trainingCost, s);
      AfterCostKeepsRecords(p.(epochsTrained := p.epochsTrained + 1), outcomes[0].trainingCost, s);
      if !q.stopped {
        RunEnds(q, outcomes[1..], s);
      }
    }
  }

  /** With a decay fraction in [0, 1), the learning rate stays positive and never grows; without decay it stays put. */
  lemma {:induction false} RunLearningRate(p: Progress, outcomes: seq<Outcome>, s: Schedule)
    requires p.epochsTrained + |outcomes| >= s.target
    requires 0.0 <= s.decay < 1.0 && p.learningRate > 0.0
    ensures var f := Run(p, outcomes, s);
      0.0 < f.learningRate <= p.learningRate && (s.decay == 0.0 ==> f.learningRate == p.learningRate)
    decreases |outcomes|
  {
    if !p.stopped && p.epochsTrained < s.target {
      EpochLearningRate(p, outcomes[0], s);
      RunLearningRate(Epoch(p, outcomes[0], s), outcomes[1..], s);
    }
  }

  /** One epoch of RunLearningRate: the rate is decayed at most once, by a fraction below 1. */
  lemma EpochLearningRate(p: Progress, o: Outcome, s: Schedule)
    requires 0.0 <= s.decay < 1.0 && p.learningRate > 0.0
    ensures var q := Epoch(p, o, s);
      0.0 < q.learningRate <= p.learningRate && (s.decay == 0.0 ==> q.learningRate == p.learningRate)
  {
    var r := p.learningRate * s.decay;
    assert 0.0 <= r < p.learningRate by { DecayBelowRate(p.learningRate, s.decay); }
    assert Decayed(p.learningRate, s.decay) == p.learningRate - r;
  }

  lemma DecayBelowRate(rate: real, decay: real)
    requires 0.0 <= decay < 1.0 && rate > 0.0
    ensures 0.0 <= rate * decay < rate
  {
    assert rate * (1.0 - decay) > 0.0;
  }

  /** Whenever weight decay is on, the multiplier is 1 − weightDecay · learningRate, before and after every epoch. */
  lemma {:induction false} RunKeepsMultiplier(p: Progress, outcomes: seq<Outcome>, s: Schedule)
    requires p.epochsTrained + |outcomes| >= s.target
    requires s.weightDecay != 0.0 ==> p.multiplier == WeightDecayMultiplier(s.weightDecay, p.learningRate)
    ensures var f := Run(p, outcomes, s);
      s.weightDecay != 0.0 ==> f.multiplier == WeightDecayMultiplier(s.weightDecay, f.learningRate)
    decreases |outcomes|
  {
    if !p.stopped && p.epochsTrained < s.target {
      RunKeepsMultiplier(Epoch(p, outcomes[0], s), outcomes[1..], s);
    }
  }

  /** Train sets the multiplier up so that the invariant of RunKeepsMultiplier holds from the first epoch. */
  lemma StartKeepsMultiplier(epochsTrained: nat, learningRate: real, multiplier: real, s: Schedule)
    ensures var p := Start(epochsTrained, learningRate, multiplier, s.weightDecay);
      s.weightDecay != 0.0 ==> p.multiplier == WeightDecayMultiplier(s.weightDecay, p.learningRate)
  {
  }
}
