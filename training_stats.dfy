/**
  The running totals the trainer keeps per report window and per checkpoint
  window (`_Stats`). Only the counters are modelled; the derived float
  metrics and the wall-clock throughput are not.
*/
module TrainingStats {

  /** Loss, source words, target words and correct predictions, summed. */
  datatype Totals = Totals(loss: real, srcWords: int, tgtWords: int, numCorrect: int)

  const Zero: Totals := Totals(0.0, 0, 0, 0)

  /** Counter-wise sum of two totals. */
  function Plus(a: Totals, b: Totals): Totals {
    Totals(a.loss + b.loss, a.srcWords + b.srcWords, a.tgtWords + b.tgtWords, a.numCorrect + b.numCorrect)
  }

  /** The totals of the batches trained at the steps `lo`, ..., `hi - 1`,
      each counter summed on its own. */
  function Accumulate(batch: int -> Totals, lo: int, hi: int): Totals
    decreases hi - lo
  {
    if hi <= lo then Zero
    else Plus(Accumulate(batch, lo, hi - 1), batch(hi - 1))
  }

  /** A window's totals are the sum of the totals of any split of it. */
  lemma {:induction false} AccumulateSplits(batch: int -> Totals, lo: int, mid: int, hi: int)
    requires lo <= mid <= hi
    ensures Accumulate(batch, lo, hi) == Plus(Accumulate(batch, lo, mid), Accumulate(batch, mid, hi))
    decreases hi - mid
  {
    if hi > mid {
      AccumulateSplits(batch, lo, mid, hi - 1);
    } else {
      assert Accumulate(batch, mid, hi) == Zero;
    }
  }

  class Stats {
    var totalLoss: real
    var srcWords: int
    var tgtWords: int
    var numCorrect: int

    constructor ()
      ensures Current() == Zero
    {
      totalLoss, srcWords, tgtWords, numCorrect := 0.0, 0, 0, 0;
    }

    function Current(): Totals
      reads this
    {
      Totals(totalLoss, srcWords, tgtWords, numCorrect)
    }

    /** Adds one batch's figures to every counter. */
    method Update(loss: real, src: int, tgt: int, correct: int)
      modifies this
      ensures totalLoss == old(totalLoss) + loss && srcWords == old(srcWords) + src
      ensures tgtWords == old(tgtWords) + tgt && numCorrect == old(numCorrect) + correct
      ensures Current() == Plus(old(Current()), Totals(loss, src, tgt, correct))
    {
      totalLoss := totalLoss + loss;
      srcWords := srcWords + src;
      tgtWords := tgtWords + tgt;
      numCorrect := numCorrect + correct;
    }
  }
}
