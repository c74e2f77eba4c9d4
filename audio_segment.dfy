/**
 * The scored audio chunk and the pause test of src/audio/processing/audio_segment.rs.
 *
 * Samples and probabilities are f32 in the source; here they are reals: the
 * model computes exactly where the source rounds, and rounding is not
 * modelled.  The one place where f32 behaviour changes the outcome (the
 * 0.0 / 0.0 of a three-element input) is written out.
 */
module Processing {

  /** One amplitude sample.  The segmentation logic only moves samples around. */
  type Sample = real

  /** Number of newest probabilities the pause test inspects (`frame_rate`). */
  const LeadFrames: nat := 3

  /** A lead probability must be at most this fraction of the tail average. */
  const PauseRatio: real := 0.75

  /** A captured chunk together with the speech probability the detector gave it. */
  datatype AudioSegment = AudioSegment(audioData: seq<Sample>, speechProbability: real)
  {
    /** `AudioSegment::new`: a record that keeps both arguments as they are. */
    static function New(audioData: seq<Sample>, speechProbability: real): (s: AudioSegment)
      ensures s.audioData == audioData
      ensures s.speechProbability == speechProbability
    {
      AudioSegment(audioData, speechProbability)
    }

    /**
     * `AudioSegment::is_pause`: skip the first `LeadFrames` probabilities,
     * average the rest, and report whether every skipped one is at most
     * `PauseRatio` times that average.  Fewer than `LeadFrames` entries make
     * the slice `[0..3]` panic, hence the precondition.  With exactly
     * `LeadFrames` entries the average is 0.0 / 0.0, a NaN, and every
     * comparison with a NaN is false, so the answer is false.
     *
     * The ensures states the same test without the division: a lead value
     * times the tail length is at most `PauseRatio` times the tail sum.
     */
    static function IsPause(probabilities: seq<real>): (r: bool)
      requires |probabilities| >= LeadFrames
      ensures r <==> (|probabilities| > LeadFrames &&
        LeadsAtMost(probabilities, (|probabilities| - LeadFrames) as real, PauseRatio * Sum(probabilities[LeadFrames..])))
    {
      var len := |probabilities| as real;
      var sum := Sum(probabilities[LeadFrames..]);
      if len == LeadFrames as real then
        false
      else
        var average := sum / (len - LeadFrames as real);
        CrossMultiplied(probabilities, sum, len - LeadFrames as real, average);
        forall i :: 0 <= i < LeadFrames ==> probabilities[i] <= average * PauseRatio
    }
  }

  /** Each of the first `LeadFrames` values, multiplied by `k`, is at most `bound`. */
  predicate LeadsAtMost(ps: seq<real>, k: real, bound: real)
    requires |ps| >= LeadFrames
  {
    forall i :: 0 <= i < LeadFrames ==> ps[i] * k <= bound
  }

  /** Dividing by a positive count can be traded for multiplying the other side. */
  lemma CrossMultiplied(ps: seq<real>, sum: real, count: real, average: real)
    requires |ps| >= LeadFrames && count > 0.0 && average == sum / count
    ensures forall i :: 0 <= i < LeadFrames ==>
      (ps[i] <= average * PauseRatio <==> ps[i] * count <= PauseRatio * sum)
  {
    forall i | 0 <= i < LeadFrames
      ensures ps[i] <= average * PauseRatio <==> ps[i] * count <= PauseRatio * sum
    {
      assert average * count == sum;
      assert average * PauseRatio * count == PauseRatio * sum;
    }
  }

  /** The sum of a run of probabilities (`iter().sum()`). */
  function Sum(s: seq<real>): real
  {
    if s == [] then 0.0 else s[0] + Sum(s[1..])
  }

  lemma {:induction false} SumAppend(a: seq<real>, b: seq<real>)
    ensures Sum(a + b) == Sum(a) + Sum(b)
  {
    if a == [] {
      assert a + b == b;
    } else {
      assert (a + b)[1..] == a[1..] + b;
      SumAppend(a[1..], b);
    }
  }

  /** Taking one term out of a sum. */
  lemma SumRemove(b: seq<real>, j: nat)
    requires j < |b|
    ensures Sum(b) == b[j] + Sum(b[..j] + b[j + 1..])
  {
    var front, back := b[..j], b[j + 1..];
    assert b == front + ([b[j]] + back);
    SumAppend(front, [b[j]] + back);
    assert ([b[j]] + back)[1..] == back;
    assert Sum([b[j]] + back) == b[j] + Sum(back);
    SumAppend(front, back);
  }

  /** Taking the same element out of two equal multisets leaves equal multisets. */
  lemma MultisetRemove(a: seq<real>, b: seq<real>, j: nat)
    requires a != [] && j < |b| && b[j] == a[0] && multiset(a) == multiset(b)
    ensures multiset(a[1..]) == multiset(b[..j] + b[j + 1..])
  {
    assert b == b[..j] + [b[j]] + b[j + 1..];
    assert a == [a[0]] + a[1..];
    assert multiset(b) == multiset(b[..j] + b[j + 1..]) + multiset{a[0]};
    assert multiset(a) == multiset(a[1..]) + multiset{a[0]};
    assert multiset(a[1..]) == multiset(a) - multiset{a[0]};
    assert multiset(b[..j] + b[j + 1..]) == multiset(b) - multiset{a[0]};
  }

  /** The sum does not depend on the order of its terms. */
  lemma {:induction false} SumPermutation(a: seq<real>, b: seq<real>)
    requires multiset(a) == multiset(b)
    ensures Sum(a) == Sum(b)
    decreases |a|
  {
    if a == [] {
      assert |b| == |multiset(b)| == 0;
    } else {
      assert a[0] in multiset(b);
      var j :| 0 <= j < |b| && b[j] == a[0];
      MultisetRemove(a, b, j);
      SumPermutation(a[1..], b[..j] + b[j + 1..]);
      SumRemove(b, j);
    }
  }

  /** Every probability multiplied by the same factor. */
  function Scaled(ps: seq<real>, c: real): (r: seq<real>)
    ensures |r| == |ps|
    ensures forall i :: 0 <= i < |ps| ==> r[i] == c * ps[i]
  {
    seq(|ps|, i requires 0 <= i < |ps| => c * ps[i])
  }

  lemma ScaledSlice(ps: seq<real>, c: real, k: nat)
    requires k <= |ps|
    ensures Scaled(ps, c)[k..] == Scaled(ps[k..], c)
  {
    var l, r := Scaled(ps, c)[k..], Scaled(ps[k..], c);
    assert |l| == |r|;
    forall i | 0 <= i < |l| ensures l[i] == r[i] {
      assert l[i] == Scaled(ps, c)[k + i];
    }
  }

  lemma {:induction false} SumScaled(ps: seq<real>, c: real)
    ensures Sum(Scaled(ps, c)) == c * Sum(ps)
  {
    if ps != [] {
      ScaledSlice(ps, c, 1);
      SumScaled(ps[1..], c);
    }
  }

  /** A sequence of `n` copies of `c` sums to `n * c`. */
  lemma {:induction false} SumConstant(ps: seq<real>, c: real)
    requires forall i :: 0 <= i < |ps| ==> ps[i] == c
    ensures Sum(ps) == |ps| as real * c
  {
    if ps != [] {
      SumConstant(ps[1..], c);
    }
  }

  /**
   * The pause test compares probabilities relative to each other: scaling all
   * of them by the same positive factor does not change its answer.
   */
  lemma IsPauseScaleInvariant(ps: seq<real>, c: real)
    requires |ps| >= LeadFrames && c > 0.0
    ensures AudioSegment.IsPause(Scaled(ps, c)) == AudioSegment.IsPause(ps)
  {
    var qs := Scaled(ps, c);
    ScaledSlice(ps, c, LeadFrames);
    SumScaled(ps[LeadFrames..], c);
    var k := (|ps| - LeadFrames) as real;
    var t := PauseRatio * Sum(ps[LeadFrames..]);
    assert PauseRatio * Sum(qs[LeadFrames..]) == c * t;
    LeadsScaled(ps, qs, c, k, t);
  }

  lemma LeadsScaled(ps: seq<real>, qs: seq<real>, c: real, k: real, t: real)
    requires |ps| >= LeadFrames && |qs| >= LeadFrames && c > 0.0
    requires forall i :: 0 <= i < LeadFrames ==> qs[i] == c * ps[i]
    ensures LeadsAtMost(qs, k, c * t) <==> LeadsAtMost(ps, k, t)
  {
    forall i | 0 <= i < LeadFrames
      ensures qs[i] * k <= c * t <==> ps[i] * k <= t
    {
      assert qs[i] * k == c * (ps[i] * k);
      ScaleKeepsOrder(ps[i] * k, t, c);
    }
  }

  lemma ScaleKeepsOrder(x: real, y: real, c: real)
    requires c > 0.0
    ensures c * x <= c * y <==> x <= y
  {
    assert c * y - c * x == c * (y - x);
  }

  /**
   * The tail enters the test only through its sum and length: reordering the
   * probabilities after the lead frames does not change the answer.
   */
  lemma IsPauseTailOrderIrrelevant(lead: seq<real>, t1: seq<real>, t2: seq<real>)
    requires |lead| == LeadFrames && multiset(t1) == multiset(t2)
    ensures AudioSegment.IsPause(lead + t1) == AudioSegment.IsPause(lead + t2)
  {
    assert (lead + t1)[LeadFrames..] == t1;
    assert (lead + t2)[LeadFrames..] == t2;
    assert |t1| == |multiset(t1)| == |multiset(t2)| == |t2|;
    SumPermutation(t1, t2);
  }

  /** Steady, non-zero speech confidence is never a pause. */
  lemma SteadyIsNotPause(ps: seq<real>, c: real)
    requires |ps| >= LeadFrames && c > 0.0
    requires forall i :: 0 <= i < |ps| ==> ps[i] == c
    ensures !AudioSegment.IsPause(ps)
  {
    var tail := ps[LeadFrames..];
    SumConstant(tail, c);
    if |ps| > LeadFrames {
      var k := |tail| as real;
      assert ps[0] * k == c * k;
      assert PauseRatio * Sum(tail) == PauseRatio * (k * c);
    }
  }

  /** All-zero probabilities (more than `LeadFrames` of them) do count as a pause. */
  lemma SilenceIsPause(ps: seq<real>)
    requires |ps| > LeadFrames
    requires forall i :: 0 <= i < |ps| ==> ps[i] == 0.0
    ensures AudioSegment.IsPause(ps)
  {
    SumConstant(ps[LeadFrames..], 0.0);
  }
}
