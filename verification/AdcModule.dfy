/** adc_module.c: two sample buffers used in turn. While the application reads one in the
    completion interrupt, the driver may already convert into the other. */
module AdcModule {
  import opened Common

  /** ADC_MAX_SAMPLES_PER_CHANNEL and ADC_NBR_OF_CHANNELS */
  const MAX_SAMPLES: nat := 10
  const CHANNELS: nat := 2

  /** ADC_samples_t, with the buffer as a row number. */
  datatype Samples = Samples(row: nat, tempFirst: nat, sigFirst: nat, size: nat)

  /** The driver's side: the row and length of the conversion under way. */
  datatype Driver = Idle | Converting(row: nat, size: nat)

  datatype State = State(stop: bool, perChannel: nat, conv: Driver)

  /** ADC_init's clamp; zero passes through. */
  function Clamp(n: nat): (r: nat)
    ensures r <= MAX_SAMPLES && (n <= MAX_SAMPLES ==> r == n)
    ensures r == 0 <==> n == 0
  {
    if n > MAX_SAMPLES then MAX_SAMPLES else n
  }

  /** adc_event_handler for the end of the conversion under way. */
  function OnDone(s: State): (State, Samples)
    requires s.conv.Converting?
  {
    var next := if s.conv.row == 0 then 1 else 0;
    (s.(conv := if !s.stop then Converting(next, CHANNELS * s.perChannel) else Idle),
     Samples(s.conv.row, 0, 1, s.conv.size))
  }

  function Started(perChannel: nat): State {
    State(false, perChannel, Converting(0, CHANNELS * perChannel))
  }

  /** The state after k conversions, and what the k-th one reports. */
  function AfterDone(s: State, k: nat): (r: State)
    requires s.conv.Converting? && !s.stop
    ensures r.conv.Converting? && !r.stop
    decreases k
  {
    if k == 0 then s else OnDone(AfterDone(s, k - 1)).0
  }

  /** Double-buffer exclusivity: the k-th event reports buffer k mod 2, with the next
      conversion already running into the other one, and a reported conversion never
      exceeds a row. */
  lemma {:induction false} BuffersAlternate(n: nat, k: nat)
    ensures var s, (next, samples) := AfterDone(Started(Clamp(n)), k), OnDone(AfterDone(Started(Clamp(n)), k));
            && samples.row == k % 2
            && next.conv.Converting? && next.conv.row == 1 - samples.row
            && samples.size == CHANNELS * Clamp(n) <= CHANNELS * MAX_SAMPLES
            && next.conv.size == samples.size
    decreases k
  {
    if k > 0 {
      BuffersAlternate(n, k - 1);
    }
  }

  class Adc {
    const pool: array2<int>
    var stopSampling: bool
    var samplesPerChannel: nat
    ghost var conv: Driver

    ghost predicate Valid()
      reads this
    {
      && pool.Length0 == 2 && pool.Length1 == CHANNELS * MAX_SAMPLES
      && samplesPerChannel <= MAX_SAMPLES
      && (conv.Converting? ==> conv.row < 2 && conv.size <= pool.Length1)
    }

    ghost function Abs(): State
      reads this
    {
      State(stopSampling, samplesPerChannel, conv)
    }

    /** ADC_init with timer and PPI set up. */
    constructor (samplesNbrPerChannel: nat)
      ensures Valid() && fresh(pool)
      ensures Abs() == State(true, Clamp(samplesNbrPerChannel), Idle)
    {
      pool := new int[2, CHANNELS * MAX_SAMPLES];
      stopSampling := true;
      samplesPerChannel := if samplesNbrPerChannel > MAX_SAMPLES then MAX_SAMPLES else samplesNbrPerChannel;
      conv := Idle;
    }

    method StartConv()
      requires Valid() && conv.Idle?
      modifies this
      ensures Valid() && Abs() == Started(old(samplesPerChannel))
      ensures !stopSampling && conv == Converting(0, 2 * old(samplesPerChannel))
    {
      stopSampling := false;
      conv := Converting(0, CHANNELS * samplesPerChannel);
    }

    /** ADC_stop_conv: the driver is uninitialised, so no event follows. */
    method StopConv()
      requires Valid()
      modifies this
      ensures Valid() && Abs() == old(Abs()).(stop := true, conv := Idle)
    {
      stopSampling := true;
      conv := Idle;
    }

    /** adc_event_handler; the descriptor goes to the application's callback. */
    method EventHandler(row: nat, size: nat) returns (descr: Samples)
      requires Valid() && conv == Converting(row, size)
      modifies this
      ensures Valid() && (Abs(), descr) == OnDone(old(Abs()))
      ensures descr == Samples(row, 0, 1, size)
      ensures old(stopSampling) ==> conv.Idle?
      ensures !old(stopSampling) && row < 2 ==> conv == Converting(1 - row, 2 * samplesPerChannel)
      ensures stopSampling == old(stopSampling) && samplesPerChannel == old(samplesPerChannel)
    {
      conv := Idle;
      if !stopSampling {
        var next := if row == 0 then 1 else 0;
        conv := Converting(next, CHANNELS * samplesPerChannel);
      }
      descr := Samples(row, 0, 1, size);
    }
  }
}
