/**
  The history generator: one synthetic daily sample per day of the window,
  oldest first. A day is identified by its offset from today (0 is today).
  The random source is injected as a sequence of draws in [0, 1), consumed in
  the order the generator asks for them.
 */
module History {

  datatype BarState = Up | Partial | Down

  /** One day of history: the day's offset from today, its state and its success percentage. */
  datatype DailySample = DailySample(offset: nat, state: BarState, successPct: real)

  /** Offsets forced into the down band (40-50%) and into the partial band (65-85%). */
  const DownOffsets: seq<int> := [5, 36]
  const PartialOffsets: seq<int> := [12, 20, 48, 72]

  /** Inclusive upper bounds of the down and partial states. */
  const DownCeiling: real := 50.0
  const PartialCeiling: real := 92.0

  /** The three-state classification of a success percentage. */
  function StateOf(pct: real): BarState {
    if pct <= DownCeiling then Down
    else if pct <= PartialCeiling then Partial
    else Up
  }

  lemma StateOfThresholds(pct: real)
    ensures StateOf(pct) == Down <==> pct <= 50.0
    ensures StateOf(pct) == Partial <==> 50.0 < pct <= 92.0
    ensures StateOf(pct) == Up <==> 92.0 < pct
  {
  }

  predicate IsForced(offset: int) {
    offset in DownOffsets || offset in PartialOffsets
  }

  /** Draws one day consumes: the baseline draw always, plus one for a forced day. */
  function DrawsUsed(offset: int): nat {
    if IsForced(offset) then 2 else 1
  }

  /** The day's percentage from its baseline draw and, on a forced day, its second draw. */
  function SuccessPct(offset: int, baseline: real, extra: real): real {
    if offset in DownOffsets then 40.0 + extra * 10.0
    else if offset in PartialOffsets then 65.0 + extra * 20.0
    else 99.5 + (baseline - 0.5)
  }

  /** Reference definition of the state a day must have: decided by its offset alone. */
  function ForcedState(offset: int): BarState {
    if offset in DownOffsets then Down
    else if offset in PartialOffsets then Partial
    else Up
  }

  predicate UnitDraws(draws: seq<real>) {
    forall k :: 0 <= k < |draws| ==> 0.0 <= draws[k] < 1.0
  }

  /** Bands: down days land in [40, 50), partial days in [65, 85), other days in [99, 100). */
  predicate InBand(s: DailySample) {
    if s.offset in DownOffsets then 40.0 <= s.successPct < 50.0
    else if s.offset in PartialOffsets then 65.0 <= s.successPct < 85.0
    else 99.0 <= s.successPct < 100.0
  }

  /** For draws in [0, 1) every band lies wholly inside the state its offset is forced to. */
  lemma SuccessPctBand(offset: nat, baseline: real, extra: real)
    requires 0.0 <= baseline < 1.0 && 0.0 <= extra < 1.0
    ensures InBand(Day(offset, baseline, extra)) && Day(offset, baseline, extra).state == ForcedState(offset)
  {
  }

  /** The second draw a day uses, if it is forced; a non-forced day does not read it. */
  function ExtraDraw(offset: int, draws: seq<real>): real
    requires |draws| >= 2
  {
    if IsForced(offset) then draws[1] else 0.0
  }

  /** One day's sample from its draws. */
  function Day(offset: nat, baseline: real, extra: real): DailySample {
    var pct := SuccessPct(offset, baseline, extra);
    DailySample(offset, StateOf(pct), pct)
  }

  /** The samples for offsets `offset` down to 0, taking draws from the front of `draws`. */
  function Samples(offset: int, draws: seq<real>): seq<DailySample>
    requires |draws| >= 2 * (offset + 1)
    decreases offset
  {
    if offset < 0 then []
    else [Day(offset, draws[0], ExtraDraw(offset, draws))] + Samples(offset - 1, draws[DrawsUsed(offset)..])
  }

  /** Whatever the draws: one sample per day, offsets counting down to 0, states consistent with percentages. */
  lemma {:induction false} SamplesShape(offset: int, draws: seq<real>)
    requires |draws| >= 2 * (offset + 1)
    ensures |Samples(offset, draws)| == (if offset < 0 then 0 else offset + 1)
    ensures forall i :: 0 <= i < |Samples(offset, draws)| ==>
      Samples(offset, draws)[i].offset == offset - i
      && Samples(offset, draws)[i].state == StateOf(Samples(offset, draws)[i].successPct)
    decreases offset
  {
    if offset >= 0 {
      var rest := draws[DrawsUsed(offset)..];
      var tail := Samples(offset - 1, rest);
      SamplesShape(offset - 1, rest);
      var r := Samples(offset, draws);
      assert r == [Day(offset, draws[0], ExtraDraw(offset, draws))] + tail;
      forall i | 0 <= i < |r|
        ensures r[i].offset == offset - i && r[i].state == StateOf(r[i].successPct)
      {
        if i > 0 {
          assert r[i] == tail[i - 1];
        }
      }
    }
  }

  /** With draws in [0, 1), each sample's state is its offset's forced state and its percentage is in band. */
  lemma {:induction false} SamplesForced(offset: int, draws: seq<real>)
    requires |draws| >= 2 * (offset + 1)
    requires UnitDraws(draws)
    ensures forall i :: 0 <= i < |Samples(offset, draws)| ==>
      Samples(offset, draws)[i].state == ForcedState(Samples(offset, draws)[i].offset)
      && InBand(Samples(offset, draws)[i])
    decreases offset
  {
    if offset >= 0 {
      var rest := draws[DrawsUsed(offset)..];
      var tail := Samples(offset - 1, rest);
      assert UnitDraws(rest) by {
        forall k | 0 <= k < |rest| ensures 0.0 <= rest[k] < 1.0 {
          assert rest[k] == draws[k + DrawsUsed(offset)];
        }
      }
      SamplesForced(offset - 1, rest);
      SuccessPctBand(offset, draws[0], ExtraDraw(offset, draws));
      var r := Samples(offset, draws);
      assert r == [Day(offset, draws[0], ExtraDraw(offset, draws))] + tail;
      forall i | 0 <= i < |r|
        ensures r[i].state == ForcedState(r[i].offset) && InBand(r[i])
      {
        if i > 0 {
          assert r[i] == tail[i - 1];
        }
      }
    }
  }

  /** One step of the generation: the first day's sample, then the rest from the draws it left. */
  lemma SamplesUnfold(offset: nat, draws: seq<real>, next: nat)
    requires next <= |draws| && |draws| - next >= 2 * (offset + 1)
    ensures Samples(offset, draws[next..])
         == [Day(offset, draws[next], if IsForced(offset) then draws[next + 1] else 0.0)]
            + Samples(offset - 1, draws[next + DrawsUsed(offset)..])
  {
  }

  lemma AppendRegroup(done: seq<DailySample>, sample: DailySample, rest: seq<DailySample>)
    ensures (done + [sample]) + rest == done + ([sample] + rest)
  {
  }

  /** The history a `days`-long window generates from `draws`: offsets `days - 1` down to 0. */
  function GeneratedHistory(days: int, draws: seq<real>): seq<DailySample>
    requires |draws| >= 2 * days
  {
    Samples(days - 1, draws)
  }

  /** Which entry of a `days`-long history holds the day `offset` days ago. */
  function IndexOfOffset(days: int, offset: nat): int {
    days - 1 - offset
  }

  /**
    `buildServiceHistory(service, days)`: a loop from offset `days - 1` down to
    0 that takes a baseline draw, replaces it on a forced day by a draw in
    that day's band, classifies the percentage and appends the sample.
    `buildServiceHistory` never reads its service argument, so it is omitted.
   */
  method BuildServiceHistory(days: int, draws: seq<real>) returns (history: seq<DailySample>)
    requires |draws| >= 2 * days
    ensures history == GeneratedHistory(days, draws)
    ensures |history| == (if days < 0 then 0 else days)
    ensures forall i :: 0 <= i < |history| ==>
      history[i].offset == days - 1 - i && history[i].state == StateOf(history[i].successPct)
  {
    history := [];
    var offset := days - 1;
    var next := 0;
    while offset >= 0
      invariant offset <= days - 1
      invariant 0 <= next <= |draws|
      invariant |draws| - next >= 2 * (offset + 1)
      invariant history + Samples(offset, draws[next..]) == Samples(days - 1, draws)
      decreases offset
    {
      ghost var start := next;
      SamplesUnfold(offset, draws, next);
      var successPct := 99.5 + (draws[next] - 0.5);
      next := next + 1;
      if offset in DownOffsets {
        successPct := 40.0 + draws[next] * 10.0;
        next := next + 1;
      } else if offset in PartialOffsets {
        successPct := 65.0 + draws[next] * 20.0;
        next := next + 1;
      }
      var sample := DailySample(offset, StateOf(successPct), successPct);
      ghost var extra := if IsForced(offset) then draws[start + 1] else 0.0;
      assert successPct == SuccessPct(offset, draws[start], extra);
      assert sample == Day(offset, draws[start], extra);
      ghost var rest := Samples(offset - 1, draws[next..]);
      AppendRegroup(history, sample, rest);
      history := history + [sample];
      offset := offset - 1;
    }
    SamplesShape(days - 1, draws);
  }

  /**
    The key property of the generator: with draws in [0, 1), the entry for the
    day `o` days ago is down for o in {5, 36}, partial for o in {12, 20, 48, 72}
    and up otherwise, and forced offsets at or beyond the window are not emitted.
   */
  lemma HistoryStatesByOffset(days: int, draws: seq<real>)
    requires |draws| >= 2 * days
    requires UnitDraws(draws)
    ensures |GeneratedHistory(days, draws)| == (if days < 0 then 0 else days)
    ensures forall i :: 0 <= i < |GeneratedHistory(days, draws)| ==>
      GeneratedHistory(days, draws)[i].offset < days
      && GeneratedHistory(days, draws)[i].state == ForcedState(GeneratedHistory(days, draws)[i].offset)
    ensures forall o: nat :: o < days ==>
      (GeneratedHistory(days, draws)[IndexOfOffset(days, o)].offset == o
       && GeneratedHistory(days, draws)[IndexOfOffset(days, o)].state == ForcedState(o))
  {
    SamplesShape(days - 1, draws);
    SamplesForced(days - 1, draws);
  }

  /** The sequence of states of a history. */
  function States(h: seq<DailySample>): (r: seq<BarState>)
    ensures |r| == |h|
  {
    seq(|h|, i requires 0 <= i < |h| => h[i].state)
  }

  /** Two runs with different draws give the same sequence of states. */
  lemma StatesIndependentOfDraws(days: int, d1: seq<real>, d2: seq<real>)
    requires |d1| >= 2 * days && |d2| >= 2 * days
    requires UnitDraws(d1) && UnitDraws(d2)
    ensures States(GeneratedHistory(days, d1)) == States(GeneratedHistory(days, d2))
  {
    HistoryStatesByOffset(days, d1);
    HistoryStatesByOffset(days, d2);
    SamplesShape(days - 1, d1);
    SamplesShape(days - 1, d2);
  }

  /** The window ends on today and runs oldest to newest. */
  lemma HistoryOrdered(days: int, draws: seq<real>)
    requires days > 0 && |draws| >= 2 * days
    ensures |GeneratedHistory(days, draws)| == days
    ensures GeneratedHistory(days, draws)[days - 1].offset == 0
    ensures GeneratedHistory(days, draws)[0].offset == days - 1
    ensures forall i, j :: 0 <= i < j < days ==> GeneratedHistory(days, draws)[i].offset > GeneratedHistory(days, draws)[j].offset
  {
    SamplesShape(days - 1, draws);
  }
}
