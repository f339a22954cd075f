// What a saved row counts as, on its status and the text of its rejection.
module RowFacts {
  import opened Prelude
  import opened NativeSearch
  import opened SearchSteps

  ghost predicate Contains(text: string, part: string) {
    exists before, after :: text == before + part + after
  }

  lemma MentionsIs(reason: Option<string>, marker: string)
    ensures Mentions(reason, marker) <==> reason.Some? && Contains(reason.value, marker)
  {
    if Mentions(reason, marker) {
      var i: nat :| i <= |reason.value| && OccursAt(reason.value, marker, i);
      assert reason.value == reason.value[..i] + marker + reason.value[i + |marker|..];
    }
    if reason.Some? && Contains(reason.value, marker) {
      var before, after :| reason.value == before + marker + after;
      assert OccursAt(reason.value, marker, |before|);
    }
  }

  // The rejections that a smaller batch can get past.
  ghost predicate TooBigText(text: string) {
    || Contains(text, "wall_budget") || Contains(text, "kv_block_peak_exceeds_capacity")
    || Contains(text, "not_a_full_batch") || Contains(text, "import_pool_not_full")
    || Contains(text, "native_stationary_refill_not_always_ready")
    || Contains(text, "native_stationary_independent_budget_exceeded")
  }

  lemma TooBigReasons(reason: Option<string>)
    ensures IsTooBigReason(reason) <==> reason.Some? && TooBigText(reason.value)
  {
    hide Mentions, Contains;
    assert CAPACITY_REJECTIONS[0] == "kv_block_peak_exceeds_capacity" && CAPACITY_REJECTIONS[1] == "not_a_full_batch"
           && CAPACITY_REJECTIONS[2] == "import_pool_not_full" && |CAPACITY_REJECTIONS| == 3;
    forall marker ensures Mentions(reason, marker) <==> reason.Some? && Contains(reason.value, marker) {
      MentionsIs(reason, marker);
    }
  }

  // A row with bounds was measured; a refused capacity is too big, as is a
  // refused forecast outside the Prefill pass with one of those reasons.
  lemma RowCounts(row: Row)
    ensures Classify(row) == Measured <==> row.status in {Completed, SloRejected} && row.bounds.Some?
    ensures Classify(row) == TooBig <==>
              || row.status == CapacityRejected
              || (row.status == ForecastRejected && !row.prefillPhase && row.reason.Some?
                  && TooBigText(row.reason.value))
    ensures Classify(row) == Failed <==> row.status == FailedStatus
    ensures Classify(row) == Pending <==> row.status == OtherStatus
  {
    TooBigReasons(row.reason);
    hide IsTooBigReason, TooBigText;
  }

  // What a too-big batch is limited by: of several reasons the wall first, then the import, then the interval.
  lemma LabelOfReason(text: string)
    ensures TooBigLabel(None) == CapacityLimited
    ensures Contains(text, "wall_budget") ==> TooBigLabel(Some(text)) == WallLimited
    ensures !Contains(text, "wall_budget") && Contains(text, "native_stationary_refill_not_always_ready") ==>
              TooBigLabel(Some(text)) == ImportLimited
    ensures !Contains(text, "wall_budget") && !Contains(text, "native_stationary_refill_not_always_ready") ==>
              TooBigLabel(Some(text)) == if Contains(text, "native_stationary_independent_budget_exceeded")
                                         then IntervalLimited else CapacityLimited
  {
    hide Mentions, Contains;
    MentionsIs(Some(text), "wall_budget");
    MentionsIs(Some(text), "native_stationary_refill_not_always_ready");
    MentionsIs(Some(text), "native_stationary_independent_budget_exceeded");
    forall marker ensures !Mentions(None, marker) { MentionsIs(None, marker); }
  }

  // The wall time of a measured row: the re-run's alone, else what is left of
  // the run after its Prefill pass.
  lemma PointWall(b: int, row: Row)
    requires row.bounds.Some?
    ensures var p, spent := PointAt(b, row), OrZero(row.wall) - OrZero(row.prefillWall);
            && p.batch == b && p.upper == row.bounds.value.upper && p.tpot == row.bounds.value.estimate
            && p.status == row.status && p.peak == row.peakMemory
            && (row.retryWall.Some? ==> p.wall == row.retryWall.value)
            && (row.retryWall.None? && spent >= 0.0 ==> p.wall == spent)
            && (row.retryWall.None? && spent < 0.0 ==> p.wall == 0.0)
  {}

  // A run keeps its row's status, reason and reported capacity.
  lemma RunHolds(b: int, row: Row)
    ensures var r := RunAt(b, row);
            && r.batch == b && r.status == row.status && r.reason == row.reason && r.capacity == row.nativeCapacity
            && r.kind == Classify(row)
  {}

  // The quantum of an entry, and the first batch of an anchor: half the
  // candidate batch, at most 512, on the grid.
  lemma DefaultFirstIs(entry: Entry)
    ensures var q := Quantum(entry);
            && entry.quantum <= q && entry.ep * entry.microbatches <= q
            && (q == entry.quantum || q == entry.ep * entry.microbatches)
            && GridAt(DefaultFirstBatch(entry),
                      if entry.candidateBatch < 1024 then entry.candidateBatch as real / 2.0 else 512.0, q)
  {
    RoundedIsGrid(MinReal(entry.candidateBatch as real / 2.0, 512.0), Quantum(entry));
  }
}
