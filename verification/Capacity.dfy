/** Allocation-block arithmetic of recovery/capacity_unix.go, in signed 64-bit integers. */
module Capacity {
  import opened Wrappers

  const MAX_INT64 := 0x7FFF_FFFF_FFFF_FFFF
  const MIN_BLOCK := 512
  const MAX_BLOCK := 1048576

  type Int64 = x: int | -MAX_INT64 - 1 <= x <= MAX_INT64
  type UInt64 = x: int | 0 <= x <= 0xFFFF_FFFF_FFFF_FFFF

  function CheckedProduct(a: UInt64, b: UInt64): (r: Option<Int64>)
    ensures r == if a * b <= MAX_INT64 then Some(a * b) else None
    ensures r.Some? ==> r.value >= 0
  {
    assert a * b >= 0;
    if a * b <= MAX_INT64 then Some(a * b) else None
  }

  // ------------------------------------------------------------- one entry

  predicate ValidBlock(block: Int64) {
    MIN_BLOCK <= block <= MAX_BLOCK
  }

  /** `k` is the least number of whole blocks that hold `size`. */
  predicate Holds(k: int, size: int, block: int) {
    (k - 1) * block < size <= k * block
  }

  /** What staging an entry costs: both files in whole blocks, and eight blocks more. */
  ghost predicate Costs(cost: int, before: int, after: int, block: int) {
    exists b, a :: Holds(b, before, block) && Holds(a, after, block) && cost == b * block + a * block + 8 * block
  }

  lemma Monotone(i: int, j: int, d: int)
    requires i <= j && d > 0
    ensures i * d <= j * d
  {
    assert (j - i) * d >= 0;
  }

  lemma HoldsIsUnique(k: int, l: int, size: int, block: int)
    requires block > 0 && Holds(k, size, block) && Holds(l, size, block)
    ensures k == l
  {
    if k < l { Monotone(k, l - 1, block); } else if l < k { Monotone(l, k - 1, block); }
  }

  /** The cost is unique, and lies within two blocks above what the files and the overhead take. */
  lemma CostIsBounded(cost: int, before: int, after: int, block: int)
    requires block > 0 && Costs(cost, before, after, block)
    ensures before + after + 8 * block <= cost < before + after + 10 * block
    ensures forall other | Costs(other, before, after, block) :: other == cost
  {
    var b, a :| Holds(b, before, block) && Holds(a, after, block) && cost == b * block + a * block + 8 * block;
    assert (b - 1) * block == b * block - block && (a - 1) * block == a * block - block;
    forall other | Costs(other, before, after, block) ensures other == cost {
      var b', a' :| Holds(b', before, block) && Holds(a', after, block) && other == b' * block + a' * block + 8 * block;
      HoldsIsUnique(b, b', before, block);
      HoldsIsUnique(a, a', after, block);
    }
  }

  lemma DivideUp(size: nat, block: int)
    requires block > 0
    ensures Holds(size / block + if size % block != 0 then 1 else 0, size, block)
  {
    var q := size / block;
    assert size == q * block + size % block;
    assert (q - 1) * block == q * block - block && (q + 1) * block == q * block + block;
  }

  method Allocated(size: Int64, block: Int64) returns (r: Option<Int64>, ghost k: int)
    requires size >= 0 && ValidBlock(block)
    ensures Holds(k, size, block) && k >= 0 && r == if k * block <= MAX_INT64 then Some(k * block) else None
  {
    DivideUp(size, block);
    var blocks := size / block;
    if size % block != 0 {
      blocks := blocks + 1;
    }
    k := blocks;
    r := CheckedProduct(blocks, block);
  }

  /** Exact where the true cost fits, and refused exactly where it does not. */
  method StagingCapacity(before: Int64, after: Int64, block: Int64) returns (r: Option<Int64>)
    ensures before < 0 || after < 0 || !ValidBlock(block) ==> r.None?
    ensures before >= 0 && after >= 0 && ValidBlock(block) ==>
      if r.Some? then Costs(r.value, before, after, block) else forall cost | Costs(cost, before, after, block) :: cost > MAX_INT64
  {
    if before < 0 || after < 0 || block < MIN_BLOCK || block > MAX_BLOCK {
      return None;
    }
    var first, b := Allocated(before, block);
    var second, a := Allocated(after, block);
    Monotone(0, b, block);
    Monotone(0, a, block);
    assert Costs(b * block + a * block + 8 * block, before, after, block);
    CostIsBounded(b * block + a * block + 8 * block, before, after, block);
    if first.None? || second.None? || second.value > MAX_INT64 - first.value || first.value + second.value > MAX_INT64 - 8 * block {
      return None;
    }
    r := Some(first.value + second.value + 8 * block);
  }

  // ------------------------------------------------------------- all entries

  /** One entry with the measured state of its filesystem. */
  datatype Sample = Sample(device: nat, free: UInt64, block: Int64, before: Int64, after: Int64)

  ghost predicate Measurable(s: Sample) {
    && ValidBlock(s.block) && s.free * s.block <= MAX_INT64
    && s.before >= 0 && s.after >= 0 && exists cost: Int64 :: Costs(cost, s.before, s.after, s.block)
  }

  function Available(s: Sample): int { s.free * s.block }

  ghost function CostOf(s: Sample): (cost: Int64)
    requires Measurable(s)
    ensures cost >= 0 && Costs(cost, s.before, s.after, s.block)
  {
    var cost: Int64 :| Costs(cost, s.before, s.after, s.block);
    CostIsBounded(cost, s.before, s.after, s.block);
    cost
  }

  /** What all entries on one device cost together. */
  ghost function Required(samples: seq<Sample>, device: nat): (sum: nat)
    requires forall s <- samples :: Measurable(s)
  {
    if samples == [] then 0
    else
      var last := samples[|samples| - 1];
      Required(samples[..|samples| - 1], device) + if last.device == device then CostOf(last) else 0
  }

  predicate SameGeometry(samples: seq<Sample>) {
    forall s <- samples, t <- samples | s.device == t.device :: s.block == t.block
  }

  /** There is room for every device: its costs and the reserve fit what was least available. */
  ghost predicate Fits(samples: seq<Sample>, reserve: Int64) {
    && (forall s <- samples :: Measurable(s))
    && SameGeometry(samples)
    && forall s <- samples :: reserve + Required(samples, s.device) <= Available(s)
  }

  datatype Group = Group(available: Int64, required: Int64, block: Int64)

  /** What the loop has gathered from the samples so far. */
  ghost predicate Gathered(groups: map<nat, Group>, samples: seq<Sample>) {
    && (forall s <- samples :: Measurable(s)) && SameGeometry(samples)
    && (forall s <- samples :: s.device in groups)
    && (forall d <- groups :: Summary(groups[d], samples, d))
  }

  lemma {:induction false} RequiredGrows(samples: seq<Sample>, k: nat, device: nat)
    requires k <= |samples| && forall s <- samples :: Measurable(s)
    ensures Required(samples[..k], device) <= Required(samples, device)
    decreases |samples| - k
  {
    if k == |samples| {
      assert samples[..k] == samples;
    } else {
      assert samples[..k + 1][..k] == samples[..k];
      RequiredGrows(samples, k + 1, device);
    }
  }

  /** If there is room, then no partial sum leaves the range. */
  lemma NoOverflow(samples: seq<Sample>, reserve: Int64, k: nat)
    requires reserve >= 0 && Fits(samples, reserve) && k < |samples|
    ensures Required(samples[..k], samples[k].device) + CostOf(samples[k]) <= MAX_INT64
  {
    var s := samples[k];
    assert s in samples && samples[..k + 1][..k] == samples[..k] && samples[..k + 1][k] == s;
    RequiredGrows(samples, k + 1, s.device);
  }

  /** What a group says of the samples of its device. */
  ghost predicate Summary(g: Group, samples: seq<Sample>, d: nat)
    requires forall s <- samples :: Measurable(s)
  {
    && (exists s <- samples :: s.device == d && Available(s) == g.available)
    && (forall s <- samples | s.device == d :: g.available <= Available(s) && g.block == s.block)
    && g.required == Required(samples, d)
  }

  lemma RequiredOne(before: seq<Sample>, s: Sample, d: nat)
    requires (forall t <- before :: Measurable(t)) && Measurable(s)
    ensures forall t <- before + [s] :: Measurable(t)
    ensures Required(before + [s], d) == Required(before, d) + if s.device == d then CostOf(s) else 0
  {
    assert (before + [s])[..|before|] == before;
  }

  /** A sample of another device leaves a summary as it is. */
  lemma OtherDevice(g: Group, before: seq<Sample>, s: Sample, d: nat)
    requires (forall t <- before :: Measurable(t)) && Measurable(s) && Summary(g, before, d) && s.device != d
    ensures (forall t <- before + [s] :: Measurable(t)) && Summary(g, before + [s], d)
  {
    RequiredOne(before, s, d);
    var t :| t in before && t.device == d && Available(t) == g.available;
    assert t in before + [s];
  }

  function Extended(g: Group, s: Sample, cost: int): Group
    requires Available(s) <= MAX_INT64 && Available(s) >= 0 && 0 <= g.required + cost <= MAX_INT64
  {
    g.(required := g.required + cost, available := if Available(s) < g.available then Available(s) else g.available)
  }

  lemma SameDevice(g: Group, before: seq<Sample>, s: Sample)
    requires (forall t <- before :: Measurable(t)) && Measurable(s)
    requires Summary(g, before, s.device) && g.block == s.block
    requires Available(s) >= 0 && g.required >= 0 && g.required + CostOf(s) <= MAX_INT64
    ensures (forall t <- before + [s] :: Measurable(t)) && Summary(Extended(g, s, CostOf(s)), before + [s], s.device)
  {
    RequiredOne(before, s, s.device);
    var t :| t in before && t.device == s.device && Available(t) == g.available;
    assert t in before + [s] && s in before + [s];
  }

  lemma FirstOfDevice(before: seq<Sample>, s: Sample)
    requires (forall t <- before :: Measurable(t)) && Measurable(s) && (forall t <- before :: t.device != s.device)
    requires Available(s) >= 0
    ensures (forall t <- before + [s] :: Measurable(t))
    ensures Summary(Group(Available(s), CostOf(s), s.block), before + [s], s.device)
  {
    RequiredOne(before, s, s.device);
    NoneRequired(before, s.device);
    assert s in before + [s];
  }

  lemma GatherOne(groups: map<nat, Group>, before: seq<Sample>, s: Sample, g: Group)
    requires Gathered(groups, before) && Measurable(s)
    requires (forall t <- before + [s] :: Measurable(t)) && Summary(g, before + [s], s.device)
    requires s.device in groups ==> groups[s.device].block == s.block
    ensures Gathered(groups[s.device := g], before + [s])
  {
    var samples := before + [s];
    hide Required;
    hide Measurable;
    assert forall t <- samples :: t in before || t == s;
    forall d <- groups | d != s.device ensures Summary(groups[d], samples, d) {
      assert Summary(groups[d], before, d);
      OtherDevice(groups[d], before, s, d);
    }
    assert SameGeometry(samples) by {
      forall t <- before | t.device == s.device ensures t.block == s.block {
        assert Summary(groups[s.device], before, s.device);
      }
    }
    hide Summary;
    hide SameGeometry;
  }

  lemma NoneRequired(samples: seq<Sample>, device: nat)
    requires (forall s <- samples :: Measurable(s)) && forall s <- samples :: s.device != device
    ensures Required(samples, device) == 0
  {
  }

  lemma MeasuredCost(s: Sample, cost: Option<Int64>)
    requires ValidBlock(s.block) && s.free * s.block <= MAX_INT64
    requires s.before < 0 || s.after < 0 ==> cost.None?
    requires s.before >= 0 && s.after >= 0 ==>
      if cost.Some? then Costs(cost.value, s.before, s.after, s.block) else forall c | Costs(c, s.before, s.after, s.block) :: c > MAX_INT64
    ensures cost.Some? <==> Measurable(s)
    ensures cost.Some? ==> cost.value == CostOf(s)
  {
    if cost.Some? {
      CostIsBounded(cost.value, s.before, s.after, s.block);
      hide Costs;
      assert Measurable(s);
    }
  }

  /** Measures one entry. */
  method MeasureEntry(s: Sample) returns (available: Int64, cost: Option<Int64>)
    ensures cost.Some? <==> Measurable(s)
    ensures cost.Some? ==> available == Available(s) >= 0 && cost.value == CostOf(s)
  {
    available := 0;
    if s.block < MIN_BLOCK || s.block > MAX_BLOCK {
      return 0, None;
    }
    var product := CheckedProduct(s.free, s.block);
    if product.None? {
      return 0, None;
    }
    available := product.value;
    assert available == Available(s) >= 0;
    hide Available;
    cost := StagingCapacity(s.before, s.after, s.block);
    MeasuredCost(s, cost);
    hide Measurable;
  }

  /** Why an entry cannot be added to those before it. */
  ghost predicate Refused(before: seq<Sample>, s: Sample)
    requires forall t <- before :: Measurable(t)
  {
    || !Measurable(s) || (exists t <- before :: t.device == s.device && t.block != s.block)
    || Required(before, s.device) + CostOf(s) > MAX_INT64
  }

  /** What the groups say of the device of an entry to come. */
  lemma DeviceSummary(groups: map<nat, Group>, before: seq<Sample>, s: Sample)
    requires Gathered(groups, before)
    ensures forall t <- before :: Measurable(t)
    ensures s.device in groups ==>
      && Summary(groups[s.device], before, s.device)
      && groups[s.device].required == Required(before, s.device)
      && (groups[s.device].block != s.block ==> exists t <- before :: t.device == s.device && t.block != s.block)
    ensures s.device !in groups ==> (forall t <- before :: t.device != s.device) && Required(before, s.device) == 0
  {
    if s.device in groups {
      assert Summary(groups[s.device], before, s.device);
    } else {
      NoneRequired(before, s.device);
    }
  }

  /** Adds one measured entry to the groups; `None` when it cannot be added. */
  method Gather(groups: map<nat, Group>, s: Sample, ghost before: seq<Sample>) returns (r: Option<map<nat, Group>>)
    requires Gathered(groups, before)
    ensures if r.Some? then Gathered(r.value, before + [s]) else (forall t <- before :: Measurable(t)) && Refused(before, s)
  {
    var available, cost := MeasureEntry(s);
    DeviceSummary(groups, before, s);
    hide Gathered;
    hide Measurable;
    hide Required;
    hide Summary;
    hide Available;
    hide Costs;
    if cost.None? {
      return None;
    }
    var g := Group(available, 0, s.block);
    if s.device in groups {
      g := groups[s.device];
      if g.block != s.block {
        return None;
      }
    }
    if cost.value > MAX_INT64 - g.required {
      return None;
    }
    if s.device in groups && available < g.available {
      g := g.(available := available);
    }
    g := g.(required := g.required + cost.value);
    Admitted(groups, before, s, g);
    r := Some(groups[s.device := g]);
  }

  lemma Admitted(groups: map<nat, Group>, before: seq<Sample>, s: Sample, g: Group)
    requires Gathered(groups, before) && Measurable(s) && 0 <= Available(s) <= MAX_INT64
    requires s.device in groups ==>
      && groups[s.device].block == s.block && 0 <= groups[s.device].required && groups[s.device].required + CostOf(s) <= MAX_INT64
      && g == Extended(groups[s.device], s, CostOf(s))
    requires s.device !in groups ==> g == Group(Available(s), CostOf(s), s.block)
    ensures Gathered(groups[s.device := g], before + [s])
  {
    hide Measurable;
    hide Required;
    DeviceSummary(groups, before, s);
    hide Gathered;
    hide Summary;
    if s.device in groups { SameDevice(groups[s.device], before, s); } else { FirstOfDevice(before, s); }
    GatherOne(groups, before, s, g);
  }

  lemma GatheredNothing()
    ensures Gathered(map[], [])
  {
  }

  lemma RoomIsNotRefused(samples: seq<Sample>, reserve: Int64, i: nat)
    requires reserve >= 0 && Fits(samples, reserve) && i < |samples|
    ensures (forall t <- samples[..i] :: Measurable(t)) && !Refused(samples[..i], samples[i])
  {
    assert samples[i] in samples && forall t <- samples[..i] :: t in samples;
    NoOverflow(samples, reserve, i);
  }

  method TestGroups(groups: map<nat, Group>, reserve: Int64) returns (passed: bool)
    requires reserve >= 0 && forall d <- groups :: groups[d].required >= 0
    ensures passed <==> forall d <- groups :: Roomy(groups[d], reserve)
  {
    passed := true;
    var left := groups.Keys;
    while left != {}
      invariant left <= groups.Keys
      invariant passed <==> forall d <- groups | d !in left :: Roomy(groups[d], reserve)
      decreases |left|
    {
      var d :| d in left;
      if groups[d].available < reserve || groups[d].required > groups[d].available - reserve {
        passed := false;
      }
      left := left - {d};
    }
  }

  /** Gathers the entries by device, then tests every device. */
  method CheckCapacity(samples: seq<Sample>, reserve: Int64) returns (passed: bool)
    requires reserve >= 0
    ensures passed <==> Fits(samples, reserve)
  {
    hide Fits;
    hide Gathered;
    hide Refused;
    var groups: map<nat, Group> := map[];
    var i := 0;
    assert samples[..0] == [];
    GatheredNothing();
    while i < |samples|
      invariant 0 <= i <= |samples| && Gathered(groups, samples[..i])
    {
      assert samples[..i + 1] == samples[..i] + [samples[i]];
      if Fits(samples, reserve) { RoomIsNotRefused(samples, reserve, i); }
      var gathered := Gather(groups, samples[i], samples[..i]);
      if gathered.None? {
        return false;
      }
      groups := gathered.value;
      i := i + 1;
    }
    assert samples[..i] == samples;
    RoomyFits(groups, samples, reserve);
    passed := TestGroups(groups, reserve);
  }

  predicate Roomy(g: Group, reserve: Int64) {
    reserve + g.required <= g.available
  }

  lemma RoomyFits(groups: map<nat, Group>, samples: seq<Sample>, reserve: Int64)
    requires Gathered(groups, samples)
    ensures forall d <- groups :: groups[d].required >= 0
    ensures (forall d <- groups :: Roomy(groups[d], reserve)) <==> Fits(samples, reserve)
  {
    hide Measurable;
    hide Required;
    if Fits(samples, reserve) {
      forall d <- groups ensures Roomy(groups[d], reserve) {
        assert Summary(groups[d], samples, d);
      }
    }
    if forall d <- groups :: Roomy(groups[d], reserve) {
      forall s <- samples ensures reserve + Required(samples, s.device) <= Available(s) {
        assert Summary(groups[s.device], samples, s.device) && Roomy(groups[s.device], reserve);
      }
    }
  }
}
