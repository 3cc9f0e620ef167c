/**
 The slot accounting of the Contract Lab: every active capture holds one slot of
 its class, and gives it back once.
 */
module CaptureSlots {

  const MAX_TRACED: int := 16
  const MAX_UNTRUSTED_PER_KEY: int := 2
  const MAX_UNTRUSTED_QUEUE: int := 8
  const MAX_GOLDEN: int := 4
  const MAX_GOLDEN_SAMPLES: int := 3
  const MAX_GOLDEN_VERSIONS: int := 5

  type TraceId = string
  type KeyId = string
  type CapId = nat

  // An entry of activeCaptures; sampleKey names a golden capture's daily sample.
  datatype Slot = Slot(cid: CapId, key: KeyId, trusted: bool, golden: bool, sampleKey: string)

  datatype Slots = Slots(
    traced: int, trusted: int, untrustedTotal: int, untrusted: map<KeyId, int>,
    golden: int, samples: map<string, int>, versions: map<string, set<string>>,
    queued: map<KeyId, int>, active: map<TraceId, Slot>)

  const NoSlots := Slots(0, 0, 0, map[], 0, map[], map[], map[], map[])

  function Get<K>(m: map<K, int>, k: K): int {
    if k in m then m[k] else 0
  }

  function VersionsOf(s: Slots, toolDay: string): set<string> {
    if toolDay in s.versions then s.versions[toolDay] else {}
  }

  // ---------------------------------------------------------------------------
  // What the counters mean
  // ---------------------------------------------------------------------------

  datatype Class = Traced | Trusted | Untrusted | Golden | OfKey(key: KeyId) | OfSample(sampleKey: string)

  predicate In(slot: Slot, c: Class) {
    match c
    case Traced => !slot.golden
    case Trusted => !slot.golden && slot.trusted
    case Untrusted => !slot.golden && !slot.trusted
    case Golden => slot.golden
    case OfKey(k) => !slot.golden && !slot.trusted && slot.key == k
    case OfSample(k) => slot.golden && slot.sampleKey == k
  }

  function Members(active: map<TraceId, Slot>, c: Class): set<TraceId> {
    set t | t in active && In(active[t], c)
  }

  function Count(active: map<TraceId, Slot>, c: Class): nat {
    |Members(active, c)|
  }

  predicate CountersOk(s: Slots) {
    && s.traced == Count(s.active, Traced) == s.trusted + s.untrustedTotal
    && s.trusted == Count(s.active, Trusted) <= MAX_TRACED
    && s.untrustedTotal == Count(s.active, Untrusted) <= MAX_TRACED
    && s.golden == Count(s.active, Golden) <= MAX_GOLDEN
  }

  ghost predicate KeysOk(untrusted: map<KeyId, int>, active: map<TraceId, Slot>) {
    forall k :: Get(untrusted, k) == Count(active, OfKey(k)) <= MAX_UNTRUSTED_PER_KEY
  }

  ghost predicate SamplesOk(samples: map<string, int>, active: map<TraceId, Slot>) {
    forall k :: Count(active, OfSample(k)) <= Get(samples, k) <= MAX_GOLDEN_SAMPLES
  }

  ghost predicate VersionsOk(versions: map<string, set<string>>) {
    forall d :: d in versions ==> |versions[d]| <= MAX_GOLDEN_VERSIONS
  }

  ghost predicate QueueOk(queued: map<KeyId, int>) {
    forall k :: k in queued ==> 0 <= queued[k] <= MAX_UNTRUSTED_QUEUE
  }

  ghost predicate SlotsOk(s: Slots) {
    && CountersOk(s)
    && KeysOk(s.untrusted, s.active)
    && SamplesOk(s.samples, s.active)
    && VersionsOk(s.versions)
    && QueueOk(s.queued)
  }

  lemma CountAdds(active: map<TraceId, Slot>, t: TraceId, slot: Slot, c: Class)
    requires t !in active
    ensures Count(active[t := slot], c) == Count(active, c) + if In(slot, c) then 1 else 0
  {
    var before, after := Members(active, c), Members(active[t := slot], c);
    assert after == if In(slot, c) then before + {t} else before;
  }

  lemma CountRemoves(active: map<TraceId, Slot>, t: TraceId, c: Class)
    requires t in active
    ensures Count(active - {t}, c) == Count(active, c) - if In(active[t], c) then 1 else 0
  {
    var before, after := Members(active, c), Members(active - {t}, c);
    assert before == if In(active[t], c) then after + {t} else after;
    assert t !in after;
  }

  // ---------------------------------------------------------------------------
  // The manager's critical sections, as functions
  // ---------------------------------------------------------------------------

  predicate TracedFits(s: Slots, trace: TraceId, key: KeyId, trusted: bool) {
    && trace !in s.active
    && (if trusted then s.trusted < MAX_TRACED
        else s.untrustedTotal < MAX_TRACED && Get(s.untrusted, key) < MAX_UNTRUSTED_PER_KEY)
  }

  function WithTraced(s: Slots, trace: TraceId, cid: CapId, key: KeyId, trusted: bool): Slots {
    var s1 := s.(traced := s.traced + 1, active := s.active[trace := Slot(cid, key, trusted, false, "")]);
    if trusted then s1.(trusted := s.trusted + 1)
    else s1.(untrustedTotal := s.untrustedTotal + 1, untrusted := s.untrusted[key := Get(s.untrusted, key) + 1])
  }

  predicate GoldenFits(s: Slots, sampleKey: string, toolDay: string, version: string) {
    && s.golden < MAX_GOLDEN
    && Get(s.samples, sampleKey) < MAX_GOLDEN_SAMPLES
    && (version in VersionsOf(s, toolDay) || |VersionsOf(s, toolDay)| < MAX_GOLDEN_VERSIONS)
  }

  function WithGolden(s: Slots, trace: TraceId, cid: CapId, key: KeyId, sampleKey: string, toolDay: string, version: string): Slots {
    s.(golden := s.golden + 1,
       samples := s.samples[sampleKey := Get(s.samples, sampleKey) + 1],
       versions := s.versions[toolDay := VersionsOf(s, toolDay) + {version}],
       active := s.active[trace := Slot(cid, key, true, true, sampleKey)])
  }

  function Released(s: Slots, trace: TraceId, slot: Slot, failed: bool): (r: Slots)
    ensures r.active == s.active - {trace}
  {
    var s1 := s.(active := s.active - {trace});
    if slot.golden then
      s1.(golden := s.golden - 1,
          samples := if failed then s.samples[slot.sampleKey := Get(s.samples, slot.sampleKey) - 1] else s.samples)
    else if slot.trusted then s1.(traced := s.traced - 1, trusted := s.trusted - 1)
    else s1.(traced := s.traced - 1, untrustedTotal := s.untrustedTotal - 1,
             untrusted := s.untrusted[slot.key := Get(s.untrusted, slot.key) - 1])
  }

  predicate QueueFits(s: Slots, key: KeyId) {
    Get(s.queued, key) < MAX_UNTRUSTED_QUEUE
  }

  function WithQueued(s: Slots, key: KeyId): Slots {
    s.(queued := s.queued[key := Get(s.queued, key) + 1])
  }

  function QueueReleased(s: Slots, key: KeyId, trusted: bool): Slots {
    if !trusted && Get(s.queued, key) > 0 then s.(queued := s.queued[key := s.queued[key] - 1]) else s
  }

  lemma TracedKeepsSlots(s: Slots, trace: TraceId, cid: CapId, key: KeyId, trusted: bool)
    requires SlotsOk(s) && TracedFits(s, trace, key, trusted)
    ensures SlotsOk(WithTraced(s, trace, cid, key, trusted))
  {
    var slot := Slot(cid, key, trusted, false, "");
    var t := WithTraced(s, trace, cid, key, trusted);
    CountAdds(s.active, trace, slot, Traced);
    CountAdds(s.active, trace, slot, Trusted);
    CountAdds(s.active, trace, slot, Untrusted);
    CountAdds(s.active, trace, slot, Golden);
    assert KeysOk(t.untrusted, t.active) by { forall k { CountAdds(s.active, trace, slot, OfKey(k)); } }
    assert SamplesOk(t.samples, t.active) by { forall k { CountAdds(s.active, trace, slot, OfSample(k)); } }
  }

  lemma GoldenKeepsSlots(s: Slots, trace: TraceId, cid: CapId, key: KeyId, sampleKey: string, toolDay: string, version: string)
    requires SlotsOk(s) && GoldenFits(s, sampleKey, toolDay, version) && trace !in s.active
    ensures SlotsOk(WithGolden(s, trace, cid, key, sampleKey, toolDay, version))
  {
    var slot := Slot(cid, key, true, true, sampleKey);
    var t := WithGolden(s, trace, cid, key, sampleKey, toolDay, version);
    CountAdds(s.active, trace, slot, Traced);
    CountAdds(s.active, trace, slot, Trusted);
    CountAdds(s.active, trace, slot, Untrusted);
    CountAdds(s.active, trace, slot, Golden);
    assert KeysOk(t.untrusted, t.active) by { forall k { CountAdds(s.active, trace, slot, OfKey(k)); } }
    assert SamplesOk(t.samples, t.active) by { forall k { CountAdds(s.active, trace, slot, OfSample(k)); } }
    assert VersionsOk(t.versions) by {
      if version in VersionsOf(s, toolDay) { assert VersionsOf(s, toolDay) + {version} == VersionsOf(s, toolDay); }
    }
  }

  // A slot that is given back leaves every counter equal to what remains.
  lemma ReleaseKeepsSlots(s: Slots, trace: TraceId, failed: bool)
    requires SlotsOk(s) && trace in s.active
    ensures SlotsOk(Released(s, trace, s.active[trace], failed))
  {
    var t := Released(s, trace, s.active[trace], failed);
    CountRemoves(s.active, trace, Traced);
    CountRemoves(s.active, trace, Trusted);
    CountRemoves(s.active, trace, Untrusted);
    CountRemoves(s.active, trace, Golden);
    assert KeysOk(t.untrusted, t.active) by { forall k { CountRemoves(s.active, trace, OfKey(k)); } }
    assert SamplesOk(t.samples, t.active) by { forall k { CountRemoves(s.active, trace, OfSample(k)); } }
  }

  lemma NoSlotsOk()
    ensures SlotsOk(NoSlots)
  {
    assert forall c :: Count(NoSlots.active, c) == 0 by {
      forall c ensures Count(NoSlots.active, c) == 0 { assert Members(NoSlots.active, c) == {}; }
    }
  }

  // Main result on refusals: a traced capture is refused exactly when its trace is being captured, when 16 of its
  // trust are, or, not trusted, when two of its key are; the captures decide, not the history of the counters.
  lemma TracedFitsExactlyWhen(s: Slots, trace: TraceId, key: KeyId, trusted: bool)
    requires SlotsOk(s)
    ensures TracedFits(s, trace, key, trusted) <==>
      && trace !in s.active
      && |set t | t in s.active && !s.active[t].golden && s.active[t].trusted == trusted| < 16
      && (!trusted ==> |set t | t in s.active && !s.active[t].golden && !s.active[t].trusted && s.active[t].key == key| < 2)
  {
    assert Members(s.active, Trusted) == set t | t in s.active && !s.active[t].golden && s.active[t].trusted == true;
    assert Members(s.active, Untrusted) == set t | t in s.active && !s.active[t].golden && s.active[t].trusted == false;
    assert Members(s.active, OfKey(key)) ==
      set t | t in s.active && !s.active[t].golden && !s.active[t].trusted && s.active[t].key == key;
  }

  // A golden sample is refused exactly when four are being captured, three of its kind were taken this day without
  // failing, or five other versions of its tool were.
  lemma GoldenFitsExactlyWhen(s: Slots, sampleKey: string, toolDay: string, version: string)
    requires SlotsOk(s)
    ensures GoldenFits(s, sampleKey, toolDay, version) <==>
      && |set t | t in s.active && s.active[t].golden| < 4
      && (sampleKey in s.samples ==> s.samples[sampleKey] < 3)
      && (toolDay in s.versions ==> version in s.versions[toolDay] || |s.versions[toolDay]| < 5)
  {
    assert Members(s.active, Golden) == set t | t in s.active && s.active[t].golden;
  }

  // What a golden claim and its release leave of the day's samples and versions: a claim counts one sample and keeps
  // its version; a release that failed gives the sample back, another keeps it.
  lemma GoldenCounts(s: Slots, trace: TraceId, cid: CapId, key: KeyId, sampleKey: string, toolDay: string, version: string, failed: bool, k: string)
    requires trace !in s.active
    ensures var t := WithGolden(s, trace, cid, key, sampleKey, toolDay, version);
      var u := Released(t, trace, t.active[trace], failed);
      && Get(t.samples, k) == Get(s.samples, k) + (if k == sampleKey then 1 else 0)
      && Get(u.samples, k) == Get(s.samples, k) + (if k == sampleKey && !failed then 1 else 0)
      && VersionsOf(t, k) == VersionsOf(s, k) + (if k == toolDay then {version} else {})
      && u.versions == t.versions && u.golden == s.golden && u.active == s.active
      && u.traced == s.traced && u.trusted == s.trusted && u.untrusted == s.untrusted && u.queued == s.queued
  {
    var t := WithGolden(s, trace, cid, key, sampleKey, toolDay, version);
    assert t.active - {trace} == s.active;
    assert VersionsOf(s, k) + {} == VersionsOf(s, k);
  }

  // A traced claim and its release undo each other.
  lemma TracedComesBack(s: Slots, trace: TraceId, cid: CapId, key: KeyId, trusted: bool, failed: bool, k: KeyId)
    requires trace !in s.active
    ensures var t := WithTraced(s, trace, cid, key, trusted);
      var u := Released(t, trace, t.active[trace], failed);
      Get(u.untrusted, k) == Get(s.untrusted, k) && u == s.(untrusted := u.untrusted)
  {
    var t := WithTraced(s, trace, cid, key, trusted);
    assert t.active - {trace} == s.active;
  }

  // ---------------------------------------------------------------------------
  // The manager, whose counters change in place under its mutex
  // ---------------------------------------------------------------------------

  class CaptureManager {
    var tracedSlots: int
    var trustedSlots: int
    var untrustedTotalSlots: int
    var untrustedSlots: map<KeyId, int>
    var untrustedQueue: map<KeyId, int>
    var goldenSlots: int
    var goldenSamples: map<string, int>
    var goldenVersions: map<string, set<string>>
    var activeCaptures: map<TraceId, Slot>

    constructor ()
      ensures Value() == NoSlots  // which is valid: NoSlotsOk
    {
      tracedSlots, trustedSlots, untrustedTotalSlots, goldenSlots := 0, 0, 0, 0;
      untrustedSlots, untrustedQueue, goldenSamples, goldenVersions, activeCaptures := map[], map[], map[], map[], map[];
    }

    function Value(): Slots
      reads this
    {
      Slots(tracedSlots, trustedSlots, untrustedTotalSlots, untrustedSlots,
            goldenSlots, goldenSamples, goldenVersions, untrustedQueue, activeCaptures)
    }

    ghost predicate Valid()
      reads this
    {
      SlotsOk(Value())
    }

    method ClaimTraced(trace: TraceId, cid: CapId, key: KeyId, trusted: bool) returns (ok: bool)
      requires Valid()
      modifies this
      ensures Valid()
      ensures ok == TracedFits(old(Value()), trace, key, trusted)
      ensures Value() == if ok then WithTraced(old(Value()), trace, cid, key, trusted) else old(Value())
    {
      if trace in activeCaptures {
        return false;
      }
      if !trusted {
        if untrustedTotalSlots >= MAX_TRACED || Get(untrustedSlots, key) >= MAX_UNTRUSTED_PER_KEY {
          return false;
        }
      } else if trustedSlots >= MAX_TRACED {
        return false;
      }
      TracedKeepsSlots(Value(), trace, cid, key, trusted);
      tracedSlots := tracedSlots + 1;
      if !trusted {
        untrustedTotalSlots := untrustedTotalSlots + 1;
        untrustedSlots := untrustedSlots[key := Get(untrustedSlots, key) + 1];
      } else {
        trustedSlots := trustedSlots + 1;
      }
      activeCaptures := activeCaptures[trace := Slot(cid, key, trusted, false, "")];
      return true;
    }

    method ClaimGolden(trace: TraceId, cid: CapId, key: KeyId, sampleKey: string, toolDay: string, version: string)
      returns (ok: bool)
      requires Valid() && trace !in activeCaptures
      modifies this
      ensures Valid()
      ensures ok == GoldenFits(old(Value()), sampleKey, toolDay, version)
      ensures ok ==> Value() == WithGolden(old(Value()), trace, cid, key, sampleKey, toolDay, version)
      ensures !ok ==> Value() == old(Value())
    {
      if goldenSlots >= MAX_GOLDEN || Get(goldenSamples, sampleKey) >= MAX_GOLDEN_SAMPLES {
        return false;
      }
      var versions := if toolDay in goldenVersions then goldenVersions[toolDay] else {};
      if version !in versions && |versions| >= MAX_GOLDEN_VERSIONS {
        return false;
      }
      GoldenKeepsSlots(Value(), trace, cid, key, sampleKey, toolDay, version);
      goldenSlots := goldenSlots + 1;
      goldenSamples := goldenSamples[sampleKey := Get(goldenSamples, sampleKey) + 1];
      goldenVersions := goldenVersions[toolDay := versions + {version}];
      activeCaptures := activeCaptures[trace := Slot(cid, key, true, true, sampleKey)];
      return true;
    }

    method Release(trace: TraceId, slot: Slot, failed: bool)
      requires Valid() && trace in activeCaptures && activeCaptures[trace] == slot
      modifies this
      ensures Valid()
      ensures Value() == Released(old(Value()), trace, slot, failed)
    {
      hide SlotsOk;
      ghost var after := Released(Value(), trace, slot, failed);
      assert SlotsOk(after) by { ReleaseKeepsSlots(Value(), trace, failed); }
      if slot.golden {
        goldenSlots := goldenSlots - 1;
        if failed {
          goldenSamples := goldenSamples[slot.sampleKey := Get(goldenSamples, slot.sampleKey) - 1];
        }
      } else {
        tracedSlots := tracedSlots - 1;
        if !slot.trusted {
          untrustedTotalSlots := untrustedTotalSlots - 1;
          untrustedSlots := untrustedSlots[slot.key := Get(untrustedSlots, slot.key) - 1];
        } else {
          trustedSlots := trustedSlots - 1;
        }
      }
      activeCaptures := activeCaptures - {trace};
      assert Value() == after;
    }

    method ReleaseQueueSlot(key: KeyId, trusted: bool)
      requires Valid()
      modifies this`untrustedQueue
      ensures Valid()
      ensures Value() == QueueReleased(old(Value()), key, trusted)
    {
      if !trusted {
        if Get(untrustedQueue, key) > 0 {
          untrustedQueue := untrustedQueue[key := untrustedQueue[key] - 1];
        }
      }
    }
  }
}
