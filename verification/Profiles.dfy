/**
 Audio stream profiles: which formats and bit rates to try on a camera, in what order, and the cache of the
 one that last worked.
 */
module Profiles {
  import opened Basics

  datatype Profile = Profile(sampleRate: u32, bitRate: u32, bitDepth: u8)

  const RATES: seq<u32> := [48000, 24000, 16000, 12000, 8000]
  const DEPTHS: seq<u8> := [16, 24, 32, 8]
  const BUDGETS: seq<u32> := [32000, 20000]
  const MINIMUM_BIT_RATE: u32 := 6000
  const CACHE_MINUTES := 5

  datatype Formats = Formats(maximumChannels: u8, opus: bool, sampleRates: seq<u32>, bitDepths: seq<u8>)

  datatype Capabilities = Capabilities(
    supportsListening: bool, privacyEnabled: bool, managementRevision: u16, providerRevision: u16, featureMap: u32,
    twoWayTalkSupport: u8, microphone: Option<Formats>, speaker: Option<Formats>, speakerMuted: bool,
    speakerVolume: Option<u8>, maximumNetworkBandwidth: u32)

  datatype Engine = Engine(opus: bool, maximumChannels: u8, sampleRates: seq<u32>, bitDepths: seq<u8>)

  datatype Request = Request(endpoint: u16, firmware: u32, capabilities: Capabilities, engine: Engine, talk: bool,
                             videoBitRate: u32)

  datatype Fault = NoMicrophone | NoTalkback | NoDepth | NoRate

  /** What the cached choice is kept for. */
  datatype Key = NoKey | Key(endpoint: u16, firmware: u32, talk: bool, videoBitRate: u32, maximumNetworkBandwidth: u32,
                             featureMap: u32, twoWayTalkSupport: u8, microphone: Option<Formats>,
                             speaker: Option<Formats>, engine: Engine)

  datatype Cache = Cache(successfulKey: Option<Key>, successfulProfile: Option<Profile>, expires: int, currentKey: Key)

  const EMPTY := Cache(None, None, 0, NoKey)

  // ---------------------------------------------------------------------------------------------
  // What a request admits.
  // ---------------------------------------------------------------------------------------------

  predicate Listens(r: Request) {
    && r.capabilities.supportsListening && !r.capabilities.privacyEnabled
    && r.capabilities.managementRevision == 2 && r.capabilities.providerRevision == 2
    && r.capabilities.microphone.Some? && 1 <= r.capabilities.microphone.value.maximumChannels <= 8
    && r.capabilities.microphone.value.opus
    && r.engine.opus && r.engine.maximumChannels >= 1
  }

  predicate Talks(r: Request) {
    r.talk ==>
      && r.capabilities.twoWayTalkSupport == 2
      && r.capabilities.speaker.Some? && 1 <= r.capabilities.speaker.value.maximumChannels <= 8
      && r.capabilities.speaker.value.opus
      && !r.capabilities.speakerMuted && r.capabilities.speakerVolume != Some(0)
  }

  predicate DepthFits(r: Request, depth: u8)
    requires Listens(r) && Talks(r)
  {
    && depth in r.engine.bitDepths && depth in r.capabilities.microphone.value.bitDepths
    && (r.talk ==> depth in r.capabilities.speaker.value.bitDepths)
  }

  predicate RateFits(r: Request, rate: u32)
    requires Listens(r) && Talks(r)
  {
    && rate in r.engine.sampleRates && rate in r.capabilities.microphone.value.sampleRates
    && (r.talk ==> rate in r.capabilities.speaker.value.sampleRates)
  }

  function FirstFitting(r: Request, depths: seq<u8>): (depth: Option<u8>)
    requires Listens(r) && Talks(r)
    ensures depth.Some? ==> depth.value in depths && DepthFits(r, depth.value)
    ensures depth.None? ==> forall d <- depths :: !DepthFits(r, d)
  {
    if depths == [] then None
    else if DepthFits(r, depths[0]) then Some(depths[0])
    else FirstFitting(r, depths[1..])
  }

  /** The audio streams a mode needs: the camera's, and for talk the one sent to it. */
  function Streams(r: Request): nat {
    if r.talk then 2 else 1
  }

  /** A profile that both ends can do, for which the bandwidth has room beside the video. */
  predicate Admissible(r: Request, p: Profile)
    requires Listens(r) && Talks(r)
  {
    && p.sampleRate in {48000, 24000, 16000, 12000, 8000} && RateFits(r, p.sampleRate)
    && FirstFitting(r, [16, 24, 32, 8]) == Some(p.bitDepth)
    && 6000 <= p.bitRate <= 64000 && p.bitRate <= 2 * p.sampleRate
    && r.videoBitRate + (if r.talk then 2 else 1) * p.bitRate <= r.capabilities.maximumNetworkBandwidth
  }

  /** What the audio engine checks before it starts. */
  predicate EngineStarts(r: Request, p: Profile) {
    && r.engine.opus && p.sampleRate in {48000, 24000, 16000, 12000, 8000} && p.bitDepth in {8, 16, 24, 32}
    && 6000 <= p.bitRate <= 128000
  }

  // ---------------------------------------------------------------------------------------------
  // The candidates, in order of preference.
  // ---------------------------------------------------------------------------------------------

  function Available(r: Request): u32 {
    if r.capabilities.maximumNetworkBandwidth > r.videoBitRate
    then (r.capabilities.maximumNetworkBandwidth - r.videoBitRate) / Streams(r) else 0
  }

  function AtRate(r: Request, depth: u8, rate: u32): Profile {
    Profile(rate, Min(Available(r), Min(64000, rate * 2)), depth)
  }

  function AtRates(r: Request, depth: u8, rates: seq<u32>): seq<Profile>
    requires Listens(r) && Talks(r)
  {
    if rates == [] then []
    else
      var last := rates[|rates| - 1];
      AtRates(r, depth, rates[..|rates| - 1]) +
      if RateFits(r, last) && Available(r) >= MINIMUM_BIT_RATE then [AtRate(r, depth, last)] else []
  }

  function AtBudgets(preferred: Profile, budgets: seq<u32>): seq<Profile> {
    if budgets == [] then []
    else
      var last := budgets[|budgets| - 1];
      AtBudgets(preferred, budgets[..|budgets| - 1]) +
      if last < preferred.bitRate then [preferred.(bitRate := last)] else []
  }

  function Candidates(r: Request, depth: u8): seq<Profile>
    requires Listens(r) && Talks(r)
  {
    var full := AtRates(r, depth, RATES);
    if 0 < |full| < 3 then full + AtBudgets(full[0], BUDGETS) else full
  }

  function KeyOf(r: Request): Key {
    Key(r.endpoint, r.firmware, r.talk, r.videoBitRate, r.capabilities.maximumNetworkBandwidth,
        r.capabilities.featureMap, r.capabilities.twoWayTalkSupport, r.capabilities.microphone,
        r.capabilities.speaker, r.engine)
  }

  function RemoveFirst(s: seq<Profile>, p: Profile): seq<Profile>
    requires p in s
  {
    if s[0] == p then s[1..] else [s[0]] + RemoveFirst(s[1..], p)
  }

  function Fronted(s: seq<Profile>, p: Option<Profile>): seq<Profile> {
    if p.Some? && p.value in s then [p.value] + RemoveFirst(s, p.value) else s
  }

  // ---------------------------------------------------------------------------------------------
  // The cache.
  // ---------------------------------------------------------------------------------------------

  function Invalidated(c: Cache): Cache {
    c.(successfulKey := None, successfulProfile := None)
  }

  function Current(c: Cache, now: int): Cache {
    if now >= c.expires then Invalidated(c) else c
  }

  function Keyed(c: Cache, key: Key): Cache {
    var c' := c.(currentKey := key);
    if c.successfulKey != Some(key) then Invalidated(c') else c'
  }

  function Prepared(c: Cache, r: Request, now: int): (Cache, Result<seq<Profile>, Fault>) {
    var live := Current(c, now);
    if !Listens(r) then (live, Err(NoMicrophone))
    else if !Talks(r) then (live, Err(NoTalkback))
    else
      var depth := FirstFitting(r, DEPTHS);
      if depth.None? then (live, Err(NoDepth))
      else
        var c' := Keyed(live, KeyOf(r));
        var ordered := Fronted(Candidates(r, depth.value), c'.successfulProfile);
        (c', if ordered == [] then Err(NoRate) else Ok(ordered[..Min(3, |ordered|)]))
  }

  function Remembered(c: Cache, p: Profile, now: int): Cache {
    Cache(Some(c.currentKey), Some(p), now + CACHE_MINUTES, c.currentKey)
  }

  class CameraAudioProfiles {
    var successfulKey: Option<Key>
    var successfulProfile: Option<Profile>
    var expires: int
    var CurrentKey: Key

    function Contents(): Cache
      reads this
    {
      Cache(successfulKey, successfulProfile, expires, CurrentKey)
    }

    constructor ()
      ensures Contents() == EMPTY
    {
      successfulKey, successfulProfile, expires, CurrentKey := None, None, 0, NoKey;
    }

    method Prepare(r: Request, now: int) returns (profiles: Result<seq<Profile>, Fault>)
      modifies this
      ensures (Contents(), profiles) == Prepared(old(Contents()), r, now)
    {
      InvalidateIfExpired(now);
      if !Listens(r) {
        return Err(NoMicrophone);
      }
      if !Talks(r) {
        return Err(NoTalkback);
      }
      var found := FirstFitting(r, DEPTHS);
      if found.None? {
        return Err(NoDepth);
      }
      var candidates := ListCandidates(r, found.value);
      CurrentKey := KeyOf(r);
      if successfulKey != Some(CurrentKey) {
        Invalidate();
      }
      candidates := Fronted(candidates, successfulProfile);
      if candidates == [] {
        return Err(NoRate);
      }
      return Ok(candidates[..Min(3, |candidates|)]);
    }

    /** The loops of Prepare: every rate that fits, and where those are fewer than three the best again at less. */
    static method ListCandidates(r: Request, depth: u8) returns (candidates: seq<Profile>)
      requires Listens(r) && Talks(r)
      ensures candidates == Candidates(r, depth)
    {
      candidates := [];
      for i := 0 to |RATES|
        invariant candidates == AtRates(r, depth, RATES[..i])
      {
        assert RATES[..i + 1][..i] == RATES[..i];
        if RateFits(r, RATES[i]) && Available(r) >= MINIMUM_BIT_RATE {
          candidates := candidates + [AtRate(r, depth, RATES[i])];
        }
      }
      assert RATES[..|RATES|] == RATES;
      if 0 < |candidates| < 3 {
        var preferred := candidates[0];
        ghost var full := candidates;
        for i := 0 to |BUDGETS|
          invariant candidates == full + AtBudgets(preferred, BUDGETS[..i])
        {
          assert BUDGETS[..i + 1][..i] == BUDGETS[..i];
          if BUDGETS[i] < preferred.bitRate {
            candidates := candidates + [preferred.(bitRate := BUDGETS[i])];
          }
        }
        assert BUDGETS[..|BUDGETS|] == BUDGETS;
      }
    }

    method Remember(profile: Profile, now: int)
      modifies this
      ensures Contents() == Remembered(old(Contents()), profile, now)
      ensures successfulKey == Some(CurrentKey) && CurrentKey == old(CurrentKey)
      ensures successfulProfile == Some(profile) && expires == now + 5
    {
      successfulKey := Some(CurrentKey);
      successfulProfile := Some(profile);
      expires := now + CACHE_MINUTES;
    }

    method Invalidate()
      modifies this
      ensures Contents() == Invalidated(old(Contents()))
      ensures successfulKey.None? && successfulProfile.None? && expires == old(expires) && CurrentKey == old(CurrentKey)
    {
      successfulKey := None;
      successfulProfile := None;
    }

    method InvalidateIfExpired(now: int)
      modifies this
      ensures Contents() == Current(old(Contents()), now)
    {
      if now >= expires {
        Invalidate();
      }
    }
  }

  // ---------------------------------------------------------------------------------------------
  // What the candidates are.
  // ---------------------------------------------------------------------------------------------

  ghost predicate Distinct(s: seq<Profile>) {
    forall i, j | 0 <= i < j < |s| :: s[i] != s[j]
  }

  /** The bandwidth bound, on either side of the division. */
  lemma RoomIff(r: Request, bitRate: u32)
    requires bitRate > 0
    ensures bitRate <= Available(r) <==>
            r.videoBitRate + Streams(r) * bitRate <= r.capabilities.maximumNetworkBandwidth
  {}

  lemma {:induction false} AtRatesMembers(r: Request, depth: u8, rates: seq<u32>, p: Profile)
    requires Listens(r) && Talks(r)
    ensures p in AtRates(r, depth, rates) <==>
            && p.sampleRate in rates && RateFits(r, p.sampleRate) && Available(r) >= MINIMUM_BIT_RATE
            && p == AtRate(r, depth, p.sampleRate)
  {
    if rates != [] {
      AtRatesMembers(r, depth, rates[..|rates| - 1], p);
      assert rates == rates[..|rates| - 1] + [rates[|rates| - 1]];
    }
  }

  ghost predicate Falling(s: seq<u32>) {
    forall i, j | 0 <= i < j < |s| :: s[i] > s[j]
  }

  lemma FallingFront(s: seq<u32>)
    requires Falling(s) && s != []
    ensures var last, front := s[|s| - 1], s[..|s| - 1];
            Falling(front) && last !in front && (forall x <- front :: x > last) && s == front + [last]
  {}

  ghost predicate Descending(s: seq<Profile>) {
    forall i, j | 0 <= i < j < |s| :: s[i].sampleRate > s[j].sampleRate
  }

  lemma {:induction false} AtRatesDescend(r: Request, depth: u8, rates: seq<u32>)
    requires Listens(r) && Talks(r) && Falling(rates)
    ensures Descending(AtRates(r, depth, rates))
  {
    if rates != [] {
      var last, rest := rates[|rates| - 1], rates[..|rates| - 1];
      FallingFront(rates);
      AtRatesDescend(r, depth, rest);
      var s := AtRates(r, depth, rest);
      forall i | 0 <= i < |s| ensures s[i].sampleRate > last {
        AtRatesMembers(r, depth, rest, s[i]);
        assert s[i] in s;
      }
    }
  }

  /** A rate that both ends can do gives an admissible profile, the best one at that rate; there is no other kind. */
  lemma FullBudget(r: Request, depth: u8, p: Profile)
    requires Listens(r) && Talks(r) && FirstFitting(r, DEPTHS) == Some(depth)
    ensures p in AtRates(r, depth, RATES) ==> Admissible(r, p)
    ensures Admissible(r, p) ==>
              var best := AtRate(r, depth, p.sampleRate);
              best in AtRates(r, depth, RATES) && p.bitRate <= best.bitRate
  {
    var best := AtRate(r, depth, p.sampleRate);
    AtRatesMembers(r, depth, RATES, p);
    AtRatesMembers(r, depth, RATES, best);
    if p in AtRates(r, depth, RATES) || Admissible(r, p) {
      assert p.sampleRate in RATES && p.sampleRate >= 8000;
      RoomIff(r, p.bitRate);
    }
  }

  lemma DistinctConcat(a: seq<Profile>, b: seq<Profile>)
    requires Distinct(a) && Distinct(b) && forall p <- a, q <- b :: p != q
    ensures Distinct(a + b)
  {
    forall i, j | 0 <= i < j < |a + b| ensures (a + b)[i] != (a + b)[j] {
      assert i < |a| && j >= |a| ==> a[i] in a && b[j - |a|] in b;
    }
  }

  lemma AdmissibleStarts(r: Request, p: Profile)
    requires Listens(r) && Talks(r) && Admissible(r, p)
    ensures EngineStarts(r, p)
  {
    assert p.bitDepth in DEPTHS;
  }

  lemma ExtrasAreNew(r: Request, depth: u8, p: Profile, q: Profile)
    requires Listens(r) && Talks(r) && Descending(AtRates(r, depth, RATES))
    requires p in AtRates(r, depth, RATES)
    requires var best := AtRates(r, depth, RATES)[0]; q.sampleRate == best.sampleRate && q.bitRate < best.bitRate
    ensures p != q
  {
    var full := AtRates(r, depth, RATES);
    var k :| 0 <= k < |full| && full[k] == p;
  }

  /** The candidates are distinct and admissible. */
  lemma CandidatesFacts(r: Request, depth: u8)
    requires Listens(r) && Talks(r) && FirstFitting(r, DEPTHS) == Some(depth)
    ensures Distinct(Candidates(r, depth)) && forall p <- Candidates(r, depth) :: Admissible(r, p)
  {
    var full := AtRates(r, depth, RATES);
    AtRatesDescend(r, depth, RATES);
    forall p <- full ensures Admissible(r, p) {
      FullBudget(r, depth, p);
    }
    assert Distinct(full);
    if 0 < |full| < 3 {
      var extra := AtBudgets(full[0], BUDGETS);
      assert full[0] in full;
      BudgetFacts(r, full[0]);
      forall p <- full, q <- extra ensures p != q {
        ExtrasAreNew(r, depth, p, q);
      }
      DistinctConcat(full, extra);
    }
  }

  /** There is a candidate if anything is admissible, and the first one is the best. */
  lemma CandidatesBest(r: Request, depth: u8, p: Profile)
    requires Listens(r) && Talks(r) && FirstFitting(r, DEPTHS) == Some(depth) && Admissible(r, p)
    ensures Candidates(r, depth) != [] && NoBetter(p, Candidates(r, depth)[0])
  {
    var full := AtRates(r, depth, RATES);
    AtRatesDescend(r, depth, RATES);
    FullBudget(r, depth, p);
    var best := AtRate(r, depth, p.sampleRate);
    var k :| 0 <= k < |full| && full[k] == best;
    AtRatesMembers(r, depth, RATES, full[0]);
    assert full[0] in full;
  }

  predicate NoBetter(p: Profile, q: Profile) {
    p.sampleRate <= q.sampleRate && (p.sampleRate == q.sampleRate ==> p.bitRate <= q.bitRate)
  }

  lemma {:induction false} AtBudgetsHas(preferred: Profile, budgets: seq<u32>, p: Profile)
    ensures p in AtBudgets(preferred, budgets) <==>
            p.bitRate in budgets && p.bitRate < preferred.bitRate && p == preferred.(bitRate := p.bitRate)
  {
    if budgets != [] {
      AtBudgetsHas(preferred, budgets[..|budgets| - 1], p);
      assert budgets == budgets[..|budgets| - 1] + [budgets[|budgets| - 1]];
    }
  }

  ghost predicate Cheaper(s: seq<Profile>) {
    forall i, j | 0 <= i < j < |s| :: s[i].bitRate > s[j].bitRate
  }

  lemma {:induction false} AtBudgetsDescend(preferred: Profile, budgets: seq<u32>)
    requires Falling(budgets)
    ensures Cheaper(AtBudgets(preferred, budgets))
  {
    if budgets != [] {
      var last, rest := budgets[|budgets| - 1], budgets[..|budgets| - 1];
      FallingFront(budgets);
      AtBudgetsDescend(preferred, rest);
      var s := AtBudgets(preferred, rest);
      forall i | 0 <= i < |s| ensures s[i].bitRate > last {
        assert s[i] in s;
        AtBudgetsHas(preferred, rest, s[i]);
      }
    }
  }

  lemma CheaperIsAdmissible(r: Request, preferred: Profile, p: Profile)
    requires Listens(r) && Talks(r) && Admissible(r, preferred)
    requires MINIMUM_BIT_RATE <= p.bitRate < preferred.bitRate && p == preferred.(bitRate := p.bitRate)
    ensures Admissible(r, p)
  {}

  lemma CheaperIsDistinct(s: seq<Profile>)
    requires Cheaper(s)
    ensures Distinct(s)
  {}

  lemma BudgetFacts(r: Request, preferred: Profile)
    requires Listens(r) && Talks(r) && Admissible(r, preferred)
    ensures Distinct(AtBudgets(preferred, BUDGETS))
    ensures forall p <- AtBudgets(preferred, BUDGETS) ::
              Admissible(r, p) && p.sampleRate == preferred.sampleRate && p.bitRate < preferred.bitRate
  {
    AtBudgetsDescend(preferred, BUDGETS);
    CheaperIsDistinct(AtBudgets(preferred, BUDGETS));
    forall p <- AtBudgets(preferred, BUDGETS)
      ensures Admissible(r, p) && p.sampleRate == preferred.sampleRate && p.bitRate < preferred.bitRate
    {
      AtBudgetsHas(preferred, BUDGETS, p);
      CheaperIsAdmissible(r, preferred, p);
    }
  }

  /** The rates among those given that both ends can do, if the bandwidth has room for any. */
  ghost function FittingRates(r: Request, rates: seq<u32>): set<u32>
    requires Listens(r) && Talks(r)
  {
    set rate | rate in rates && RateFits(r, rate) && Available(r) >= MINIMUM_BIT_RATE
  }

  lemma FittingOneMore(r: Request, rest: seq<u32>, last: u32)
    requires Listens(r) && Talks(r) && last !in rest
    ensures last !in FittingRates(r, rest)
    ensures FittingRates(r, rest + [last]) ==
            FittingRates(r, rest) + if RateFits(r, last) && Available(r) >= MINIMUM_BIT_RATE then {last} else {}
  {}

  lemma {:induction false} AtRatesCount(r: Request, depth: u8, rates: seq<u32>)
    requires Listens(r) && Talks(r) && Falling(rates)
    ensures |AtRates(r, depth, rates)| == |FittingRates(r, rates)|
  {
    if rates != [] {
      var last, rest := rates[|rates| - 1], rates[..|rates| - 1];
      FallingFront(rates);
      AtRatesCount(r, depth, rest);
      FittingOneMore(r, rest, last);
      assert rates == rest + [last];
    }
  }

  /** The best rate at its full budget. */
  lemma FirstIsHighest(r: Request, depth: u8)
    requires Listens(r) && Talks(r) && AtRates(r, depth, RATES) != []
    ensures var best := AtRates(r, depth, RATES)[0];
            && best.sampleRate in FittingRates(r, RATES) && best == AtRate(r, depth, best.sampleRate)
            && forall rate <- FittingRates(r, RATES) :: rate <= best.sampleRate
  {
    var full := AtRates(r, depth, RATES);
    AtRatesDescend(r, depth, RATES);
    assert full[0] in full;
    AtRatesMembers(r, depth, RATES, full[0]);
    forall rate <- FittingRates(r, RATES) ensures rate <= full[0].sampleRate {
      AtRatesMembers(r, depth, RATES, AtRate(r, depth, rate));
      var k :| 0 <= k < |full| && full[k] == AtRate(r, depth, rate);
    }
  }

  /**
   The candidates are exactly these: every rate both ends can do, at its full budget; and where fewer than
   three rates fit, the highest of them again at 32 and 20 kbit/s, as far as that is less.
   */
  lemma CandidatesAreExactly(r: Request, depth: u8, p: Profile)
    requires Listens(r) && Talks(r)
    ensures p in Candidates(r, depth) <==>
            || (p.sampleRate in FittingRates(r, RATES) && p == AtRate(r, depth, p.sampleRate))
            || (&& |FittingRates(r, RATES)| < 3 && p.sampleRate in FittingRates(r, RATES)
                && (forall rate <- FittingRates(r, RATES) :: rate <= p.sampleRate)
                && p.bitRate in {32000, 20000} && p.bitRate < AtRate(r, depth, p.sampleRate).bitRate && p.bitDepth == depth)
  {
    var full := AtRates(r, depth, RATES);
    AtRatesCount(r, depth, RATES);
    AtRatesMembers(r, depth, RATES, p);
    if full != [] {
      FirstIsHighest(r, depth);
      AtBudgetsHas(full[0], BUDGETS, p);
    } else {
      assert FittingRates(r, RATES) == {};
    }
  }

  /** And in this order: falling rates at full budget first, then falling budgets. */
  lemma CandidatesInOrder(r: Request, depth: u8, i: nat, j: nat)
    requires Listens(r) && Talks(r) && FirstFitting(r, DEPTHS) == Some(depth)
    requires i < j < |Candidates(r, depth)|
    ensures var (p, q) := (Candidates(r, depth)[i], Candidates(r, depth)[j]);
            if q == AtRate(r, depth, q.sampleRate) then p.sampleRate > q.sampleRate
            else p == AtRate(r, depth, p.sampleRate) || p.bitRate > q.bitRate
  {
    var full, s := AtRates(r, depth, RATES), Candidates(r, depth);
    AtRatesDescend(r, depth, RATES);
    if i < |full| {
      assert full[i] in full;
      AtRatesMembers(r, depth, RATES, full[i]);
    }
    if j >= |full| {
      var extra := AtBudgets(full[0], BUDGETS);
      FirstIsHighest(r, depth);
      AtBudgetsHas(full[0], BUDGETS, extra[j - |full|]);
      AtBudgetsDescend(full[0], BUDGETS);
    }
  }

  // ---------------------------------------------------------------------------------------------
  // What Prepare returns.
  // ---------------------------------------------------------------------------------------------

  lemma {:induction false} RemoveFirstPermutes(s: seq<Profile>, p: Profile)
    requires p in s
    ensures multiset(s) == multiset([p] + RemoveFirst(s, p))
  {
    if s[0] == p {
      assert s == [p] + s[1..];
    } else {
      RemoveFirstPermutes(s[1..], p);
      assert s == [s[0]] + s[1..];
    }
  }

  /** The cached choice only permutes the fresh candidates. */
  lemma FrontedPermutes(s: seq<Profile>, p: Option<Profile>)
    ensures multiset(Fronted(s, p)) == multiset(s)
  {
    if p.Some? && p.value in s {
      RemoveFirstPermutes(s, p.value);
    }
  }

  lemma PermutedDistinct(s: seq<Profile>, t: seq<Profile>)
    requires multiset(s) == multiset(t) && Distinct(s)
    ensures Distinct(t) && forall p <- t :: p in s
  {
    forall p ensures multiset(t)[p] <= 1 && (p in t <==> p in s) {
      OccursOnce(s, p);
      assert p in t <==> p in multiset(t);
    }
    forall i, j | 0 <= i < j < |t| ensures t[i] != t[j] {
      OccursTwice(t, i, j);
    }
  }

  lemma {:induction false} OccursOnce(s: seq<Profile>, p: Profile)
    requires Distinct(s)
    ensures multiset(s)[p] <= 1
    ensures p in s <==> p in multiset(s)
  {
    if s != [] {
      OccursOnce(s[1..], p);
      assert s == [s[0]] + s[1..];
      assert s[0] !in s[1..];
    }
  }

  lemma OccursTwice(t: seq<Profile>, i: nat, j: nat)
    requires i < j < |t|
    ensures t[i] == t[j] ==> multiset(t)[t[i]] >= 2
  {
    assert t == t[..j] + [t[j]] + t[j + 1..];
    assert t[..j][i] == t[i] && t[i] in t[..j];
  }

  /** What Prepare returns, once the request itself is in order. */
  lemma PreparedOrder(c: Cache, r: Request, now: int)
    requires Listens(r) && Talks(r) && FirstFitting(r, DEPTHS).Some?
    ensures var plain := Candidates(r, FirstFitting(r, DEPTHS).value);
            var (c', result) := Prepared(c, r, now);
            var ordered := Fronted(plain, c'.successfulProfile);
            && c' == Keyed(Current(c, now), KeyOf(r))
            && result == (if ordered == [] then Err(NoRate) else Ok(ordered[..Min(3, |ordered|)]))
            && Distinct(ordered) && |ordered| == |plain| && forall p <- ordered :: p in plain && Admissible(r, p)
  {
    var depth := FirstFitting(r, DEPTHS).value;
    var plain := Candidates(r, depth);
    var cached := Prepared(c, r, now).0.successfulProfile;
    CandidatesFacts(r, depth);
    FrontedPermutes(plain, cached);
    PermutedDistinct(plain, Fronted(plain, cached));
    assert |Fronted(plain, cached)| == |multiset(plain)| == |plain|;
  }

  /**
   Every list Prepare returns is short, distinct, within the bandwidth and startable by the audio engine; a
   request is refused only where no profile is admissible.
   */
  lemma PreparedProfiles(c: Cache, r: Request, now: int)
    ensures var result := Prepared(c, r, now).1;
            && (result.Ok? <==> Listens(r) && Talks(r) && exists p :: Admissible(r, p))
            && (result.Ok? ==>
                  && 1 <= |result.value| <= 3 && Distinct(result.value)
                  && (forall p <- result.value ::
                        Listens(r) && Talks(r) && Admissible(r, p) && EngineStarts(r, p)))
  {
    if Listens(r) && Talks(r) && FirstFitting(r, DEPTHS).Some? {
      PreparedOrder(c, r, now);
      var depth := FirstFitting(r, DEPTHS).value;
      var ordered := Fronted(Candidates(r, depth), Prepared(c, r, now).0.successfulProfile);
      forall p | Admissible(r, p) ensures EngineStarts(r, p) && ordered != [] {
        AdmissibleStarts(r, p);
        CandidatesBest(r, depth, p);
      }
      assert ordered != [] ==> ordered[0] in ordered;
    }
  }

  /** Without a cached choice the best admissible profile comes first. */
  lemma BestComesFirst(r: Request, now: int, p: Profile)
    requires Listens(r) && Talks(r) && Admissible(r, p)
    ensures Prepared(EMPTY, r, now).1.Ok? && NoBetter(p, Prepared(EMPTY, r, now).1.value[0])
  {
    CandidatesBest(r, p.bitDepth, p);
  }

  /** A profile that worked comes first for the same request until the cache expires. */
  lemma RememberedComesFirst(c: Cache, r: Request, now: int, p: Profile, later: int, again: int)
    requires Prepared(c, r, now).1.Ok? && p in Prepared(c, r, now).1.value
    requires again < later + 5
    ensures var remembered := Remembered(Prepared(c, r, now).0, p, later);
            var (c', result) := Prepared(remembered, r, again);
            c' == remembered && result.Ok? && result.value[0] == p
  {
    var remembered := Remembered(Prepared(c, r, now).0, p, later);
    PreparedOrder(c, r, now);
    PreparedOrder(remembered, r, again);
    assert Prepared(remembered, r, again).0 == remembered;
  }

  /** A choice remembered for another request, or too long ago, is not used. */
  lemma StaleIsIgnored(c: Cache, r: Request, now: int)
    requires now >= c.expires || c.successfulKey != Some(KeyOf(r))
    requires c.successfulKey.None? ==> c.successfulProfile.None?
    ensures Prepared(c, r, now).1 == Prepared(EMPTY, r, now).1
  {}

  /** A remembered choice is forgotten after five minutes. */
  lemma RememberedExpires(c: Cache, r: Request, p: Profile, later: int, again: int)
    requires again >= later + 5
    ensures Prepared(Remembered(c, p, later), r, again).1 == Prepared(EMPTY, r, again).1
  {
    StaleIsIgnored(Remembered(c, p, later), r, again);
  }

  /** Two requests share a cached choice exactly when everything that decides the candidates is the same in both. */
  lemma KeysTellApart(r: Request, q: Request)
    ensures KeyOf(r) == KeyOf(q) <==>
            && r.endpoint == q.endpoint && r.firmware == q.firmware && r.talk == q.talk && r.videoBitRate == q.videoBitRate
            && r.engine == q.engine
            && r.capabilities.maximumNetworkBandwidth == q.capabilities.maximumNetworkBandwidth
            && r.capabilities.featureMap == q.capabilities.featureMap
            && r.capabilities.twoWayTalkSupport == q.capabilities.twoWayTalkSupport
            && r.capabilities.microphone == q.capabilities.microphone && r.capabilities.speaker == q.capabilities.speaker
    ensures KeyOf(r) != NoKey
  {}

  /** A choice that worked for one request has no effect on a request with another key. */
  lemma OtherRequestsAreUnaffected(c: Cache, r: Request, now: int, p: Profile, later: int, q: Request, again: int)
    requires Prepared(c, r, now).1.Ok? && KeyOf(r) != KeyOf(q)
    ensures Prepared(Remembered(Prepared(c, r, now).0, p, later), q, again).1 == Prepared(EMPTY, q, again).1
  {
    PreparedOrder(c, r, now);
    StaleIsIgnored(Remembered(Prepared(c, r, now).0, p, later), q, again);
  }

  /**
   Each refusal names the first thing that is missing: listening, full-duplex talkback, a common depth, or a common
   rate with room for 6 kbit/s in each direction.
   */
  lemma RefusalsAreExact(c: Cache, r: Request, now: int)
    ensures var cap, result := r.capabilities, Prepared(c, r, now).1;
            var mic, speaker := cap.microphone, cap.speaker;
            && (result == Err(NoMicrophone) <==>
                  !(&& cap.supportsListening && !cap.privacyEnabled && cap.managementRevision == 2 && cap.providerRevision == 2
                    && mic.Some? && 1 <= mic.value.maximumChannels <= 8 && mic.value.opus
                    && r.engine.opus && 1 <= r.engine.maximumChannels))
            && (result == Err(NoTalkback) <==>
                  && Listens(r) && r.talk
                  && !(&& cap.twoWayTalkSupport == 2 && speaker.Some? && 1 <= speaker.value.maximumChannels <= 8
                       && speaker.value.opus && !cap.speakerMuted && cap.speakerVolume != Some(0)))
            && (result == Err(NoDepth) <==>
                  && Listens(r) && Talks(r)
                  && forall d <- [16, 24, 32, 8] ::
                       !(d in r.engine.bitDepths && d in mic.value.bitDepths && (r.talk ==> d in speaker.value.bitDepths)))
  {
    if Listens(r) && Talks(r) {
      assert forall d <- DEPTHS :: d in [16, 24, 32, 8];
      assert forall d <- [16, 24, 32, 8] :: d in DEPTHS;
    }
  }

  lemma NoRateMeansNoRoom(c: Cache, r: Request, now: int)
    requires Prepared(c, r, now).1 == Err(NoRate)
    ensures Listens(r) && Talks(r)
    ensures forall rate: u32 <- [48000, 24000, 16000, 12000, 8000] ::
              && rate in r.engine.sampleRates && rate in r.capabilities.microphone.value.sampleRates
              && (r.talk ==> rate in r.capabilities.speaker.value.sampleRates) ==>
                r.videoBitRate + (if r.talk then 2 else 1) * 6000 > r.capabilities.maximumNetworkBandwidth
  {
    PreparedOrder(c, r, now);
    var depth := FirstFitting(r, DEPTHS).value;
    forall rate: u32 <- [48000, 24000, 16000, 12000, 8000]
      | rate in r.engine.sampleRates && rate in r.capabilities.microphone.value.sampleRates
        && (r.talk ==> rate in r.capabilities.speaker.value.sampleRates)
      ensures r.videoBitRate + (if r.talk then 2 else 1) * 6000 > r.capabilities.maximumNetworkBandwidth
    {
      RoomIff(r, 6000);
      AtRatesMembers(r, depth, RATES, AtRate(r, depth, rate));
    }
  }

  /** Every profile returned is one that both ends advertise. */
  lemma PreparedIsAdvertised(c: Cache, r: Request, now: int, p: Profile)
    requires Prepared(c, r, now).1.Ok? && p in Prepared(c, r, now).1.value
    ensures r.capabilities.microphone.Some? && (r.talk ==> r.capabilities.speaker.Some?)
    ensures p.sampleRate in r.engine.sampleRates && p.bitDepth in r.engine.bitDepths
    ensures var mic := r.capabilities.microphone.value; p.sampleRate in mic.sampleRates && p.bitDepth in mic.bitDepths
    ensures r.talk ==>
              var speaker := r.capabilities.speaker.value; p.sampleRate in speaker.sampleRates && p.bitDepth in speaker.bitDepths
    ensures r.videoBitRate + (if r.talk then 2 else 1) * p.bitRate <= r.capabilities.maximumNetworkBandwidth
  {
    PreparedProfiles(c, r, now);
  }
}
