/**
 Camera endpoint discovery: a walk over the PartsLists of a node, starting at the root endpoint.

 Each endpoint is read at most once, so one map describes all reads; an endpoint that is not in the map
 is one whose descriptor cannot be read.
 */
module Discovery {
  import opened Basics

  const ROOT_ENDPOINT: u16 := 0
  const INVALID_ENDPOINT: u16 := 0xFFFF
  const MAXIMUM_ENDPOINTS := 128

  datatype Descriptor = Descriptor(parts: seq<u16>, camera: bool)

  type Graph = map<u16, Descriptor>

  datatype Fault = Unreadable | BadPart | TooMany

  // ---------------------------------------------------------------------------------------------
  // Which endpoints there are.
  // ---------------------------------------------------------------------------------------------

  predicate Lists(g: Graph, e: u16, part: u16) {
    e in g && part in g[e].parts
  }

  predicate IsPath(g: Graph, p: seq<u16>) {
    p != [] && p[0] == 0 && forall i | 0 <= i < |p| - 1 :: Lists(g, p[i], p[i + 1])
  }

  ghost predicate Reachable(g: Graph, e: u16) {
    exists p :: IsPath(g, p) && p[|p| - 1] == e
  }

  ghost function ReachableSet(g: Graph): set<u16> {
    set e: u16 | e < 0x1_0000 && Reachable(g, e)
  }

  predicate IsBadPart(e: u16, part: u16) {
    part == 0xFFFF || part == e
  }

  predicate GoodEndpoint(g: Graph, e: u16) {
    e in g && forall part <- g[e].parts :: !IsBadPart(e, part)
  }

  ghost predicate Discoverable(g: Graph) {
    (forall e <- ReachableSet(g) :: GoodEndpoint(g, e)) && |ReachableSet(g)| <= 128
  }

  /** A node can be discovered if and only if no reachable endpoint is unreadable, lists 0xFFFF or itself, and at most 128 are reachable. */
  lemma DiscoverableIff(g: Graph)
    ensures Discoverable(g) <==>
            && (forall e: u16 | Reachable(g, e) :: e in g && 0xFFFF !in g[e].parts && e !in g[e].parts)
            && |ReachableSet(g)| <= 128
  {
    forall e: u16 | e in g ensures GoodEndpoint(g, e) <==> 0xFFFF !in g[e].parts && e !in g[e].parts {
      if GoodEndpoint(g, e) {
        assert IsBadPart(e, 0xFFFF) && IsBadPart(e, e);
      }
    }
    assert forall e: u16 :: e in ReachableSet(g) <==> Reachable(g, e);
  }

  lemma Extend(g: Graph, e: u16, part: u16)
    requires Reachable(g, e) && e in g && part in g[e].parts
    ensures Reachable(g, part)
  {
    var p :| IsPath(g, p) && p[|p| - 1] == e;
    assert IsPath(g, p + [part]) && (p + [part])[|p|] == part;
  }

  lemma RootIsReachable(g: Graph)
    ensures Reachable(g, ROOT_ENDPOINT)
  {
    assert IsPath(g, [ROOT_ENDPOINT]) && [ROOT_ENDPOINT][0] == ROOT_ENDPOINT;
  }

  lemma {:induction false} ClosedHolds(g: Graph, closed: set<u16>, p: seq<u16>)
    requires ROOT_ENDPOINT in closed
    requires forall e <- closed :: e in g && forall part <- g[e].parts :: part in closed
    requires IsPath(g, p)
    ensures p[|p| - 1] in closed
    decreases |p|
  {
    if |p| > 1 {
      var q := p[..|p| - 1];
      assert IsPath(g, q);
      ClosedHolds(g, closed, q);
      assert Lists(g, p[|p| - 2], p[|p| - 2 + 1]);
    }
  }

  // ---------------------------------------------------------------------------------------------
  // In which order they are discovered.
  // ---------------------------------------------------------------------------------------------

  function FirstOccurrences(s: seq<u16>): (r: seq<u16>) {
    if s == [] then []
    else
      var last, r := s[|s| - 1], FirstOccurrences(s[..|s| - 1]);
      if last in r then r else r + [last]
  }

  predicate Readable(g: Graph, endpoints: seq<u16>) {
    forall e <- endpoints :: e in g
  }

  function AllParts(g: Graph, endpoints: seq<u16>): seq<u16>
    requires Readable(g, endpoints)
  {
    if endpoints == [] then []
    else AllParts(g, endpoints[..|endpoints| - 1]) + g[endpoints[|endpoints| - 1]].parts
  }

  /** What the endpoints in `done` have disclosed: the root and their parts, each where it first appears. */
  function Disclosed(g: Graph, done: seq<u16>): seq<u16>
    requires Readable(g, done)
  {
    FirstOccurrences([ROOT_ENDPOINT] + AllParts(g, done))
  }

  /** The endpoints, each read once, disclose exactly themselves, in that order. */
  ghost predicate DiscoveryOrder(g: Graph, order: seq<u16>) {
    Readable(g, order) && order == Disclosed(g, order) && forall e <- order :: GoodEndpoint(g, e)
  }

  function Cameras(g: Graph, order: seq<u16>): seq<u16>
    requires Readable(g, order)
  {
    if order == [] then []
    else
      var last, rest := order[|order| - 1], Cameras(g, order[..|order| - 1]);
      if g[last].camera then rest + [last] else rest
  }

  ghost predicate NoDuplicates(s: seq<u16>) {
    forall i, j | 0 <= i < j < |s| :: s[i] != s[j]
  }

  ghost function Elements(s: seq<u16>): set<u16> {
    set e | e in s
  }

  lemma {:induction false} FirstOccurrencesFacts(s: seq<u16>)
    ensures NoDuplicates(FirstOccurrences(s))
    ensures forall e: u16 :: e in FirstOccurrences(s) <==> e in s
  {
    if s != [] {
      FirstOccurrencesFacts(s[..|s| - 1]);
      assert s == s[..|s| - 1] + [s[|s| - 1]];
    }
  }

  lemma {:induction false} FirstOccurrencesPrefix(s: seq<u16>, t: seq<u16>)
    ensures FirstOccurrences(s) <= FirstOccurrences(s + t)
    decreases |t|
  {
    if t == [] {
      assert s + t == s;
    } else {
      FirstOccurrencesPrefix(s, t[..|t| - 1]);
      assert (s + t)[..|s + t| - 1] == s + t[..|t| - 1];
    }
  }

  lemma ReadablePrefix(g: Graph, order: seq<u16>, k: nat)
    requires k <= |order| && Readable(g, order)
    ensures Readable(g, order[..k])
  {
    assert forall e <- order[..k] :: e in order;
  }

  lemma DisclosedGrows(g: Graph, done: seq<u16>, e: u16)
    requires Readable(g, done) && e in g
    ensures Readable(g, done + [e])
    ensures Disclosed(g, done) <= Disclosed(g, done + [e])
    ensures forall x: u16 :: x in Disclosed(g, done + [e]) <==> x in Disclosed(g, done) || x in g[e].parts
    ensures NoDuplicates(Disclosed(g, done + [e]))
  {
    assert (done + [e])[..|done|] == done;
    var seen := [ROOT_ENDPOINT] + AllParts(g, done);
    assert [ROOT_ENDPOINT] + AllParts(g, done + [e]) == seen + g[e].parts;
    FirstOccurrencesPrefix(seen, g[e].parts);
    FirstOccurrencesFacts(seen);
    FirstOccurrencesFacts(seen + g[e].parts);
  }

  lemma {:induction false} DisclosedPrefix(g: Graph, order: seq<u16>, k: nat)
    requires k <= |order| && Readable(g, order)
    ensures Readable(g, order[..k])
    ensures Disclosed(g, order[..k]) <= Disclosed(g, order)
    decreases |order| - k
  {
    if k == |order| {
      assert order[..k] == order;
    } else {
      assert order[..k + 1] == order[..k] + [order[k]];
      DisclosedPrefix(g, order, k + 1);
      ReadablePrefix(g, order, k);
      DisclosedGrows(g, order[..k], order[k]);
    }
  }

  /** If the first k endpoints disclose no more than k, endpoint k discloses nothing new. */
  lemma StallsOnce(g: Graph, order: seq<u16>, k: nat)
    requires DiscoveryOrder(g, order) && k < |order|
    requires Readable(g, order[..k]) && |Disclosed(g, order[..k])| <= k
    ensures Readable(g, order[..k + 1]) && |Disclosed(g, order[..k + 1])| <= k
  {
    var e, before := order[k], Disclosed(g, order[..k]);
    assert GoodEndpoint(g, e) && IsBadPart(e, e);
    DisclosedPrefix(g, order, k);
    DisclosedPrefix(g, order, k + 1);
    NotAmongEarlier(g, order, before, k);
    assert order[..k + 1] == order[..k] + [e];
    DisclosedGrows(g, order[..k], e);
    ShortOf(order, Disclosed(g, order[..k + 1]), k);
  }

  lemma NotAmongEarlier(g: Graph, order: seq<u16>, front: seq<u16>, k: nat)
    requires Readable(g, order) && order == Disclosed(g, order)
    requires front <= order && |front| <= k < |order|
    ensures order[k] !in front
  {
    FirstOccurrencesFacts([ROOT_ENDPOINT] + AllParts(g, order));
    assert forall i | 0 <= i < |front| :: order[i] != order[k];
  }

  /** So the walk never gets further: the order ends there. */
  lemma {:induction false} StallsForever(g: Graph, order: seq<u16>, k: nat)
    requires DiscoveryOrder(g, order) && k <= |order|
    requires Readable(g, order[..k]) && |Disclosed(g, order[..k])| <= k
    ensures k == |order|
    decreases |order| - k
  {
    if k < |order| {
      StallsOnce(g, order, k);
      assert order[..|order|] == order;
      StallsForever(g, order, k + 1);
    }
  }

  lemma ShortOf(order: seq<u16>, front: seq<u16>, k: nat)
    requires front <= order && k < |order| && order[k] !in front
    ensures |front| <= k
  {
    assert forall i | 0 <= i < |front| :: front[i] == order[i] && front[i] in front;
  }

  lemma DisclosesNext(g: Graph, order: seq<u16>, k: nat)
    requires DiscoveryOrder(g, order) && k < |order|
    ensures Readable(g, order[..k])
    ensures Disclosed(g, order[..k]) <= order && |Disclosed(g, order[..k])| > k
  {
    ReadablePrefix(g, order, k);
    if |Disclosed(g, order[..k])| <= k {
      StallsForever(g, order, k);
    }
    DisclosedPrefix(g, order, k);
  }

  lemma {:induction false} OrdersAgree(g: Graph, a: seq<u16>, b: seq<u16>, k: nat)
    requires DiscoveryOrder(g, a) && DiscoveryOrder(g, b)
    requires k <= |a| && k <= |b|
    ensures a[..k] == b[..k]
  {
    if k > 0 {
      OrdersAgree(g, a, b, k - 1);
      DisclosesNext(g, a, k - 1);
      DisclosesNext(g, b, k - 1);
      assert a[k - 1] == b[k - 1];
    }
  }

  /** A node has at most one discovery order. */
  lemma OrderIsUnique(g: Graph, a: seq<u16>, b: seq<u16>)
    requires DiscoveryOrder(g, a) && DiscoveryOrder(g, b)
    ensures a == b
  {
    var k := if |a| <= |b| then |a| else |b|;
    OrdersAgree(g, a, b, k);
    assert a[..|a|] == a && b[..|b|] == b;
    if |a| < |b| {
      DisclosesNext(g, b, k);
    } else if |b| < |a| {
      DisclosesNext(g, a, k);
    }
  }

  /** The discovery order lists exactly the reachable endpoints, each once, the root first. */
  lemma OrderListsReachable(g: Graph, order: seq<u16>)
    requires DiscoveryOrder(g, order)
    ensures NoDuplicates(order)
    ensures forall e: u16 :: e in order <==> Reachable(g, e)
    ensures order != [] && order[0] == ROOT_ENDPOINT
  {
    var all := [ROOT_ENDPOINT] + AllParts(g, order);
    FirstOccurrencesFacts(all);
    FirstOccurrencesPrefix([ROOT_ENDPOINT], AllParts(g, order));
    assert FirstOccurrences([ROOT_ENDPOINT]) == [ROOT_ENDPOINT];
    forall e <- order, part <- g[e].parts ensures part in order {
      PartsIncluded(g, order, e, part);
    }
    forall e: u16 | Reachable(g, e) ensures e in order {
      var p :| IsPath(g, p) && p[|p| - 1] == e;
      ClosedHolds(g, Elements(order), p);
    }
    DisclosedReachable(g, order);
  }

  lemma {:induction false} PartsIncluded(g: Graph, done: seq<u16>, e: u16, part: u16)
    requires Readable(g, done) && e in done && part in g[e].parts
    ensures part in AllParts(g, done)
    decreases |done|
  {
    if e != done[|done| - 1] {
      PartsIncluded(g, done[..|done| - 1], e, part);
    }
  }

  /** Whatever reachable endpoints disclose is reachable; but an order must also start somewhere. */
  lemma {:induction false} DisclosedReachable(g: Graph, order: seq<u16>)
    requires DiscoveryOrder(g, order)
    ensures forall e <- order :: Reachable(g, e)
  {
    FirstReachable(g, order, |order|);
  }

  lemma {:induction false} FirstReachable(g: Graph, order: seq<u16>, k: nat)
    requires DiscoveryOrder(g, order) && k <= |order|
    ensures forall i | 0 <= i < k :: Reachable(g, order[i])
  {
    if k > 0 {
      FirstReachable(g, order, k - 1);
      DisclosesNext(g, order, k - 1);
      assert forall e <- order[..k - 1] :: Reachable(g, e);
      DisclosedAreReachable(g, order[..k - 1]);
      var disclosed := Disclosed(g, order[..k - 1]);
      assert disclosed[k - 1] == order[k - 1] && disclosed[k - 1] in disclosed;
    }
  }

  lemma DisclosedAreReachable(g: Graph, done: seq<u16>)
    requires Readable(g, done) && forall e <- done :: Reachable(g, e)
    ensures forall e <- Disclosed(g, done) :: Reachable(g, e)
  {
    FirstOccurrencesFacts([ROOT_ENDPOINT] + AllParts(g, done));
    RootIsReachable(g);
    PartsReachable(g, done);
  }

  lemma {:induction false} PartsReachable(g: Graph, done: seq<u16>)
    requires Readable(g, done) && forall e <- done :: Reachable(g, e)
    ensures forall part <- AllParts(g, done) :: Reachable(g, part)
    decreases |done|
  {
    if done != [] {
      var last := done[|done| - 1];
      PartsReachable(g, done[..|done| - 1]);
      forall part <- g[last].parts ensures Reachable(g, part) {
        Extend(g, last, part);
      }
    }
  }

  // ---------------------------------------------------------------------------------------------
  // The walk.
  // ---------------------------------------------------------------------------------------------

  lemma DistinctFit(s: seq<u16>, all: set<u16>)
    requires NoDuplicates(s) && forall e <- s :: e in all
    ensures |s| <= |all|
  {
    if s != [] {
      var last := s[|s| - 1];
      DistinctFit(s[..|s| - 1], all - {last});
    }
  }

  /** Too many distinct reachable endpoints, or one bad one, and the node is not discoverable. */
  lemma NotDiscoverable(g: Graph, found: seq<u16>, e: u16)
    requires NoDuplicates(found) && forall x <- found :: Reachable(g, x)
    requires e in found && (!GoodEndpoint(g, e) || |found| > MAXIMUM_ENDPOINTS)
    ensures !Discoverable(g)
  {
    assert forall x <- found :: x in ReachableSet(g);
    DistinctFit(found, ReachableSet(g));
  }

  lemma OrderIsDiscoverable(g: Graph, order: seq<u16>)
    requires DiscoveryOrder(g, order) && |order| <= MAXIMUM_ENDPOINTS
    ensures Discoverable(g)
  {
    OrderListsReachable(g, order);
    assert ReachableSet(g) == Elements(order);
    SetOfSeq(order);
  }

  lemma {:induction false} SetOfSeq(s: seq<u16>)
    ensures |Elements(s)| <= |s|
  {
    if s != [] {
      var last := s[|s| - 1];
      SetOfSeq(s[..|s| - 1]);
      assert Elements(s) == Elements(s[..|s| - 1]) + {last};
    }
  }

  /** `found` holds what `done` and the parts looked at so far disclose, all of it reachable. */
  ghost predicate Progress(g: Graph, found: seq<u16>, done: seq<u16>, seen: seq<u16>) {
    && done <= found
    && Readable(g, done) && (forall e <- done :: GoodEndpoint(g, e))
    && found == FirstOccurrences([ROOT_ENDPOINT] + AllParts(g, done) + seen)
    && (forall e <- found :: Reachable(g, e))
  }

  lemma ProgressFacts(g: Graph, found: seq<u16>, done: seq<u16>, seen: seq<u16>)
    requires Progress(g, found, done, seen)
    ensures NoDuplicates(found)
  {
    FirstOccurrencesFacts([ROOT_ENDPOINT] + AllParts(g, done) + seen);
  }

  /** One more part: it joins the endpoints exactly when it is new. */
  lemma ProgressPart(g: Graph, found: seq<u16>, done: seq<u16>, seen: seq<u16>, e: u16, part: u16)
    requires Progress(g, found, done, seen)
    requires e in found && e in g && part in g[e].parts
    ensures Progress(g, Joined(found, part), done, seen + [part])
    ensures part !in found ==> NoDuplicates(found + [part])
    ensures forall x <- found :: Reachable(g, x)
    ensures Reachable(g, part)
  {
    ProgressFacts(g, found, done, seen);
    var all := [ROOT_ENDPOINT] + AllParts(g, done) + seen;
    assert all + [part] == [ROOT_ENDPOINT] + AllParts(g, done) + (seen + [part]);
    assert (all + [part])[..|all|] == all;
    Extend(g, e, part);
  }

  /** The endpoints before position i are done, and the first j parts of endpoint i have been looked at. */
  ghost predicate Scanning(g: Graph, found: seq<u16>, i: nat, j: nat) {
    && i < |found| <= MAXIMUM_ENDPOINTS && found[i] in g && j <= |g[found[i]].parts|
    && (forall part <- g[found[i]].parts[..j] :: !IsBadPart(found[i], part))
    && Progress(g, found, found[..i], g[found[i]].parts[..j])
  }

  /** The endpoints after one more part. */
  function Joined(found: seq<u16>, part: u16): seq<u16> {
    if part in found then found else found + [part]
  }

  lemma BadPartFound(g: Graph, found: seq<u16>, i: nat, j: nat)
    requires Scanning(g, found, i, j) && j < |g[found[i]].parts| && IsBadPart(found[i], g[found[i]].parts[j])
    ensures !Discoverable(g)
  {
    ProgressFacts(g, found, found[..i], g[found[i]].parts[..j]);
    NotDiscoverable(g, found, found[i]);
  }

  lemma NoRoomFound(g: Graph, found: seq<u16>, i: nat, j: nat)
    requires Scanning(g, found, i, j) && j < |g[found[i]].parts|
    requires |Joined(found, g[found[i]].parts[j])| > MAXIMUM_ENDPOINTS
    ensures !Discoverable(g) && |ReachableSet(g)| > MAXIMUM_ENDPOINTS
  {
    var parts := g[found[i]].parts;
    ProgressFacts(g, found, found[..i], parts[..j]);
    ProgressPart(g, found, found[..i], parts[..j], found[i], parts[j]);
    TooManyFound(g, Joined(found, parts[j]));
  }

  lemma ScanGoesOn(g: Graph, found: seq<u16>, i: nat, j: nat)
    requires Scanning(g, found, i, j) && j < |g[found[i]].parts| && !IsBadPart(found[i], g[found[i]].parts[j])
    requires |Joined(found, g[found[i]].parts[j])| <= MAXIMUM_ENDPOINTS
    ensures Scanning(g, Joined(found, g[found[i]].parts[j]), i, j + 1)
  {
    var e, parts := found[i], g[found[i]].parts;
    var found' := Joined(found, parts[j]);
    SlicesGrow(found, found', i, parts, j);
    ProgressPart(g, found, found[..i], parts[..j], e, parts[j]);
    GoodPartsGrow(e, parts, j);
  }

  lemma SlicesGrow(found: seq<u16>, found': seq<u16>, i: nat, parts: seq<u16>, j: nat)
    requires i < |found| && found <= found' && j < |parts|
    ensures parts[..j + 1] == parts[..j] + [parts[j]]
    ensures found'[..i] == found[..i] && found'[i] == found[i]
  {}

  lemma GoodPartsGrow(e: u16, parts: seq<u16>, j: nat)
    requires j < |parts| && !IsBadPart(e, parts[j]) && forall part <- parts[..j] :: !IsBadPart(e, part)
    ensures forall part <- parts[..j + 1] :: !IsBadPart(e, part)
  {
    assert parts[..j + 1] == parts[..j] + [parts[j]];
  }

  lemma ScanPart(g: Graph, found: seq<u16>, i: nat, j: nat)
    requires Scanning(g, found, i, j) && j < |g[found[i]].parts|
    ensures var part := g[found[i]].parts[j];
            var found' := Joined(found, part);
            && (IsBadPart(found[i], part) ==> !Discoverable(g))
            && (|found'| > MAXIMUM_ENDPOINTS ==> !Discoverable(g) && |ReachableSet(g)| > MAXIMUM_ENDPOINTS)
            && (!IsBadPart(found[i], part) && |found'| <= MAXIMUM_ENDPOINTS ==> Scanning(g, found', i, j + 1))
  {
    var part := g[found[i]].parts[j];
    if IsBadPart(found[i], part) {
      BadPartFound(g, found, i, j);
    }
    if |Joined(found, part)| > MAXIMUM_ENDPOINTS {
      NoRoomFound(g, found, i, j);
    } else if !IsBadPart(found[i], part) {
      ScanGoesOn(g, found, i, j);
    }
  }

  lemma TooManyFound(g: Graph, found: seq<u16>)
    requires NoDuplicates(found) && (forall e <- found :: Reachable(g, e)) && |found| > MAXIMUM_ENDPOINTS
    ensures |ReachableSet(g)| > MAXIMUM_ENDPOINTS && !Discoverable(g)
  {
    assert forall e <- found :: e in ReachableSet(g);
    DistinctFit(found, ReachableSet(g));
  }

  lemma ScanEnd(g: Graph, found: seq<u16>, i: nat)
    requires i < |found| && found[i] in g && Scanning(g, found, i, |g[found[i]].parts|)
    ensures Progress(g, found, found[..i + 1], [])
    ensures Cameras(g, found[..i + 1]) == Cameras(g, found[..i]) + if g[found[i]].camera then [found[i]] else []
  {
    var done, e := found[..i], found[i];
    assert found[..i + 1] == done + [e] && (done + [e])[..i] == done;
    assert g[e].parts[..|g[e].parts|] == g[e].parts;
    assert [ROOT_ENDPOINT] + AllParts(g, done) + g[e].parts == [ROOT_ENDPOINT] + AllParts(g, done + [e]) + [];
  }

  lemma WalkEnd(g: Graph, found: seq<u16>)
    requires Progress(g, found, found, []) && |found| <= MAXIMUM_ENDPOINTS
    ensures DiscoveryOrder(g, found) && Discoverable(g)
  {
    assert [ROOT_ENDPOINT] + AllParts(g, found) + [] == [ROOT_ENDPOINT] + AllParts(g, found);
    OrderIsDiscoverable(g, found);
  }

  /** What a fault says about the node. */
  ghost predicate Explains(g: Graph, fault: Fault) {
    match fault
    case Unreadable => exists e :: Reachable(g, e) && e !in g
    case BadPart => exists e, part :: Reachable(g, e) && Lists(g, e, part) && (part == 0xFFFF || part == e)
    case TooMany => |ReachableSet(g)| > 128
  }

  /** The inner loop: the parts of endpoint i that are new join the endpoints. */
  method AddParts(g: Graph, found: seq<u16>, i: nat) returns (r: Result<seq<u16>, Fault>)
    requires Scanning(g, found, i, 0)
    ensures r.Ok? ==>
              found <= r.value && i < |r.value| && r.value[i] == found[i] &&
              Scanning(g, r.value, i, |g[found[i]].parts|)
    ensures r.Err? ==> !Discoverable(g) && Explains(g, r.error)
  {
    var endpoints := found;
    var descriptor := g[endpoints[i]];
    for j := 0 to |descriptor.parts|
      invariant found <= endpoints
      invariant Scanning(g, endpoints, i, j)
    {
      var endpoint := descriptor.parts[j];
      ScanPart(g, endpoints, i, j);
      if endpoint == INVALID_ENDPOINT || endpoint == endpoints[i] {
        assert Lists(g, endpoints[i], endpoint) && IsBadPart(endpoints[i], endpoint);
        return Err(BadPart);
      }
      if endpoint !in endpoints {
        if |endpoints| == MAXIMUM_ENDPOINTS {
          return Err(TooMany);
        }
        endpoints := endpoints + [endpoint];
      }
    }
    return Ok(endpoints);
  }

  /** The outer loop: the endpoints before position i are done, and `cameras` are those among them. */
  ghost predicate Walking(g: Graph, found: seq<u16>, i: nat, cameras: seq<u16>) {
    && i <= |found| <= MAXIMUM_ENDPOINTS && Progress(g, found, found[..i], []) && cameras == Cameras(g, found[..i])
  }

  lemma ReadNext(g: Graph, found: seq<u16>, i: nat, cameras: seq<u16>)
    requires Walking(g, found, i, cameras) && i < |found|
    ensures if found[i] in g then Scanning(g, found, i, 0) else !Discoverable(g) && Explains(g, Unreadable)
  {
    ProgressFacts(g, found, found[..i], []);
    if found[i] !in g {
      NotDiscoverable(g, found, found[i]);
    } else {
      assert g[found[i]].parts[..0] == [];
    }
  }

  lemma WalkedOn(g: Graph, found: seq<u16>, more: seq<u16>, i: nat, cameras: seq<u16>)
    requires Walking(g, found, i, cameras) && i < |found| <= |more| && found <= more
    requires found[i] in g && Scanning(g, more, i, |g[found[i]].parts|)
    ensures Walking(g, more, i + 1, cameras + if g[found[i]].camera then [found[i]] else [])
  {
    assert more[..i] == found[..i];
    ScanEnd(g, more, i);
  }

  /** Why a discovery gives up before it reads anything, or at an endpoint. */
  datatype Failure = Canceled | InvalidNode | AtEndpoint(fault: Fault)

  /**
   Discovery returns exactly the camera endpoints reachable from the root, each once, in discovery order.
   Unless it was canceled or the node is not an operational one, it fails exactly when a reachable endpoint is
   unreadable or lists an invalid part or itself, or when more than 128 endpoints are reachable.
   */
  method DiscoverCameraEndpoints(g: Graph, canceled: bool, operational: bool) returns (r: Result<seq<u16>, Failure>)
    ensures r == Err(Canceled) <==> canceled
    ensures r == Err(InvalidNode) <==> !canceled && !operational
    ensures r.Ok? <==> !canceled && operational && Discoverable(g)
    ensures r.Ok? ==> exists order :: DiscoveryOrder(g, order) && r.value == Cameras(g, order)
    ensures r.Err? && r.error.AtEndpoint? ==> Explains(g, r.error.fault)
  {
    if canceled {
      return Err(Canceled);
    }
    if !operational {
      return Err(InvalidNode);
    }
    var endpoints: seq<u16> := [ROOT_ENDPOINT];
    var cameras: seq<u16> := [];
    RootIsReachable(g);
    var i := 0;
    while i < |endpoints|
      invariant i <= MAXIMUM_ENDPOINTS
      invariant Walking(g, endpoints, i, cameras)
      decreases MAXIMUM_ENDPOINTS - i
    {
      ReadNext(g, endpoints, i, cameras);
      if endpoints[i] !in g {
        return Err(AtEndpoint(Unreadable));
      }
      var added := AddParts(g, endpoints, i);
      if added.Err? {
        return Err(AtEndpoint(added.error));
      }
      WalkedOn(g, endpoints, added.value, i, cameras);
      endpoints := added.value;
      if g[endpoints[i]].camera {
        cameras := cameras + [endpoints[i]];
      }
      i := i + 1;
    }
    assert endpoints[..i] == endpoints;
    WalkEnd(g, endpoints);
    return Ok(cameras);
  }

  /** The cameras are the reachable endpoints with camera clusters: none missing, none twice. */
  lemma {:induction false} CamerasAreExact(g: Graph, order: seq<u16>)
    requires DiscoveryOrder(g, order)
    ensures NoDuplicates(Cameras(g, order))
    ensures forall e: u16 :: e in Cameras(g, order) <==> Reachable(g, e) && e in g && g[e].camera
  {
    OrderListsReachable(g, order);
    CamerasOfPrefix(g, order);
  }

  lemma {:induction false} CamerasOfPrefix(g: Graph, order: seq<u16>)
    requires NoDuplicates(order) && Readable(g, order)
    ensures NoDuplicates(Cameras(g, order))
    ensures forall e: u16 :: e in Cameras(g, order) <==> e in order && g[e].camera
  {
    if order != [] {
      CamerasOfPrefix(g, order[..|order| - 1]);
      assert order == order[..|order| - 1] + [order[|order| - 1]];
    }
  }
}
