/** What one reconciliation pass computes, as functions: which registrations
    are managed, which EC2 instances count as live, the matcher, the
    unmatched registrations, the circuit breaker and the full sequence of
    AWS requests a pass issues. Both reconcilers (cloudunmap/unmap.py and
    cloudunmap/cli.py) are proved against these. */
module Reconciliation {
  import opened Records
  import Aws

  /** A registration carries an `AWS_INSTANCE_IPV4` attribute. */
  predicate HasIpv4(r: Registration)
  {
    Ipv4Key in r.attrs
  }

  predicate AllHaveIpv4(regs: seq<Registration>)
  {
    forall k :: 0 <= k < |regs| ==> HasIpv4(regs[k])
  }

  /** The registrations the reconciler manages: those with an IPv4
      attribute, in listing order. */
  function Managed(regs: seq<Registration>): (r: seq<Registration>)
    ensures AllHaveIpv4(r) && |r| <= |regs|
  {
    if regs == [] then []
    else
      var last := regs[|regs| - 1];
      Managed(regs[..|regs| - 1]) + (if HasIpv4(last) then [last] else [])
  }

  /** The ids of the registrations, in order. */
  function Ids(regs: seq<Registration>): (r: seq<string>)
    ensures |r| == |regs| && forall k :: 0 <= k < |regs| ==> r[k] == regs[k].id
  {
    if regs == [] then [] else Ids(regs[..|regs| - 1]) + [regs[|regs| - 1].id]
  }

  /** An EC2 instance that is neither `shutting-down` nor `terminated`. */
  predicate IsLive(i: Ec2Instance)
  {
    i.state != "shutting-down" && i.state != "terminated"
  }

  /** The live instances, in order. */
  function Live(instances: seq<Ec2Instance>): (r: seq<Ec2Instance>)
    ensures |r| <= |instances|
  {
    if instances == [] then []
    else
      var last := instances[|instances| - 1];
      Live(instances[..|instances| - 1]) + (if IsLive(last) then [last] else [])
  }

  /** The instance's public address, or else its private address, is `ip`;
      an absent address never matches. */
  predicate AddressMatches(i: Ec2Instance, ip: string)
  {
    (i.publicIp.Some? && i.publicIp.value == ip) || (i.privateIp.Some? && i.privateIp.value == ip)
  }

  /** The instance is the one registered: same id and a matching address. */
  predicate RecordMatches(i: Ec2Instance, reg: Registration)
    requires HasIpv4(reg)
  {
    i.id == reg.id && AddressMatches(i, reg.attrs[Ipv4Key])
  }

  /** The registration matches some running instance. */
  predicate Matches(reg: Registration, running: seq<Ec2Instance>)
    requires HasIpv4(reg)
  {
    exists k :: 0 <= k < |running| && RecordMatches(running[k], reg)
  }

  /** The registrations that match no running instance, in listing order. */
  function Unmatched(regs: seq<Registration>, running: seq<Ec2Instance>): (r: seq<Registration>)
    requires AllHaveIpv4(regs)
    ensures AllHaveIpv4(r) && |r| <= |regs|
  {
    if regs == [] then []
    else
      var last := regs[|regs| - 1];
      Unmatched(regs[..|regs| - 1], running) + (if Matches(last, running) then [] else [last])
  }

  /** The running instances a pass matches against: each region's live
      instances, concatenated in region order. */
  function Fleet(regions: seq<Ec2Region>): seq<Ec2Instance>
  {
    if regions == [] then []
    else Fleet(regions[..|regions| - 1]) + RegionLive(regions[|regions| - 1])
  }

  /** The live instances one region's lookup returns. */
  function RegionLive(region: Ec2Region): seq<Ec2Instance>
  {
    Live(Aws.PagesInstances(region.pages))
  }

  /** The circuit breaker: every managed registration would be removed
      (which includes having none). */
  predicate BreakerTrips(listed: seq<Registration>, running: seq<Ec2Instance>)
  {
    |Unmatched(Managed(listed), running)| >= |Managed(listed)|
  }

  /** The instance ids a pass deregisters, in the order it deregisters them. */
  function Deregistrations(listed: seq<Registration>, running: seq<Ec2Instance>): seq<string>
  {
    if BreakerTrips(listed, running) then [] else Ids(Unmatched(Managed(listed), running))
  }

  /** One `describe_instances` lookup of the ids per region, in region order. */
  function DescribeCalls(regions: seq<Ec2Region>, ids: seq<string>): (r: seq<ApiCall>)
    ensures |r| == |regions|
    ensures forall k :: 0 <= k < |r| ==>
      r[k] == DescribeInstances(regions[k].name, DescribeRequest([Filter("instance-id", ids)], Aws.Ec2PageSize))
  {
    if regions == [] then []
    else
      DescribeCalls(regions[..|regions| - 1], ids) +
      [DescribeInstances(regions[|regions| - 1].name, DescribeRequest([Filter("instance-id", ids)], Aws.Ec2PageSize))]
  }

  /** One `deregister_instance` call per id, in order. */
  function DeregisterCalls(serviceRegion: string, serviceId: string, ids: seq<string>): (r: seq<ApiCall>)
    ensures |r| == |ids|
    ensures forall k :: 0 <= k < |r| ==> r[k] == DeregisterInstance(serviceRegion, serviceId, ids[k])
  {
    if ids == [] then []
    else DeregisterCalls(serviceRegion, serviceId, ids[..|ids| - 1]) + [DeregisterInstance(serviceRegion, serviceId, ids[|ids| - 1])]
  }

  /** How a pass ends: the Cloud Map listing raised `KeyError` on a page,
      the circuit breaker skipped deregistration, or the unmatched
      registrations were deregistered. */
  datatype Outcome =
    | ListingFailed(page: nat)
    | CircuitBreakerTripped(unmatched: nat, managed: nat)
    | Reconciled(deregistered: nat)

  datatype Trace = Trace(outcome: Outcome, calls: seq<ApiCall>)

  /** One pass: list the service's registrations, look up the managed ids
      in every region, then deregister the unmatched ones unless the
      circuit breaker trips. */
  function Pass(serviceId: string, serviceRegion: string, regions: seq<Ec2Region>, registryPages: seq<ListPage>): Trace
  {
    var listCall := ListInstances(serviceRegion, ListRequest(serviceId, Aws.CloudMapPageSize));
    match Aws.RegistryListing(registryPages)
    case Failure(page) => Trace(ListingFailed(page), [listCall])
    case Success(listed) =>
      var managed := Managed(listed);
      var running := Fleet(regions);
      var unmatched := Unmatched(managed, running);
      var lookups := [listCall] + DescribeCalls(regions, Ids(managed));
      if BreakerTrips(listed, running) then
        Trace(CircuitBreakerTripped(|unmatched|, |managed|), lookups)
      else
        Trace(Reconciled(|unmatched|), lookups + DeregisterCalls(serviceRegion, serviceId, Ids(unmatched)))
  }

  /** Cloud Map registration ids are unique within a service. */
  predicate DistinctIds(regs: seq<Registration>)
  {
    forall i, j :: 0 <= i < j < |regs| ==> regs[i].id != regs[j].id
  }

  /** The registrations left after deregistering `ids`. */
  function Without(regs: seq<Registration>, ids: seq<string>): (r: seq<Registration>)
    ensures |r| <= |regs|
  {
    if regs == [] then []
    else
      var last := regs[|regs| - 1];
      Without(regs[..|regs| - 1], ids) + (if last.id in ids then [] else [last])
  }

  // ----- membership of the filters -----

  lemma {:induction false} ManagedMembership(regs: seq<Registration>, x: Registration)
    ensures x in Managed(regs) <==> x in regs && HasIpv4(x)
  {
    if regs != [] {
      var regs' := regs[..|regs| - 1];
      ManagedMembership(regs', x);
      assert regs == regs' + [regs[|regs| - 1]];
    }
  }

  lemma {:induction false} LiveMembership(instances: seq<Ec2Instance>, x: Ec2Instance)
    ensures x in Live(instances) <==> x in instances && IsLive(x)
  {
    if instances != [] {
      var instances' := instances[..|instances| - 1];
      LiveMembership(instances', x);
      assert instances == instances' + [instances[|instances| - 1]];
    }
  }

  lemma {:induction false} UnmatchedMembership(regs: seq<Registration>, running: seq<Ec2Instance>, x: Registration)
    requires AllHaveIpv4(regs)
    ensures x in Unmatched(regs, running) <==> x in regs && HasIpv4(x) && !Matches(x, running)
  {
    if regs != [] {
      var regs' := regs[..|regs| - 1];
      UnmatchedMembership(regs', running, x);
      assert regs == regs' + [regs[|regs| - 1]];
    }
  }

  lemma {:induction false} WithoutMembership(regs: seq<Registration>, ids: seq<string>, x: Registration)
    ensures x in Without(regs, ids) <==> x in regs && x.id !in ids
  {
    if regs != [] {
      var regs' := regs[..|regs| - 1];
      WithoutMembership(regs', ids, x);
      assert regs == regs' + [regs[|regs| - 1]];
    }
  }

  // ----- the matcher -----

  /** Matching against two runs of instances is matching against either. */
  lemma MatchesAppend(reg: Registration, a: seq<Ec2Instance>, b: seq<Ec2Instance>)
    requires HasIpv4(reg)
    ensures Matches(reg, a + b) <==> Matches(reg, a) || Matches(reg, b)
  {
    if Matches(reg, a + b) {
      var k :| 0 <= k < |a + b| && RecordMatches((a + b)[k], reg);
      if k >= |a| {
        assert (a + b)[k] == b[k - |a|];
      }
    }
    if Matches(reg, a) {
      var k :| 0 <= k < |a| && RecordMatches(a[k], reg);
      assert (a + b)[k] == a[k];
    }
    if Matches(reg, b) {
      var k :| 0 <= k < |b| && RecordMatches(b[k], reg);
      assert (a + b)[|a| + k] == b[k];
    }
  }

  /** Instances that are shutting down or terminated never make a
      registration match, even when id and address agree. */
  lemma MatchesLive(reg: Registration, instances: seq<Ec2Instance>)
    requires HasIpv4(reg)
    ensures Matches(reg, Live(instances)) <==>
      exists k :: 0 <= k < |instances| && IsLive(instances[k]) && RecordMatches(instances[k], reg)
  {
    var live := Live(instances);
    if Matches(reg, live) {
      var k :| 0 <= k < |live| && RecordMatches(live[k], reg);
      LiveMembership(instances, live[k]);
      var j :| 0 <= j < |instances| && instances[j] == live[k];
      assert IsLive(instances[j]) && RecordMatches(instances[j], reg);
    }
    if exists k :: 0 <= k < |instances| && IsLive(instances[k]) && RecordMatches(instances[k], reg) {
      var k :| 0 <= k < |instances| && IsLive(instances[k]) && RecordMatches(instances[k], reg);
      LiveMembership(instances, instances[k]);
      var j :| 0 <= j < |live| && live[j] == instances[k];
      assert RecordMatches(live[j], reg);
    }
  }

  /** A registration is matched against the live instances of all regions
      together: it matches the combined fleet iff it matches the live
      instances of some region. */
  lemma {:induction false} MatchesFleet(reg: Registration, regions: seq<Ec2Region>)
    requires HasIpv4(reg)
    ensures Matches(reg, Fleet(regions)) <==> MatchesSomeRegion(reg, regions)
  {
    if regions != [] {
      var regions', last := regions[..|regions| - 1], regions[|regions| - 1];
      MatchesFleet(reg, regions');
      assert Fleet(regions) == Fleet(regions') + RegionLive(last);
      MatchesAppend(reg, Fleet(regions'), RegionLive(last));
      MatchesSomeRegionSnoc(reg, regions);
    }
  }

  /** The registration matches the live instances of some region. */
  ghost predicate MatchesSomeRegion(reg: Registration, regions: seq<Ec2Region>)
    requires HasIpv4(reg)
  {
    exists i :: 0 <= i < |regions| && Matches(reg, RegionLive(regions[i]))
  }

  lemma MatchesSomeRegionSnoc(reg: Registration, regions: seq<Ec2Region>)
    requires HasIpv4(reg) && regions != []
    ensures MatchesSomeRegion(reg, regions) <==>
      MatchesSomeRegion(reg, regions[..|regions| - 1]) || Matches(reg, RegionLive(regions[|regions| - 1]))
  {
    var regions' := regions[..|regions| - 1];
    if MatchesSomeRegion(reg, regions) {
      var i :| 0 <= i < |regions| && Matches(reg, RegionLive(regions[i]));
      if i < |regions'| {
        assert regions'[i] == regions[i];
      }
    }
    if MatchesSomeRegion(reg, regions') {
      var i :| 0 <= i < |regions'| && Matches(reg, RegionLive(regions'[i]));
      assert regions[i] == regions'[i];
    }
  }

  // ----- the decision -----

  /** Registrations that all carry the IPv4 attribute are all managed. */
  lemma {:induction false} ManagedAll(regs: seq<Registration>)
    requires AllHaveIpv4(regs)
    ensures Managed(regs) == regs
  {
    if regs != [] {
      ManagedAll(regs[..|regs| - 1]);
      assert regs == regs[..|regs| - 1] + [regs[|regs| - 1]];
    }
  }

  lemma {:induction false} UnmatchedWhenNoneMatch(regs: seq<Registration>, running: seq<Ec2Instance>)
    requires AllHaveIpv4(regs)
    requires forall k :: 0 <= k < |regs| ==> !Matches(regs[k], running)
    ensures Unmatched(regs, running) == regs
  {
    if regs != [] {
      UnmatchedWhenNoneMatch(regs[..|regs| - 1], running);
      assert regs == regs[..|regs| - 1] + [regs[|regs| - 1]];
    }
  }

  lemma {:induction false} UnmatchedWhenAllMatch(regs: seq<Registration>, running: seq<Ec2Instance>)
    requires AllHaveIpv4(regs)
    requires forall k :: 0 <= k < |regs| ==> Matches(regs[k], running)
    ensures Unmatched(regs, running) == []
  {
    if regs != [] {
      UnmatchedWhenAllMatch(regs[..|regs| - 1], running);
    }
  }

  /** When no managed registration matches a running instance, the circuit
      breaker trips and nothing is deregistered. */
  lemma NoMatchTripsBreaker(listed: seq<Registration>, running: seq<Ec2Instance>)
    requires forall k :: 0 <= k < |listed| && HasIpv4(listed[k]) ==> !Matches(listed[k], running)
    ensures BreakerTrips(listed, running)
    ensures Deregistrations(listed, running) == []
  {
    var managed := Managed(listed);
    forall k | 0 <= k < |managed|
      ensures !Matches(managed[k], running)
    {
      ManagedMembership(listed, managed[k]);
    }
    UnmatchedWhenNoneMatch(managed, running);
  }

  /** An empty fleet listing (a misconfigured region, a failed lookup)
      deregisters nothing. */
  lemma EmptyFleetDeregistersNothing(listed: seq<Registration>)
    ensures BreakerTrips(listed, []) && Deregistrations(listed, []) == []
  {
    NoMatchTripsBreaker(listed, []);
  }

  /** A listing in which no registration carries an IPv4 attribute
      deregisters nothing, whatever the fleet: zero unmatched out of zero
      managed already trips the circuit breaker. */
  lemma NoManagedDeregistersNothing(listed: seq<Registration>, running: seq<Ec2Instance>)
    ensures (forall k :: 0 <= k < |listed| ==> !HasIpv4(listed[k])) ==>
      Managed(listed) == [] && BreakerTrips(listed, running) && Deregistrations(listed, running) == []
  {
    if forall k :: 0 <= k < |listed| ==> !HasIpv4(listed[k]) {
      if Managed(listed) != [] {
        ManagedMembership(listed, Managed(listed)[0]);
      }
    }
  }

  /** Every deregistered id is that of a listed registration with an IPv4
      attribute that matches no running instance. */
  lemma DeregisteredAreUnmatched(listed: seq<Registration>, running: seq<Ec2Instance>, id: string)
    ensures id in Deregistrations(listed, running) ==>
      exists x :: x in listed && x.id == id && HasIpv4(x) && !Matches(x, running)
  {
    if id !in Deregistrations(listed, running) {
      return;
    }
    var unmatched := Unmatched(Managed(listed), running);
    var k :| 0 <= k < |unmatched| && Ids(unmatched)[k] == id;
    var x := unmatched[k];
    UnmatchedMembership(Managed(listed), running, x);
    ManagedMembership(listed, x);
  }

  /** Unless the circuit breaker trips, every listed registration with an
      IPv4 attribute that matches no running instance is deregistered
      (a reused id with a different address included). */
  lemma UnmatchedAreDeregistered(listed: seq<Registration>, running: seq<Ec2Instance>, x: Registration)
    requires x in listed && HasIpv4(x) && !Matches(x, running)
    requires !BreakerTrips(listed, running)
    ensures x.id in Deregistrations(listed, running)
  {
    var unmatched := Unmatched(Managed(listed), running);
    ManagedMembership(listed, x);
    UnmatchedMembership(Managed(listed), running, x);
    var k :| 0 <= k < |unmatched| && unmatched[k] == x;
    assert Ids(unmatched)[k] == x.id;
  }

  /** Cloud Map ids identify registrations: with unique ids, two listed
      registrations with the same id are the same. */
  lemma SameIdSameRegistration(listed: seq<Registration>, x: Registration, y: Registration)
    requires DistinctIds(listed) && x in listed && y in listed && x.id == y.id
    ensures x == y
  {
    var i :| 0 <= i < |listed| && listed[i] == x;
    var j :| 0 <= j < |listed| && listed[j] == y;
    assert i == j;
  }

  /** With unique ids, a registration that matches a running instance is
      never deregistered. */
  lemma MatchedNeverDeregistered(listed: seq<Registration>, running: seq<Ec2Instance>, x: Registration)
    requires DistinctIds(listed)
    requires x in listed && HasIpv4(x) && Matches(x, running)
    ensures x.id !in Deregistrations(listed, running)
  {
    forall y | y in listed && y.id == x.id
      ensures y == x
    {
      SameIdSameRegistration(listed, x, y);
    }
    DeregisteredAreUnmatched(listed, running, x.id);
  }

  /** With unique ids, a registration without an IPv4 attribute is neither
      looked up in EC2 nor deregistered, whatever the fleet holds. */
  lemma WithoutIpv4Untouched(listed: seq<Registration>, running: seq<Ec2Instance>, x: Registration)
    requires DistinctIds(listed)
    requires x in listed && !HasIpv4(x)
    ensures x.id !in Ids(Managed(listed))
    ensures x.id !in Deregistrations(listed, running)
  {
    var managed := Managed(listed);
    forall y | y in listed && y.id == x.id
      ensures y == x
    {
      SameIdSameRegistration(listed, x, y);
    }
    forall k | 0 <= k < |managed|
      ensures Ids(managed)[k] != x.id
    {
      ManagedMembership(listed, managed[k]);
    }
    DeregisteredAreUnmatched(listed, running, x.id);
  }

  /** Filtering keeps ids unique. */
  lemma {:induction false} ManagedDistinct(regs: seq<Registration>)
    requires DistinctIds(regs)
    ensures DistinctIds(Managed(regs))
  {
    if regs != [] {
      var regs' := regs[..|regs| - 1];
      var last := regs[|regs| - 1];
      ManagedDistinct(regs');
      forall y | y in Managed(regs')
        ensures y.id != last.id
      {
        ManagedMembership(regs', y);
      }
    }
  }

  lemma {:induction false} UnmatchedDistinct(regs: seq<Registration>, running: seq<Ec2Instance>)
    requires AllHaveIpv4(regs) && DistinctIds(regs)
    ensures DistinctIds(Unmatched(regs, running))
  {
    if regs != [] {
      var regs' := regs[..|regs| - 1];
      var last := regs[|regs| - 1];
      UnmatchedDistinct(regs', running);
      forall y | y in Unmatched(regs', running)
        ensures y.id != last.id
      {
        UnmatchedMembership(regs', running, y);
      }
    }
  }

  /** With unique ids, each unmatched registration is deregistered once. */
  lemma DeregistrationsDistinct(listed: seq<Registration>, running: seq<Ec2Instance>)
    requires DistinctIds(listed)
    ensures var d := Deregistrations(listed, running);
      forall i, j :: 0 <= i < j < |d| ==> d[i] != d[j]
  {
    ManagedDistinct(listed);
    UnmatchedDistinct(Managed(listed), running);
  }

  /** Re-running on the registry without the deregistered ids, against the
      same fleet, deregisters nothing. */
  lemma RerunDeregistersNothing(listed: seq<Registration>, running: seq<Ec2Instance>)
    ensures Deregistrations(Without(listed, Deregistrations(listed, running)), running) == []
  {
    var d := Deregistrations(listed, running);
    var rest := Without(listed, d);
    if d == [] {
      WithoutNothing(listed);
    } else {
      var managed := Managed(rest);
      forall k | 0 <= k < |managed|
        ensures Matches(managed[k], running)
      {
        var x := managed[k];
        ManagedMembership(rest, x);
        WithoutMembership(listed, d, x);
        if !Matches(x, running) {
          UnmatchedAreDeregistered(listed, running, x);
        }
      }
      UnmatchedWhenAllMatch(managed, running);
    }
  }

  lemma {:induction false} WithoutNothing(regs: seq<Registration>)
    ensures Without(regs, []) == regs
  {
    if regs != [] {
      WithoutNothing(regs[..|regs| - 1]);
    }
  }

  // ----- the pass -----

  /** How a pass ends once its Cloud Map listing is known. */
  lemma PassOutcomeOf(serviceId: string, serviceRegion: string, regions: seq<Ec2Region>, registryPages: seq<ListPage>)
    ensures var t := Pass(serviceId, serviceRegion, regions, registryPages);
      match Aws.RegistryListing(registryPages)
      case Failure(page) =>
        t == Trace(ListingFailed(page), [ListInstances(serviceRegion, ListRequest(serviceId, Aws.CloudMapPageSize))])
      case Success(listed) =>
        var unmatched := Unmatched(Managed(listed), Fleet(regions));
        t.outcome == if BreakerTrips(listed, Fleet(regions)) then CircuitBreakerTripped(|unmatched|, |Managed(listed)|)
                     else Reconciled(|unmatched|)
  {
  }

  /** A pass whose Cloud Map listing fails has sent the listing request only. */
  lemma PassWhenListingFails(serviceId: string, serviceRegion: string, regions: seq<Ec2Region>, registryPages: seq<ListPage>)
    requires Aws.RegistryListing(registryPages).Failure?
    ensures Pass(serviceId, serviceRegion, regions, registryPages) ==
      Trace(ListingFailed(Aws.RegistryListing(registryPages).error),
        [ListInstances(serviceRegion, ListRequest(serviceId, Aws.CloudMapPageSize))])
  {
  }

  /** A pass whose Cloud Map listing succeeds, with the circuit breaker
      tripped or not. */
  lemma PassWhenListed(serviceId: string, serviceRegion: string, regions: seq<Ec2Region>, registryPages: seq<ListPage>, listed: seq<Registration>)
    requires Aws.RegistryListing(registryPages) == Success(listed)
    ensures var managed := Managed(listed);
      var unmatched := Unmatched(managed, Fleet(regions));
      var lookups := [ListInstances(serviceRegion, ListRequest(serviceId, Aws.CloudMapPageSize))] +
        DescribeCalls(regions, Ids(managed));
      Pass(serviceId, serviceRegion, regions, registryPages) ==
        if BreakerTrips(listed, Fleet(regions)) then Trace(CircuitBreakerTripped(|unmatched|, |managed|), lookups)
        else Trace(Reconciled(|unmatched|), lookups + DeregisterCalls(serviceRegion, serviceId, Ids(unmatched)))
  {
  }

  /** The requests of a pass whose Cloud Map listing succeeded. */
  lemma PassCalls(serviceId: string, serviceRegion: string, regions: seq<Ec2Region>, registryPages: seq<ListPage>, listed: seq<Registration>)
    requires Aws.RegistryListing(registryPages) == Success(listed)
    ensures Pass(serviceId, serviceRegion, regions, registryPages).calls ==
      [ListInstances(serviceRegion, ListRequest(serviceId, Aws.CloudMapPageSize))] +
      DescribeCalls(regions, Ids(Managed(listed))) +
      DeregisterCalls(serviceRegion, serviceId, Deregistrations(listed, Fleet(regions)))
  {
    if BreakerTrips(listed, Fleet(regions)) {
      assert DeregisterCalls(serviceRegion, serviceId, []) == [];
    }
  }

  lemma {:induction false} DeregisterCallsIds(serviceRegion: string, serviceId: string, ids: seq<string>)
    ensures DeregisteredIds(DeregisterCalls(serviceRegion, serviceId, ids)) == ids
  {
    if ids != [] {
      var ids' := ids[..|ids| - 1];
      DeregisterCallsIds(serviceRegion, serviceId, ids');
      DeregisteredIdsAppend(DeregisterCalls(serviceRegion, serviceId, ids'),
        [DeregisterInstance(serviceRegion, serviceId, ids[|ids| - 1])]);
      assert DeregisteredIds([DeregisterInstance(serviceRegion, serviceId, ids[|ids| - 1])]) == [ids[|ids| - 1]];
    }
  }

  lemma {:induction false} NoDeregisterNoIds(calls: seq<ApiCall>)
    requires forall k :: 0 <= k < |calls| ==> !calls[k].DeregisterInstance?
    ensures DeregisteredIds(calls) == []
  {
    if calls != [] {
      NoDeregisterNoIds(calls[..|calls| - 1]);
    }
  }

  /** What a pass deregisters is the decision on the listed registrations
      against the combined fleet; a failed listing deregisters nothing, nor
      does a tripped circuit breaker; the outcome reports the count. */
  lemma PassDeregisters(serviceId: string, serviceRegion: string, regions: seq<Ec2Region>, registryPages: seq<ListPage>)
    ensures var t := Pass(serviceId, serviceRegion, regions, registryPages);
      var listing := Aws.RegistryListing(registryPages);
      DeregisteredIds(t.calls) ==
        (if listing.Success? then Deregistrations(listing.value, Fleet(regions)) else [])
    ensures var t := Pass(serviceId, serviceRegion, regions, registryPages);
      var listing := Aws.RegistryListing(registryPages);
      (t.outcome.CircuitBreakerTripped? ==> DeregisteredIds(t.calls) == [] && t.outcome.unmatched >= t.outcome.managed) &&
      (t.outcome.Reconciled? ==> |DeregisteredIds(t.calls)| == t.outcome.deregistered) &&
      (t.outcome.ListingFailed? <==> listing.Failure?)
  {
    var t := Pass(serviceId, serviceRegion, regions, registryPages);
    var listCall := ListInstances(serviceRegion, ListRequest(serviceId, Aws.CloudMapPageSize));
    match Aws.RegistryListing(registryPages)
    case Failure(_) =>
      NoDeregisterNoIds([listCall]);
    case Success(listed) =>
      var managed := Managed(listed);
      var running := Fleet(regions);
      var lookups := [listCall] + DescribeCalls(regions, Ids(managed));
      NoDeregisterNoIds(lookups);
      if !BreakerTrips(listed, running) {
        var ids := Ids(Unmatched(managed, running));
        DeregisteredIdsAppend(lookups, DeregisterCalls(serviceRegion, serviceId, ids));
        DeregisterCallsIds(serviceRegion, serviceId, ids);
      }
  }

  /** A pass starts with the Cloud Map listing, does every lookup before any
      deregistration, and deregisters only from the given service. */
  lemma PassOrder(serviceId: string, serviceRegion: string, regions: seq<Ec2Region>, registryPages: seq<ListPage>)
    ensures var c := Pass(serviceId, serviceRegion, regions, registryPages).calls;
      |c| > 0 && c[0] == ListInstances(serviceRegion, ListRequest(serviceId, Aws.CloudMapPageSize))
    ensures var c := Pass(serviceId, serviceRegion, regions, registryPages).calls;
      forall i, j :: 0 <= i < j < |c| && c[i].DeregisterInstance? ==> c[j].DeregisterInstance?
    ensures var c := Pass(serviceId, serviceRegion, regions, registryPages).calls;
      forall k :: 0 <= k < |c| && c[k].DeregisterInstance? ==>
        c[k].serviceId == serviceId && c[k].serviceRegion == serviceRegion
  {
    var c := Pass(serviceId, serviceRegion, regions, registryPages).calls;
    var listCall := ListInstances(serviceRegion, ListRequest(serviceId, Aws.CloudMapPageSize));
    match Aws.RegistryListing(registryPages)
    case Failure(_) =>
    case Success(listed) =>
      var managed := Managed(listed);
      var lookups := [listCall] + DescribeCalls(regions, Ids(managed));
      assert forall k :: 0 <= k < |lookups| ==> !lookups[k].DeregisterInstance?;
      if !BreakerTrips(listed, Fleet(regions)) {
        var deregs := DeregisterCalls(serviceRegion, serviceId, Ids(Unmatched(managed, Fleet(regions))));
        assert c == lookups + deregs;
        forall i, j | 0 <= i < j < |c| && c[i].DeregisterInstance?
          ensures c[j].DeregisterInstance?
        {
          assert i >= |lookups|;
        }
      }
  }
}
