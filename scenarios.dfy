/** The reconciliation scenarios of tests/test_unmap.py, stated on one pass
    over concrete Cloud Map and EC2 responses: each gives the exact requests
    the pass sends, which is what the tests' stubbed clients check. */
module Scenarios {
  import opened Records
  import opened Reconciliation

  /** A registration as the tests build it: a port attribute, and the IPv4
      attribute when given. */
  function Registered(id: string, ipv4: Option<string>): Registration
  {
    var attrs := map["AWS_INSTANCE_PORT" := "80"];
    Registration(id, if ipv4.Some? then attrs[Ipv4Key := ipv4.value] else attrs)
  }

  function Running(id: string, privateIp: Option<string>, publicIp: Option<string>): Ec2Instance
  {
    Ec2Instance(id, "running", privateIp, publicIp)
  }

  /** One region answering with a single page holding one reservation. */
  function Region(name: string, instances: seq<Ec2Instance>): Ec2Region
  {
    Ec2Region(name, [DescribePage(Some([Reservation(Some(instances))]))])
  }

  /** The requests of a pass for service `srv-1` in `eu-west-1` whose Cloud
      Map listing is one page. */
  function Calls(regions: seq<Ec2Region>, registered: seq<Registration>): seq<ApiCall>
  {
    Pass("srv-1", "eu-west-1", regions, [ListPage(Some(registered))]).calls
  }

  function ListCall(): ApiCall
  {
    ListInstances("eu-west-1", ListRequest("srv-1", 100))
  }

  function Lookup(region: string, ids: seq<string>): ApiCall
  {
    DescribeInstances(region, DescribeRequest([Filter("instance-id", ids)], 1000))
  }

  function Removal(id: string): ApiCall
  {
    DeregisterInstance("eu-west-1", "srv-1", id)
  }

  /** The instances the matcher cases run against. */
  function MatcherInstances(): seq<Ec2Instance>
  {
    [Running("i-1", Some("172.0.0.1"), None), Running("i-2", Some("172.0.0.2"), Some("2.2.2.2"))]
  }

  /** The matcher cases of tests/test_unmap.py:26-48: the id must agree, and
      the registered address may be either the public or the private one. */
  lemma MatcherCases()
    ensures !Matches(Registered("i-1", Some("172.0.0.1")), [])
    ensures Matches(Registered("i-1", Some("172.0.0.1")), MatcherInstances())
    ensures !Matches(Registered("i-x", Some("172.0.0.1")), MatcherInstances())
    ensures !Matches(Registered("i-1", Some("172.0.0.2")), MatcherInstances())
    ensures Matches(Registered("i-2", Some("172.0.0.2")), MatcherInstances())
    ensures Matches(Registered("i-2", Some("2.2.2.2")), MatcherInstances())
  {
    var running := MatcherInstances();
    assert RecordMatches(running[0], Registered("i-1", Some("172.0.0.1")));
    assert RecordMatches(running[1], Registered("i-2", Some("172.0.0.2")));
    assert RecordMatches(running[1], Registered("i-2", Some("2.2.2.2")));
  }

  /** Two registrations, both with an IPv4 attribute. */
  function BothRegistered(): seq<Registration>
  {
    [Registered("i-1", Some("172.0.0.1")), Registered("i-2", Some("2.2.2.2"))]
  }

  function BothRunning(): seq<Ec2Region>
  {
    [Region("eu-west-1", [Running("i-1", Some("172.0.0.1"), None), Running("i-2", Some("172.0.0.2"), Some("2.2.2.2"))])]
  }

  /** Both registrations are backed by running instances: the pass lists
      the service, looks both ids up and deregisters nothing
      (tests/test_unmap.py:54-74). */
  lemma AllRunning()
    ensures Calls(BothRunning(), BothRegistered()) == [ListCall(), Lookup("eu-west-1", ["i-1", "i-2"])]
  {
    AllRunningIds();
    AllRunningDeregistrations();
    SingleRegionCalls(BothRunning(), BothRegistered());
    assert DeregisterCalls("eu-west-1", "srv-1", []) == [];
  }

  lemma AllRunningIds()
    ensures Ids(Managed(BothRegistered())) == ["i-1", "i-2"]
  {
    ManagedAll(BothRegistered());
  }

  lemma AllRunningDeregistrations()
    ensures Deregistrations(BothRegistered(), Fleet(BothRunning())) == []
  {
    var listed, regions := BothRegistered(), BothRunning();
    var r1, r2 := listed[0], listed[1];
    var instances := regions[0].pages[0].reservations.value[0].instances.value;
    ManagedAll(listed);
    OneRegion("eu-west-1", instances);
    MatchesLive(r1, instances);
    MatchesLive(r2, instances);
    assert IsLive(instances[0]) && RecordMatches(instances[0], r1);
    assert IsLive(instances[1]) && RecordMatches(instances[1], r2);
    assert listed[..1] == [r1];
    assert Unmatched(listed, Live(instances)) == [];
  }

  /** The lookup returns nothing for `i-2`, or an instance `i-2` that has
      another address or is shutting down or terminated: `i-2` alone is
      deregistered (tests/test_unmap.py:76-177). */
  function OneMissing(other: seq<Ec2Instance>): seq<Ec2Region>
  {
    [Region("eu-west-1", [Running("i-1", Some("172.0.0.1"), None)] + other)]
  }

  /** What the lookup may return for `i-2` in those tests. */
  predicate StaleOrAbsent(other: seq<Ec2Instance>)
  {
    other == [] ||
    (|other| == 1 && other[0].id == "i-2" && (!IsLive(other[0]) || !AddressMatches(other[0], "2.2.2.2")))
  }

  lemma OnlyUnmatchedDeregistered(other: seq<Ec2Instance>)
    requires StaleOrAbsent(other)
    ensures Calls(OneMissing(other), BothRegistered())
      == [ListCall(), Lookup("eu-west-1", ["i-1", "i-2"]), Removal("i-2")]
  {
    AllRunningIds();
    OneMissingDeregistrations(other);
    SingleRegionCalls(OneMissing(other), BothRegistered());
    assert DeregisterCalls("eu-west-1", "srv-1", ["i-2"]) == [Removal("i-2")];
  }

  lemma OneMissingDeregistrations(other: seq<Ec2Instance>)
    requires StaleOrAbsent(other)
    ensures Deregistrations(BothRegistered(), Fleet(OneMissing(other))) == ["i-2"]
  {
    var listed, fleet := BothRegistered(), Fleet(OneMissing(other));
    var r1, r2 := listed[0], listed[1];
    ManagedAll(listed);
    OneMissingMatches(other);
    assert listed[..1] == [r1] && [r1][..0] == [];
    assert Unmatched([r1], fleet) == [];
    assert Unmatched(listed, fleet) == [r2];
    assert Ids([r2]) == ["i-2"];
  }

  /** `i-1` still matches; `i-2` does not. */
  lemma OneMissingMatches(other: seq<Ec2Instance>)
    requires StaleOrAbsent(other)
    ensures Matches(BothRegistered()[0], Fleet(OneMissing(other)))
    ensures !Matches(BothRegistered()[1], Fleet(OneMissing(other)))
  {
    var listed := BothRegistered();
    var r1, r2 := listed[0], listed[1];
    var instances := [Running("i-1", Some("172.0.0.1"), None)] + other;
    OneRegion("eu-west-1", instances);
    MatchesLive(r1, instances);
    MatchesLive(r2, instances);
    assert IsLive(instances[0]) && RecordMatches(instances[0], r1);
  }

  /** A registration without the IPv4 attribute is not looked up and not
      deregistered, though no instance backs it (tests/test_unmap.py:179-198). */
  function OneWithoutIpv4(): seq<Registration>
  {
    [Registered("i-1", Some("172.0.0.1")), Registered("i-2", None)]
  }

  function OnlyFirstRunning(): seq<Ec2Region>
  {
    [Region("eu-west-1", [Running("i-1", Some("172.0.0.1"), None)])]
  }

  lemma WithoutIpv4Skipped()
    ensures Calls(OnlyFirstRunning(), OneWithoutIpv4()) == [ListCall(), Lookup("eu-west-1", ["i-1"])]
  {
    WithoutIpv4Managed();
    WithoutIpv4Deregistrations();
    assert Ids([OneWithoutIpv4()[0]]) == ["i-1"];
    SingleRegionCalls(OnlyFirstRunning(), OneWithoutIpv4());
    assert DeregisterCalls("eu-west-1", "srv-1", []) == [];
  }

  lemma WithoutIpv4Managed()
    ensures Managed(OneWithoutIpv4()) == [OneWithoutIpv4()[0]]
  {
    var listed := OneWithoutIpv4();
    assert listed[..1] == [listed[0]];
    assert [listed[0]][..0] == [];
  }

  lemma WithoutIpv4Deregistrations()
    ensures Deregistrations(OneWithoutIpv4(), Fleet(OnlyFirstRunning())) == []
  {
    var listed, regions := OneWithoutIpv4(), OnlyFirstRunning();
    var r1 := listed[0];
    var instances := [Running("i-1", Some("172.0.0.1"), None)];
    WithoutIpv4Managed();
    OneRegion("eu-west-1", instances);
    MatchesLive(r1, instances);
    assert IsLive(instances[0]) && RecordMatches(instances[0], r1);
    assert Unmatched([r1], Live(instances)) == [];
  }

  /** The lookup returns no reservations at all: the circuit breaker trips
      and nothing is deregistered (tests/test_unmap.py:200-217). */
  function NoReservations(): seq<Ec2Region>
  {
    [Ec2Region("eu-west-1", [DescribePage(Some([]))])]
  }

  lemma NoReservationsTripsBreaker()
    ensures var t := Pass("srv-1", "eu-west-1", NoReservations(), [ListPage(Some(BothRegistered()))]);
      t.outcome == CircuitBreakerTripped(2, 2) && t.calls == [ListCall(), Lookup("eu-west-1", ["i-1", "i-2"])]
  {
    var listed, regions := BothRegistered(), NoReservations();
    Listed(listed);
    PassOutcomeOf("srv-1", "eu-west-1", regions, [ListPage(Some(listed))]);
    AllRunningIds();
    NoReservationsBreaker();
    SingleRegionCalls(regions, listed);
    assert DeregisterCalls("eu-west-1", "srv-1", []) == [];
  }

  lemma NoReservationsBreaker()
    ensures BreakerTrips(BothRegistered(), Fleet(NoReservations()))
    ensures |Unmatched(Managed(BothRegistered()), Fleet(NoReservations()))| == 2
    ensures |Managed(BothRegistered())| == 2
  {
    var listed := BothRegistered();
    ManagedAll(listed);
    NoReservationsFleet();
    NoMatchTripsBreaker(listed, []);
    UnmatchedWhenNoneMatch(listed, []);
  }

  lemma NoReservationsFleet()
    ensures Fleet(NoReservations()) == []
  {
    var region := NoReservations()[0];
    assert Fleet(NoReservations()) == Fleet([]) + RegionLive(region);
    assert region.pages[..0] == [];
    assert Aws.PagesInstances(region.pages) == [] + Aws.PageInstances(region.pages[0]);
    assert Aws.PageInstances(region.pages[0]) == Aws.ReservationsInstances([]) == [];
  }

  /** `i-1` runs in one region and `i-2` in another; only `i-3`, running
      nowhere, is deregistered (tests/test_unmap.py:219-244). */
  function ThreeRegistered(): seq<Registration>
  {
    [Registered("i-1", Some("172.0.0.1")), Registered("i-2", Some("2.2.2.2")), Registered("i-3", Some("3.3.3.3"))]
  }

  function TwoRegions(): seq<Ec2Region>
  {
    [Region("eu-west-1", [Running("i-1", Some("172.0.0.1"), None)]),
     Region("us-east-1", [Running("i-2", None, Some("2.2.2.2"))])]
  }

  lemma MultipleRegions()
    ensures Calls(TwoRegions(), ThreeRegistered())
      == [ListCall(), Lookup("eu-west-1", ["i-1", "i-2", "i-3"]), Lookup("us-east-1", ["i-1", "i-2", "i-3"]), Removal("i-3")]
  {
    MultipleRegionsIds();
    MultipleRegionsDeregistrations();
    TwoRegionCalls(TwoRegions(), ThreeRegistered());
    assert DeregisterCalls("eu-west-1", "srv-1", ["i-3"]) == [Removal("i-3")];
  }

  lemma MultipleRegionsIds()
    ensures Ids(Managed(ThreeRegistered())) == ["i-1", "i-2", "i-3"]
  {
    ManagedAll(ThreeRegistered());
  }

  lemma MultipleRegionsDeregistrations()
    ensures Deregistrations(ThreeRegistered(), Fleet(TwoRegions())) == ["i-3"]
  {
    var listed, fleet := ThreeRegistered(), Fleet(TwoRegions());
    var r1, r2, r3 := listed[0], listed[1], listed[2];
    ManagedAll(listed);
    TwoRegionsMatches();
    assert listed[..2] == [r1, r2] && [r1, r2][..1] == [r1] && [r1][..0] == [];
    assert Unmatched([r1], fleet) == [];
    assert Unmatched([r1, r2], fleet) == [];
    assert Unmatched(listed, fleet) == [r3];
    assert Ids([r3]) == ["i-3"];
  }

  /** `i-1` and `i-2` each match in their own region; `i-3` in neither. */
  lemma TwoRegionsMatches()
    ensures Matches(ThreeRegistered()[0], Fleet(TwoRegions()))
    ensures Matches(ThreeRegistered()[1], Fleet(TwoRegions()))
    ensures !Matches(ThreeRegistered()[2], Fleet(TwoRegions()))
  {
    var listed := ThreeRegistered();
    TwoRegionsFleet();
    var fleet := Fleet(TwoRegions());
    assert RecordMatches(fleet[0], listed[0]);
    assert RecordMatches(fleet[1], listed[1]);
  }

  /** Both regions' instances are running, so the fleet is both of them. */
  lemma TwoRegionsFleet()
    ensures Fleet(TwoRegions()) == [Running("i-1", Some("172.0.0.1"), None), Running("i-2", None, Some("2.2.2.2"))]
  {
    TwoRunningRegions("eu-west-1", Running("i-1", Some("172.0.0.1"), None), "us-east-1", Running("i-2", None, Some("2.2.2.2")));
  }

  /** Two regions whose lookups each return one running instance. */
  lemma TwoRunningRegions(name1: string, instance1: Ec2Instance, name2: string, instance2: Ec2Instance)
    requires IsLive(instance1) && IsLive(instance2)
    ensures Fleet([Region(name1, [instance1]), Region(name2, [instance2])]) == [instance1, instance2]
  {
    var first, second := Region(name1, [instance1]), Region(name2, [instance2]);
    RunningRegion(name1, instance1);
    RunningRegion(name2, instance2);
    assert [first][..0] == [];
    assert Fleet([first]) == [] + [instance1];
    assert [first, second][..1] == [first];
    assert Fleet([first, second]) == Fleet([first]) + [instance2];
  }

  /** A region whose lookup returns one running instance. */
  lemma RunningRegion(name: string, instance: Ec2Instance)
    requires IsLive(instance)
    ensures RegionLive(Region(name, [instance])) == [instance]
  {
    RegionLiveIsLive(name, [instance]);
    assert [instance][..0] == [];
    assert Live([instance]) == [] + [instance];
  }

  /** The requests of a pass over a one-page listing, in three parts. */
  lemma OnePage(regions: seq<Ec2Region>, listed: seq<Registration>)
    ensures Calls(regions, listed) ==
      [ListCall()] + DescribeCalls(regions, Ids(Managed(listed))) +
      DeregisterCalls("eu-west-1", "srv-1", Deregistrations(listed, Fleet(regions)))
  {
    Listed(listed);
    PassCalls("srv-1", "eu-west-1", regions, [ListPage(Some(listed))], listed);
  }

  /** The requests of a one-page pass over a single region. */
  lemma SingleRegionCalls(regions: seq<Ec2Region>, listed: seq<Registration>)
    requires |regions| == 1
    ensures Calls(regions, listed) ==
      [ListCall(), Lookup(regions[0].name, Ids(Managed(listed)))] +
      DeregisterCalls("eu-west-1", "srv-1", Deregistrations(listed, Fleet(regions)))
  {
    OnePage(regions, listed);
    assert DescribeCalls(regions, Ids(Managed(listed))) == [Lookup(regions[0].name, Ids(Managed(listed)))];
  }

  /** The same over two regions. */
  lemma TwoRegionCalls(regions: seq<Ec2Region>, listed: seq<Registration>)
    requires |regions| == 2
    ensures Calls(regions, listed) ==
      [ListCall(), Lookup(regions[0].name, Ids(Managed(listed))), Lookup(regions[1].name, Ids(Managed(listed)))] +
      DeregisterCalls("eu-west-1", "srv-1", Deregistrations(listed, Fleet(regions)))
  {
    OnePage(regions, listed);
    var ids := Ids(Managed(listed));
    assert DescribeCalls(regions, ids) == [Lookup(regions[0].name, ids), Lookup(regions[1].name, ids)];
  }

  lemma Listed(regs: seq<Registration>)
    ensures Aws.RegistryListing([ListPage(Some(regs))]) == Success(regs)
  {
    assert [ListPage(Some(regs))][..0] == [];
    assert [] + regs == regs;
  }

  /** The fleet of a single region is its live instances. */
  lemma OneRegion(name: string, instances: seq<Ec2Instance>)
    ensures Fleet([Region(name, instances)]) == Live(instances)
  {
    var regions := [Region(name, instances)];
    RegionLiveIsLive(name, instances);
    assert regions[..0] == [];
    assert Fleet(regions) == [] + RegionLive(regions[0]);
  }

  /** The lookup of a region of the tests returns its instances. */
  lemma RegionLiveIsLive(name: string, instances: seq<Ec2Instance>)
    ensures RegionLive(Region(name, instances)) == Live(instances)
  {
    var pages := Region(name, instances).pages;
    var rs := [Reservation(Some(instances))];
    assert pages == [DescribePage(Some(rs))];
    assert rs[..0] == [] && pages[..0] == [];
    assert [] + instances == instances;
    assert Aws.ReservationsInstances(rs) == Aws.ReservationsInstances([]) + Aws.ReservationInstances(rs[0]);
    assert Aws.PageInstances(pages[0]) == instances;
    assert Aws.PagesInstances(pages) == Aws.PagesInstances([]) + Aws.PageInstances(pages[0]);
  }
}
