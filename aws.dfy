/** Page flattening of the two paginated AWS listings (cloudunmap/aws.py).
    The paginator is replaced by the sequence of pages it yields; each
    listing method returns the request it would send along with the
    flattened result. */
module Aws {
  import opened Records

  const Ec2PageSize: nat := 1000
  const CloudMapPageSize: nat := 100

  /** The instances of one reservation; none when `Instances` is absent. */
  function ReservationInstances(r: Reservation): seq<Ec2Instance>
  {
    if r.instances.Some? then r.instances.value else []
  }

  /** The instances of a run of reservations, in reservation order. */
  function ReservationsInstances(rs: seq<Reservation>): seq<Ec2Instance>
  {
    if rs == [] then []
    else ReservationsInstances(rs[..|rs| - 1]) + ReservationInstances(rs[|rs| - 1])
  }

  /** The instances of one page; none when `Reservations` is absent. */
  function PageInstances(p: DescribePage): seq<Ec2Instance>
  {
    if p.reservations.Some? then ReservationsInstances(p.reservations.value) else []
  }

  /** The instances of all pages, in page order, then reservation order. */
  function PagesInstances(ps: seq<DescribePage>): seq<Ec2Instance>
  {
    if ps == [] then []
    else PagesInstances(ps[..|ps| - 1]) + PageInstances(ps[|ps| - 1])
  }

  /** How many instances the reservations of the pages carry, counted
      reservation by reservation. */
  function ReservationsCount(rs: seq<Reservation>): nat
  {
    if rs == [] then 0
    else ReservationsCount(rs[1..]) + |ReservationInstances(rs[0])|
  }

  function PagesCount(ps: seq<DescribePage>): nat
  {
    if ps == [] then 0
    else PagesCount(ps[1..]) + (if ps[0].reservations.Some? then ReservationsCount(ps[0].reservations.value) else 0)
  }

  /** `listEC2InstancesById`: one `describe_instances` paginator filtered by
      `instance-id` over the given ids with page size 1000; the instances of
      every reservation of every page, concatenated in order. */
  method ListEC2InstancesById(instanceIds: seq<string>, pages: seq<DescribePage>)
    returns (request: DescribeRequest, instances: seq<Ec2Instance>)
    ensures request == DescribeRequest([Filter("instance-id", instanceIds)], Ec2PageSize)
    ensures instances == PagesInstances(pages)
  {
    instances := [];
    request := DescribeRequest([Filter("instance-id", instanceIds)], Ec2PageSize);
    for i := 0 to |pages|
      invariant instances == PagesInstances(pages[..i])
    {
      var page := pages[i];
      assert pages[..i + 1][..i] == pages[..i];
      if page.reservations.None? {
        assert instances + [] == instances;
        continue;
      }
      instances := AppendReservations(instances, page.reservations.value);
    }
    assert pages[..|pages|] == pages;
  }

  /** The inner loop of `listEC2InstancesById`: appends the instances of
      each reservation of one page that has `Instances`. */
  method AppendReservations(instances: seq<Ec2Instance>, reservations: seq<Reservation>)
    returns (extended: seq<Ec2Instance>)
    ensures extended == instances + ReservationsInstances(reservations)
  {
    extended := instances;
    for j := 0 to |reservations|
      invariant extended == instances + ReservationsInstances(reservations[..j])
    {
      assert reservations[..j + 1][..j] == reservations[..j];
      ghost var sofar := ReservationsInstances(reservations[..j]);
      if reservations[j].instances.Some? {
        extended := extended + reservations[j].instances.value;
        assert extended == instances + (sofar + reservations[j].instances.value);
      } else {
        assert sofar + [] == sofar;
      }
    }
    assert reservations[..|reservations|] == reservations;
  }

  /** The flattened Cloud Map listing: every page's `Instances` in order,
      or the index of the first page that has none (a `KeyError`). */
  function RegistryListing(ps: seq<ListPage>): Result<seq<Registration>, nat>
  {
    if ps == [] then Success([])
    else
      match RegistryListing(ps[..|ps| - 1])
      case Failure(k) => Failure(k)
      case Success(listed) =>
        var last := ps[|ps| - 1];
        if last.instances.None? then Failure(|ps| - 1) else Success(listed + last.instances.value)
  }

  /** `listServiceInstances`: one `list_instances` paginator for the service
      with page size 100; fails on the first page without `Instances`. */
  method ListServiceInstances(serviceId: string, pages: seq<ListPage>)
    returns (request: ListRequest, result: Result<seq<Registration>, nat>)
    ensures request == ListRequest(serviceId, CloudMapPageSize)
    ensures result == RegistryListing(pages)
  {
    request := ListRequest(serviceId, CloudMapPageSize);
    var instances: seq<Registration> := [];
    for i := 0 to |pages|
      invariant RegistryListing(pages[..i]) == Success(instances)
    {
      assert pages[..i + 1][..i] == pages[..i];
      if pages[i].instances.None? {
        RegistryListingFailurePersists(pages, i + 1);
        return request, Failure(i);
      }
      instances := instances + pages[i].instances.value;
    }
    assert pages[..|pages|] == pages;
    result := Success(instances);
  }

  // ----- properties of the flattening -----

  lemma {:induction false} ReservationsInstancesAppend(a: seq<Reservation>, b: seq<Reservation>)
    ensures ReservationsInstances(a + b) == ReservationsInstances(a) + ReservationsInstances(b)
    decreases |b|
  {
    if b == [] {
      assert a + b == a;
    } else {
      var b', r := b[..|b| - 1], b[|b| - 1];
      assert (a + b)[..|a + b| - 1] == a + b';
      assert (a + b)[|a + b| - 1] == r;
      ReservationsInstancesAppend(a, b');
      calc {
        ReservationsInstances(a + b);
        ReservationsInstances(a + b') + ReservationInstances(r);
        (ReservationsInstances(a) + ReservationsInstances(b')) + ReservationInstances(r);
        ReservationsInstances(a) + (ReservationsInstances(b') + ReservationInstances(r));
      }
    }
  }

  /** Page order is preserved: the flattening of two runs of pages is the
      flattening of the first followed by that of the second. */
  lemma {:induction false} PagesInstancesAppend(a: seq<DescribePage>, b: seq<DescribePage>)
    ensures PagesInstances(a + b) == PagesInstances(a) + PagesInstances(b)
    decreases |b|
  {
    if b == [] {
      assert a + b == a;
    } else {
      var b', p := b[..|b| - 1], b[|b| - 1];
      assert (a + b)[..|a + b| - 1] == a + b';
      assert (a + b)[|a + b| - 1] == p;
      PagesInstancesAppend(a, b');
      calc {
        PagesInstances(a + b);
        PagesInstances(a + b') + PageInstances(p);
        (PagesInstances(a) + PagesInstances(b')) + PageInstances(p);
        PagesInstances(a) + (PagesInstances(b') + PageInstances(p));
      }
    }
  }

  /** A page without `Reservations`, with an empty `Reservations` list, or
      whose reservations all lack `Instances`, contributes nothing wherever
      it stands among the pages. */
  lemma EmptyPageContributesNothing(a: seq<DescribePage>, p: DescribePage, b: seq<DescribePage>)
    requires p.reservations.Some? ==>
      forall k :: 0 <= k < |p.reservations.value| ==> p.reservations.value[k].instances.None?
    ensures PagesInstances(a + [p] + b) == PagesInstances(a + b)
  {
    if p.reservations.Some? {
      NoInstancesNothing(p.reservations.value);
    }
    assert PageInstances(p) == [];
    assert [p][..0] == [];
    assert PagesInstances([p]) == [] + PageInstances(p) == [];
    PagesInstancesAppend(a + [p], b);
    PagesInstancesAppend(a, [p]);
    PagesInstancesAppend(a, b);
    calc {
      PagesInstances(a + [p] + b);
      PagesInstances(a + [p]) + PagesInstances(b);
      (PagesInstances(a) + PagesInstances([p])) + PagesInstances(b);
      { assert PagesInstances(a) + PagesInstances([p]) == PagesInstances(a); }
      PagesInstances(a) + PagesInstances(b);
      PagesInstances(a + b);
    }
  }

  lemma {:induction false} NoInstancesNothing(rs: seq<Reservation>)
    requires forall k :: 0 <= k < |rs| ==> rs[k].instances.None?
    ensures ReservationsInstances(rs) == []
  {
    if rs != [] {
      NoInstancesNothing(rs[..|rs| - 1]);
    }
  }

  /** Nothing is dropped or duplicated: the number of instances returned is
      the sum over every reservation of every page of its instance count. */
  lemma {:induction false} PagesInstancesCount(ps: seq<DescribePage>)
    ensures |PagesInstances(ps)| == PagesCount(ps)
  {
    if ps != [] {
      PagesInstancesCount(ps[1..]);
      assert ps == [ps[0]] + ps[1..];
      PagesInstancesAppend([ps[0]], ps[1..]);
      assert PagesInstances([ps[0]]) == PagesInstances([]) + PageInstances(ps[0]);
      if ps[0].reservations.Some? {
        ReservationsCountIsLength(ps[0].reservations.value);
      }
    }
  }

  lemma {:induction false} ReservationsCountIsLength(rs: seq<Reservation>)
    ensures |ReservationsInstances(rs)| == ReservationsCount(rs)
  {
    if rs != [] {
      ReservationsCountIsLength(rs[1..]);
      assert rs == [rs[0]] + rs[1..];
      ReservationsInstancesAppend([rs[0]], rs[1..]);
      assert ReservationsInstances([rs[0]]) == ReservationsInstances([]) + ReservationInstances(rs[0]);
    }
  }

  /** Every instance of every reservation of every page is in the result,
      and the result holds nothing else. */
  lemma {:induction false} PagesInstancesMembership(ps: seq<DescribePage>, x: Ec2Instance)
    ensures x in PagesInstances(ps) <==> InSomeReservation(ps, x)
  {
    if ps != [] {
      var ps', last := ps[..|ps| - 1], ps[|ps| - 1];
      PagesInstancesMembership(ps', x);
      if last.reservations.Some? {
        ReservationsMembership(last.reservations.value, x);
      }
      InSomeReservationSnoc(ps, x);
    }
  }

  /** `x` is in some reservation of the pages iff it is in one of all but
      the last page, or in one of the last page. */
  lemma InSomeReservationSnoc(ps: seq<DescribePage>, x: Ec2Instance)
    requires ps != []
    ensures var ps', last := ps[..|ps| - 1], ps[|ps| - 1];
      InSomeReservation(ps, x) <==>
        InSomeReservation(ps', x) ||
        (last.reservations.Some? &&
         exists j :: 0 <= j < |last.reservations.value| && x in ReservationInstances(last.reservations.value[j]))
  {
    var ps', last := ps[..|ps| - 1], ps[|ps| - 1];
    if InSomeReservation(ps', x) {
      var i, j :| 0 <= i < |ps'| && ps'[i].reservations.Some? && 0 <= j < |ps'[i].reservations.value|
        && x in ReservationInstances(ps'[i].reservations.value[j]);
      assert ps[i] == ps'[i];
    }
    if InSomeReservation(ps, x) {
      var i, j :| 0 <= i < |ps| && ps[i].reservations.Some? && 0 <= j < |ps[i].reservations.value|
        && x in ReservationInstances(ps[i].reservations.value[j]);
      if i < |ps'| {
        assert ps'[i] == ps[i];
      }
    }
  }

  /** Some reservation of some page carries `x` in its `Instances`. */
  ghost predicate InSomeReservation(ps: seq<DescribePage>, x: Ec2Instance)
  {
    exists i, j ::
      0 <= i < |ps| && ps[i].reservations.Some? && 0 <= j < |ps[i].reservations.value| &&
      x in ReservationInstances(ps[i].reservations.value[j])
  }

  lemma {:induction false} ReservationsMembership(rs: seq<Reservation>, x: Ec2Instance)
    ensures x in ReservationsInstances(rs) <==>
      exists j :: 0 <= j < |rs| && x in ReservationInstances(rs[j])
  {
    if rs != [] {
      var rs' := rs[..|rs| - 1];
      ReservationsMembership(rs', x);
      if x in ReservationsInstances(rs') {
        var j :| 0 <= j < |rs'| && x in ReservationInstances(rs'[j]);
        assert rs[j] == rs'[j];
      }
    }
  }

  /** A successful Cloud Map listing holds every page's `Instances`, and
      every page carries them. */
  lemma {:induction false} RegistryListingSuccess(ps: seq<ListPage>)
    ensures RegistryListing(ps).Success? <==> forall i :: 0 <= i < |ps| ==> ps[i].instances.Some?
    ensures RegistryListing(ps).Success? ==>
      |RegistryListing(ps).value| == ListCount(ps)
  {
    if ps != [] {
      var ps' := ps[..|ps| - 1];
      RegistryListingSuccess(ps');
      assert forall i :: 0 <= i < |ps'| ==> ps'[i] == ps[i];
      ListCountSnoc(ps);
      assert ps'+ [ps[|ps| - 1]] == ps;
    }
  }

  /** The number of registrations the pages carry. */
  function ListCount(ps: seq<ListPage>): nat
  {
    if ps == [] then 0
    else (if ps[0].instances.Some? then |ps[0].instances.value| else 0) + ListCount(ps[1..])
  }

  lemma {:induction false} ListCountSnoc(ps: seq<ListPage>)
    requires ps != []
    ensures ListCount(ps) == ListCount(ps[..|ps| - 1]) +
      (if ps[|ps| - 1].instances.Some? then |ps[|ps| - 1].instances.value| else 0)
  {
    if |ps| > 1 {
      ListCountSnoc(ps[1..]);
      assert ps[1..][..|ps[1..]| - 1] == ps[..|ps| - 1][1..];
    }
  }

  lemma {:induction false} RegistryListingFailurePersists(ps: seq<ListPage>, n: nat)
    requires n <= |ps| && RegistryListing(ps[..n]).Failure?
    ensures RegistryListing(ps) == RegistryListing(ps[..n])
    decreases |ps| - n
  {
    if n == |ps| {
      assert ps[..n] == ps;
    } else {
      assert ps[..n + 1][..n] == ps[..n];
      RegistryListingFailurePersists(ps, n + 1);
    }
  }

  /** The index a failed Cloud Map listing reports is the first page
      without `Instances`. */
  lemma {:induction false} RegistryListingFailure(ps: seq<ListPage>)
    requires RegistryListing(ps).Failure?
    ensures var k := RegistryListing(ps).error;
      k < |ps| && ps[k].instances.None? && forall i :: 0 <= i < k ==> ps[i].instances.Some?
  {
    var ps' := ps[..|ps| - 1];
    if RegistryListing(ps').Failure? {
      RegistryListingFailure(ps');
    } else {
      RegistryListingSuccess(ps');
    }
  }
}
