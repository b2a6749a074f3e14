/** cloudunmap/unmap.py: the matcher and one reconciliation pass. The boto3
    clients are replaced by their responses (the Cloud Map pages and each
    region's EC2 pages) and by the request log of `cloud`. */
module Unmap {
  import opened Records
  import Aws
  import opened Reconciliation

  /** `matchServiceInstanceInRunningInstances`: scans the running instances
      for one with the registration's id whose public, or else private,
      address equals the registration's `AWS_INSTANCE_IPV4`. */
  method MatchServiceInstanceInRunningInstances(serviceInstance: Registration, runningInstances: seq<Ec2Instance>)
    returns (matched: bool)
    requires HasIpv4(serviceInstance)
    ensures matched <==> Matches(serviceInstance, runningInstances)
    ensures runningInstances == [] ==> !matched
  {
    var serviceInstanceId := serviceInstance.id;
    var serviceInstanceIp := serviceInstance.attrs[Ipv4Key];
    for i := 0 to |runningInstances|
      invariant forall k :: 0 <= k < i ==> !RecordMatches(runningInstances[k], serviceInstance)
    {
      var runningInstance := runningInstances[i];
      if runningInstance.id != serviceInstanceId {
        continue;
      }
      if runningInstance.publicIp.Some? && runningInstance.publicIp.value == serviceInstanceIp {
        return true;
      } else if runningInstance.privateIp.Some? && runningInstance.privateIp.value == serviceInstanceIp {
        return true;
      }
    }
    return false;
  }

  /** `unmapTerminatedInstancesFromService`: lists the service's
      registrations, keeps those with an IPv4 attribute, looks their ids up
      in every region keeping the live instances, and deregisters the
      unmatched registrations one call each, unless the circuit breaker
      trips. The requests it sends, and how it ends, are those of `Pass`. */
  method UnmapTerminatedInstancesFromService(
    serviceId: string, serviceRegion: string, instancesRegions: seq<Ec2Region>,
    registryPages: seq<ListPage>, cloud: Cloud)
    returns (outcome: Outcome)
    modifies cloud
    ensures cloud.calls == old(cloud.calls) + Pass(serviceId, serviceRegion, instancesRegions, registryPages).calls
    ensures outcome == Pass(serviceId, serviceRegion, instancesRegions, registryPages).outcome
  {
    var listRequest, listing := Aws.ListServiceInstances(serviceId, registryPages);
    cloud.Send(ListInstances(serviceRegion, listRequest));
    if listing.Failure? {
      PassWhenListingFails(serviceId, serviceRegion, instancesRegions, registryPages);
      return ListingFailed(listing.error);
    }
    PassWhenListed(serviceId, serviceRegion, instancesRegions, registryPages, listing.value);

    var serviceInstances := Managed(listing.value);
    var serviceInstancesId := Ids(serviceInstances);

    var runningInstances := ListRunningInstances(serviceInstancesId, instancesRegions, cloud);

    var unmatchingInstances := Unmatched(serviceInstances, runningInstances);
    AppendAssociative(old(cloud.calls), [ListInstances(serviceRegion, listRequest)],
      DescribeCalls(instancesRegions, serviceInstancesId), DeregisterCalls(serviceRegion, serviceId, Ids(unmatchingInstances)));
    if |unmatchingInstances| >= |serviceInstances| {
      return CircuitBreakerTripped(|unmatchingInstances|, |serviceInstances|);
    }

    DeregisterInstances(serviceId, serviceRegion, unmatchingInstances, cloud);
    return Reconciled(|unmatchingInstances|);
  }

  /** The loop over the EC2 clients: looks the ids up in each region in
      turn, drops the instances that are shutting down or terminated and
      appends the rest. */
  method ListRunningInstances(serviceInstancesId: seq<string>, instancesRegions: seq<Ec2Region>, cloud: Cloud)
    returns (runningInstances: seq<Ec2Instance>)
    modifies cloud
    ensures runningInstances == Fleet(instancesRegions)
    ensures cloud.calls == old(cloud.calls) + DescribeCalls(instancesRegions, serviceInstancesId)
  {
    runningInstances := [];
    for i := 0 to |instancesRegions|
      invariant runningInstances == Fleet(instancesRegions[..i])
      invariant cloud.calls == old(cloud.calls) + DescribeCalls(instancesRegions[..i], serviceInstancesId)
    {
      assert instancesRegions[..i + 1][..i] == instancesRegions[..i];
      var request, instances := Aws.ListEC2InstancesById(serviceInstancesId, instancesRegions[i].pages);
      AppendAssociative(old(cloud.calls), DescribeCalls(instancesRegions[..i], serviceInstancesId),
        [DescribeInstances(instancesRegions[i].name, request)], []);
      cloud.Send(DescribeInstances(instancesRegions[i].name, request));
      instances := Live(instances);
      runningInstances := runningInstances + instances;
    }
    assert instancesRegions[..|instancesRegions|] == instancesRegions;
  }

  /** The deregistration loop: one `deregister_instance` call per unmatched
      registration, in order. */
  method DeregisterInstances(serviceId: string, serviceRegion: string, unmatchingInstances: seq<Registration>, cloud: Cloud)
    modifies cloud
    ensures cloud.calls == old(cloud.calls) + DeregisterCalls(serviceRegion, serviceId, Ids(unmatchingInstances))
  {
    ghost var ids := Ids(unmatchingInstances);
    for i := 0 to |unmatchingInstances|
      invariant cloud.calls == old(cloud.calls) + DeregisterCalls(serviceRegion, serviceId, ids[..i])
    {
      assert ids[..i + 1][..i] == ids[..i];
      AppendAssociative(old(cloud.calls), DeregisterCalls(serviceRegion, serviceId, ids[..i]),
        [DeregisterInstance(serviceRegion, serviceId, unmatchingInstances[i].id)], []);
      cloud.Send(DeregisterInstance(serviceRegion, serviceId, unmatchingInstances[i].id));
    }
    assert ids[..|ids|] == ids;
  }
}
