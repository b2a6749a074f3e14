/** The records exchanged with AWS Cloud Map and EC2, as the reconciler sees
    them, and the log of API requests the reconciler issues. The boto3 clients
    are replaced by their responses (given as inputs) and by this log. */
module Records {

  datatype Option<+T> = None | Some(value: T)

  datatype Result<+R, +E> = Success(value: R) | Failure(error: E)

  /** The Cloud Map attribute that carries a registration's IPv4 address. */
  const Ipv4Key: string := "AWS_INSTANCE_IPV4"

  /** A Cloud Map service instance: its `Id` and its `Attributes`. */
  datatype Registration = Registration(id: string, attrs: map<string, string>)

  /** An EC2 instance as `describe_instances` reports it: `InstanceId`,
      `State.Name` and the optional `PrivateIpAddress` / `PublicIpAddress`. */
  datatype Ec2Instance = Ec2Instance(
    id: string,
    state: string,
    privateIp: Option<string>,
    publicIp: Option<string>)

  /** An EC2 reservation; its `Instances` key may be absent. */
  datatype Reservation = Reservation(instances: Option<seq<Ec2Instance>>)

  /** One page of `describe_instances`; its `Reservations` key may be absent. */
  datatype DescribePage = DescribePage(reservations: Option<seq<Reservation>>)

  /** One page of Cloud Map `list_instances`; a page without `Instances`
      makes the listing fail. */
  datatype ListPage = ListPage(instances: Option<seq<Registration>>)

  /** The pages one EC2 region returns for the reconciler's lookup. */
  datatype Ec2Region = Ec2Region(name: string, pages: seq<DescribePage>)

  datatype Filter = Filter(name: string, values: seq<string>)

  /** The parameters of a `list_instances` paginator. */
  datatype ListRequest = ListRequest(serviceId: string, pageSize: nat)

  /** The parameters of a `describe_instances` paginator. */
  datatype DescribeRequest = DescribeRequest(filters: seq<Filter>, pageSize: nat)

  /** One request sent to AWS, with the region of the client that sends it. */
  datatype ApiCall =
    | ListInstances(serviceRegion: string, list: ListRequest)
    | DescribeInstances(region: string, describe: DescribeRequest)
    | DeregisterInstance(serviceRegion: string, serviceId: string, instanceId: string)

  /** The ids of the deregistration requests in a log, in order. */
  function DeregisteredIds(calls: seq<ApiCall>): seq<string>
  {
    if calls == [] then []
    else
      var last := calls[|calls| - 1];
      DeregisteredIds(calls[..|calls| - 1]) + (if last.DeregisterInstance? then [last.instanceId] else [])
  }

  /** The AWS side as observed by the reconciler: every request it issues,
      in the order issued. */
  class Cloud {
    var calls: seq<ApiCall>

    constructor ()
      ensures calls == []
    {
      calls := [];
    }

    method Send(call: ApiCall)
      modifies this
      ensures calls == old(calls) + [call]
    {
      calls := calls + [call];
    }
  }

  lemma AppendAssociative<T>(a: seq<T>, b: seq<T>, c: seq<T>, d: seq<T>)
    ensures a + b + c == a + (b + c)
    ensures a + b + c + d == a + (b + c + d)
  {
  }

  /** Deregistered ids of a concatenated log are those of its two parts. */
  lemma {:induction false} DeregisteredIdsAppend(a: seq<ApiCall>, b: seq<ApiCall>)
    ensures DeregisteredIds(a + b) == DeregisteredIds(a) + DeregisteredIds(b)
    decreases |b|
  {
    if b == [] {
      assert a + b == a;
    } else {
      var b' := b[..|b| - 1];
      assert (a + b)[..|a + b| - 1] == a + b';
      DeregisteredIdsAppend(a, b');
    }
  }
}
