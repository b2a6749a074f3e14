# cloudunmap reconciliation, in Dafny

cloudunmap removes stale AWS Cloud Map registrations. A registration is
stale when no live EC2 instance has its instance id and its
`AWS_INSTANCE_IPV4` address. One reconciliation pass does the following:

- it lists the service's registrations;
- it drops those without an `AWS_INSTANCE_IPV4` attribute;
- it looks the remaining ids up in every configured EC2 region and
  drops instances that are `shutting-down` or `terminated`;
- it matches each registration against the live instances of all
  regions together;
- it deregisters the unmatched registrations, one call each, in
  listing order, unless a circuit breaker trips because every managed
  registration would go.

The model covers:

- the matcher;
- the pass, in both of its copies (`unmapTerminatedInstancesFromService`
  in `cloudunmap/unmap.py` and `reconcile` in `cloudunmap/cli.py`);
- the page flattening of `cloudunmap/aws.py`.

It has these modules:

- `Records` (records.dfy): the records exchanged with AWS. A
  registration is an id and an attribute map. An EC2 instance is an
  id, a state and optional private and public addresses. There are also
  reservations, pages, region responses, and the API requests. The
  `Cloud` class stands for the AWS side: its `calls` field is the log of
  every request sent, in order, and `Send` appends to it.
- `Aws` (aws.dfy): `ListEC2InstancesById` and `ListServiceInstances` as
  methods with the source's loops. The paginator is replaced by the
  pages it yields. Each method returns the request parameters it would
  send (the filter, the page sizes 1000 and 100) and the flattened
  result. The methods are proved equal to the back-recursive functions
  `PagesInstances` and `RegistryListing`, and lemmas state what those
  keep and drop.
- `Reconciliation` (reconciliation.dfy): what a pass decides, as
  functions:
  - `Managed` is the IPv4 filter, `Live` the state filter and `Matches`
    the matcher;
  - `Fleet` is the live instances of all regions, concatenated in region
    order;
  - `Unmatched`, `BreakerTrips` and `Deregistrations` make the decision;
  - `Pass` gives the full request sequence and the outcome of a pass.

  The lemmas state the properties of the decision.
- `Unmap` (unmap.dfy) and `Cli` (cli.dfy): the matcher as the source's
  search loop, and the pass as an imperative method. The method sends
  its requests through a `Cloud` and is proved to send exactly
  `Pass(...).calls` and to end with `Pass(...).outcome`.
- `Scenarios` (scenarios.dfy): the cases of `tests/test_unmap.py`, each
  stated on concrete responses with the exact request sequence of the
  pass.

The boto3 clients are replaced by inputs:

- the Cloud Map pages are a `seq<ListPage>`;
- each region's `describe_instances` pages are an `Ec2Region`;
- the side effects of a pass (the listing, the lookups and the
  deregistrations) are entries of `Cloud.calls`.

The source functions return nothing. The model's pass methods return an
`Outcome`: `ListingFailed`, `CircuitBreakerTripped` or `Reconciled`. It
records which of the source's exits was taken: the `KeyError`, the
early return after the warning, or the end of the deregistration loop.

## Model

| member | source | states |
|---|---|---|
| Unmap.MatchServiceInstanceInRunningInstances | cloudunmap/unmap.py:8-23 | returns true iff some running instance has the registration's id and a public or private address equal to its `AWS_INSTANCE_IPV4`; false on an empty list |
| Cli.MatchServiceInstanceInRunningInstances | cloudunmap/cli.py:11-26 | the cli.py copy of the matcher decides the same predicate `Matches` as the unmap.py one |
| Unmap.UnmapTerminatedInstancesFromService | cloudunmap/unmap.py:26-75 | sends exactly the requests of `Pass`, appended to the log in order: list, one lookup per region, then the deregistrations; its outcome is that of `Pass` |
| Unmap.ListRunningInstances | cloudunmap/unmap.py:48-55 | the region loop yields the live instances of every region in region order (`Fleet`) and sends one `describe_instances` per region with the managed ids |
| Unmap.DeregisterInstances | cloudunmap/unmap.py:71-73 | sends one `deregister_instance` per unmatched registration, in order, with the given service id |
| Cli.Reconcile | cloudunmap/cli.py:29-80 | `reconcile` sends exactly the requests of `Pass` and ends with its outcome |
| Cli.ListRunningInstances | cloudunmap/cli.py:52-60 | the region loop of `reconcile` yields `Fleet` and sends one lookup per region |
| Cli.DeregisterInstances | cloudunmap/cli.py:76-78 | one `deregister_instance` per unmatched registration, in order, with the given service id |
| Cli.ReconcileAgreesWithUnmap | cloudunmap/cli.py:44-78 | `reconcile` and `unmapTerminatedInstancesFromService`, each on a fresh log, send the same requests and end the same way |
| Aws.ListEC2InstancesById | cloudunmap/aws.py:4-23 | the request filters on `instance-id` with the given ids unchanged and page size 1000; the result is the flattening `PagesInstances` of the pages |
| Aws.AppendReservations | cloudunmap/aws.py:19-21 | the inner loop appends each reservation's `Instances` and skips a reservation without them |
| Aws.ListServiceInstances | cloudunmap/aws.py:26-36 | the request is for the service with page size 100; the result is `RegistryListing`: every page's `Instances` in order, or a failure at a page without them |
| Aws.PagesInstancesAppend | cloudunmap/aws.py:15-21 | page order is kept: the flattening of two runs of pages is the first's followed by the second's |
| Aws.ReservationsInstancesAppend | cloudunmap/aws.py:19-21 | reservation order is kept within a page |
| Aws.EmptyPageContributesNothing | cloudunmap/aws.py:16-21 | a page without `Reservations`, with an empty list, or whose reservations all lack `Instances` contributes nothing wherever it stands |
| Aws.PagesInstancesCount | cloudunmap/aws.py:15-23 | the result's length is the sum of the instance counts of every reservation of every page |
| Aws.PagesInstancesMembership | cloudunmap/aws.py:15-23 | an instance is in the result iff it is in some reservation of some page |
| Aws.RegistryListingSuccess | cloudunmap/aws.py:33-36 | the Cloud Map listing succeeds iff every page carries `Instances`, and its length is then the sum of the pages' counts |
| Aws.RegistryListingFailure | cloudunmap/aws.py:33-34 | a failed listing reports the first page without `Instances` |
| Reconciliation.ManagedMembership | cloudunmap/unmap.py:44 | a registration is managed iff it is listed and has the IPv4 attribute |
| Reconciliation.LiveMembership | cloudunmap/unmap.py:53 | an instance is kept iff it is given and is neither `shutting-down` nor `terminated` |
| Reconciliation.MatchesLive | cloudunmap/unmap.py:53 | a shutting-down or terminated instance never makes a registration match, even with the same id and address |
| Reconciliation.MatchesAppend | cloudunmap/unmap.py:55 | matching the concatenation of two runs of instances is matching either run |
| Reconciliation.MatchesFleet | cloudunmap/unmap.py:48-60 | a registration matches the combined fleet iff it matches the live instances of some region |
| Reconciliation.UnmatchedMembership | cloudunmap/unmap.py:60 | a registration is unmatched iff it is managed and matches no running instance |
| Reconciliation.NoMatchTripsBreaker | cloudunmap/unmap.py:64-66 | when no managed registration matches, the breaker trips and nothing is deregistered |
| Reconciliation.EmptyFleetDeregistersNothing | cloudunmap/unmap.py:64-66 | with no running instance at all, the breaker trips and nothing is deregistered |
| Reconciliation.NoManagedDeregistersNothing | cloudunmap/unmap.py:44-66 | when no listed registration has the IPv4 attribute, nothing is managed and, for any fleet, the breaker trips (0 of 0) and nothing is deregistered |
| Reconciliation.DeregisteredAreUnmatched | cloudunmap/unmap.py:60-73 | every deregistered id is that of a listed registration with the IPv4 attribute that matches nothing |
| Reconciliation.UnmatchedAreDeregistered | cloudunmap/unmap.py:60-73 | unless the breaker trips, every managed registration that matches nothing is deregistered, including a reused id with another address |
| Reconciliation.MatchedNeverDeregistered | cloudunmap/unmap.py:60-73 | with unique ids, a matched registration is never deregistered |
| Reconciliation.WithoutIpv4Untouched | cloudunmap/unmap.py:44-45 | with unique ids, a registration without the IPv4 attribute is neither looked up nor deregistered |
| Reconciliation.DeregistrationsDistinct | cloudunmap/unmap.py:71-73 | with unique ids, each id is deregistered at most once |
| Reconciliation.RerunDeregistersNothing | cloudunmap/unmap.py:60-73 | a second pass over the registry without the deregistered ids, against the same fleet, deregisters nothing |
| Reconciliation.PassDeregisters | cloudunmap/unmap.py:40-73 | the ids deregistered by a pass are `Deregistrations` of the listing against the fleet; none on a failed listing or a tripped breaker; the outcome reports the count |
| Reconciliation.PassOrder | cloudunmap/unmap.py:40-73 | a pass starts with the listing, makes every lookup before any deregistration, and deregisters only from the given service and region |
| Scenarios.MatcherCases | tests/test_unmap.py:26-48 | the six matcher cases: empty list, id mismatch, address mismatch, private and public address |
| Scenarios.AllRunning | tests/test_unmap.py:54-74 | both registrations running: list, one lookup, no deregistration |
| Scenarios.OnlyUnmatchedDeregistered | tests/test_unmap.py:76-177 | `i-2` absent, with another address, shutting down or terminated: only `i-2` is deregistered |
| Scenarios.WithoutIpv4Skipped | tests/test_unmap.py:179-198 | a registration without IPv4 is not looked up and not deregistered |
| Scenarios.NoReservationsTripsBreaker | tests/test_unmap.py:200-217 | no reservations returned: the breaker trips with 2 of 2 unmatched and nothing is deregistered |
| Scenarios.MultipleRegions | tests/test_unmap.py:219-244 | instances found in two regions match; only `i-3` is deregistered, after both lookups |

## Left out

- boto3/botocore clients, sessions and their `Config` timeouts and retries: foreign library calls. The responses are inputs and the requests are entries of `Cloud.calls`.
- The paginator protocol: only the pages it yields are modelled. Each region's response is a fixed input, so the server-side `instance-id` filtering is not modelled; the matcher checks the id anyway.
- Logging and the JSON formatter: their only effect is output.
- `main` in cloudunmap/cli.py:83-116: argparse, an endless `while True` loop, and float timing with `time.monotonic()` / `time.sleep`.
- `parseArguments` and `--single-run`: the tests use them, but cloudunmap/cli.py has neither.
- AWS errors raised by boto calls: they are exceptions from code outside the model.
- A Cloud Map page without `Instances` makes `page["Instances"]` raise `KeyError` (cloudunmap/aws.py:34). This is modelled as `Failure(page index)` and the `ListingFailed` outcome, after the listing request and before any lookup.
- Unmap.MatchServiceInstanceInRunningInstances, Cli.MatchServiceInstanceInRunningInstances: the `KeyError` the matcher raises on a registration without `AWS_INSTANCE_IPV4` (cloudunmap/unmap.py:10, cloudunmap/cli.py:13) is not modelled; both methods require the attribute, because both call sites (cloudunmap/unmap.py:60, cloudunmap/cli.py:65) pass only the registrations the IPv4 filter kept.
- The `KeyError` raised on a registration without `Attributes` (cloudunmap/unmap.py:44) or an EC2 instance without `InstanceId` or `State` (cloudunmap/unmap.py:14, 53) is not modelled: records.dfy makes those fields mandatory, as the AWS APIs always return them.
- Unmap.ListRunningInstances, Unmap.DeregisterInstances, their Cli copies and Aws.AppendReservations: these loops are inline in the source. They are separate methods here so that each loop is proved on its own; the requests and their order are unchanged.
- The list comprehensions and `filter`/`map` calls (IPv4 filter, id list, state filter, unmatched filter) are functions, not loops, as in the source.

Two facts about the code that the model keeps:

- Deregistration follows Cloud Map listing order, and `Pass` and the methods state that order.
- cloudunmap/cli.py has no single-run flag, no health or timestamp gauges and no handling of AWS errors, so the model has none either.
