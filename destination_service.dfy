/** The destination service: a live and a mock implementation of one protocol, both of which
    serve the sample catalogue. */
module DestinationService {
  import opened Wrappers
  import opened Destinations

  /** The two implementations of `DestinationServiceProtocol`. */
  datatype Service = Live | Mock

  /** `fetchDestinations()`: both implementations return the sample catalogue
      (the live one after a simulated delay, which is not modelled). */
  function FetchDestinations(service: Service): seq<Destination>
  {
    match service
    case Live => Samples
    case Mock => Samples
  }

  /** Swift's `first { $0.id == id }` over a list of destinations. */
  function FindById(ds: seq<Destination>, id: Uuid): (r: Option<Destination>)
    ensures r.Some? ==> r.value in ds && r.value.id == id
    ensures r.None? <==> forall i :: 0 <= i < |ds| ==> ds[i].id != id
    ensures r.Some? ==> exists i :: 0 <= i < |ds| && ds[i] == r.value && forall j :: 0 <= j < i ==> ds[j].id != id
  {
    FirstWhere(ds, (d: Destination) => d.id == id)
  }

  /** `fetchDetail(for:)`: the first sample with the given id, or nothing. */
  function FetchDetail(service: Service, id: Uuid): Option<Destination>
  {
    match service
    case Live => FindById(Samples, id)
    case Mock => FindById(Samples, id)
  }

  /** Both services return exactly the sample catalogue, so they agree with each other. */
  lemma FetchDestinationsIsSamples(service: Service)
    ensures FetchDestinations(service) == Samples
    ensures FetchDestinations(Live) == FetchDestinations(Mock)
  {
  }

  /** When ids are distinct, looking up an entry's id finds that entry. */
  lemma {:induction false} FindByIdOfMember(ds: seq<Destination>, k: nat)
    requires DistinctIds(ds)
    requires k < |ds|
    ensures FindById(ds, ds[k].id) == Some(ds[k])
  {
    var r := FindById(ds, ds[k].id);
    assert r.Some? by { assert ds[k].id == ds[k].id; }
    var i :| 0 <= i < |ds| && ds[i] == r.value && forall j :: 0 <= j < i ==> ds[j].id != ds[k].id;
    if i < k {
      assert ds[i].id != ds[k].id;
    }
  }

  /** A result of `fetchDetail` always carries the id asked for, and a sample's own id
      finds that sample. */
  lemma FetchDetailFindsSamples(service: Service, id: Uuid, k: nat)
    requires k < |Samples|
    ensures FetchDetail(service, id).Some? ==> FetchDetail(service, id).value.id == id
    ensures FetchDetail(service, Samples[k].id) == Some(Samples[k])
  {
    SamplesHaveDistinctIds();
    FindByIdOfMember(Samples, k);
  }

  /** An id that no sample has gives no detail. */
  lemma FetchDetailMiss(service: Service, id: Uuid)
    requires forall i :: 0 <= i < |Samples| ==> Samples[i].id != id
    ensures FetchDetail(service, id) == None
  {
  }
}
