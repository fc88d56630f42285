/**
 * The hub handler's child list as the Python binding returns it: one entry
 * per child reported by the hub, in the hub's order, a typed object for each
 * of the seven known child models and a None placeholder for any other.
 */
module Hub {
  import opened Tapo

  /** The state a hub child reports; its fields are carried through unchanged. */
  datatype ChildInfo = ChildInfo(deviceId: string, nickname: string, model: string)

  /** The library's closed enumeration of hub children; `Other` is every model it does not type. */
  datatype ChildDeviceHubResult =
    | KE100(info: ChildInfo)
    | S200B(info: ChildInfo)
    | T100(info: ChildInfo)
    | T110(info: ChildInfo)
    | T300(info: ChildInfo)
    | T310(info: ChildInfo)
    | T315(info: ChildInfo)
    | Other

  /** The host-side object each known model converts to. */
  datatype PyChild =
    | PyKE100(info: ChildInfo)
    | PyS200B(info: ChildInfo)
    | PyT100(info: ChildInfo)
    | PyT110(info: ChildInfo)
    | PyT300(info: ChildInfo)
    | PyT310(info: ChildInfo)
    | PyT315(info: ChildInfo)

  /** The `match child` arms: each known model to its own object, anything else to None. */
  function Convert(child: ChildDeviceHubResult): Option<PyChild>
  {
    match child
    case KE100(x) => Some(PyKE100(x))
    case S200B(x) => Some(PyS200B(x))
    case T100(x) => Some(PyT100(x))
    case T110(x) => Some(PyT110(x))
    case T300(x) => Some(PyT300(x))
    case T310(x) => Some(PyT310(x))
    case T315(x) => Some(PyT315(x))
    case _ => None
  }

  /** The child a host object was made from. */
  function Source(py: PyChild): ChildDeviceHubResult
  {
    match py
    case PyKE100(x) => KE100(x)
    case PyS200B(x) => S200B(x)
    case PyT100(x) => T100(x)
    case PyT110(x) => T110(x)
    case PyT300(x) => T300(x)
    case PyT310(x) => T310(x)
    case PyT315(x) => T315(x)
  }

  /**
   * A known child converts to the object of its own model carrying its own
   * state; exactly the children outside the seven models become None.
   */
  lemma ConvertKeepsModelAndState(child: ChildDeviceHubResult)
    ensures Convert(child).None? <==> child.Other?
    ensures Convert(child).Some? ==> Source(Convert(child).value) == child
    ensures Convert(child).Some? ==> Convert(child).value.info == child.info
  {
  }

  /** Every host object converts back from the child it was made from. */
  lemma ConvertSource(py: PyChild)
    ensures Convert(Source(py)) == Some(py)
  {
  }

  /** The pure form of the loop: the converted list. */
  function ConvertAll(children: seq<ChildDeviceHubResult>): seq<Option<PyChild>>
  {
    if children == [] then [] else [Convert(children[0])] + ConvertAll(children[1..])
  }

  /** Nothing is dropped and order is kept: entry k of the output comes from child k. */
  lemma {:induction false} ConvertAllAt(children: seq<ChildDeviceHubResult>)
    ensures |ConvertAll(children)| == |children|
    ensures forall k :: 0 <= k < |children| ==> ConvertAll(children)[k] == Convert(children[k])
  {
    if children != [] {
      ConvertAllAt(children[1..]);
    }
  }

  /** The number of children of the seven known models. */
  function KnownCount(children: seq<ChildDeviceHubResult>): nat
  {
    if children == [] then 0 else (if children[0].Other? then 0 else 1) + KnownCount(children[1..])
  }

  /** The number of typed (non-None) entries. */
  function TypedCount(entries: seq<Option<PyChild>>): nat
  {
    if entries == [] then 0 else (if entries[0].Some? then 1 else 0) + TypedCount(entries[1..])
  }

  /** Every known child appears as a typed entry: as many typed entries as known children. */
  lemma {:induction false} TypedEntriesCountKnownChildren(children: seq<ChildDeviceHubResult>)
    ensures TypedCount(ConvertAll(children)) == KnownCount(children)
  {
    if children != [] {
      ConvertKeepsModelAndState(children[0]);
      assert ConvertAll(children)[1..] == ConvertAll(children[1..]);
      TypedEntriesCountKnownChildren(children[1..]);
    }
  }

  /**
   * `get_child_device_list`: the library's error is passed on; otherwise one
   * entry is appended per child, in order.
   */
  method GetChildDeviceList(listing: Result<seq<ChildDeviceHubResult>>) returns (r: Result<seq<Option<PyChild>>>)
    ensures listing.Err? ==> r == Err(listing.error)
    ensures listing.Ok? ==> r.Ok? && |r.value| == |listing.value|
    ensures listing.Ok? ==> forall k :: 0 <= k < |listing.value| ==> r.value[k] == Convert(listing.value[k])
    ensures listing.Ok? ==> r.value == ConvertAll(listing.value)
  {
    if listing.Err? {
      return Err(listing.error);
    }
    var children := listing.value;
    var results: seq<Option<PyChild>> := [];
    for i := 0 to |children|
      invariant |results| == i
      invariant forall k :: 0 <= k < i ==> results[k] == Convert(children[k])
    {
      match children[i]
      case KE100(x) => results := results + [Some(PyKE100(x))];
      case S200B(x) => results := results + [Some(PyS200B(x))];
      case T100(x) => results := results + [Some(PyT100(x))];
      case T110(x) => results := results + [Some(PyT110(x))];
      case T300(x) => results := results + [Some(PyT300(x))];
      case T310(x) => results := results + [Some(PyT310(x))];
      case T315(x) => results := results + [Some(PyT315(x))];
      case _ => results := results + [None];
    }
    ConvertAllAt(children);
    return Ok(results);
  }
}
