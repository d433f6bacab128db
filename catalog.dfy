/** The fixed catalogue of bucket types (the service plans) declared in
    service/client/client.go: an immutable value, not mutable globals. */
module Catalog {

  import opened Outcomes

  /** The closed set of bucket types the broker offers. */
  datatype BucketType = CounterType | SetType | MapType {

    /** The bucket type's name, which is also the plan name. */
    function Name(): string {
      match this
      case CounterType => "tsuru-counter"
      case SetType => "tsuru-set"
      case MapType => "tsuru-map"
    }

    /** The Riak data type a bucket of this type stores. */
    function DataType(): string {
      match this
      case CounterType => "counter"
      case SetType => "set"
      case MapType => "map"
    }

    /** The human-readable plan description. */
    function Description(): string {
      match this
      case CounterType => "Bucket type of counter data type"
      case SetType => "Bucket type of set data type"
      case MapType => "Bucket type of map data type"
    }
  }

  const BucketTypeCounter: string := CounterType.Name()
  const BucketTypeSet: string := SetType.Name()
  const BucketTypeMap: string := MapType.Name()

  /** Bucket type name to Riak data type. */
  const NameBucketTypeMapping: map<string, string> := map[
    BucketTypeCounter := CounterType.DataType(),
    BucketTypeSet := SetType.DataType(),
    BucketTypeMap := MapType.DataType()]

  /** Bucket type name to description: the list of available plans. */
  const BucketTypes: map<string, string> := map[
    BucketTypeCounter := CounterType.Description(),
    BucketTypeSet := SetType.Description(),
    BucketTypeMap := MapType.Description()]

  /** One entry of the plan list, `{"name": ..., "description": ...}`. */
  datatype Plan = Plan(name: string, description: string)

  /** A list holding one plan per bucket type, in any order. */
  predicate ListsEveryPlan(plans: seq<Plan>) {
    && |plans| == |BucketTypes|
    && (forall i :: 0 <= i < |plans| ==> plans[i].name in BucketTypes && plans[i].description == BucketTypes[plans[i].name])
    && (forall name :: name in BucketTypes ==> exists i :: 0 <= i < |plans| && plans[i].name == name)
    && (forall i, j :: 0 <= i < j < |plans| ==> plans[i].name != plans[j].name)
  }

  /** The bucket type a name denotes, if any: the closed lookup over the two
      tables above. The store validates a type by testing `BucketTypes`
      directly, so nothing else goes through this function. */
  function Parse(name: string): (t: Option<BucketType>)
    ensures t.Some? <==> name in BucketTypes
    ensures t.Some? ==> t.value.Name() == name
  {
    if name == BucketTypeCounter then Some(CounterType)
    else if name == BucketTypeSet then Some(SetType)
    else if name == BucketTypeMap then Some(MapType)
    else None
  }

  /** The plan catalogue holds exactly the three bucket type names. */
  lemma BucketTypesAreTheThreeNames()
    ensures BucketTypes.Keys == {"tsuru-counter", "tsuru-set", "tsuru-map"}
    ensures |BucketTypes| == 3
  {
    assert BucketTypes.Keys == {"tsuru-counter", "tsuru-set", "tsuru-map"};
  }

  /** Both tables are keyed by the same names, and each bucket type maps to
      its own data type and description. */
  lemma MappingAgreesWithBucketTypes(t: BucketType)
    ensures NameBucketTypeMapping.Keys == BucketTypes.Keys
    ensures t.Name() in NameBucketTypeMapping && NameBucketTypeMapping[t.Name()] == t.DataType()
    ensures t.Name() in BucketTypes && BucketTypes[t.Name()] == t.Description()
  {
  }

  /** Names identify bucket types: parsing a bucket type's name gives it back. */
  lemma ParseName(t: BucketType)
    ensures Parse(t.Name()) == Some(t)
  {
  }
}
