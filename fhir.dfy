/**
 * The parts of the HL7 FHIR object model and of the key extensions that an
 * interaction touches: the request verb of a bundle entry, a resource key,
 * a resource with its optional Meta block, and the two key operations
 * ExtractKey (read) and ApplyTo (write).
 */
module Fhir {
  import opened Wrappers

  /** Bundle.HTTPVerb, the method of a bundle entry's request. */
  datatype HttpVerb = GET | POST | PUT | DELETE

  /** A point in time (a DateTimeOffset), counted in ticks. */
  type Instant = int

  /** The identity of a resource: its type, its logical id and, optionally, a version. */
  datatype ResourceKey = ResourceKey(typeName: string, resourceId: string, versionId: Option<string>)

  /** A resource's Meta block; of its elements only LastUpdated is observed here. */
  class Meta {
    var lastUpdated: Option<Instant>

    /** `new Meta()`: every element starts out null. */
    constructor ()
      ensures lastUpdated == None
    {
      lastUpdated := None;
    }
  }

  /** A FHIR resource, reduced to its identity and its (nullable) Meta block. */
  class Resource {
    var key: ResourceKey
    var meta: Meta?

    constructor (key: ResourceKey, meta: Meta?)
      ensures this.key == key && this.meta == meta
    {
      this.key := key;
      this.meta := meta;
    }

    /** The key extension that reads a resource's identity. */
    function ExtractKey(): ResourceKey
      reads this
    {
      key
    }
  }

  /**
   * The key extension that writes a key onto a resource. Only the resource's
   * identity may change. What applying a null key does is not stated: the
   * contract promises nothing about `resource.key` then.
   */
  method ApplyTo(key: Option<ResourceKey>, resource: Resource)
    modifies resource`key
    ensures key.Some? ==> resource.ExtractKey() == key.value
  {
    if key.Some? {
      resource.key := key.value;
    }
  }
}
