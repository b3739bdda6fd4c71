/**
 * Clients of Interaction: what a caller can conclude from the factories and
 * property contracts alone, on concrete scenarios.
 */
module InteractionExamples {
  import opened Wrappers
  import opened Fhir
  import opened Core
  import opened InteractionLaws

  /**
   * POST of a resource without a Meta block: When reads the construction
   * time and the resource now has a Meta block.
   */
  method PostStampsConstructionTime(key: ResourceKey, now: Instant) returns (when: Option<Instant>, hasMeta: bool)
    ensures when == Some(now) && hasMeta
  {
    var r := new Resource(key, null);
    var i := Interaction.Post(r, now);
    when := i.When();
    hasMeta := r.meta != null;
  }

  /**
   * PUT with an explicit key over a resource that carried another key: Key
   * reads the explicit key and the resource's own key has been overwritten.
   */
  method PutOverwritesResourceKey(previous: ResourceKey, key: ResourceKey, now: Instant)
    returns (read: Option<ResourceKey>, stored: ResourceKey)
    ensures read == Some(key) && stored == key
  {
    var r := new Resource(previous, null);
    var i := Interaction.Put(Some(key), r, now);
    read := i.Key();
    stored := r.ExtractKey();
  }

  /**
   * POST with a key, then IsDeleted := false: the verb is DELETE, and Key,
   * now read from the never-written local field, is null.
   */
  method DeletedPostForgetsKey(key: ResourceKey, now: Instant)
    returns (before: Option<ResourceKey>, after: Option<ResourceKey>, deleted: bool)
    ensures before == Some(key) && after == None && deleted
  {
    var r := new Resource(key, null);
    var i := Interaction.PostKeyed(Some(key), r, now);
    before := i.Key();
    i.SetIsDeleted(false);
    after := i.Key();
    deleted := i.IsDeleted();
  }

  /** Two interactions over one resource: a Key write through one is read through the other. */
  method SharedResourceSeesKeyWrite(first: ResourceKey, second: ResourceKey, now: Instant)
    returns (seen: Option<ResourceKey>)
    ensures seen == Some(second)
  {
    var r := new Resource(first, null);
    var a := Interaction.Post(r, now);
    var b := Interaction.Post(r, now);
    a.SetKey(Some(second));
    seen := b.Key();
  }

  /**
   * An interaction built without a resource, then given one that has no
   * Meta block: Key reads the resource's key, which is not overwritten by
   * the local one, while When still reads the local timestamp.
   */
  method AttachedResourceHidesLocalKey(localKey: ResourceKey, resourceKey: ResourceKey, t: Instant)
    returns (keyRead: Option<ResourceKey>, whenRead: Option<Instant>, resourceKeyAfter: ResourceKey)
    ensures keyRead == Some(resourceKey) && whenRead == Some(t) && resourceKeyAfter == resourceKey
  {
    var i := Interaction.CreateAt(GET, Some(localKey), t);
    var r := new Resource(resourceKey, null);
    i.SetResource(r);
    keyRead := i.Key();
    whenRead := i.When();
    resourceKeyAfter := r.ExtractKey();
  }

  /** DELETE stamps the UTC clock reading, whatever `when` it is given. */
  method DeleteIgnoresWhen(key: ResourceKey, when: Instant, utcNow: Instant)
    returns (stamp: Option<Instant>, read: Option<ResourceKey>)
    ensures stamp == Some(utcNow) && read == Some(key)
  {
    var i := Interaction.Delete(Some(key), Some(when), utcNow);
    stamp := i.When();
    read := i.Key();
  }

  /**
   * A Key write on an interaction that carries a resource, followed by When,
   * Method and State writes. The setters' contracts turn the four calls into
   * one run of assignments on the interaction's value, and the sequence law
   * KeyReadsLastWrite then says that Key still reads the key written.
   */
  method KeyWriteSurvivesLaterWrites(previous: ResourceKey, key: ResourceKey, t: Instant, now: Instant)
    returns (read: Option<ResourceKey>)
    ensures read == Some(key)
  {
    var r := new Resource(previous, null);
    var i := Interaction.Post(r, now);
    ghost var s0 := i.View();
    i.SetKey(Some(key));
    ghost var s1 := i.View();
    i.SetWhen(Some(t));
    ghost var s2 := i.View();
    i.SetMethod(PUT);
    ghost var s3 := i.View();
    i.SetState(Internal);
    ghost var later := [AssignWhen(Some(t)), AssignMethod(PUT), AssignState(Internal)];
    KeyReadsLastWrite(s0, Some(key), later);
    // The four calls are exactly the run [AssignKey(key)] + later from s0.
    assert ([AssignKey(Some(key))] + later)[1..] == later;
    assert Run(s2, later[1..]) == Run(s3, later[2..]) == i.View();
    assert Run(s0, [AssignKey(Some(key))] + later) == Run(s1, later) == i.View();
    read := i.Key();
  }

  /**
   * A When write on an interaction that carries a resource, followed by a
   * null Key write, whose effect on the resource is not stated. Whatever it
   * does, When still reads the timestamp written: the setters' contracts
   * make the two calls one sequence of steps, and WhenReadsLastWrite holds
   * for every such sequence.
   */
  method NullKeyWriteKeepsWhen(key: ResourceKey, t: Instant, now: Instant)
    returns (read: Option<Instant>)
    ensures read == Some(t)
  {
    var r := new Resource(key, null);
    var i := Interaction.Post(r, now);
    ghost var s0 := i.View();
    i.SetWhen(Some(t));
    ghost var s1 := i.View();
    i.SetKey(None);
    ghost var later := [AssignKey(None)];
    // The two calls are one sequence of steps from s0 to the final view.
    assert Steps(i.View(), later[1..], i.View());
    assert Steps(s1, later, i.View());
    assert ([AssignWhen(Some(t))] + later)[1..] == later;
    assert Steps(s0, [AssignWhen(Some(t))] + later, i.View());
    WhenReadsLastWrite(s0, Some(t), later, i.View());
    read := i.When();
  }
}
