/**
 * One entry of a FHIR bundle: a request verb, an optional resource payload,
 * a key, a timestamp and a pipeline state. Key and When are stored on the
 * interaction itself only while it carries no resource; once it does, they
 * are read from and written to the resource.
 */
module Core {
  import opened Wrappers
  import opened Fhir

  /** Where an interaction sits in the processing pipeline; it is only stored here. */
  datatype InteractionState = Internal | Undefined | External

  // ---------------------------------------------------------------------
  // The state of an interaction as a value, and what each property write
  // does to it. The class below is specified against these definitions.
  // ---------------------------------------------------------------------

  /** A Meta block as a value. */
  datatype MetaView = MetaView(lastUpdated: Option<Instant>)

  /** A resource as a value: its key and its Meta block (None when Meta is null). */
  datatype PayloadView = PayloadView(key: ResourceKey, meta: Option<MetaView>)

  /**
   * Everything an interaction holds: its public Method and State, the two
   * private fields behind Key and When, and its resource (None when null).
   */
  datatype Snapshot = Snapshot(
    verb: HttpVerb,
    state: InteractionState,
    localKey: Option<ResourceKey>,
    localWhen: Option<Instant>,
    payload: Option<PayloadView>)

  /** What the Key getter returns: the resource's key if there is a resource, else the local one. */
  function KeyOf(s: Snapshot): Option<ResourceKey> {
    if s.payload.Some? then Some(s.payload.value.key) else s.localKey
  }

  /**
   * What the When getter returns: LastUpdated when there is a resource AND
   * it has a Meta block, else the local timestamp.
   */
  function WhenOf(s: Snapshot): Option<Instant> {
    if s.payload.Some? && s.payload.value.meta.Some? then s.payload.value.meta.value.lastUpdated
    else s.localWhen
  }

  /** One assignment to a property of an interaction. */
  datatype Write =
    | AssignKey(key: Option<ResourceKey>)
    | AssignWhen(when: Option<Instant>)
    | AssignResource(payload: Option<PayloadView>)
    | AssignMethod(verb: HttpVerb)
    | AssignState(state: InteractionState)
    | AssignDeleted(flag: bool)

  /**
   * Whether the effect of an assignment is known: applying a null key onto
   * a resource goes through ApplyTo, whose effect on the resource is not
   * stated, so that one assignment has no defined result.
   */
  predicate Applicable(s: Snapshot, w: Write) {
    !(w.AssignKey? && w.key.None? && s.payload.Some?)
  }

  /** The state after one property assignment. */
  function Apply(s: Snapshot, w: Write): Snapshot
    requires Applicable(s, w)
  {
    match w
    case AssignKey(k) =>
      if s.payload.Some? then s.(payload := Some(s.payload.value.(key := k.value)))
      else s.(localKey := k)
    case AssignWhen(t) =>
      if s.payload.Some? then s.(payload := Some(s.payload.value.(meta := Some(MetaView(t)))))
      else s.(localWhen := t)
    case AssignResource(p) => s.(payload := p)
    case AssignMethod(v) => s.(verb := v)
    case AssignState(st) => s.(state := st)
    case AssignDeleted(_) => s.(verb := DELETE, payload := None)
  }

  /** Whether every assignment of a sequence, made in order, has a defined result. */
  predicate Defined(s: Snapshot, ws: seq<Write>)
    decreases |ws|
  {
    ws == [] || (Applicable(s, ws[0]) && Defined(Apply(s, ws[0]), ws[1..]))
  }

  /** The state after a sequence of property assignments, made in order. */
  function Run(s: Snapshot, ws: seq<Write>): Snapshot
    requires Defined(s, ws)
    decreases |ws|
  {
    if ws == [] then s else Run(Apply(s, ws[0]), ws[1..])
  }

  /**
   * What one assignment may lead to, for every assignment: its effect where
   * that is known, and otherwise (a null key applied onto a resource) a
   * change of the resource's key alone, the only field ApplyTo may write.
   */
  predicate Step(s: Snapshot, w: Write, s': Snapshot) {
    if Applicable(s, w) then s' == Apply(s, w)
    else s'.payload.Some? && s' == s.(payload := Some(s.payload.value.(key := s'.payload.value.key)))
  }

  /** What a sequence of assignments, made in order, may lead to. */
  ghost predicate Steps(s: Snapshot, ws: seq<Write>, s': Snapshot)
    decreases |ws|
  {
    if ws == [] then s' == s
    else exists m :: Step(s, ws[0], m) && Steps(m, ws[1..], s')
  }

  /**
   * Where every assignment has a known effect, the states a sequence may
   * lead to are exactly one: the result of Run.
   */
  lemma {:induction false} StepsAgreeWithRun(s: Snapshot, ws: seq<Write>, s': Snapshot)
    requires Defined(s, ws)
    ensures Steps(s, ws, s') <==> s' == Run(s, ws)
    decreases |ws|
  {
    if ws != [] {
      StepsAgreeWithRun(Apply(s, ws[0]), ws[1..], s');
      assert Step(s, ws[0], Apply(s, ws[0]));
    }
  }

  /** A resource (or null) as a value. */
  ghost function PayloadOf(r: Resource?): Option<PayloadView>
    reads r, if r == null then null else r.meta
  {
    if r == null then None
    else Some(PayloadView(r.key, if r.meta == null then None else Some(MetaView(r.meta.lastUpdated))))
  }

  /** The Meta block of a resource, as a frame (empty when either is null). */
  ghost function MetaFrame(r: Resource?): set<object>
    reads r
  {
    if r == null || r.meta == null then {} else {r.meta}
  }

  class Interaction {
    var resource: Resource?
    var verb: HttpVerb
    var state: InteractionState
    /** The private field behind Key, used only while there is no resource. */
    var localKey: Option<ResourceKey>
    /** The private field behind When, used when there is no resource or it has no Meta. */
    var localWhen: Option<Instant>

    /** The objects a read of this interaction may reach: itself, its resource and that resource's Meta. */
    ghost function Reach(): set<object>
      reads this, resource
    {
      {this} + (if resource == null then {} else {resource} + MetaFrame(resource))
    }

    /** This interaction as a value. */
    ghost function View(): Snapshot
      reads Reach()
    {
      Snapshot(verb, state, localKey, localWhen, PayloadOf(resource))
    }

    /** The Key getter. */
    function Key(): (k: Option<ResourceKey>)
      reads this, resource
      ensures k == KeyOf(View())
    {
      if resource != null then Some(resource.ExtractKey()) else localKey
    }

    /** The When getter. */
    function When(): (t: Option<Instant>)
      reads Reach()
      ensures t == WhenOf(View())
    {
      if resource != null && resource.meta != null then resource.meta.lastUpdated else localWhen
    }

    /** The IsDeleted getter. */
    function IsDeleted(): (d: bool)
      reads this
      ensures d <==> verb == DELETE
    {
      verb == DELETE
    }

    /** The IsPresent getter: always the negation of IsDeleted. */
    function IsPresent(): (p: bool)
      reads this
      ensures p == !IsDeleted()
    {
      verb != DELETE
    }

    /**
     * The Key setter. Without a resource the key is stored locally; with one
     * it is applied onto the resource, which callers sharing that resource
     * observe, and the local field is left alone. Applying a null key onto a
     * resource is left unspecified.
     */
    method SetKey(k: Option<ResourceKey>)
      modifies this`localKey, resource
      ensures resource == old(resource) && verb == old(verb) && state == old(state)
      ensures localWhen == old(localWhen)
      ensures resource == null ==> localKey == k
      ensures resource != null ==> localKey == old(localKey) && resource.meta == old(resource.meta)
      ensures k.Some? || resource == null ==> Key() == k
      ensures Applicable(old(View()), AssignKey(k)) ==> View() == Apply(old(View()), AssignKey(k))
      ensures Step(old(View()), AssignKey(k), View())
    {
      if resource != null {
        ApplyTo(k, resource);
      } else {
        localKey := k;
      }
    }

    /**
     * The When setter. With a resource it creates the resource's Meta block
     * when there is none and sets its LastUpdated; the local field is left
     * alone. Without a resource the timestamp is stored locally.
     */
    method SetWhen(t: Option<Instant>)
      modifies this`localWhen, resource, MetaFrame(resource)
      ensures resource == old(resource) && verb == old(verb) && state == old(state)
      ensures localKey == old(localKey)
      ensures resource == null ==> localWhen == t
      ensures resource != null ==> localWhen == old(localWhen) && resource.key == old(resource.key)
      ensures resource != null ==> resource.meta != null && resource.meta.lastUpdated == t
      ensures resource != null && old(resource.meta) != null ==> resource.meta == old(resource.meta)
      ensures resource != null && old(resource.meta) == null ==> fresh(resource.meta)
      ensures When() == t
      ensures View() == Apply(old(View()), AssignWhen(t))
    {
      if resource != null {
        if resource.meta == null {
          resource.meta := new Meta();
        }
        resource.meta.lastUpdated := t;
      } else {
        localWhen := t;
      }
    }

    /**
     * The Resource setter: a plain field write. The local key and timestamp
     * are not copied onto the new resource, and the resource is not touched.
     */
    method SetResource(r: Resource?)
      modifies this`resource
      ensures resource == r
      ensures r != null ==> Key() == Some(r.key)
      ensures View() == Apply(old(View()), AssignResource(PayloadOf(r)))
    {
      resource := r;
    }

    /** The Method setter. */
    method SetMethod(v: HttpVerb)
      modifies this`verb
      ensures View() == Apply(old(View()), AssignMethod(v))
    {
      verb := v;
    }

    /** The State setter. */
    method SetState(st: InteractionState)
      modifies this`state
      ensures View() == Apply(old(View()), AssignState(st))
    {
      state := st;
    }

    /**
     * The IsDeleted setter. Whatever value is assigned, even false, the verb
     * becomes DELETE and the resource is dropped; the local key and
     * timestamp, which the getters now read, are not refreshed from it.
     */
    method SetIsDeleted(value: bool)
      modifies this`verb, this`resource
      ensures verb == DELETE && resource == null && IsDeleted()
      ensures Key() == localKey == old(localKey) && When() == localWhen == old(localWhen)
      ensures View() == Apply(old(View()), AssignDeleted(value))
    {
      verb := DELETE;
      resource := null;
    }

    /**
     * The private constructor behind every factory. With a resource the key
     * is applied onto it; otherwise it is stored locally. The timestamp is
     * `when`, or the clock reading `now` when `when` is null, and is set
     * through the When setter. The state starts out Undefined.
     */
    constructor Make(verb: HttpVerb, key: Option<ResourceKey>, when: Option<Instant>, resource: Resource?, now: Instant)
      modifies resource, MetaFrame(resource)
      ensures this.resource == resource && this.verb == verb && state == Undefined
      ensures resource == null ==> localKey == key && localWhen == Some(when.GetOr(now))
      ensures resource != null ==> localKey == None && localWhen == None
      ensures resource != null && key.Some? ==> resource.key == key.value
      ensures resource != null ==> resource.meta != null && resource.meta.lastUpdated == Some(when.GetOr(now))
      ensures resource != null && old(resource.meta) != null ==> resource.meta == old(resource.meta)
      ensures resource != null && old(resource.meta) == null ==> fresh(resource.meta)
      ensures key.Some? || resource == null ==> Key() == key
      ensures When() == Some(when.GetOr(now))
    {
      this.resource := null;
      localKey := None;
      localWhen := None;
      this.verb := verb;
      state := Undefined;
      new;
      if resource != null {
        ApplyTo(key, resource);
      } else {
        SetKey(key);
      }
      this.resource := resource;
      this.verb := verb;
      SetWhen(Some(when.GetOr(now)));
      state := Undefined;
    }

    /** Create(method, resource): no key is given; `now` is the clock. */
    static method Create(verb: HttpVerb, resource: Resource?, now: Instant) returns (i: Interaction)
      modifies resource, MetaFrame(resource)
      ensures fresh(i) && i.resource == resource && i.verb == verb && i.state == Undefined
      ensures resource == null ==> i.Key() == None
      ensures i.When() == Some(now)
      ensures resource != null ==> resource.meta != null && resource.meta.lastUpdated == Some(now)
      ensures resource != null ==> i.localKey == None && i.localWhen == None
      ensures resource != null && old(resource.meta) != null ==> resource.meta == old(resource.meta)
      ensures resource != null && old(resource.meta) == null ==> fresh(resource.meta)
    {
      i := new Interaction.Make(verb, None, None, resource, now);
    }

    /** Create(method, key, resource): the key is applied onto the resource; `now` is the clock. */
    static method CreateKeyed(verb: HttpVerb, key: Option<ResourceKey>, resource: Resource?, now: Instant) returns (i: Interaction)
      modifies resource, MetaFrame(resource)
      ensures fresh(i) && i.resource == resource && i.verb == verb && i.state == Undefined
      ensures key.Some? || resource == null ==> i.Key() == key
      ensures resource != null && key.Some? ==> resource.key == key.value
      ensures i.When() == Some(now)
      ensures resource != null ==> resource.meta != null && resource.meta.lastUpdated == Some(now)
      ensures resource != null ==> i.localKey == None && i.localWhen == None
      ensures resource != null && old(resource.meta) != null ==> resource.meta == old(resource.meta)
      ensures resource != null && old(resource.meta) == null ==> fresh(resource.meta)
    {
      i := new Interaction.Make(verb, key, None, resource, now);
    }

    /** Create(method, key, when): an interaction without a resource, stamped `when`; the clock is not consulted. */
    static method CreateAt(verb: HttpVerb, key: Option<ResourceKey>, when: Instant) returns (i: Interaction)
      ensures fresh(i) && i.resource == null && i.verb == verb && i.state == Undefined
      ensures i.localKey == key && i.Key() == key
      ensures i.localWhen == Some(when) && i.When() == Some(when)
    {
      // `when` is never null here, so the constructor's clock argument is not used.
      i := new Interaction.Make(verb, key, Some(when), null, when);
    }

    /** DELETE(key, when): the timestamp is the UTC clock `utcNow`; `when` is ignored. */
    static method Delete(key: Option<ResourceKey>, when: Option<Instant>, utcNow: Instant) returns (i: Interaction)
      ensures fresh(i) && i.resource == null && i.verb == DELETE && i.IsDeleted() && i.state == Undefined
      ensures i.Key() == key
      ensures i.When() == Some(utcNow)
    {
      i := CreateAt(DELETE, key, utcNow);
    }

    /** POST(key, resource). */
    static method PostKeyed(key: Option<ResourceKey>, resource: Resource?, now: Instant) returns (i: Interaction)
      modifies resource, MetaFrame(resource)
      ensures fresh(i) && i.resource == resource && i.verb == POST && i.IsPresent() && i.state == Undefined
      ensures key.Some? || resource == null ==> i.Key() == key
      ensures i.When() == Some(now)
      ensures resource != null ==> i.localKey == None && i.localWhen == None
      ensures resource != null && old(resource.meta) != null ==> resource.meta == old(resource.meta)
      ensures resource != null && old(resource.meta) == null ==> fresh(resource.meta)
    {
      i := CreateKeyed(POST, key, resource, now);
    }

    /** POST(resource). */
    static method Post(resource: Resource?, now: Instant) returns (i: Interaction)
      modifies resource, MetaFrame(resource)
      ensures fresh(i) && i.resource == resource && i.verb == POST && i.IsPresent() && i.state == Undefined
      ensures resource == null ==> i.Key() == None
      ensures i.When() == Some(now)
      ensures resource != null ==> resource.meta != null
      ensures resource != null ==> i.localKey == None && i.localWhen == None
      ensures resource != null && old(resource.meta) != null ==> resource.meta == old(resource.meta)
      ensures resource != null && old(resource.meta) == null ==> fresh(resource.meta)
    {
      i := Create(POST, resource, now);
    }

    /** PUT(key, resource). */
    static method Put(key: Option<ResourceKey>, resource: Resource?, now: Instant) returns (i: Interaction)
      modifies resource, MetaFrame(resource)
      ensures fresh(i) && i.resource == resource && i.verb == PUT && i.IsPresent() && i.state == Undefined
      ensures key.Some? || resource == null ==> i.Key() == key
      ensures resource != null && key.Some? ==> resource.key == key.value
      ensures i.When() == Some(now)
      ensures resource != null ==> i.localKey == None && i.localWhen == None
      ensures resource != null && old(resource.meta) != null ==> resource.meta == old(resource.meta)
      ensures resource != null && old(resource.meta) == null ==> fresh(resource.meta)
    {
      i := CreateKeyed(PUT, key, resource, now);
    }
  }
}
