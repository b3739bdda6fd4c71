/**
 * Laws of the Key/When delegation, stated on interactions as values: what a
 * single property assignment does, and what holds along any sequence of
 * assignments.
 */
module InteractionLaws {
  import opened Wrappers
  import opened Fhir
  import opened Core

  /** An assignment that leaves the resource in place. */
  predicate KeepsResource(w: Write) {
    !w.AssignResource? && !w.AssignDeleted?
  }

  /** An assignment that cannot change what Key reads. */
  predicate KeepsKey(w: Write) {
    KeepsResource(w) && !w.AssignKey?
  }

  /** An assignment that cannot change what When reads. */
  predicate KeepsWhen(w: Write) {
    KeepsResource(w) && !w.AssignWhen?
  }

  // ---------------------------------------------------------------------
  // One assignment
  // ---------------------------------------------------------------------

  /**
   * Writing Key then reading it gives the key back, null included when
   * there is no resource. With a resource, the write lands on the resource
   * and the local field is untouched; without one, no resource appears.
   */
  lemma KeyWriteReadsBack(s: Snapshot, k: Option<ResourceKey>)
    requires Applicable(s, AssignKey(k))
    ensures KeyOf(Apply(s, AssignKey(k))) == k
    ensures s.payload.Some? ==>
      Apply(s, AssignKey(k)).localKey == s.localKey && Apply(s, AssignKey(k)).payload.value.key == k.value
    ensures s.payload.None? ==>
      Apply(s, AssignKey(k)).localKey == k && Apply(s, AssignKey(k)).payload.None?
  {
  }

  /**
   * Writing When then reading it gives the timestamp back. With a resource,
   * the resource ends up with a Meta block holding it and the local field is
   * untouched.
   */
  lemma WhenWriteReadsBack(s: Snapshot, t: Option<Instant>)
    ensures WhenOf(Apply(s, AssignWhen(t))) == t
    ensures s.payload.Some? ==>
      Apply(s, AssignWhen(t)).localWhen == s.localWhen &&
      Apply(s, AssignWhen(t)).payload == Some(s.payload.value.(meta := Some(MetaView(t))))
    ensures s.payload.None? ==> Apply(s, AssignWhen(t)).payload.None?
  {
  }

  /** With a resource that has no Meta block, When reads the local timestamp, not null. */
  lemma WhenFallsBackWithoutMeta(s: Snapshot)
    requires s.payload.Some? && s.payload.value.meta.None?
    ensures WhenOf(s) == s.localWhen
  {
  }

  /**
   * Attaching a resource copies nothing onto it: the resource is exactly the
   * one attached, Key now reads the resource's own key, and the local key
   * and timestamp stay as they were, hidden.
   */
  lemma ResourceAssignmentDoesNotMigrate(s: Snapshot, p: PayloadView)
    ensures Apply(s, AssignResource(Some(p))).payload == Some(p)
    ensures KeyOf(Apply(s, AssignResource(Some(p)))) == Some(p.key)
    ensures Apply(s, AssignResource(Some(p))).localKey == s.localKey
    ensures Apply(s, AssignResource(Some(p))).localWhen == s.localWhen
  {
  }

  /**
   * Assigning IsDeleted ignores the value assigned: true and false both make
   * the verb DELETE and drop the resource. The state is kept, and Key and
   * When fall back to whatever the local fields held, not to the dropped
   * resource's key and timestamp.
   */
  lemma DeletedFlagIgnoresValue(s: Snapshot, b: bool)
    ensures Apply(s, AssignDeleted(b)) == Apply(s, AssignDeleted(!b))
    ensures Apply(s, AssignDeleted(b)).verb == DELETE
    ensures Apply(s, AssignDeleted(b)).payload.None?
    ensures Apply(s, AssignDeleted(b)).state == s.state
    ensures KeyOf(Apply(s, AssignDeleted(b))) == s.localKey
    ensures WhenOf(Apply(s, AssignDeleted(b))) == s.localWhen
  {
  }

  // ---------------------------------------------------------------------
  // Sequences of assignments
  // ---------------------------------------------------------------------

  /**
   * While a resource stays attached, the local key and timestamp are dead:
   * no sequence of Key, When, Method or State assignments changes them,
   * whatever a null key applied onto the resource does to it.
   */
  lemma {:induction false} LocalStorageInert(s: Snapshot, ws: seq<Write>, s': Snapshot)
    requires s.payload.Some?
    requires forall i :: 0 <= i < |ws| ==> KeepsResource(ws[i])
    requires Steps(s, ws, s')
    ensures s'.payload.Some?
    ensures s'.localKey == s.localKey && s'.localWhen == s.localWhen
    decreases |ws|
  {
    if ws != [] {
      var m :| Step(s, ws[0], m) && Steps(m, ws[1..], s');
      LocalStorageInert(m, ws[1..], s');
    }
  }

  /**
   * Assignments to When, Method and State always have a defined result and
   * never change what Key reads.
   */
  lemma {:induction false} KeyUntouched(s: Snapshot, ws: seq<Write>)
    requires forall i :: 0 <= i < |ws| ==> KeepsKey(ws[i])
    ensures Defined(s, ws) && KeyOf(Run(s, ws)) == KeyOf(s)
    decreases |ws|
  {
    if ws != [] {
      KeyUntouched(Apply(s, ws[0]), ws[1..]);
    }
  }

  /**
   * Assignments to Key, Method and State never change what When reads,
   * whatever a null key applied onto a resource does to it.
   */
  lemma {:induction false} WhenUntouched(s: Snapshot, ws: seq<Write>, s': Snapshot)
    requires forall i :: 0 <= i < |ws| ==> KeepsWhen(ws[i])
    requires Steps(s, ws, s')
    ensures WhenOf(s') == WhenOf(s)
    decreases |ws|
  {
    if ws != [] {
      var m :| Step(s, ws[0], m) && Steps(m, ws[1..], s');
      WhenUntouched(m, ws[1..], s');
    }
  }

  /**
   * Key reads the last key written (null included when there is no
   * resource), whatever When, Method and State assignments follow, as long
   * as the resource is neither replaced nor dropped.
   */
  lemma {:induction false} KeyReadsLastWrite(s: Snapshot, k: Option<ResourceKey>, ws: seq<Write>)
    requires Applicable(s, AssignKey(k))
    requires forall i :: 0 <= i < |ws| ==> KeepsKey(ws[i])
    ensures Defined(s, [AssignKey(k)] + ws) && KeyOf(Run(s, [AssignKey(k)] + ws)) == k
  {
    assert ([AssignKey(k)] + ws)[1..] == ws;
    KeyUntouched(Apply(s, AssignKey(k)), ws);
  }

  /**
   * When reads the last timestamp written, whatever Key, Method and State
   * assignments follow, null keys onto the resource included, as long as
   * the resource is neither replaced nor dropped.
   */
  lemma {:induction false} WhenReadsLastWrite(s: Snapshot, t: Option<Instant>, ws: seq<Write>, s': Snapshot)
    requires forall i :: 0 <= i < |ws| ==> KeepsWhen(ws[i])
    requires Steps(s, [AssignWhen(t)] + ws, s')
    ensures WhenOf(s') == t
  {
    assert ([AssignWhen(t)] + ws)[0] == AssignWhen(t) && ([AssignWhen(t)] + ws)[1..] == ws;
    var m :| Step(s, AssignWhen(t), m) && Steps(m, ws, s');
    WhenUntouched(m, ws, s');
  }

  /**
   * Once IsDeleted has been assigned, the interaction has no resource until
   * one is assigned again, so Key and When read local storage only.
   */
  lemma {:induction false} DeletionLeavesNoResource(s: Snapshot, b: bool, ws: seq<Write>)
    requires forall i :: 0 <= i < |ws| ==> !ws[i].AssignResource?
    ensures Defined(s, [AssignDeleted(b)] + ws)
    ensures Run(s, [AssignDeleted(b)] + ws).payload.None?
    ensures KeyOf(Run(s, [AssignDeleted(b)] + ws)) == Run(s, [AssignDeleted(b)] + ws).localKey
    ensures WhenOf(Run(s, [AssignDeleted(b)] + ws)) == Run(s, [AssignDeleted(b)] + ws).localWhen
  {
    assert ([AssignDeleted(b)] + ws)[1..] == ws;
    StaysWithoutResource(Apply(s, AssignDeleted(b)), ws);
  }

  /**
   * Without a resource and with no resource assigned, every assignment has
   * a defined result and no resource appears.
   */
  lemma {:induction false} StaysWithoutResource(s: Snapshot, ws: seq<Write>)
    requires s.payload.None?
    requires forall i :: 0 <= i < |ws| ==> !ws[i].AssignResource?
    ensures Defined(s, ws) && Run(s, ws).payload.None?
    decreases |ws|
  {
    if ws != [] {
      StaysWithoutResource(Apply(s, ws[0]), ws[1..]);
    }
  }
}
