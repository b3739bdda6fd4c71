# Interaction: one entry of a FHIR bundle, modelled in Dafny

Spark's `Interaction` (`src/Spark.Engine/Core/Interaction.cs`) is one entry of an
HL7 FHIR bundle. It holds an HTTP verb (`Bundle.HTTPVerb`, the entry's
`request.method`), an optional `Resource` payload, a key, a timestamp and a
pipeline tag, `InteractionState`.

Key and When are the interesting part. Each is either a field or a delegate:

- With no resource, `Key` and `When` read and write two private fields, `_key` and `_when`.
- With a resource, `Key` is read by `ExtractKey` and written by `ApplyTo` on the resource.
- With a resource, writing `When` creates the resource's `Meta` block if it is missing, then sets `Meta.LastUpdated`.
- `When` reads `Meta.LastUpdated` only when the resource AND its `Meta` exist. Otherwise it reads `_when`.

The project has these files:

- `wrappers.dfy`: `Option`, which stands for C#'s nullable references and `DateTimeOffset?`.
- `fhir.dfy`: the parts of the FHIR model that an interaction touches:
  - `HttpVerb`, the `ResourceKey` value and `Instant` (ticks).
  - The classes `Meta` (with `lastUpdated`) and `Resource` (with a key and a nullable `Meta`).
  - The key extensions `ExtractKey` (reads the resource's key) and `ApplyTo` (writes it).
- `interaction.dfy`, module `Core`, in two parts:
  - The value-level specification: `Snapshot` (an interaction as a value), `KeyOf` and `WhenOf` (what the getters read), `Write` (one property assignment), `Apply` (its effect), `Run` (a sequence of assignments), and `Step` and `Steps` (what an assignment, or a sequence of them, may lead to when an effect is not stated).
  - The class `Interaction` itself. It has the source's fields, the getters as functions and every setter as a method. The private constructor is `Make`, and the static factories wrap it.
  - Each setter's contract states the new fields directly. It also states `View() == Apply(old(View()), …)`, which carries the laws below over to the class; `KeyWriteSurvivesLaterWrites` shows a client doing so.
- `interaction_laws.dfy`: laws about single assignments and, by induction, about whole sequences of assignments.
- `interaction_examples.dfy`: client scenarios. Each one is proved from the factory and setter contracts alone.

The clocks `DateTimeOffset.Now` (constructor, line 81) and `DateTimeOffset.UtcNow`
(`DELETE`, line 106) are parameters: `now` and `utcNow`.

Three behaviours of the code are easy to miss, and the model keeps them as written:

- The Key setter stores any key, null included, when there is no resource (line 31). `SetKey` does the same.
- On the resource path a null key reaches `ApplyTo` (line 73, reached from line 88). The effect of that call is left unspecified. At the value level, `Apply` and `Run` are defined wherever the effect is known: `Applicable` excludes exactly this one assignment, and `Defined` says a sequence of assignments avoids it. The relations `Step` and `Steps` cover every assignment: in the excluded case the resource's key may become any key and nothing else changes. Every law about whole sequences covers all of its sequences: either it proves `Defined` for them, or it is stated over `Steps`.
- `_key` and `_when` keep their values while a resource is attached. They are only hidden, and they become visible again once the resource is dropped (see `DeletedFlagIgnoresValue` and `DeletedPostForgetsKey`).

## Model

| member | source | states |
|---|---|---|
| `Fhir.ApplyTo` | src/Spark.Engine/Core/Interaction.cs:27 | Applying a non-null key makes the resource's key read back as that key. Only the resource's identity may change. |
| `Core.Interaction.Key` | src/Spark.Engine/Core/Interaction.cs:11-22 | The Key getter reads exactly `KeyOf` of the interaction's state: the resource's key if there is a resource, else `_key`. |
| `Core.Interaction.When` | src/Spark.Engine/Core/Interaction.cs:38-50 | The When getter reads exactly `WhenOf`: `LastUpdated` only when the resource and its Meta both exist, else `_when`. |
| `Core.Interaction.IsDeleted` | src/Spark.Engine/Core/Interaction.cs:109-114 | IsDeleted holds exactly when the verb is DELETE. |
| `Core.Interaction.IsPresent` | src/Spark.Engine/Core/Interaction.cs:123-129 | IsPresent is the negation of IsDeleted in every state. |
| `Core.Interaction.SetKey` | src/Spark.Engine/Core/Interaction.cs:23-33 | With no resource, the key goes to `_key`, null included. With a resource, a non-null key goes onto the resource and `_key` and Meta are unchanged. The key written reads back, and every write whose effect is known is `Apply` of `AssignKey`. Every write, a null key onto a resource included, is a `Step`: at most the resource's key changes. Nothing else changes. |
| `Core.Interaction.SetWhen` | src/Spark.Engine/Core/Interaction.cs:51-62 | With a resource, Meta is created when null (a fresh object) or kept, `LastUpdated := t`, and `_when` and the key are unchanged. With no resource, `_when := t`. A following read returns `t`. |
| `Core.Interaction.SetResource` | src/Spark.Engine/Core/Interaction.cs:35 | Assigning the resource is a plain field write. Nothing is copied onto the resource, and Key then reads the resource's own key. |
| `Core.Interaction.SetMethod` | src/Spark.Engine/Core/Interaction.cs:36 | Only the verb changes. |
| `Core.Interaction.SetState` | src/Spark.Engine/Core/Interaction.cs:64 | Only the state changes. |
| `Core.Interaction.SetIsDeleted` | src/Spark.Engine/Core/Interaction.cs:115-120 | Whatever value is assigned, the verb becomes DELETE and the resource null. `_key`, `_when` and State are unchanged, and Key and When now read `_key` and `_when`. |
| `Core.Interaction.Make` | src/Spark.Engine/Core/Interaction.cs:69-83 | After construction, State is Undefined, Method is the given verb, the resource is the given one, and When reads `when`, or `now` when `when` is null. With a resource, the key is applied onto it, its Meta holds the timestamp and the private fields stay null. With no resource, Key reads the given key from `_key`. |
| `Core.Interaction.Create` | src/Spark.Engine/Core/Interaction.cs:86-89 | No key is given. With no resource, Key reads null. When reads the clock. |
| `Core.Interaction.CreateKeyed` | src/Spark.Engine/Core/Interaction.cs:91-94 | A non-null key is applied onto the resource and reads back. When reads the clock. |
| `Core.Interaction.CreateAt` | src/Spark.Engine/Core/Interaction.cs:96-99 | There is no resource. Key and When read back the given key and time from the private fields. |
| `Core.Interaction.Delete` | src/Spark.Engine/Core/Interaction.cs:104-107 | The result has verb DELETE, no resource and the given key. When is the UTC clock reading, whatever `when` was passed. |
| `Core.Interaction.PostKeyed` | src/Spark.Engine/Core/Interaction.cs:131-134 | The verb is POST, the state Undefined and the given resource is carried. A non-null key, or any key when there is no resource, reads back. When reads the clock. |
| `Core.Interaction.Post` | src/Spark.Engine/Core/Interaction.cs:136-139 | The verb is POST, the state Undefined, the given resource is carried, Meta exists afterwards and When reads the clock. |
| `Core.Interaction.Put` | src/Spark.Engine/Core/Interaction.cs:141-144 | The verb is PUT, the state Undefined and the given resource is carried. A non-null key overwrites the resource's own key and reads back. With no resource, any key, null included, reads back. When reads the clock. |
| `Core.StepsAgreeWithRun` | src/Spark.Engine/Core/Interaction.cs:23-64 | Where every write of a sequence has a known effect, the one state its steps can reach is the result of `Run`, in both directions. |
| `InteractionLaws.KeyWriteReadsBack` | src/Spark.Engine/Core/Interaction.cs:11-34 | Writing a key then reading it returns that key, null included when there is no resource. With a resource, the key lands on it and `_key` is untouched. With no resource, `_key` holds the key and no resource appears. |
| `InteractionLaws.WhenWriteReadsBack` | src/Spark.Engine/Core/Interaction.cs:38-63 | Writing When then reading it returns the value. With a resource, its Meta now holds it and `_when` is untouched. |
| `InteractionLaws.WhenFallsBackWithoutMeta` | src/Spark.Engine/Core/Interaction.cs:42-49 | With a resource that has no Meta, When reads `_when`, not null. |
| `InteractionLaws.ResourceAssignmentDoesNotMigrate` | src/Spark.Engine/Core/Interaction.cs:35 | Attaching a resource leaves it as given, Key reads its key, and `_key` and `_when` stay as they were. |
| `InteractionLaws.DeletedFlagIgnoresValue` | src/Spark.Engine/Core/Interaction.cs:115-120 | Assigning true or false to IsDeleted gives the same state: DELETE, no resource, State kept, and Key and When falling back to `_key` and `_when`. |
| `InteractionLaws.LocalStorageInert` | src/Spark.Engine/Core/Interaction.cs:23-33 | While a resource stays attached, no sequence of Key, When, Method or State writes changes `_key` or `_when`. This holds for every sequence of steps, null keys written onto the resource included. |
| `InteractionLaws.KeyUntouched` | src/Spark.Engine/Core/Interaction.cs:11-34 | Every sequence of When, Method or State writes has a defined effect and leaves what Key reads unchanged. |
| `InteractionLaws.WhenUntouched` | src/Spark.Engine/Core/Interaction.cs:38-63 | No sequence of Key, Method or State writes changes what When reads. This holds for every sequence of steps, null keys written onto a resource included. |
| `InteractionLaws.KeyReadsLastWrite` | src/Spark.Engine/Core/Interaction.cs:11-34 | Key reads the last key written, null included when there is no resource, across any later When, Method or State writes, and every write in that sequence has a defined effect. |
| `InteractionLaws.WhenReadsLastWrite` | src/Spark.Engine/Core/Interaction.cs:38-63 | When reads the last timestamp written, across any later Key, Method or State writes. This holds for every sequence of steps, null keys written onto a resource included. |
| `InteractionLaws.DeletionLeavesNoResource` | src/Spark.Engine/Core/Interaction.cs:115-120 | After IsDeleted is assigned, there is no resource until one is assigned again, so Key and When read only the private fields. |
| `InteractionLaws.StaysWithoutResource` | src/Spark.Engine/Core/Interaction.cs:35 | Without a resource, every sequence of writes that assigns no resource has a defined effect, and no resource appears. |
| `InteractionExamples.PostStampsConstructionTime` | src/Spark.Engine/Core/Interaction.cs:136-139 | POST of a resource with no Meta: When reads the construction time, and the resource now has a Meta block. |
| `InteractionExamples.PutOverwritesResourceKey` | src/Spark.Engine/Core/Interaction.cs:141-144 | PUT with a key over a resource carrying another key: Key reads the given key, and the resource's own key is overwritten. |
| `InteractionExamples.DeletedPostForgetsKey` | src/Spark.Engine/Core/Interaction.cs:115-120 | After POST with a key, assigning IsDeleted := false still deletes, and Key then reads null: the key lived only on the dropped resource. |
| `InteractionExamples.SharedResourceSeesKeyWrite` | src/Spark.Engine/Core/Interaction.cs:25-28 | Two interactions share a resource: a Key written through one is read through the other. |
| `InteractionExamples.AttachedResourceHidesLocalKey` | src/Spark.Engine/Core/Interaction.cs:35-49 | Give a Meta-less resource to an interaction built without one. Key then reads the resource's own key, which the old local key does not overwrite, while When still reads the local timestamp. |
| `InteractionExamples.KeyWriteSurvivesLaterWrites` | src/Spark.Engine/Core/Interaction.cs:23-64 | On one interaction with a resource, a Key write followed by When, Method and State writes is one `Run` of assignments, so Key still reads the key written. |
| `InteractionExamples.NullKeyWriteKeepsWhen` | src/Spark.Engine/Core/Interaction.cs:23-62 | On one interaction with a resource, a When write followed by a null Key write leaves When reading the timestamp written, whatever the null key does to the resource. |
| `InteractionExamples.DeleteIgnoresWhen` | src/Spark.Engine/Core/Interaction.cs:104-107 | DELETE stamps the UTC clock reading, whatever `when` it is given, and keeps the key. |

## Left out

- Fhir.ApplyTo: the contract says nothing about a null key. The extension's code is not part of this model, and in C# it may well throw.
- Core.Interaction.SetKey: with a resource and a null key, the resource's key afterwards is unspecified. For that case the contract gives a `Step`, not an `Apply` equation: any key may result, and nothing else changes.
- InteractionLaws.KeyWriteReadsBack: does not cover a null key written onto a resource, because `ApplyTo`'s effect there is unspecified. A null key written with no resource is covered.
- InteractionLaws.KeyReadsLastWrite: does not cover a null key written onto a resource, for the same reason.
- Core.Interaction.Make: when the resource is non-null and the key null, the resource's key afterwards is unspecified, for the same reason.
- Core.Interaction.Create: with a resource, what Key reads afterwards is unspecified, because line 88 applies a null key.
- Core.Interaction.Post: with a resource, what Key reads afterwards is unspecified, for the same reason.
- `ExtractKey` and `ApplyTo` internals: the model reduces them to a read and a write of one key field, so a key that is applied reads back unchanged. The real extensions map key parts onto the resource's id, version and base.
- Fhir.ApplyTo: the model assumes that applying a key never touches the resource's Meta block. In FHIR a resource's version lives in `Meta`, so the real extension might create or change Meta, and When would then read that Meta's `LastUpdated` instead of `_when`. These members depend on the assumption:
  - `Core.Interaction.SetKey`, which keeps `resource.meta`.
  - `Core.Interaction.Make` and the factories, which state the resource's Meta after construction.
  - `Core.Step`, which lets a null key onto a resource change only the resource's key.
  - `InteractionLaws.LocalStorageInert`, `InteractionLaws.WhenUntouched` and `InteractionLaws.WhenReadsLastWrite`, across Key writes.
- The FHIR object model beyond a resource's key and `Meta.LastUpdated`: other Meta elements, resource content and `Bundle`. `HttpVerb` has the four verbs GET, POST, PUT and DELETE.
- Clocks: `DateTimeOffset.Now` and `DateTimeOffset.UtcNow` are plain `Instant` parameters. There are no time zones or offsets.
- `ToString` (lines 151-154): it is diagnostic text formatting and depends on a foreign `ToString`.
- The commented-out `GET` factory (lines 146-149): it is not live code.
- Exceptions: the model has no exceptions, such as a `NullReferenceException` from a null key.
- The laws in `InteractionLaws` assume one owner per resource. Aliasing between interactions is covered at the class level instead, by the setters' heap contracts and `SharedResourceSeesKeyWrite`.
