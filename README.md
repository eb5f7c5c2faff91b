# SD-JWT array-element disclosure in Dafny

This project models `UndisclosedArrayElement` from the `de.adorsys.sdjwt` Java
library. That class is the disclosure for one hidden array element in Selective
Disclosure for JWTs (draft-ietf-oauth-selective-disclosure-jwt, "Disclosures for
Array Elements"). The model covers:

- the disclosure itself: a salt and a JSON element, held in fields that are
  never reassigned (datatype `SdJwt.UndisclosedArrayElement`);
- its wire array form `[salt, element]` (`ToArray`);
- the placeholder `{"...": digest}` shown in the array instead of the hidden
  element (`VisibleValue`);
- the mutable `Builder`: its two fluent setters, and `build`. `build` throws
  when no element was set. When no salt was set, it draws a random salt and
  writes it back into the builder.

Files:

- `Wrappers.dfy`: `Option`, which stands for a Java reference that may be null,
  and `Result`, which stands for a call that may throw.
- `Json.dfy`: the JSON tree (Jackson's `JsonNode`), with an object held as
  the ordered list of its members, as an `ObjectNode` keeps them in insertion
  order; `Occurs` says that one value is nested inside another.
- `UndisclosedArrayElement.dfy`: module `SdJwt`, the core.

Two collaborators are parameters. The digest primitive is a function `hash`
from a disclosure's array form and a hash-algorithm name to a digest string;
`SdJwt.Digest` applies it to a disclosure, standing in for the inherited
`getDisclosureDigest`.
The salt generator's output is the `randomSalt` argument of `Build`. Java
`null` is `None`. A JSON `null` element is `Some(Null)`, which `build`
accepts, as `Objects.requireNonNull` does.

A chain of setter calls is modelled as a sequence of `Setter` values.
`Replay` applies them left to right. `ReplayKeepsLastWrite` proves by
induction that each field ends up holding what the last call to its own
setter passed.

## Model

| member | source | states |
|---|---|---|
| `SdJwt.ToArray` | src/main/java/de/adorsys/sdjwt/UndisclosedArrayElement.java:26-29 | the array form has exactly two elements and reads back as the same disclosure: salt string first, element second |
| `SdJwt.ArrayElementDisclosureOf` | src/main/java/de/adorsys/sdjwt/UndisclosedArrayElement.java:27-29 | an array reads back as a disclosure exactly when it has two elements and the first is a string (the inverse of the array form) |
| `SdJwt.ArrayFormRoundTrip` | src/main/java/de/adorsys/sdjwt/UndisclosedArrayElement.java:27-29 | every array that reads back as a disclosure is that disclosure's array form |
| `SdJwt.ToArrayInjective` | src/main/java/de/adorsys/sdjwt/UndisclosedArrayElement.java:27-29 | distinct disclosures have distinct array forms, so the array form loses neither salt nor element |
| `SdJwt.VisibleValue` | src/main/java/de/adorsys/sdjwt/UndisclosedArrayElement.java:13-24 | the visible value is an object with exactly one member, named by the literal `"..."` and holding the digest under `hashAlg`; it reads back as a placeholder carrying that digest |
| `SdJwt.PlaceholderDigest` | src/main/java/de/adorsys/sdjwt/UndisclosedArrayElement.java:22-24 | a value is recognised as a placeholder only when it is an object with the single member `"..."` holding a string, which is the digest it yields |
| `SdJwt.PlaceholderIsVisibleValue` | src/main/java/de/adorsys/sdjwt/UndisclosedArrayElement.java:22-24 | any placeholder carrying the digest of a disclosure equals that disclosure's visible value |
| `SdJwt.VisibleValueHidesElement` | src/main/java/de/adorsys/sdjwt/UndisclosedArrayElement.java:23 | the only values nested in the visible value are the placeholder itself and the digest string, so the hidden element appears only if it coincides with one of them |
| `SdJwt.VisibleValueDependsOnlyOnDigest` | src/main/java/de/adorsys/sdjwt/UndisclosedArrayElement.java:23 | two disclosures with the same digest have the same visible value |
| `SdJwt.BuildStep` | src/main/java/de/adorsys/sdjwt/UndisclosedArrayElement.java:45-49 | build fails with NullPointerException "arrayElement must not be null" exactly when no element is set, and then changes nothing. Otherwise it keeps a set salt, or uses the generated one and stores it in the builder, and carries exactly the element set |
| `SdJwt.BuildIsRepeatable` | src/main/java/de/adorsys/sdjwt/UndisclosedArrayElement.java:47 | a second build on the same builder has the same outcome as the first, whatever salt the generator would give: after a success the salt was written back, after a failure nothing changed |
| `SdJwt.Apply` | src/main/java/de/adorsys/sdjwt/UndisclosedArrayElement.java:35-43 | one setter call: the setter's own field takes the value passed and the other field is untouched |
| `SdJwt.ReplayKeepsLastWrite` | src/main/java/de/adorsys/sdjwt/UndisclosedArrayElement.java:35-43 | after any chain of setter calls, each field holds the value from the last call to its own setter, or its earlier value if that setter was never called |
| `SdJwt.BuildAfterSetters` | src/main/java/de/adorsys/sdjwt/UndisclosedArrayElement.java:35-54 | a new builder, then any setter chain, then build: fails exactly when the last element set is null or none was set; otherwise carries the last element set and the last salt set, or the generated salt |
| `SdJwt.Builder.constructor` | src/main/java/de/adorsys/sdjwt/UndisclosedArrayElement.java:31-33 | a new builder has a null salt and a null element |
| `SdJwt.Builder.WithSalt` | src/main/java/de/adorsys/sdjwt/UndisclosedArrayElement.java:35-38 | sets the salt, leaves the element unchanged, returns the same builder |
| `SdJwt.Builder.WithArrayElement` | src/main/java/de/adorsys/sdjwt/UndisclosedArrayElement.java:40-43 | sets the element, leaves the salt unchanged, returns the same builder |
| `SdJwt.Builder.Build` | src/main/java/de/adorsys/sdjwt/UndisclosedArrayElement.java:45-49 | result and new builder fields are those of `BuildStep`: failure exactly when the element is null; on success, the builder's salt is the salt used |
| `SdJwt.NewBuilder` | src/main/java/de/adorsys/sdjwt/UndisclosedArrayElement.java:52-54 | returns a new builder with both fields null |

## Left out

- The digest computation and `getSaltAsString` belong to the superclass `Disclosable`, which is not part of this model. The digest is the caller-supplied function `hash` applied to the array form and the algorithm name. JSON serialisation, base64url encoding and the hash algorithms are not modelled.
- Random salt generation (`SdJwtUtils.randomSalt`) is not modelled. `Build` takes the generated salt as its `randomSalt` argument, and the model says nothing about its entropy.
- The internals of `SdJwtSalt` are not modelled. A salt is just its string form.
- JSON numbers are integers. Floating-point and the other Jackson node kinds are not modelled. The core only carries the element and passes it to the digest, which is a parameter here, so the kind of number makes no difference to what is proved.
- Sharing and mutation of the element are not modelled. The field holding the element is never reassigned, but the `JsonNode` it refers to may be an object or array node that the caller still holds. Changing that node after `build` changes what `toArray` and `getVisibleValue` return. The model treats the element as a value, so it assumes the node is not changed after `build`.
- Objects with a repeated member name are not excluded by the `Json` type. `DistinctNames` states the `ObjectNode` rule, and the placeholder satisfies it.
- Object identity is not modelled. Each Java `build` call returns a new object, while the model returns a value, so two builds with equal fields give equal values.
- The verification engine (`SdJwtVP.verify` and everything the test file `SdJwtVPVerificationTest.java` exercises) is not part of this model. `ArrayElementDisclosureOf` and `PlaceholderDigest` exist only to state inverses. They do not model the verifier.
