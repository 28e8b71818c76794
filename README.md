# SdkStore: checking shadow methods against every SDK level

Robolectric's annotation processor checks each `@Implementation` method of a
shadow class against the real method in the Android SDK jars it claims to
cover. `SdkStore` holds one `Sdk` per SDK level. It picks the levels a
declaration applies to. For each level it opens that level's jar lazily and
caches the classes it loads, including the classes the jar lacks. It turns each
class into a table keyed by method name and parameter types. It looks a
declared method up first by its exact key and then by its arity-erased key.
It reports a missing class or a missing method.

This project models that core in Dafny and proves what it does:

- `java.dfy` (module `Java`): Java's 32-bit `int`, nullable values and thrown exceptions.
- `inputs.dfy` (modules `Bytecode`, `Elements`): plain data in place of ASM's class nodes
  and `javax.lang.model` elements. A jar is a map from entry name to class node.
- `method_info.dfy` (module `Signatures`): `MethodInfo` keys, `erase`, `cleanMethodName`.
- `class_info.dfy` (module `ClassTables`): `MethodExtraInfo` and `ClassInfo` as classes,
  the table built by last write wins, and the two-tier `findMethod`.
- `sdk.dfy` (module `SdkArchive`): `Sdk` with its jar field, which is assigned once,
  its cache, which only grows, `loadClassNode` and `verifyMethod`.
- `sdk_store.dfy` (module `SdkRegistry`): `SdkStore` with the `TreeMap` kept as a
  strictly ascending sequence of `Sdk`s, and `sdksMatching`.

`MethodExtraInfo` does not override `equals`, so it is a Dafny class and `==` on it is
identity. The object built at line 104 is fresh, so the verifier proves that the guard at
line 105 never holds. The static and return-type checks behind it therefore never run.
The model keeps that behaviour in `Sdk.VerifyMethod`. It also gives the evidently
intended behaviour in `Sdk.VerifyMethodComparingFields` (see Findings).

## Model

| member | source | states |
|---|---|---|
| `Signatures.Erase` | processor/src/main/java/org/robolectric/annotation/processing/validator/SdkStore.java:241-243 | the erased key keeps the name and the arity, and every parameter becomes `java.lang.Object` |
| `Signatures.ObjectMethodInfo` | processor/src/main/java/org/robolectric/annotation/processing/validator/SdkStore.java:215-220 | the `(name, size)` constructor yields `size` parameters, all `java.lang.Object`, which is exactly `Erase`'s key |
| `Signatures.MethodInfoOfNode` | processor/src/main/java/org/robolectric/annotation/processing/validator/SdkStore.java:208-213 | the key of a binary method is its name and the class names of its descriptor's argument types, in order |
| `Signatures.MethodInfoOfElement` | processor/src/main/java/org/robolectric/annotation/processing/validator/SdkStore.java:222-228 | the key of a declaration is its cleaned name and its parameters' type names, in order |
| `Signatures.CleanMethodName` | processor/src/main/java/org/robolectric/annotation/processing/validator/SdkStore.java:230-239 | the constructor sentinel becomes `<init>` and the static-initializer sentinel becomes `<clinit>`; every other name is unchanged; the result is never a sentinel |
| `Signatures.EraseIdempotent` | processor/src/main/java/org/robolectric/annotation/processing/validator/SdkStore.java:241-243 | erasing twice gives the same key as erasing once |
| `Signatures.EraseFixedIff` | processor/src/main/java/org/robolectric/annotation/processing/validator/SdkStore.java:215-220 | a key equals its erasure if and only if all its parameters are `java.lang.Object`, which includes every key with no parameters |
| `Signatures.EraseEqualIff` | processor/src/main/java/org/robolectric/annotation/processing/validator/SdkStore.java:246-252 | two keys have equal erasures if and only if they have the same name and arity |
| `Signatures.ErasedKeyIsObjectOverloadKey` | processor/src/main/java/org/robolectric/annotation/processing/validator/SdkStore.java:215-220 | the erased key of a one-parameter method is the exact key of the `Object` overload; the erased type is not a wildcard |
| `ClassTables.MethodExtraInfo.FromNode` | processor/src/main/java/org/robolectric/annotation/processing/validator/SdkStore.java:264-267 | the static flag is the `ACC_STATIC` bit test on the access flags, and the return type is the descriptor's return class name |
| `ClassTables.MethodExtraInfo.FromElement` | processor/src/main/java/org/robolectric/annotation/processing/validator/SdkStore.java:269-272 | the static flag is whether the modifiers contain `static`, and the return type is the declared one |
| `ClassTables.LastWriter` | processor/src/main/java/org/robolectric/annotation/processing/validator/SdkStore.java:184-192 | gives the last method in list order whose exact or erased key equals the key; no later method writes that key, and none does when the result is absent |
| `ClassTables.ClassInfo.constructor` | processor/src/main/java/org/robolectric/annotation/processing/validator/SdkStore.java:184-192 | after the build, every method's exact and erased keys are present, and each key maps to the fresh extra info of the last method that wrote it |
| `ClassTables.ClassInfo.FindMethod` | processor/src/main/java/org/robolectric/annotation/processing/validator/SdkStore.java:194-201 | returns the exact-key entry, otherwise the erased-key entry, otherwise null; it is null if and only if no method has the declaration's cleaned name and arity; a non-null result describes the class's method that the two-tier lookup picks |
| `ClassTables.ResolveIffShape` | processor/src/main/java/org/robolectric/annotation/processing/validator/SdkStore.java:194-201 | the two-tier lookup finds a method if and only if some method has the key's name and arity |
| `ClassTables.ExactMatchWins` | processor/src/main/java/org/robolectric/annotation/processing/validator/SdkStore.java:194-201 | for a key with some non-`Object` parameter, an exact match is preferred: the lookup picks the last method with that exact key |
| `ClassTables.ErasedFallback` | processor/src/main/java/org/robolectric/annotation/processing/validator/SdkStore.java:196-199 | when no entry is written under the exact key, a method with the same name and arity is still found through the erased key |
| `ClassTables.LaterOverloadOverwritesObjectEntry` | processor/src/main/java/org/robolectric/annotation/processing/validator/SdkStore.java:189-190 | `f(Object)` followed by `f(String)`: the erased key of `f(String)` overwrites the exact entry of `f(Object)` |
| `SdkArchive.ReplaceDots` | processor/src/main/java/org/robolectric/annotation/processing/validator/SdkStore.java:148 | `replace('.', '/')`: same length, every `.` becomes `/`, and every other character is kept |
| `SdkArchive.EntryName` | processor/src/main/java/org/robolectric/annotation/processing/validator/SdkStore.java:148 | the entry name is the replaced class name followed by `.class` |
| `SdkArchive.EntryNameInjective` | processor/src/main/java/org/robolectric/annotation/processing/validator/SdkStore.java:148 | different class names without `/` map to different entry names |
| `SdkArchive.Sdk.constructor` | processor/src/main/java/org/robolectric/annotation/processing/validator/SdkStore.java:85-88 | a new `Sdk` keeps its level and path, with no jar opened and an empty cache |
| `SdkArchive.Sdk.LoadClassNode` | processor/src/main/java/org/robolectric/annotation/processing/validator/SdkStore.java:147-153 | returns the node stored under the class's entry name, or null if and only if the jar has no such entry |
| `SdkArchive.Sdk.GetClassInfo` | processor/src/main/java/org/robolectric/annotation/processing/validator/SdkStore.java:123-145 | opens the jar at most once and then keeps it; throws only when it is not open and cannot be opened; afterwards the cache holds the name and no earlier entry has changed; a cached name is not loaded again and gives the same result; a class missing from the jar is cached as `NULL_CLASS_INFO` and reported as null; a found class's table is built from its jar entry |
| `SdkArchive.RepeatedLookupIsCached` | processor/src/main/java/org/robolectric/annotation/processing/validator/SdkStore.java:132-144 | a second lookup of the same class returns what the first returned; the first throws only without changing the `Sdk`, and otherwise leaves the class cached and loads it once at most |
| `SdkArchive.Diagnose` | processor/src/main/java/org/robolectric/annotation/processing/validator/SdkStore.java:90-121 | as written, `verifyMethod` reports at most one diagnostic, and only `No such class` or `No such method` |
| `SdkArchive.Sdk.VerifyMethod` | processor/src/main/java/org/robolectric/annotation/processing/validator/SdkStore.java:90-121 | one "No such class" if the jar lacks the class; otherwise one "No such method" if no method has the declared name and arity; otherwise nothing, because the identity guard is always false; throws, changing nothing, if and only if the jar is not open and cannot be opened; an open jar is kept, otherwise the jar at the path is opened; the cache gains the class's name only, no earlier entry changes, and the class is loaded only if it was not cached |
| `SdkArchive.Sdk.VerifyMethodComparingFields` | processor/src/main/java/org/robolectric/annotation/processing/validator/SdkStore.java:104-117 | with the guard removed, reports a static mismatch and a return-type mismatch against the method the lookup picked, each independently of the other; it opens the jar, throws and fills the cache exactly as `VerifyMethod` does |
| `SdkArchive.CompareFields` | processor/src/main/java/org/robolectric/annotation/processing/validator/SdkStore.java:106-117 | the two comparisons report a static mismatch if the static flags differ and then a return-type mismatch if the return types differ, against the picked method |
| `SdkArchive.IdentityGuardHidesMismatches` | processor/src/main/java/org/robolectric/annotation/processing/validator/SdkStore.java:104-118 | whenever a method is found, the as-written diagnostics are empty, while the intended ones are exactly that method's mismatches |
| `SdkArchive.StaticDrawIsNotReported` | processor/src/main/java/org/robolectric/annotation/processing/validator/SdkStore.java:105-111 | an instance `draw(int,int)` shadowing a static `draw(int,int)` is reported by nothing as written, and by one static mismatch as intended |
| `SdkRegistry.Put` | processor/src/main/java/org/robolectric/annotation/processing/validator/SdkStore.java:46 | `TreeMap.put` keeps the levels strictly ascending, adds the new SDK, and keeps every SDK of another level |
| `SdkRegistry.LevelsPut` | processor/src/main/java/org/robolectric/annotation/processing/validator/SdkStore.java:43-47 | the levels after a put are the levels before it plus the new level |
| `SdkRegistry.SdkStore.constructor` | processor/src/main/java/org/robolectric/annotation/processing/validator/SdkStore.java:42-48 | one fresh, unopened `Sdk` per configured level, with that level's path, in strictly ascending level order |
| `SdkRegistry.SdkStore.SdksMatching` | processor/src/main/java/org/robolectric/annotation/processing/validator/SdkStore.java:50-75 | returns exactly the registered SDKs whose level lies in the effective bounds, inclusive, in strictly ascending order with no duplicates; every returned `Sdk` keeps its invariant: each cached entry agrees with its opened jar, and each cached name was loaded exactly once |
| `SdkRegistry.SelectExactly` | processor/src/main/java/org/robolectric/annotation/processing/validator/SdkStore.java:66-72 | the loop's filter over ascending SDKs keeps exactly the SDKs whose level is in bounds, still strictly ascending |
| `SdkRegistry.UnboundedSelectsAll` | processor/src/main/java/org/robolectric/annotation/processing/validator/SdkStore.java:51-65 | with no annotation and both class bounds `-1`, every level from 0 to `Integer.MAX_VALUE` is selected |
| `SdkRegistry.EffectiveBoundsIntersect` | processor/src/main/java/org/robolectric/annotation/processing/validator/SdkStore.java:51-65 | a selected level lies within the class's bounds and within the annotation's bounds that are not `-1` |
| `SdkRegistry.SixteenToTwentyThree` | processor/src/main/java/org/robolectric/annotation/processing/validator/SdkStore.java:50-75 | a declaration for `[16, -1]` in a class for `[-1, 23]`, against levels 14, 16, 21 and 24, selects 16 and 21 |

## Left out

- Loading `/sdks.properties` and `Integer.parseInt` of its keys (lines 28-40 and 44): the constructor takes the properties already parsed into a map from level to path.
- Opening the jar (lines 124-129) is a lookup of the path in a `disk` map. A path not on the disk gives the thrown `FailedToOpenSdk`.
- Reading an entry (lines 154-174): the `getInputStream` and class-reading `IOException`s, closing the stream and the log line at 151 are not modelled. An entry present in the jar is always readable.
- ASM's class-file parser and descriptor decoder (lines 162-164, 210-211 and 266) are not part of this model. A method node carries its descriptor already decoded into argument and return types.
- `javax.lang.model`, `getClassFQName` and the values of the two sentinel names, which `ImplementsValidator` defines, are not part of this model. A declaration is a record, and the class name is a parameter. The sentinels are taken as `__constructor__` and `__staticInitializer__`; the proofs use only that they differ from each other, from `<init>` and `<clinit>`, and from the method names in the example lemmas (`f` and `draw`).
- `Messager` and the message texts: diagnostics are a returned sequence of a datatype.
- `synchronized` on `getClassInfo` (line 123): the model is sequential.
- `hashCode` and the identity and class tests in `equals` (lines 245-257): equality on the key datatype replaces them.
- The private `ClassInfo()` constructor (lines 181-182) only builds `NULL_CLASS_INFO`. That shared marker is the cache datatype's `NullClassInfo` case.
- The no-argument `SdkStore()` constructor (lines 28-30) only loads the properties file.

Four facts about the code that the model keeps:
- The erased parameter type is the ordinary name `java.lang.Object`, not a wildcard.
- A failed jar open leaves the jar unset, so the next lookup tries to open it again.
- A negative level from the properties is accepted like any other.
- The static and return-type checks never run (see Findings).

## Findings

| source | as written | input that shows it | evidently intended | confidence | as-written member | corrected member |
|---|---|---|---|---|---|---|
| processor/src/main/java/org/robolectric/annotation/processing/validator/SdkStore.java:105 | the static and return-type checks run only if `sdkMethod.equals(implMethod)`; without an `equals` override this is identity with an object built on line 104, so it is never true | an instance `draw(int,int)` returning `void`, checked against a static `draw(int,int)` returning `void` (access `0x0009`), produces no diagnostic | whenever a method is found, report a static mismatch and a return-type mismatch, each independently | not executed; high | `SdkArchive.StaticDrawIsNotReported` | `SdkArchive.Sdk.VerifyMethodComparingFields` |
