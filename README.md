# keybase proof-service registries, modelled in Dafny

This project models the two proof-service registries of keybase's `externals` package (`services.go`). Each registry maps a service key such as "twitter" or "github" to the `ServiceType` that checks identity proofs on that service.

- `StaticProofServices` (`staticProofServices`) is filled once. Its constructor runs `register` over the built-in services. It then answers lookups (`GetServiceType`, on the lower-cased name) and listings (`ListProofCheckers`, every key).
- `ProofServices` (`proofServices`) is seeded the same way. Before every lookup or listing it runs `loadParamProofServices`, which works in five steps:
  1. Check the refresh policy: the admin feature flag, development run mode or running in CI.
  2. Fetch the latest entry from the parameterised-proof store.
  3. Decode the entry's JSON payload.
  4. Validate each record on its own, skipping the ones that fail.
  5. Register one service per surviving record.

  A policy that is off, a failed fetch or a failed decode returns straight away. The collection is then left as it was, and no error reaches the caller.

Files:

- `wrappers.dfy`: `Option` (the nil service a Go map read returns for a missing key) and `Result` (a Go `(value, error)` pair).
- `strings.dfy`: ASCII lower-casing, and the proof that it is idempotent.
- `services.dfy`, module `Externals`:
  - the data types;
  - `Registered`, the specification function of `register`, and its lemmas;
  - the loops of `register` (`PutKeys`, `RegisterAll`) and of `ListProofCheckers` (`ListKeys`);
  - `ParseServiceConfigs` and its specification function `ValidConfigs`;
  - the refresh specification `LoadPlan` / `Refreshed` and its lemmas;
  - the two registry classes.

Both Go types repeat the same `register` loop. Here the loop is written once, as `RegisterAll`, and each class's `Register` method assigns its result to `collection`. Likewise both `ListProofCheckers` use `ListKeys`.

The collaborators are inputs:

- `getStaticProofServices()` and the package flag `useDevelProofCheckers` are constructor parameters (`builtins`, `useDevel`).
- `json.Unmarshal`, `NewGenericSocialProofConfig` and `NewGenericSocialProofServiceType` are the three function fields of `Factories`. It is fixed at construction.
- The global context's policy inputs and the store's answer to `GetLatestEntry` are an `Environment` value. It is passed to each query, because both can change between calls.
- `LoadParamProofServices` returns a `LoadOutcome` that says which exit it took. Go returns nothing. The outcome makes the early exits visible to callers and lemmas.

`register` stores the keys of `AllStringKeys()` exactly as given (services.go:39-40), and only the lookup lower-cases its argument (services.go:46, :98). So a stored key with a capital letter can never be found (`UnloweredKeyUnreachable`).

## Model

| member | source | states |
|---|---|---|
| Externals.PutKeys | vendor/github.com/keybase/client/go/externals/services.go:39-41 | afterwards every key of the service maps to it; every other key keeps its old value; the key set gains exactly the service's keys |
| Externals.RegisterAll | vendor/github.com/keybase/client/go/externals/services.go:34-43 | the map after the loops equals `Registered` of the input; its key set is the old one plus every key of every non-skipped service; a well-formed map stays well formed |
| Externals.RegisterLastWriterWins | vendor/github.com/keybase/client/go/externals/services.go:35-41 | a key maps to the last service in input order that lists it and is not skipped |
| Externals.RegisterKeepsUnlisted | vendor/github.com/keybase/client/go/externals/services.go:84-90 | a key that no non-skipped service lists keeps its previous mapping, or stays absent: nothing else changes |
| Externals.RegisterKeys | vendor/github.com/keybase/client/go/externals/services.go:83-92 | the key set after `register` is the old key set plus the listed keys, so no key is removed |
| Externals.RegisterValues | vendor/github.com/keybase/client/go/externals/services.go:39-41 | each stored value is either the old value for that key or the last non-skipped input service that lists the key |
| Externals.RegisterPreservesWellFormed | vendor/github.com/keybase/client/go/externals/services.go:83-92 | if every key was an alias of its non-skipped service before `register`, that still holds afterwards |
| Externals.ActiveHasNoDevelOnly | vendor/github.com/keybase/client/go/externals/services.go:36-38 | without the development flag, none of the services that `register` keeps is development-only |
| Externals.RegisterFiltersDevelOnly | vendor/github.com/keybase/client/go/externals/services.go:85-87 | without the development flag, `register` has the same effect as registering only the services that are not development-only |
| Externals.Lookup | vendor/github.com/keybase/client/go/externals/services.go:45-47 | the read `collection[strings.ToLower(s)]`: a service is returned exactly when the lower-cased name is a key, and it is the one stored there; otherwise the absent value |
| Externals.LookupCaseInsensitive | vendor/github.com/keybase/client/go/externals/services.go:45-47 | looking up a name gives the same answer as looking up its lower-cased form |
| Externals.UnloweredKeyUnreachable | vendor/github.com/keybase/client/go/externals/services.go:94-98 | a lookup never reads a key that contains a capital letter, because the lookup lower-cases and `register` does not: removing such a key from the map changes no lookup |
| Externals.LookupFindsLowerKey | vendor/github.com/keybase/client/go/externals/services.go:94-98 | a stored lower-case key is found by itself and by every spelling that lower-cases to it |
| Externals.ListKeys | vendor/github.com/keybase/client/go/externals/services.go:49-55 | the list holds exactly the map's keys, each once, so its length is the map's size |
| Externals.ParseServiceConfigs | vendor/github.com/keybase/client/go/externals/services.go:141-159 | a decode error is returned unchanged and only then is an error returned; otherwise the result is the validated records in input order |
| Externals.ParsedConfigs | vendor/github.com/keybase/client/go/externals/services.go:141-158 | what `parseServiceConfigs` returns: the decode error when decoding fails, and only then an error; otherwise the validated records in input order |
| Externals.ValidConfigsAppend | vendor/github.com/keybase/client/go/externals/services.go:150-157 | the record filter works per record: the result for `a + b` is the result for `a` followed by the result for `b` |
| Externals.InvalidRecordIsolated | vendor/github.com/keybase/client/go/externals/services.go:151-155 | a record that fails validation is dropped and does not affect the records around it |
| Externals.ValidConfigsSelects | vendor/github.com/keybase/client/go/externals/services.go:150-158 | the filtered list is exactly the validated forms of the records that validate, picked in strictly increasing input position, with none missing |
| Externals.ShouldRun | vendor/github.com/keybase/client/go/externals/services.go:113 | the refresh policy holds when any one of the admin flag, the development run mode or running in CI holds, and only then |
| Externals.BuildServices | vendor/github.com/keybase/client/go/externals/services.go:130-133 | one service type per validated config, built by `NewGenericSocialProofServiceType`, in config order |
| Externals.RefreshAbortLeavesCollection | vendor/github.com/keybase/client/go/externals/services.go:113-129 | with the policy off, a failed fetch or a failed decode, nothing is merged and the collection is unchanged |
| Externals.PolicyOffIgnoresStore | vendor/github.com/keybase/client/go/externals/services.go:113-117 | with the policy off, the store's answer makes no difference to the outcome or to the collection |
| Externals.RefreshMerges | vendor/github.com/keybase/client/go/externals/services.go:130-134 | on a successful fetch and decode, the merged services are one service per validated record, in record order; the key set becomes the old keys plus the keys of those services |
| Externals.RefreshNeverRemoves | vendor/github.com/keybase/client/go/externals/services.go:112-135 | no refresh removes a key |
| Externals.RefreshRemoteWins | vendor/github.com/keybase/client/go/externals/services.go:130-134 | after a merge, a key that a merged service lists maps to the last merged service that lists it, whatever it mapped to before |
| Externals.RefreshExample | vendor/github.com/keybase/client/go/externals/services.go:125-134 | with built-in "x" and one remote record validating into a service for "x" and "y", the refreshed keys are {"x", "y"} and "X" finds the remote service |
| Externals.StaticProofServices.constructor | vendor/github.com/keybase/client/go/externals/services.go:25-32 | the collection is exactly `register(builtins)` applied to an empty map, its keys are the listed built-in keys, and it is well formed |
| Externals.StaticProofServices.Register | vendor/github.com/keybase/client/go/externals/services.go:34-43 | the new collection is `Registered` of the old one; the key set grows by exactly the listed keys |
| Externals.StaticProofServices.GetServiceType | vendor/github.com/keybase/client/go/externals/services.go:45-47 | the result is present exactly when the lower-cased name is a key, and is then its service |
| Externals.StaticProofServices.ListProofCheckers | vendor/github.com/keybase/client/go/externals/services.go:49-55 | the result holds exactly the collection's keys, each once |
| Externals.ProofServices.constructor | vendor/github.com/keybase/client/go/externals/services.go:70-81 | the collection is exactly `register(builtins)` applied to an empty map; the flag and collaborators are the given ones |
| Externals.ProofServices.Register | vendor/github.com/keybase/client/go/externals/services.go:83-92 | the new collection is `Registered` of the old one, and the well-formedness invariant is kept |
| Externals.ProofServices.GetServiceType | vendor/github.com/keybase/client/go/externals/services.go:94-99 | the collection is first refreshed; the result is then the service under the lower-cased name, or none |
| Externals.ProofServices.ListProofCheckers | vendor/github.com/keybase/client/go/externals/services.go:101-110 | the collection is first refreshed; the result is then exactly its key set, each key once |
| Externals.ProofServices.LoadParamProofServices | vendor/github.com/keybase/client/go/externals/services.go:112-135 | takes the exit `LoadPlan` names; the collection becomes `Refreshed` of the old one, which is the old one on every exit but a merge |

## Left out

- The `sync.Mutex` in `proofServices` and its locking in the constructor, `GetServiceType` and `ListProofCheckers`: the operations are modelled as sequential methods, and concurrent callers are not modelled.
- The `loaded` field: it is declared but never read or written.
- `SupportedVersion`: it is not used by the registries.
- `NewProofServices`: it only forwards to `newProofServices`, which is the `ProofServices` constructor.
- Debug logging through `CDebugf` on fetch, parse and validation failures: it has no effect on the state.
- The global context (`libkb.GlobalContext`, feature flags, run mode, CI detection): these are the three booleans of `Environment`.
- The store fetch `GetParamProofStore().GetLatestEntry`: it is the `latestEntry` field of `Environment`. Network behaviour, timeouts and signature checks are not modelled.
- `json.Unmarshal` into `proofServicesT`: it is the abstract `decode` function from the payload string to a record list or an error. JSON syntax is not modelled.
- `NewGenericSocialProofConfig`, `NewGenericSocialProofServiceType`, `getStaticProofServices` and `useDevelProofCheckers` are defined in files that are not part of this model. They are uninterpreted parameters, and records keep only a display name and a domain.
- `strings.ToLower` is modelled on ASCII letters only. Unicode case mapping is not modelled.
- The random iteration order of a Go map in `ListProofCheckers` is modelled as an arbitrary choice of the next key. The model returns the empty sequence where Go returns a nil slice.
- Service descriptors are compared by value: two distinct Go `ServiceType` objects with the same name, keys and development flag are one value here, whereas the Go map stores interface values with their own identity. Nothing the registries promise depends on that identity.
