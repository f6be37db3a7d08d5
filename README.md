# Calico policy datastore keys, modelled in Dafny

This project models the key codec that Calico's `libcalico-go` uses to store
network policies in its key/value datastore
(`libcalico-go/lib/backend/model/policy.go`):

- a `PolicyKey` (tier, name) is stored under
  `/calico/v1/policy/tier/<tier>/policy/<escaped name>`, and a key missing its
  tier or its name is refused with an insufficient-identifiers error, the tier
  being checked first;
- `PolicyListOptions` (tier and name, each optional) give the prefix under which
  the matching policies are listed, and turn a listed path back into a key,
  dropping paths that do not have the policy shape or that conflict with a
  non-empty filter field;
- deleting a policy uses its stored path and has no parent paths to clean up;
- `KeyString` gives the readable form `Policy(tier=…, name=…)` of a key
  (Go's `PolicyKey.String`);
- `PolicyIsStaged` is a stub that reports no name as staged.

Files: `wrappers.dfy` (`Option`, `Result`), `segments.dfy` (splitting paths at
delimiters), `policy.dfy` (the codec and its properties).

The Go path pattern `^/?calico/v1/policy/tier/([^/]+)/policy/([^/]+)$` is
modelled twice: `MatchesPolicyPattern` reads it as a predicate over a path and
its two captures, and `ParsePolicyPath` is a segment parser proved to accept
exactly what the pattern matches, with the same captures. `KeyFromDefaultPath`
uses the parser.

The package functions `escapeName` and `unescapeName` are defined in a file
that is not part of this model. They are passed in as the function values
`escape` and `unescape`, and each property that depends on them says what it
needs of them for the names concerned: that the escaped name is a non-empty
segment without '/', and that unescaping it gives the name back.

## Model

| member | source | states |
|---|---|---|
| `Policy.PolicyIsStaged` | libcalico-go/lib/backend/model/policy.go:37-43 | no name is reported as staged, names starting with `staged:` included |
| `Policy.DefaultPath` | libcalico-go/lib/backend/model/policy.go:50-60 | an empty tier fails with insufficient identifiers naming `tier` whatever the name; a set tier with an empty name fails naming `name`; the path is produced exactly when both are set |
| `Policy.DefaultDeletePath` | libcalico-go/lib/backend/model/policy.go:62-64 | a policy is deleted at the path (or with the error) of `DefaultPath` |
| `Policy.DefaultDeleteParentPaths` | libcalico-go/lib/backend/model/policy.go:66-68 | deletion has no parent paths and never fails |
| `Policy.DefaultPathRoot` | libcalico-go/lib/backend/model/policy.go:83-94 | every list prefix starts with `/calico/v1/policy/tier`; without a tier it is exactly that and the name is ignored; with a tier and no name it is `/calico/v1/policy/tier/<tier>/policy`; with tier and name it is the stored path of that key |
| `Policy.ListRootCoversAdmittedKeys` | libcalico-go/lib/backend/model/policy.go:83-94 | the list prefix of any options whose non-empty fields equal a storable key's is a prefix of that key's stored path |
| `Policy.TierRootSelectsTier` | libcalico-go/lib/backend/model/policy.go:88-90 | for slash-free tiers, a tier's list prefix followed by '/' is a prefix of a stored path exactly when the key is in that tier |
| `Policy.ParsePolicyPathSound` | libcalico-go/lib/backend/model/policy.go:30 | whatever the segment parser accepts, the path pattern matches with the same tier and name captures |
| `Policy.ParsePolicyPathComplete` | libcalico-go/lib/backend/model/policy.go:30 | whatever the path pattern matches (optional leading '/', non-empty slash-free tier and name), the parser accepts with those captures |
| `Policy.ParsePolicyPathIff` | libcalico-go/lib/backend/model/policy.go:30 | the parser accepts a path with given captures if and only if the pattern matches it with them |
| `Policy.KeyFromDefaultPath` | libcalico-go/lib/backend/model/policy.go:96-114 | a returned key passes the filter (each non-empty option field equals the key's), and only paths the parser accepts give a key |
| `Policy.KeyFromUnmatchedPath` | libcalico-go/lib/backend/model/policy.go:98-102 | a path the pattern does not match gives no key, whatever the options |
| `Policy.KeyFromMatchedPath` | libcalico-go/lib/backend/model/policy.go:103-113 | on a matched path: no key if the tier filter is set and differs from the verbatim tier, no key if the name filter is set and differs from the unescaped name, otherwise the key of that tier and unescaped name |
| `Policy.FilterIsExactMatch` | libcalico-go/lib/backend/model/policy.go:105-113 | parsing with options equals parsing without a filter and then keeping the key only when every non-empty option field equals it |
| `Policy.KeyPathRoundTrip` | libcalico-go/lib/backend/model/policy.go:96-113 | a key with a slash-free tier and a cleanly escaping name is stored, and its stored path parses back to the key under every filter that admits it and to nothing under any other |
| `Policy.PathKeyRoundTrip` | libcalico-go/lib/backend/model/policy.go:50-59 | a matched path with a leading '/' whose name segment is the escaped form of its non-empty unescaped name parses to a key whose stored path is that same path |
| `Policy.AcceptedPathsUnderListRoot` | libcalico-go/lib/backend/model/policy.go:83-113 | every path with a leading '/' accepted by empty or tier-only options lies under those options' list prefix followed by '/' |
| `Policy.KeyStringInjective` | libcalico-go/lib/backend/model/policy.go:74-76 | of `KeyString`: for tiers without a comma, two keys with the same readable form `Policy(tier=…, name=…)` are the same key |

## Left out

- `escapeName` / `unescapeName`: their definitions are not part of this model; they are parameters, and the lemmas assume of them only what each states in its `requires`.
- `Policy.String` (policy.go:130-154): it formats a floating-point `Order` with Go's `%v`, calls `Rule.String`, which is not part of this model, and prints performance hints; the `Policy` value type is therefore not modelled either.
- `valueType` and `typePolicy`: they return a Go reflection type, which has no counterpart here.
- The debug and info log lines in `KeyFromDefaultPath`: logging side effects.
- Go strings are byte strings that the regular expression reads as UTF-8; the model works on sequences of characters, so invalid UTF-8 is not modelled.
- The generated informer for IP reservations and the generated lister for global network sets: client-go glue with no logic of its own, delegating to code outside these files.
- Only the policy key codec of `policy.go` is modelled; no other component of the repository is.
