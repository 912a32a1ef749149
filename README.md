# Pulsar Go client: authentication-provider factory

This project models `NewProvider` and `parseParams` from `pulsar/provider_factory.go` of the Pulsar Go client. It proves properties of that model in Dafny.

`NewProvider(name, params)` works in two stages:

1. It decodes `params` as a JSON object of string values. If decoding fails, it returns the decoder's error at once, whatever `name` is.
2. It matches `name` exactly against a fixed table of eleven accepted names:
   - the empty name gives the disabled provider;
   - the tls, token, athenz, oauth2 and basic schemes each accept a short alias and a legacy Java class name as synonyms;
   - any other name gives the error `invalid auth provider '<name>'`.

The model is pure, like the Go code:

- `Wrappers` (`wrappers.dfy`) holds `Option` (a Go value that may be nil) and `Result` (the decoder's outcome).
- `ProviderFactory` (`provider_factory.dfy`) holds the factory.
  - The JSON decoder is a parameter `decode: string -> Result<Params, Error>`.
  - The concrete constructors of `pulsar/internal/auth` are parameters, collected in a `Constructors<P>` record.
  - The provider type is a type parameter `P`, which the factory never looks inside.
  - A Go `error` is modelled by its message text.
  - The Go return pair `(auth.Provider, error)` is `Ret(provider: Option<P>, err: Option<Error>)`. This keeps both halves visible, so the model can state which branches return exactly one of them.
- `SchemeOf` is the `switch`'s case labels. `Synonyms` is an explicit list of the eleven accepted names, and `Lookup` is a first-match search of that list. Together they serve as an independent reference, and `SchemeOfMatchesTable` proves the two agree on every name.

Two behaviours of the code are worth stating plainly:

- **Empty parameters.** There is no special case for an empty `params`. Go's `encoding/json` rejects `""` ("unexpected end of JSON input"), so even the empty name fails with the decoder's error. `EmptyParamsRejected` states this for any decoder that rejects `""`.
- **The unknown-name error.** It is a plain `fmt.Errorf` message, recognisable only by its text. `UnknownProviderErrorNamesProvider` proves that the name can be read back from that text.

## Model

| member | source | states |
|---|---|---|
| ProviderFactory.ParseParams | pulsar/provider_factory.go:61-68 | Exactly one of map and error is present. On success the map is the decoded one; on failure the error is the decoder's own. |
| ProviderFactory.NewProvider | pulsar/provider_factory.go:31-59 | A decode failure returns no provider and the decoder's error. A provider is returned only when params decode and the name is accepted. An unknown name with decodable params gives no provider and the unknown-provider error. The parse-failure and unknown branches return exactly one of provider and error. The disabled and tls branches return a nil error, so they return exactly one of the two exactly when their constructor's provider is non-nil. |
| ProviderFactory.ParseErrorTakesPrecedence | pulsar/provider_factory.go:32-35 | When params do not decode, any two names, known or unknown, give the same result: no provider and the decoder's error. |
| ProviderFactory.EmptyParamsRejected | pulsar/provider_factory.go:32-35 | There is no special case for empty params. If the decoder rejects `""`, every name, the empty name included, gets the decoder's error. |
| ProviderFactory.EmptyNameGivesDisabled | pulsar/provider_factory.go:38-39 | The empty name with params that decode gives the disabled constructor's provider and a nil error. |
| ProviderFactory.TlsNeverFails | pulsar/provider_factory.go:41-42 | Once params decode, a tls name always gives the TLS provider built from the decoded map, with a nil error. |
| ProviderFactory.FallibleConstructorsVerbatim | pulsar/provider_factory.go:44-54 | For token, athenz, oauth2 and basic names, the result is exactly the constructor's pair for the decoded map, with nothing wrapped. |
| ProviderFactory.SynonymsEquivalent | pulsar/provider_factory.go:41-54 | For every scheme except disabled, the short alias and the legacy class name give identical results for the same params. |
| ProviderFactory.SameSchemeSameResult | pulsar/provider_factory.go:37-54 | Any two accepted names that select the same scheme give identical results for the same params. |
| ProviderFactory.UnknownNameRejected | pulsar/provider_factory.go:56-57 | A name that is in no entry of the table, with params that decode, gives no provider. It gives an error whose message contains the name and from which the name can be read back. |
| ProviderFactory.UnknownProviderError | pulsar/provider_factory.go:57 | The message starts with `invalid auth provider '` and contains the offending name. |
| ProviderFactory.UnknownProviderErrorNamesProvider | pulsar/provider_factory.go:57 | Reading the name back out of the unknown-provider message gives exactly the name that was formatted in. |
| ProviderFactory.UnknownProviderErrorInjective | pulsar/provider_factory.go:57 | Different unknown names give different errors. |
| ProviderFactory.SchemeOfMatchesTable | pulsar/provider_factory.go:37-58 | For every name, the switch's case labels and a first-match search of the eleven-entry synonym table give the same scheme, or both reject the name. |
| ProviderFactory.SchemeOfExact | pulsar/provider_factory.go:37-54 | A name selects a scheme if and only if the synonym table lists exactly that pair. |
| ProviderFactory.SchemeOfRejects | pulsar/provider_factory.go:37-57 | A name falls to the default case if and only if no table entry carries it. |
| ProviderFactory.SynonymNamesDistinct | pulsar/provider_factory.go:38-54 | The table has eleven entries, and no name appears in it twice. |
| ProviderFactory.AliasesSelectScheme | pulsar/provider_factory.go:38-54 | Each scheme's short alias selects it. For the five non-disabled schemes, the legacy class name selects it too and differs from the alias. |
| ProviderFactory.SchemeOf | pulsar/provider_factory.go:37-57 | A name selects a scheme only if it is that scheme's short alias or, for the five non-disabled schemes, its legacy class name; every other name falls to the default case. |
| ProviderFactory.CaseChangeRejected | pulsar/provider_factory.go:37 | Matching is case-sensitive: for every accepted name, every other string with the same ASCII lower-casing is unknown. |
| ProviderFactory.LowerSeparatesNames | pulsar/provider_factory.go:38-54 | No two accepted names differ only in letter case. |
| ProviderFactory.PaddedNameRejected | pulsar/provider_factory.go:37 | Matching is exact: every accepted name with one space added before or after it is unknown. |
| ProviderFactory.NamesAreCaseSensitive | pulsar/provider_factory.go:37 | Examples only: `TLS`, `Token`, `OAuth2` and a lower-cased class name are unknown. |

## Left out

- The provider contract in `pulsar/auth/provider.go`: `Provider`, `HTTPAuthProvider` and `HTTPTransport`. It holds only interface declarations and a one-field struct, with no behaviour of its own. Its methods perform TLS, I/O and HTTP through the concrete schemes.
- ProviderFactory.NewProvider: whether the disabled and TLS constructors return a non-nil provider is not modelled. Their bodies are not part of this model, and the Go interface type allows nil. So the model promises exactly one of provider and error in those two branches only when the constructor's provider is non-nil.
- Byte strings: Go strings are byte sequences, and the `switch` and the `%s` format work on bytes. The model's strings are sequences of Unicode characters, so a `name` or `params` that is not valid UTF-8 cannot be represented. The dispatch would not change, because every accepted name is ASCII and such a name takes the default case either way.
- JSON decoding (`json.Unmarshal`): a foreign library call, taken as the `decode` parameter. The model proves nothing about which inputs it accepts; properties that depend on it, such as `EmptyParamsRejected`, carry the decoder behaviour they rely on as a `requires`.
- The byte conversion `[]byte(params)`: the decoder is applied to the string directly.
- JSON `null`: in Go it decodes to a nil map with a nil error. The model represents that as an empty map, which reads the same way.
- The concrete constructors (`NewAuthDisabled`, `NewAuthenticationTLSWithParams`, `NewAuthenticationTokenWithParams`, `NewAuthenticationAthenzWithParams`, `NewAuthenticationOAuth2WithParams`, `NewAuthenticationBasicWithParams`): they are not part of this model and are taken as opaque functions of the decoded map. Their internals, their validation of required keys and their `Name()` values are not modelled. Equal results for synonyms imply equal `Name()`.
- Go error identity: errors are compared by message text, not by pointer.
- Provider lifecycle (`Init`, `Close`), concurrency and credential refresh: none of it is in the factory.
