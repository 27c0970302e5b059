# Pokedex search and data provider, modelled in Dafny

This project models two parts of the Pokedex app.

- **NetworkLayerKit's `PokemonSearchService`** (`search_service.dfy`). The `provider` getter picks one of four Moya providers from three test switches, checked in a fixed order. `search(identifier:completion:)` turns the provider's answer into exactly one of a body and an error message:
  - 404 gives the not-found message.
  - Any 2xx status gives the body.
  - Any other status gives `"Error: <code>"`.
  - A transport failure gives its description.

  `validateResponse` and `validateStatusCode` are the validation stage of the URLSession publishers. A response that is not HTTP counts as status -1. The status classes are those of section 15 of RFC 9110: 2xx (section 15.3), 404 (section 15.5.5) and 401 (section 15.5.2). The 401 is what the authentication-error stub answers.
- **PokedexCore's `DataProvider`** (`data_provider.dfy`). This is a class with the provider's state:
  - the staging slot `appData.pokemon`
  - the collection `appData.pokemons`
  - the search subscription
  - the notifier

  Each method is proved against a pure step function on a `State` value. Lemmas about runs (sequences of events) state:
  - While a search is open, the slot is empty.
  - The outcome of a superseded search is always dropped.
  - Each search notifies at most once: once its outcome is delivered, a later outcome for that search is dropped, whatever ran in between.
  - Searches never touch the collection or storage.
  - Catching appends the parsed record and never removes duplicates, when `sortByOrder` only reorders.

  The replaced `cancellable` is modelled as a generation token. A search mints a new token only when the service returns a publisher, since `cancellable` is replaced only inside `if let publisher` (`Pokedex/Projects/PokedexCore/Sources/Core/DataProvider.swift:56-57`). When the service returns nil, the search only clears the slot, and the earlier subscription stays live. A completion carries its search's token and applies only while that search is current and still open.
- `decimal_text.dfy` models Swift's `"\(n)"` for an `Int` and its inverse. With them the model proves that the `"Error: <code>"` message identifies the status. `values.dfy` holds Option, Result, bytes and ASCII-to-UTF-8 encoding.

The AppData operations whose code is not part of this model are injected as an `AppDataOps` value. They are the parser (`PokemonParser.parse`), `sortByOrder`, `newSpecies` and `directory`. Each is taken to be a deterministic function of the arguments the model passes (see "## Left out"). Nothing else is assumed about them, except where a lemma says so in its `requires` (`SortPermutes`). `load` becomes the collection it produced, passed to `Start`. `save` is recorded as a `Saved` effect carrying the collection it was given.

Catching a record whose identifier is already in the collection appends a second copy: the code appends unconditionally (`Pokedex/Projects/PokedexCore/Sources/Core/DataProvider.swift:79`). `CatchTwiceAddsTwice` states the consequence. The code also never clears the slot when a record is caught; only the next search clears it.

## Model

| member | source | states |
|---|---|---|
| `SearchService.Provider` | NetworkLayer/Projects/NetworkLayerKit/Sources/Services/PokemonSearchService.swift:34-45 | The first switch that is on wins: auth-error testing, then UI testing, then network testing. Each mode is chosen exactly when its switch is on and all earlier ones are off. |
| `SearchService.StubbedResponse` | NetworkLayer/Projects/NetworkLayerKit/Sources/Services/PokemonSearchService.swift:24-30 | Only the auth-error stub has a fixed answer in this file. Its status is 401 and its body is the UTF-8 bytes of "Not authorized". |
| `SearchService.AuthErrorTestingCompletesWith401` | NetworkLayer/Projects/NetworkLayerKit/Sources/Services/PokemonSearchService.swift:24-37 | With auth-error testing on, whatever the other switches say, a search completes with no data and the message "Error: 401". |
| `SearchService.UnauthorizedMessage` | NetworkLayer/Projects/NetworkLayerKit/Sources/Services/PokemonSearchService.swift:59 | The message for status 401 is the literal "Error: 401". |
| `SearchService.ErrorMessage` | NetworkLayer/Projects/NetworkLayerKit/Sources/Services/PokemonSearchService.swift:59 | The message is "Error: " followed by Swift's decimal rendering of the status, and reading the rest as an Int gives back the status. |
| `SearchService.Search` | NetworkLayer/Projects/NetworkLayerKit/Sources/Services/PokemonSearchService.swift:47-65 | Exactly one of data and error is present. Data is present iff the provider answered with a 2xx status (`IsSuccessful`, the `200 ..< 300` test of line 56). 404 gives the not-found message. 2xx gives the body and no error. Any other status gives "Error: <status>". A transport failure gives its description. |
| `SearchService.ErrorMessageIdentifiesStatus` | NetworkLayer/Projects/NetworkLayerKit/Sources/Services/PokemonSearchService.swift:58-60 | For statuses that are neither 404 nor 2xx, two completions carry the same message iff the statuses are equal. |
| `SearchService.NotFoundOrderIrrelevant` | NetworkLayer/Projects/NetworkLayerKit/Sources/Services/PokemonSearchService.swift:51-60 | Testing 404 before or after the 2xx range gives the same classification, so a 404 never yields data. |
| `SearchService.StatusCodeOf` | NetworkLayer/Projects/NetworkLayerKit/Sources/Services/PokemonSearchService.swift:157 | An HTTP response gives its status code; any other response gives -1. |
| `SearchService.ValidateResponse` | NetworkLayer/Projects/NetworkLayerKit/Sources/Services/PokemonSearchService.swift:162-176 | The output succeeds iff the upstream succeeded and the result is valid, and then it is unchanged. An upstream failure is wrapped as `.error`. An invalid result fails with `.jsonError` carrying the same bytes. |
| `SearchService.ValidateStatusCode` | NetworkLayer/Projects/NetworkLayerKit/Sources/Services/PokemonSearchService.swift:155-160 | The same as `ValidateResponse`, with the test applied to the status code, where -1 stands for a non-HTTP response. |
| `SearchService.NonHttpResponseRejected` | NetworkLayer/Projects/NetworkLayerKit/Sources/Services/PokemonSearchService.swift:155-158 | Under the `200..<300` test, a non-HTTP response is always rejected with `.jsonError(data)`. |
| `SearchService.HttpResponseValidatedByClass` | NetworkLayer/Projects/NetworkLayerKit/Sources/Services/PokemonSearchService.swift:121-126 | Under the `200..<300` test, an HTTP result passes unchanged iff its status is 2xx. Otherwise it fails with its body. |
| `DecimalText.NatToString` | NetworkLayer/Projects/NetworkLayerKit/Sources/Services/PokemonSearchService.swift:59 | The decimal rendering of a natural number is non-empty, all digits, has at least two digits iff the number is at least 10, and has no leading zero. |
| `DecimalText.IntToString` | NetworkLayer/Projects/NetworkLayerKit/Sources/Services/PokemonSearchService.swift:59 | `"\(n)"` is non-empty and starts with '-' iff n is negative. A negative n renders as '-' followed by the digits of -n; a non-negative n renders as exactly its digits (`NatToString`), so 0 renders as "0". No non-zero n has a leading zero. |
| `DecimalText.ParseNatToString` | NetworkLayer/Projects/NetworkLayerKit/Sources/Services/PokemonSearchService.swift:59 | Reading back the digits of n gives n. |
| `DecimalText.IntToStringRoundTrip` | NetworkLayer/Projects/NetworkLayerKit/Sources/Services/PokemonSearchService.swift:59 | Reading back `"\(i)"` gives i. |
| `DecimalText.IntToStringInjective` | NetworkLayer/Projects/NetworkLayerKit/Sources/Services/PokemonSearchService.swift:59 | Two Ints render alike iff they are equal. |
| `Values.AsciiBytes` | NetworkLayer/Projects/NetworkLayerKit/Sources/Services/PokemonSearchService.swift:26 | The UTF-8 bytes of an ASCII string are one byte per character, each equal to the character's code. |
| `PokedexCore.Initial` | Pokedex/Projects/PokedexCore/Sources/Core/DataProvider.swift:34-43 | A new provider has an empty slot, an empty collection, no open search, no notifier, no notifications and no storage calls. |
| `PokedexCore.Notify` | Pokedex/Projects/PokedexCore/Sources/Core/DataProvider.swift:64-70 | `notifier?.dataReceived`, for both the failure message (line 64) and the nil of a value (line 70), records exactly one message when a notifier is set, and nothing otherwise. |
| `PokedexCore.StartStep` | Pokedex/Projects/PokedexCore/Sources/Core/DataProvider.swift:45-48 | `start` makes the collection the sorted loaded collection and calls load, then sort. The rest of the state is unchanged. |
| `PokedexCore.SearchStep` | Pokedex/Projects/PokedexCore/Sources/Core/DataProvider.swift:50-57 | `search` empties the slot. When the service returned a publisher, it opens a search with a strictly newer token. When the service returned nil, the token and the open search stay as they were. Either way the collection, storage and notifications are left alone. |
| `PokedexCore.UnpublishedSearchKeepsEarlierSubscription` | Pokedex/Projects/PokedexCore/Sources/Core/DataProvider.swift:51-57 | A search whose service returns nil clears the slot but leaves the earlier search current, so that search's value still fills the slot when it arrives. |
| `PokedexCore.DeliverStep` | Pokedex/Projects/PokedexCore/Sources/Core/DataProvider.swift:58-72 | A stale outcome changes nothing. For the current search, a value fills the slot and notifies with nil. A failure notifies with its description and leaves the slot as it was. Either one closes the search. Neither touches the collection. |
| `PokedexCore.CatchStep` | Pokedex/Projects/PokedexCore/Sources/Core/DataProvider.swift:76-82 | With an empty slot, nothing changes. Otherwise the collection becomes `sortByOrder(old + [parse(staged)])`, and the effects gain `Sorted`, then `Saved` of that collection. The slot stays as it was. |
| `PokedexCore.RunKeepsSlotInvariant` | Pokedex/Projects/PokedexCore/Sources/Core/DataProvider.swift:50-82 | Every run of operations keeps the slot empty while a search is open. |
| `PokedexCore.RunNeverLowersGeneration` | Pokedex/Projects/PokedexCore/Sources/Core/DataProvider.swift:54-57 | The search token never goes back along a run. |
| `PokedexCore.SupersededOutcomeIgnored` | Pokedex/Projects/PokedexCore/Sources/Core/DataProvider.swift:54-57 | An outcome whose token is older than the current one is dropped, whatever ran in between. |
| `PokedexCore.SearchingLeavesCollection` | Pokedex/Projects/PokedexCore/Sources/Core/DataProvider.swift:50-72 | Runs without start or catch leave the collection and storage calls unchanged. |
| `PokedexCore.RunKeepsClosed` | Pokedex/Projects/PokedexCore/Sources/Core/DataProvider.swift:54-72 | A search that has been superseded or has had its outcome stays that way along every run. |
| `PokedexCore.NotifiedAtMostOnce` | Pokedex/Projects/PokedexCore/Sources/Core/DataProvider.swift:58-72 | Delivering the current search's outcome adds exactly one notification if a notifier is set, and none otherwise. Any later outcome with the same token changes nothing, whatever ran in between. |
| `PokedexCore.FailedSearchThenCatchIsNoOp` | Pokedex/Projects/PokedexCore/Sources/Core/DataProvider.swift:62-77 | After a failed search the slot is empty, and catching changes nothing. |
| `PokedexCore.SucceededSearchThenCatch` | Pokedex/Projects/PokedexCore/Sources/Core/DataProvider.swift:68-81 | After a successful search the slot holds the value, and catching sorts the old collection plus its parse. |
| `PokedexCore.CatchAddsParsedRecord` | Pokedex/Projects/PokedexCore/Sources/Core/DataProvider.swift:78-81 | If sorting only reorders, a catch adds exactly one copy of the parsed record and nothing else. |
| `PokedexCore.CatchTwiceAddsTwice` | Pokedex/Projects/PokedexCore/Sources/Core/DataProvider.swift:76-81 | If sorting only reorders, catching twice adds the record twice, so there is no deduplication. |
| `PokedexCore.DataProvider.constructor` | Pokedex/Projects/PokedexCore/Sources/Core/DataProvider.swift:41-43 | The new object's state is `Initial()`. |
| `PokedexCore.DataProvider.SetNotifier` | Pokedex/Projects/PokedexCore/Sources/Core/DataProvider.swift:35 | Setting the notifier changes only whether one is attached. |
| `PokedexCore.DataProvider.Start` | Pokedex/Projects/PokedexCore/Sources/Core/DataProvider.swift:45-48 | The new state is `StartStep` of the old one. |
| `PokedexCore.DataProvider.Search` | Pokedex/Projects/PokedexCore/Sources/Core/DataProvider.swift:50-74 | The new state is `SearchStep` of the old one. A token is returned iff the service returned a publisher, and it is the new current one. |
| `PokedexCore.DataProvider.Receive` | Pokedex/Projects/PokedexCore/Sources/Core/DataProvider.swift:58-72 | The new state is `DeliverStep` of the old one. |
| `PokedexCore.DataProvider.CatchPokemon` | Pokedex/Projects/PokedexCore/Sources/Core/DataProvider.swift:76-82 | The new state is `CatchStep` of the old one. |
| `PokedexCore.DataProvider.PokemonView` | Pokedex/Projects/PokedexCore/Sources/Core/DataProvider.swift:84-89 | nil iff the slot is empty. Otherwise it carries the staged name, weight, height and front sprite path. |
| `PokedexCore.DataProvider.PokemonAt` | Pokedex/Projects/PokedexCore/Sources/Core/DataProvider.swift:95-97 | Needs an index inside the collection and returns that element, which is in the collection. |
| `PokedexCore.DataProvider.Pokemons` | Pokedex/Projects/PokedexCore/Sources/Core/DataProvider.swift:99-101 | Returns the collection, reading only. |

## Left out

- The network and scheduling are left out. That covers the Moya provider construction, `URLSession.dataTaskPublisher`, `receive(on:)` and the callback queues. The provider's answer is a parameter of `Search`, and a publisher's outcome is a parameter of `Receive`.
- The not-found message `Constants.Translations.Error.statusCode404` is not part of this model. It is the parameter `notFound`.
- The immediate stub's sample response (`PokemonSearchEndpoint.sampleData`) is not part of this model, so `StubbedResponse` gives no fixed answer for that mode.
- The bodies of `AppData.sortByOrder`, `save`, `load`, `newSpecies` and `directory`, of `PokemonParser.parse` and of `FileStorage` are not part of this model. They are injected functions, or recorded effects, with no semantics assumed.
- AppData's operations are modelled as deterministic functions of the arguments the model passes: `sortByOrder` of the collection alone, `newSpecies` of the slot and the collection, `directory` of the collection, `parse` of the staged record. The source calls `appData.sortByOrder()` and `appData.newSpecies()` with no arguments (`DataProvider.swift:80`, `:92`), so any other AppData state they may read is not captured.
- `PokedexCore.DataProvider.NewSpecies` and `PokedexCore.DataProvider.DirectoryView` only delegate to AppData's `newSpecies` and `directory`, whose code is not part of this model. They carry no contract, and nothing is proved about them.
- The contents of `LocalPokemon` and `Directory` are not modelled; both are opaque types. `Pokemon` keeps only the fields the provider reads.
- JSON decoding of `Pokemon` with snake-case keys is left out. The decoded value, or the decode failure's description, is the `Outcome` handed to `Receive`.
- `DataProvider` holds a `SearchProviding` (`DataProvider.swift:36`), and the conformer is not part of this model. If it is `PokemonSearchService`'s `search(identifier:) -> AnyPublisher<Pokemon, Error>`, that path does not validate the status (the call is commented out at `PokemonSearchService.swift:113`), so a non-2xx body would reach the decoder. The completion classifier is therefore not wired into the provider.
- `PokedexCore.DataProvider.Search` ignores its identifier: the identifier only reaches the network request, which is left out. Whether the service returned a publisher is the parameter `published`, because the `SearchProviding` declaration is not part of this model.
- `loadSamplePokemon`, the commented-out publisher variant and the `AnyPublisher<Data>` overloads of `load` are left out. They are a hard-coded fetch with printing, dead code, and plumbing.
- The `Log` struct and `os_log` calls are logging only, so they are left out.
- A publisher emits exactly one outcome in this model. Combine's trailing `.finished` after a value is a no-op in the source (`break`).
- `PokedexCore.DataProvider.constructor` starts AppData empty. `AppData(storage:)` is not part of this model, so anything it may load at construction is not captured.
