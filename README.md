# In-memory record stores of the week-1 example services

This project models, in Dafny, the in-memory stores behind the example servers
and proves properties of them:

- the **UFO sighting service** (`ufoService`), in both of its copies: the workspace
  gRPC server with HTTP gateway, which validates Create requests, and the plain
  gRPC server, which does not. The store maps a UUID to a `Sighting`. A sighting has
  a payload (`SightingInfo`) and three lifecycle timestamps. Create stores a new
  record. Get and GetAll read the map. Update is a field-granular partial merge:
  each payload field is overwritten only when its wrapper in the patch is non-nil,
  and `updatedAt` is always refreshed. Delete is a soft delete: it sets `deletedAt`
  and keeps the record visible to Get and GetAll.
- the **weather store** of the chi server's `models` package: whole-record upsert
  keyed by the record's own city, a hard delete that ignores absent cities, and
  lookups;
- the **weather store and handlers** of the chi + OpenAPI (ogen) server: an upsert
  keyed by the path city, a GET handler that turns "absent" into a 404 error value,
  a PUT handler that builds the stored record from the path and the body, and the
  500 fallback for any other error.

Each store is a class whose map field is updated by its methods. Every
method is one critical section of the store's lock, so the lock is dropped and each
method is atomic. The current time and the fresh UUID are parameters. The request
validator of the workspace copy is the parameter `validate`: it returns `None` to
accept a request and `Some(err)` to reject it with the message `err`. Records are
values, not shared pointers.

Modules:

- `Wrappers` holds `Option` and `Result`.
- `GoTypes` holds Go's `int32` and the `int32(len)` conversion, plus `float64` and `time.Time`.
- `Collections` holds the map-to-slice loop that every GetAll runs.
- `UfoModel` holds the sighting types, the status errors, the merge and its lemmas.
- `UfoWorkspace` and `UfoGrpc` hold one class per UFO server copy.
- `WeatherModels` and `WeatherOgen` hold the two weather servers.

Four behaviours of the code that a reader might not expect, all modelled as written:

- An empty but non-nil patch is accepted by Update. It only moves `updatedAt`.
  Only a nil `update_info` is rejected.
- Create leaves `updatedAt` unset.
- A repeated Delete succeeds again and overwrites `deletedAt` with the later time.
- Soft-deleted records stay visible to Get and GetAll.

## Model

| member | source | states |
|---|---|---|
| `GoTypes.Int32Of` | week_1/workspace/grpc/cmd/server/main.go:95 | `int32(len)` equals the length modulo 2^32, and equals the length itself below 2^31 |
| `Collections.CollectValues` | week_1/workspace/grpc/cmd/server/main.go:89-92 | the snapshot has one element per map key, each equal to the value stored under its key, with no key repeated and none missed |
| `UfoModel.EmptyPatchTouchesNoField` | week_1/grpc/cmd/grpc_server/main.go:47-69 | a patch has every wrapper nil exactly when none of the six field checks fires |
| `UfoModel.ApplyPatch` | week_1/workspace/grpc/cmd/server/main.go:125-147 | every field whose patch wrapper is present takes the patch's value, and every other field keeps its old value |
| `UfoModel.EmptyPatchIsIdentity` | week_1/workspace/grpc/cmd/server/main.go:125-147 | a non-nil patch with every wrapper nil leaves the payload unchanged |
| `UfoModel.ApplyPatchIdempotent` | week_1/workspace/grpc/cmd/server/main.go:125-147 | applying the same patch twice gives the payload of applying it once |
| `UfoModel.DisjointPatchesCommute` | week_1/workspace/grpc/cmd/server/main.go:112-147 | two updates that write disjoint fields give the same payload in either serialisation order |
| `UfoModel.ApplyAllIsLastWriterWins` | week_1/grpc/cmd/grpc_server/main.go:34-71 | after a serialised run of updates, each field holds the value of the last update that wrote it, or its original value if none did |
| `UfoModel.DisjointUpdatesAreAllKept` | week_1/grpc/cmd/grpc_server/main.go:34-71 | when no two updates in a run write the same field, every written value survives, and every unwritten field keeps its original value |
| `UfoModel.Updated` | week_1/workspace/grpc/cmd/server/main.go:125-149 | an accepted update keeps `uuid`, `createdAt` and `deletedAt`, sets `updatedAt` to now, and merges the payload field by field; a nil payload stays nil |
| `UfoModel.UpdatedIdempotent` | week_1/grpc/cmd/grpc_server/main.go:47-71 | two updates with the same patch equal one update at the later time |
| `UfoModel.EmptyUpdateOnlyMovesUpdatedAt` | week_1/grpc/cmd/grpc_server/main.go:42-73 | an accepted patch with every wrapper nil changes only `updatedAt` |
| `UfoWorkspace.UfoService.constructor` | week_1/workspace/grpc/cmd/server/main.go:39-43 | a new service has an empty map |
| `UfoWorkspace.UfoService.Create` | week_1/workspace/grpc/cmd/server/main.go:45-71 | a failed validation gives InvalidArgument "validation error: …", and a nil payload gives InvalidArgument "info is required"; both leave the map unchanged. Otherwise exactly one key, the fresh UUID, is added, holding the given payload with `createdAt` = now and no `updatedAt` or `deletedAt` |
| `UfoWorkspace.UfoService.Delete` | week_1/workspace/grpc/cmd/server/main.go:73-83 | an absent UUID gives NotFound and changes nothing; otherwise only that record's `deletedAt` is set to now. The key set is unchanged either way |
| `UfoWorkspace.UfoService.GetAll` | week_1/workspace/grpc/cmd/server/main.go:85-97 | returns one record per key, soft-deleted ones included, each equal to the stored one; `totalCount` is `int32` of the key count; the store is not changed |
| `UfoWorkspace.UfoService.Get` | week_1/workspace/grpc/cmd/server/main.go:99-109 | returns the stored record for a present UUID and NotFound otherwise, without changing the store |
| `UfoWorkspace.UfoService.Update` | week_1/workspace/grpc/cmd/server/main.go:111-152 | checks existence first (NotFound, even for a nil patch), then a nil patch (InvalidArgument); neither error changes the map. Otherwise only that record changes, to `Updated` of it |
| `UfoWorkspace.CreateThenGet` | week_1/workspace/grpc/cmd/server/main.go:56-70 | reading back a created record gives the request's payload with `createdAt` set and `updatedAt` and `deletedAt` unset |
| `UfoWorkspace.DeleteThenGet` | week_1/workspace/grpc/cmd/server/main.go:77-82 | after Delete, Get still returns the record, now carrying `deletedAt` |
| `UfoWorkspace.UpdateTwice` | week_1/workspace/grpc/cmd/server/main.go:125-149 | sending the same patch twice leaves the payload of one update |
| `UfoGrpc.UfoService.constructor` | week_1/grpc/cmd/grpc_server/main.go:151-153 | the service starts with an empty map |
| `UfoGrpc.UfoService.Update` | week_1/grpc/cmd/grpc_server/main.go:33-74 | NotFound before InvalidArgument; neither error changes the map. Otherwise only that record changes, to `Updated` of it |
| `UfoGrpc.UfoService.Delete` | week_1/grpc/cmd/grpc_server/main.go:76-88 | an absent UUID gives NotFound and changes nothing; otherwise only `deletedAt` of that record is set to now. The key set is unchanged either way |
| `UfoGrpc.UfoService.GetAll` | week_1/grpc/cmd/grpc_server/main.go:90-103 | returns one record per key, soft-deleted ones included; `totalCount` is `int32` of the key count; the store is not changed |
| `UfoGrpc.UfoService.Get` | week_1/grpc/cmd/grpc_server/main.go:105-116 | returns the stored record for a present UUID and NotFound otherwise, without changing the store |
| `UfoGrpc.UfoService.Create` | week_1/grpc/cmd/grpc_server/main.go:118-134 | always succeeds and adds exactly one key, the fresh UUID, holding the request's payload (possibly nil) with `createdAt` = now and no `updatedAt` or `deletedAt` |
| `UfoGrpc.CreateNilThenEmptyUpdate` | week_1/grpc/cmd/grpc_server/main.go:118-129 | a record created without a payload accepts an all-nil patch, which only sets `updatedAt` |
| `UfoGrpc.DeleteTwice` | week_1/grpc/cmd/grpc_server/main.go:76-88 | a repeated Delete succeeds each time, keeps the key set, and leaves the record retrievable |
| `WeatherModels.WeatherStorage.constructor` | week_1/http_chi/pkg/models/storage.go:11-15 | a new store is empty |
| `WeatherModels.WeatherStorage.GetAllWeathers` | week_1/http_chi/pkg/models/storage.go:17-27 | returns exactly the stored records, one per city, with length equal to the number of cities, without changing the store |
| `WeatherModels.WeatherStorage.UpdateWeather` | week_1/http_chi/pkg/models/storage.go:29-34 | stores the record under its own city; every other city is unchanged |
| `WeatherModels.WeatherStorage.DeleteWeather` | week_1/http_chi/pkg/models/storage.go:36-41 | removes the city's key, leaves every other entry unchanged, and is a no-op for an absent city |
| `WeatherModels.WeatherStorage.GetWeather` | week_1/http_chi/pkg/models/storage.go:43-52 | returns the stored record, or nil for an absent city, without changing the store |
| `WeatherModels.NewStorageIsEmpty` | week_1/http_chi/pkg/models/storage.go:11-27 | listing a new store gives the empty sequence |
| `WeatherModels.UpdateTwice` | week_1/http_chi/pkg/models/storage.go:29-34 | storing the same record twice leaves the map of storing it once |
| `WeatherModels.DeleteThenGet` | week_1/http_chi/pkg/models/storage.go:36-52 | after a delete, the city reads as nil |
| `WeatherOgen.WeatherStorage.constructor` | week_1/http_chi_ogen/cmd/http_server/main.go:33-37 | a new store is empty |
| `WeatherOgen.WeatherStorage.GetWeather` | week_1/http_chi_ogen/cmd/http_server/main.go:39-47 | returns the stored record, or nil for an absent city, without changing the store |
| `WeatherOgen.WeatherStorage.UpdateWeather` | week_1/http_chi_ogen/cmd/http_server/main.go:49-54 | stores the given record whole under the given city; every other city is unchanged |
| `WeatherOgen.WeatherHandler.constructor` | week_1/http_chi_ogen/cmd/http_server/main.go:60-64 | the handler serves the given store |
| `WeatherOgen.WeatherHandler.GetWeatherByCity` | week_1/http_chi_ogen/cmd/http_server/main.go:66-75 | returns the stored record; for an absent city it returns a not-found value with code 404 and message "Weather data not found for city: " followed by the city |
| `WeatherOgen.WeatherHandler.UpdateWeatherByCity` | week_1/http_chi_ogen/cmd/http_server/main.go:77-86 | stores, and returns, a record whose city is the path city and whose temperature is the request's; other cities are unchanged, and records stay keyed by their own city |
| `WeatherOgen.WeatherHandler.NewError` | week_1/http_chi_ogen/cmd/http_server/main.go:88-96 | always status 500, with code 500 and the error's message |
| `WeatherOgen.UpdateTwice` | week_1/http_chi_ogen/cmd/http_server/main.go:49-54 | storing the same record twice under a city leaves the map of storing it once |
| `WeatherOgen.PutThenGet` | week_1/http_chi_ogen/cmd/http_server/main.go:66-86 | a GET after a PUT of the same city returns the record the PUT returned |

## Left out

- Locking (`sync.RWMutex`): each method is modelled as one atomic step. Interleavings of concurrent callers are not modelled. The lemmas about runs of updates cover every order the lock can serialise them in.
- `main` of every server: listening, gRPC and gateway registration, routing, middleware, signal handling and shutdown. This is process plumbing.
- The client programs and the request-logging middleware. They are network I/O, interactive menus and timing logs.
- `log.Printf` calls inside Create and Delete. These are I/O only.
- `uuid.NewString()`, `time.Now()` and the generated `Validate()`. The first two become parameters; the fresh UUID must not already be a key. The validator becomes the `validate` parameter, because its generated code is not part of this model.
- Protobuf, OpenAPI and JSON marshalling, and the mapping of status codes onto HTTP responses by the gateway.
- Floating point: temperatures are opaque 64-bit patterns. The stores never compute with them.
- Pointer aliasing: Go returns and stores pointers to records, so a caller could change a stored record through them. The model passes records by value.
- UfoGrpc.UfoService.Update: in Go, a patch with a present field on a record whose payload is nil dereferences nil and crashes. The model excludes that call by precondition and does not model the crash.
- WeatherOgen.WeatherStorage.UpdateWeather: Go could store a nil pointer, which GET would then report as absent. The handler never does this, and the model stores values only.
