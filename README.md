# Clear-scroll request patch of the typed Elasticsearch client

This project models the clear-scroll endpoint of the typed .NET Elasticsearch
client (NEST). It covers the request patch `PatchClearScroll` and the dispatch
step that hands its result to the low-level clear-scroll dispatch.

A clear-scroll request normally carries its scroll id as a path parameter. If
the id is present and is not the sentinel `_all`, the patch clears it from the
`RequestPath` object. It then returns the bare id as the raw request body. In
every other case it leaves the path alone and returns no body (`null`).

- `RequestPath` is a class whose `scrollId` field (an `Option<string>`, with `None`
  for `null`) the patch overwrites in place. A second field, `otherParameters`,
  holds every other route value and query-string parameter. It lets the frame
  condition say that nothing else changes.
- `Path` is the value of such an object, and `Patched` is the patch as a function
  of that value. The method `PatchClearScroll` is proved equal to `Patched` on the
  old state.
- `Unpatch` is the partner of `Patched`: it undoes the patch on every outcome the
  patch can produce. `PatchTimes` applies the patch repeatedly. The lemmas show that
  the path's state is idempotent but the returned body is not.
- C# `string` equality is ordinal, so the test against `_all` is sequence
  equality. An empty id `""` is not null and not `_all`, so it moves to the body.

The patch is idempotent on the path but not on the returned body: a second call
on an already patched path finds the id cleared and returns `null`
(`PatchIdempotentOnPath`, `PatchTimesIsPatchOnce`).

## Model

| member | source | states |
|---|---|---|
| `ClearScrollEndpoint.Patched` | src/Nest/Search/Scroll/ClearScroll/ElasticClient-ClearScroll.cs:51-61 | A body is returned exactly when the id is present and not `_all` (both directions). The body is then the id unaltered, never `_all`, and the id is cleared from the path. With no body the path is unchanged. Afterwards the id is absent or `_all`, and the other parameters are untouched. |
| `ClearScrollEndpoint.Unpatch` | src/Nest/Search/Scroll/ClearScroll/ElasticClient-ClearScroll.cs:55-58 | For every outcome the patch can produce, returns the one path that patches to that outcome: moving the id into the body loses nothing. |
| `ClearScrollEndpoint.PatchRoundTrip` | src/Nest/Search/Scroll/ClearScroll/ElasticClient-ClearScroll.cs:53-60 | Every patch outcome is reachable, and undoing the patch gives back the original path. |
| `ClearScrollEndpoint.PatchIdempotentOnPath` | src/Nest/Search/Scroll/ClearScroll/ElasticClient-ClearScroll.cs:53-61 | Patching an already patched path leaves it unchanged and returns no body. |
| `ClearScrollEndpoint.PatchTimesIsPatchOnce` | src/Nest/Search/Scroll/ClearScroll/ElasticClient-ClearScroll.cs:53-61 | Any positive number of patches leaves the path exactly as one patch does. Only the first call can return a body; every later call returns none. |
| `ClearScrollEndpoint.PatchClearScroll` | src/Nest/Search/Scroll/ClearScroll/ElasticClient-ClearScroll.cs:51-61 | The new state and the returned body are those of `Patched` on the old state. Only `scrollId` may be written, and the object is unchanged when the id does not move. The moved body equals the old id, and the id is afterwards absent or `_all`. |
| `ClearScrollEndpoint.ClearScrollDispatchCall` | src/Nest/Search/Scroll/ClearScroll/ElasticClient-ClearScroll.cs:36 | The low-level dispatch receives the path as patched, together with the body the patch returned; the pair is `Patched` of the old state. |
| `ClearScrollEndpoint.ClearScroll` | src/Nest/Search/Scroll/ClearScroll/ElasticClient-ClearScroll.cs:33-37 | For a request with a given scroll id and other parameters, the dispatch gets the id as body exactly when it is present and not `_all`. Then no id parameter is left. Otherwise the path reaches the dispatch as the request gave it. The other parameters always pass through unchanged. |

## Left out

- `ClearScrollEndpoint.ClearScroll`: the dispatcher that turns the typed request into a `RequestPath` is not part of this model. The model takes it to copy the request's scroll id and other parameters into a fresh path.
- The asynchronous entry point `ClearScrollAsync` (lines 45-49): it passes the same arguments, `p` and `PatchClearScroll(p)`, to `ClearScrollDispatchAsync` (line 48) as the blocking one passes to `ClearScrollDispatch` (line 36). `ClearScrollDispatchCall` models those arguments for both entry points, not which low-level method receives them; the task scheduling is not modelled.
- The `ClearScroll(scrollId, selector)` overloads (lines 29-30, 41-42) and `InvokeOrDefault`: the selector is an arbitrary caller function, and `InvokeOrDefault` is not part of this model.
- `Dispatcher.Dispatch`, `DispatchAsync` and `LowLevelDispatch.ClearScrollDispatch`: transport I/O whose code is not part of this model. The model stops at the arguments handed to the low-level dispatch.
- The cat endpoints (`DoCat`, `DoCatAsync`, `DeserializeCatResponse`, `ForceConfiguration`) and the refresh endpoints: these forward to the serializer and dispatcher, which are not part of this model, and have no logic of their own to state.
