# DeepFaceLive backend data plane: envelope, lag check and signal

This project models the self-contained logic of
`apps/DeepFaceLive/backend/BackendBase.py` in DeepFaceLive, the part of the
live video pipeline's inter-process data plane that does not depend on shared
memory internals:

- `BackendConnectionData`, the message envelope written to a connection: a
  uid fixed at construction, a map from names to weak-heap handles, a map from
  names to image metadata (shape and element type), nullable scalar fields
  (frame name, count, number, fps, timestamp, merged frame name, re-emitted
  flag) and a list of face marks that `add_face_mark` appends to. Its accessors resolve handles
  through an attached weak heap, which may be absent; `__getstate__` copies
  the envelope without the heap.
- `BackendConnection.is_full_read`, the reader's lag check against the ring's
  write counter.
- `BackendSignal`, a one-slot edge flag: `send` sets it, `recv` tests and
  clears it.

Files:

- `wrappers.dfy` (`Wrappers`): `Option` for Python `None`, `Result` for a
  call that raises.
- `weak_heap.dfy` (`WeakHeap`): the weak heap `MPWeakHeap` as an abstract
  interface. A heap is the contents of its shared memory, of which nothing is
  assumed, with two operations:
  `add` yields a handle and a new state, `get` resolves a handle to optional
  bytes. Nothing relates the two, so no round trip or staleness rule is
  assumed of the heap.
- `connection_data.dfy` (`ConnectionData`): the envelope as an immutable
  record. Every mutating method returns the envelope in its new state; a
  method that raises returns `Err` and no envelope, so a rejected call
  changes nothing. Calling a heap method while no heap is attached raises
  `AttributeError` in Python (the attribute is looked up on `None`); the
  model returns `AttributeError` naming the heap method (`add_data` or
  `get_data`). A non-`FaceMark` value given to `add_face_mark` yields
  `ValueError` with the source's message. Viewing a blob as an image
  follows `np.ndarray(shape, dtype, buffer)`: an element type carries its
  item size, a blob shorter than the shape's element count times the item
  size raises `TypeError`, and a longer blob is viewed through its prefix of
  that length. The getters `get_uid`,
  `get_face_mark_list` and the seven scalar getters are plain field reads
  (`GetUid`, `GetFaceMarkList`, `GetFrameNum`, ...); the setters' contracts
  are stated through them.
- `connection.dfy` (`Connection`): the ring reduced to its `read_id` and
  `write_id` counters, with `is_full_read` and its boundary behaviour. The
  ring's slot count 8192 is the constant `TABLE_SIZE`.
- `signal.dfy` (`Signal`): the flag, and sequences of `send`/`recv` calls
  with a declarative reference ("an edge is pending") that every `recv`
  result is proved to agree with.

Behaviour of the code that the model keeps on purpose:

- `get_file` of a name that has no handle returns `None` without touching
  the heap, so it succeeds even with no heap attached.
- `get_image` calls `get_file` even when the name has no image metadata, so
  it raises for a name stored only with `set_file` when no heap is attached.
- `set_file` does not remove image metadata: after `set_image` and then
  `set_file` under the same name, `get_image` views the new blob with the
  old shape and element type when the blob is large enough for them, and
  raises `TypeError` when it is too short
  (`ConnectionData.ImageInfoOutlivesFile`).
- `is_full_read` compares inclusively: trailing by exactly `buffer_size`
  records still counts as fully read.

## Model

| member | source | states |
|---|---|---|
| ConnectionData.New | apps/DeepFaceLive/backend/BackendBase.py:21-36 | A new envelope has the given uid, no heap, no handles or image metadata, every scalar field unset and no face marks |
| ConnectionData.NewHasNoFiles | apps/DeepFaceLive/backend/BackendBase.py:21-75 | In a new envelope every name reads as absent from both `get_file` and `get_image`, although no heap is attached |
| ConnectionData.GetState | apps/DeepFaceLive/backend/BackendBase.py:38-41 | The pickled state has no heap and keeps uid, handle map, image-info map, every scalar field and the face-mark list |
| ConnectionData.AssignWeakHeap | apps/DeepFaceLive/backend/BackendBase.py:43-44 | Binding a heap attaches exactly that heap and keeps every other part of the envelope |
| ConnectionData.SetFile | apps/DeepFaceLive/backend/BackendBase.py:46-47 | Fails with AttributeError exactly when no heap is attached; otherwise the name gains a handle, no other name is added or dropped, and image metadata, face marks, uid and scalars are kept |
| ConnectionData.GetFile | apps/DeepFaceLive/backend/BackendBase.py:49-53 | A name without a handle reads as absent whatever the heap; the call fails exactly when the name has a handle and no heap is attached; with a handle and a bound heap it returns exactly the heap's `get_data` of that handle |
| ConnectionData.SetImage | apps/DeepFaceLive/backend/BackendBase.py:55-64 | Fails exactly when no heap is attached; otherwise the name gains a handle, no other name is added or dropped and every other name keeps its handle, the name's recorded shape and element type are the image's, other names' metadata, face marks, uid and scalars unchanged |
| ConnectionData.GetImage | apps/DeepFaceLive/backend/BackendBase.py:66-75 | A None name is absent; a failing `get_file` fails the call with its error; without metadata or blob the image is absent; with both, a blob shorter than the recorded shape and element type need raises `TypeError`, and otherwise the image carries the recorded shape and element type over the prefix of the blob they need |
| ConnectionData.SetIsFrameReemitted | apps/DeepFaceLive/backend/BackendBase.py:79-80 | The getter returns the value just set and no other field, handle, metadata or face mark changes |
| ConnectionData.SetFrameName | apps/DeepFaceLive/backend/BackendBase.py:82-83 | The getter returns the value just set and no other field, handle, metadata or face mark changes |
| ConnectionData.SetFrameCount | apps/DeepFaceLive/backend/BackendBase.py:85-86 | The getter returns the value just set and no other field, handle, metadata or face mark changes |
| ConnectionData.SetFrameNum | apps/DeepFaceLive/backend/BackendBase.py:87-88 | The getter returns the value just set and no other field, handle, metadata or face mark changes |
| ConnectionData.SetFrameFps | apps/DeepFaceLive/backend/BackendBase.py:89-90 | The getter returns the value just set and no other field, handle, metadata or face mark changes |
| ConnectionData.SetFrameTimestamp | apps/DeepFaceLive/backend/BackendBase.py:91-92 | The getter returns the value just set and no other field, handle, metadata or face mark changes |
| ConnectionData.SetMergedFrameName | apps/DeepFaceLive/backend/BackendBase.py:94-95 | The getter returns the value just set and no other field, handle, metadata or face mark changes |
| ConnectionData.AddFaceMark | apps/DeepFaceLive/backend/BackendBase.py:97-101 | A non-FaceMark is rejected with ValueError (no new envelope, so the list is unchanged); a FaceMark is appended as the one new last element, the earlier marks kept in order and the rest of the envelope unchanged |
| ConnectionData.SetFileThenGetFile | apps/DeepFaceLive/backend/BackendBase.py:46-53 | After `set_file`, `get_file` of that name returns exactly the heap's `get_data`, in the heap's new state, of the handle `add_data` issued |
| ConnectionData.SetFileLastWriterWins | apps/DeepFaceLive/backend/BackendBase.py:46-47 | A second `set_file` under the same name replaces the handle with the second one issued and adds no name |
| ConnectionData.SetFileKeepsOtherNames | apps/DeepFaceLive/backend/BackendBase.py:46-53 | `set_file` leaves every other name's handle (and absence) as it was, and that name still resolves its own handle |
| ConnectionData.FileOnlyNameIsNoImage | apps/DeepFaceLive/backend/BackendBase.py:46-75 | A name stored only with `set_file` reads as absent from `get_image` |
| ConnectionData.SetImageThenGetImage | apps/DeepFaceLive/backend/BackendBase.py:55-75 | After `set_image`, `get_image` views the heap's blob for the new handle with the image's shape and element type: absent when the heap yields nothing, `TypeError` when the blob is too short, else its needed prefix; when the heap returns the stored bytes of a contiguous image the image comes back identical |
| ConnectionData.ImageInfoOutlivesFile | apps/DeepFaceLive/backend/BackendBase.py:46-75 | After `set_image` then `set_file` under one name, `get_image` views the new blob with the earlier shape and element type when it is large enough for them (its prefix, if longer), and raises `TypeError` when it is too short |
| ConnectionData.GetStateThenAssign | apps/DeepFaceLive/backend/BackendBase.py:38-44 | The pickled state differs from the envelope in the heap alone: binding the original heap restores the envelope exactly, and a heapless envelope is its own state |
| ConnectionData.BindThenGetFile | apps/DeepFaceLive/backend/BackendBase.py:38-53 | After binding a heap to the pickled state, every name with a handle resolves it through the newly bound heap's `get_data`, and every other name reads as absent |
| ConnectionData.GetStateIsUnbound | apps/DeepFaceLive/backend/BackendBase.py:38-75 | Until a heap is bound, in the pickled state every name with a handle fails to resolve from `get_file` and `get_image`, and every other name reads as absent |
| Connection.IsFullRead | apps/DeepFaceLive/backend/BackendBase.py:132-136 | Full read holds exactly when the reader trails the writer by at most `buffer_size` records |
| Connection.DefaultWindowIsCaughtUp | apps/DeepFaceLive/backend/BackendBase.py:132-136 | With the default `buffer_size` of 0, full read means `read_id >= write_id`; equal counters are full read, one behind is not |
| Connection.WindowBoundary | apps/DeepFaceLive/backend/BackendBase.py:132-136 | Trailing by exactly `buffer_size` records is full read; trailing by one more is not |
| Connection.TableSizeWindow | apps/DeepFaceLive/backend/BackendBase.py:104-136 | With a window of the ring's 8192 slots, full read holds exactly when the writer is at most 8192 records ahead |
| Connection.WiderWindowAccepts | apps/DeepFaceLive/backend/BackendBase.py:132-136 | Full read is monotone in the window: a wider window accepts every reader a narrower one does |
| Connection.ProgressKeepsFullRead | apps/DeepFaceLive/backend/BackendBase.py:132-136 | A reader that advances, or a writer that is further back, keeps a full read full |
| Signal.New | apps/DeepFaceLive/backend/BackendBase.py:140-141 | A new signal has no pending edge |
| Signal.Send | apps/DeepFaceLive/backend/BackendBase.py:143-144 | After `send` the flag is set, whatever it was |
| Signal.Recv | apps/DeepFaceLive/backend/BackendBase.py:146-150 | `recv` returns whether the flag was set and always leaves it cleared |
| Signal.SendIdempotent | apps/DeepFaceLive/backend/BackendBase.py:143-144 | Two sends leave the same signal as one |
| Signal.Run | apps/DeepFaceLive/backend/BackendBase.py:143-150 | Running a sequence of calls yields one result per call, nothing for each `send` and a flag for each `recv` |
| Signal.RunFlagIsPendingEdge | apps/DeepFaceLive/backend/BackendBase.py:143-150 | After any sequence of calls the flag is set exactly when a `send` happened after the last `recv` (or it started set and no `recv` happened) |
| Signal.RecvReportsPendingEdge | apps/DeepFaceLive/backend/BackendBase.py:143-150 | Every `recv` in a sequence returns true exactly when an edge was pending before it, so one `recv` consumes all sends since the previous one |
| Signal.SendsThenTwoRecvs | apps/DeepFaceLive/backend/BackendBase.py:143-150 | Any positive number of sends followed by two receives yields true once and then false |

## Left out

- `BackendConnection.read`, `write`, `get_by_id`, `wait_for_read` and the ring `MPSPSCMRRingData` behind them: pass-throughs to shared-memory code that is not part of this model, with blocking timeouts and several processes; only the two counters `is_full_read` compares are modelled (`Connection.GetWriteId` stands for `get_write_id`, which returns the ring's write counter).
- The weak heap `MPWeakHeap` (and the empty subclass `BackendWeakHeap`): its implementation is not part of this model; it is an abstract `add`/`get` interface, and nothing is stated about circular overwrite, epochs or staleness.
- The heap as a shared object: an envelope threads one heap value through its own calls; allocations made through the same heap by other envelopes or processes are not modelled (a later `assign_weak_heap` can bind a newer heap state).
- `pickle.dumps`/`pickle.loads`: foreign serialisation; only the `__getstate__` field copy is modelled, and the pickled state is represented as an envelope with no heap.
- numpy: an image is its raw bytes with a shape and an element type reduced to a name and an item size; strides, offsets, byte order and memory views are not modelled, and `set_image` takes the array's buffer as given (an array's `.data` holds its elements' bytes when it is contiguous, `ConnectionData.IsContiguous`).
- `multiprocessing.Event`: only sequential use is modelled, the signal being one boolean. `recv` is not atomic: it tests the event and then clears it in a separate call, so a `send` from another process between the two is lost; that interleaving is not modelled.
- `BackendHost`, `BackendWorker`, `BackendDB`, `BackendWorkerState` and the profile-timing side channel: thin glue over the host/worker framework, `EventListener` and `AverageMeasurer`, which are not part of this model, with floating-point timing averages and message passing.
- Scalar setters take a value of the annotated type; Python would also store `None` or a value of another type, which is not modelled. Floats are modelled as `real`.
- Aliasing of the face-mark list: `get_face_mark_list` returns the envelope's own list, so a Python caller can mutate it and bypass the instance check of `add_face_mark`; the model's `GetFaceMarkList` returns a value, so the list changes only through `AddFaceMark`.
- `FaceMark` contents: a face mark is an opaque token; only the instance check of `add_face_mark` is modelled.
- Python integers are unbounded, and so are the model's counters; the ring's own counter width is not visible and is not modelled.
