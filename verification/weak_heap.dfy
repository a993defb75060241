/** The shared weak heap (`MPWeakHeap`), seen only through its interface.

    Its implementation is not part of this model, so the heap is the contents
    of its shared memory region, of which nothing is assumed, together with
    the two operations the envelope uses: `add` stores a blob and yields a
    handle and new contents, `get` resolves a handle to optional bytes. Nothing relates the two: whether `get` returns
    what `add` stored, and how overwritten slots are detected, is the heap's
    business and is not stated here. */
module WeakHeap {
  import opened Wrappers

  /** One byte of a blob. */
  newtype uint8 = x: int | 0 <= x < 256

  /** A binary blob (Python `bytes`, `bytearray` or `memoryview`). */
  type Bytes = seq<uint8>

  /** A handle issued by the heap; an opaque plain value, meaningful only to
      the heap that issued it. */
  datatype Handle = Handle(id: nat)

  /** A heap instance: the current contents of its shared memory and its two
      operations over them. */
  datatype Heap = Heap(
    store: Bytes,
    add: (Bytes, Bytes) -> (Handle, Bytes),
    get: (Bytes, Handle) -> Option<Bytes>)

  /** `add_data`: store `data`, returning the issued handle and the heap in
      its new state. The heap's operations are the same afterwards. */
  function AddData(h: Heap, data: Bytes): (r: (Handle, Heap))
    ensures r.1.add == h.add && r.1.get == h.get
  {
    var (handle, store') := h.add(h.store, data);
    (handle, h.(store := store'))
  }

  /** `get_data`: resolve a handle against the heap's current state. */
  function GetData(h: Heap, handle: Handle): Option<Bytes>
  {
    h.get(h.store, handle)
  }
}
