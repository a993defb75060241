/** The message envelope `BackendConnectionData`: a uid, named handles into
    the weak heap, image metadata, nullable scalar fields and a list of face
    marks. Large buffers never live in the envelope itself; they are stored in
    the heap, and the envelope only records the handles `add_data` issued.

    The Python object is mutable; here every mutating method returns the
    envelope in its new state, and a method that raises returns `Err` and no
    envelope, so a rejected call leaves the caller's envelope as it was. */
module ConnectionData {
  import opened Wrappers
  import opened WeakHeap

  /** The element type of an image (numpy `dtype`): an opaque name and the
      number of bytes one element occupies. */
  datatype DType = DType(name: string, itemSize: nat)

  /** What `set_image` records next to the handle: shape and element type. */
  datatype ImageInfo = ImageInfo(shape: seq<nat>, dtype: DType)

  /** An image (numpy array): its raw buffer with its shape and element type. */
  datatype Image = Image(data: Bytes, shape: seq<nat>, dtype: DType)

  /** The number of elements of an array of the given shape. */
  function Product(shape: seq<nat>): nat
  {
    if shape == [] then 1 else shape[0] * Product(shape[1..])
  }

  /** The number of bytes an array with this shape and element type views. */
  function ByteCount(info: ImageInfo): nat
  {
    Product(info.shape) * info.dtype.itemSize
  }

  /** The buffer of a contiguous array holds exactly its elements' bytes. */
  predicate IsContiguous(image: Image)
  {
    |image.data| == ByteCount(ImageInfo(image.shape, image.dtype))
  }

  /** A landmark annotation (`FaceMark`); its contents are not modelled. */
  datatype FaceMark = FaceMark(id: nat)

  /** A dynamically typed argument: a `FaceMark` or anything else. */
  datatype Value = FaceMarkValue(mark: FaceMark) | OtherValue(typeName: string)

  /** The exceptions the envelope's methods raise. `AttributeError` names the
      heap method that could not be called because no heap is attached;
      `TypeError` is numpy's refusal to view a buffer too small for the
      requested array. */
  datatype Error =
    | AttributeError(attribute: string)
    | ValueError(message: string)
    | TypeError(message: string)

  const FACE_MARK_ERROR := "face_mark must be an instance of FaceMark"
  const BUFFER_TOO_SMALL := "buffer is too small for requested array"

  datatype BackendConnectionData = BackendConnectionData(
    heap: Option<Heap>,
    refs: map<string, Handle>,
    imageInfos: map<string, ImageInfo>,
    uid: int,
    isFrameReemitted: Option<bool>,
    frameName: Option<string>,
    frameCount: Option<int>,
    frameNum: Option<int>,
    frameFps: Option<real>,
    frameTimestamp: Option<real>,
    mergedFrameName: Option<string>,
    faceMarks: seq<FaceMark>)

  /** The nullable scalar fields, by name. */
  datatype Field =
    | IsFrameReemitted | FrameName | FrameCount | FrameNum
    | FrameFps | FrameTimestamp | MergedFrameName

  /** The value a scalar field holds; `Unset` is Python `None`. */
  datatype Scalar = Unset | Flag(b: bool) | Text(s: string) | Int(i: int) | Real(x: real)

  /** Reads any scalar field by name; used to say which fields a call changes. */
  function FieldValue(e: BackendConnectionData, f: Field): Scalar
  {
    match f
    case IsFrameReemitted =>
      if e.isFrameReemitted.Some? then Flag(e.isFrameReemitted.value) else Unset
    case FrameName =>
      if e.frameName.Some? then Text(e.frameName.value) else Unset
    case FrameCount =>
      if e.frameCount.Some? then Int(e.frameCount.value) else Unset
    case FrameNum =>
      if e.frameNum.Some? then Int(e.frameNum.value) else Unset
    case FrameFps =>
      if e.frameFps.Some? then Real(e.frameFps.value) else Unset
    case FrameTimestamp =>
      if e.frameTimestamp.Some? then Real(e.frameTimestamp.value) else Unset
    case MergedFrameName =>
      if e.mergedFrameName.Some? then Text(e.mergedFrameName.value) else Unset
  }

  /** `r` and `e` hold the same uid and the same scalar fields. */
  ghost predicate SameScalars(e: BackendConnectionData, r: BackendConnectionData)
  {
    && r.uid == e.uid
    && forall f: Field :: FieldValue(r, f) == FieldValue(e, f)
  }

  /** `r` differs from `e` in scalar field `f` at most. */
  ghost predicate OnlyFieldChanged(e: BackendConnectionData, r: BackendConnectionData, f: Field)
  {
    && r.heap == e.heap
    && r.refs == e.refs
    && r.imageInfos == e.imageInfos
    && r.faceMarks == e.faceMarks
    && r.uid == e.uid
    && forall g: Field :: g != f ==> FieldValue(r, g) == FieldValue(e, g)
  }

  // ---------------------------------------------------------------------------
  // Construction, pickling state, heap binding

  /** `__init__`: the given uid, no heap, no handles or image metadata,
      every scalar unset and no face marks. */
  function New(uid: int): (r: BackendConnectionData)
    ensures r.uid == uid && r.heap.None?
    ensures r.refs == map[] && r.imageInfos == map[]
    ensures forall f: Field :: FieldValue(r, f) == Unset
    ensures r.faceMarks == []
  {
    BackendConnectionData(None, map[], map[], uid,
                          None, None, None, None, None, None, None, [])
  }

  /** `__getstate__`: the state that is pickled, a copy of the envelope with
      the heap dropped. */
  function GetState(e: BackendConnectionData): (r: BackendConnectionData)
    ensures r.heap.None?
    ensures r.refs == e.refs && r.imageInfos == e.imageInfos
    ensures r.faceMarks == e.faceMarks
    ensures SameScalars(e, r)
  {
    e.(heap := None)
  }

  /** `assign_weak_heap`: bind the local heap instance. */
  function AssignWeakHeap(e: BackendConnectionData, h: Heap): (r: BackendConnectionData)
    ensures r.heap == Some(h)
    ensures r.refs == e.refs && r.imageInfos == e.imageInfos
    ensures r.faceMarks == e.faceMarks
    ensures SameScalars(e, r)
  {
    e.(heap := Some(h))
  }

  // ---------------------------------------------------------------------------
  // Named blobs and images

  /** `set_file`: add `data` to the heap and record the issued handle under
      `name`, replacing any earlier handle for that name. Without a heap the
      call raises before anything is recorded. */
  function SetFile(e: BackendConnectionData, name: string, data: Bytes)
    : (r: Result<BackendConnectionData, Error>)
    ensures r.Err? <==> e.heap.None?
    ensures r.Err? ==> r.error == AttributeError("add_data")
    ensures r.Ok? ==>
      && name in r.value.refs
      && r.value.refs.Keys == e.refs.Keys + {name}
      && r.value.imageInfos == e.imageInfos
      && r.value.faceMarks == e.faceMarks
      && SameScalars(e, r.value)
  {
    match e.heap
    case None => Err(AttributeError("add_data"))
    case Some(h) =>
      var (handle, h') := AddData(h, data);
      Ok(e.(heap := Some(h'), refs := e.refs[name := handle]))
  }

  /** `get_file`: resolve the handle recorded under `name`. A name without a
      handle is absent and the heap is not consulted, so that succeeds even
      with no heap attached; resolving a handle without a heap raises. */
  function GetFile(e: BackendConnectionData, name: string): (r: Result<Option<Bytes>, Error>)
    ensures name !in e.refs ==> r == Ok(None)
    ensures r.Err? <==> name in e.refs && e.heap.None?
    ensures r.Err? ==> r.error == AttributeError("get_data")
    ensures r.Ok? && r.value.Some? ==> name in e.refs && e.heap.Some?
    ensures name in e.refs && e.heap.Some? ==> r == Ok(GetData(e.heap.value, e.refs[name]))
  {
    if name in e.refs then
      match e.heap
      case None => Err(AttributeError("get_data"))
      case Some(h) => Ok(GetData(h, e.refs[name]))
    else
      Ok(None)
  }

  /** `set_image`: store the image's buffer as with `set_file`, then record
      its shape and element type under the same name. */
  function SetImage(e: BackendConnectionData, name: string, image: Image)
    : (r: Result<BackendConnectionData, Error>)
    ensures r.Err? <==> e.heap.None?
    ensures r.Err? ==> r.error == AttributeError("add_data")
    ensures r.Ok? ==>
      && name in r.value.refs
      && r.value.refs.Keys == e.refs.Keys + {name}
      && (forall n :: n in e.refs && n != name ==> r.value.refs[n] == e.refs[n])
      && r.value.imageInfos == e.imageInfos[name := ImageInfo(image.shape, image.dtype)]
      && r.value.faceMarks == e.faceMarks
      && SameScalars(e, r.value)
  {
    match SetFile(e, name, image.data)
    case Err(err) => Err(err)
    case Ok(e') => Ok(e'.(imageInfos := e'.imageInfos[name := ImageInfo(image.shape, image.dtype)]))
  }

  /** `get_image`: a `None` name is absent at once. Otherwise the blob is
      fetched with `get_file` (which may raise). When both the recorded
      shape/element type and the blob are present, numpy views the first
      `ByteCount` bytes of the blob as the image, and raises `TypeError` when
      the blob is shorter than that; otherwise the image is absent. */
  function GetImage(e: BackendConnectionData, name: Option<string>)
    : (r: Result<Option<Image>, Error>)
    ensures name.None? ==> r == Ok(None)
    ensures name.Some? && GetFile(e, name.value).Err? ==> r == Err(GetFile(e, name.value).error)
    ensures name.Some? && GetFile(e, name.value).Ok?
            && (name.value !in e.imageInfos || GetFile(e, name.value).value.None?)
            ==> r == Ok(None)
    ensures (name.Some? && name.value in e.imageInfos
             && GetFile(e, name.value).Ok? && GetFile(e, name.value).value.Some?)
            ==> var info := e.imageInfos[name.value];
                var blob := GetFile(e, name.value).value.value;
                && (|blob| < ByteCount(info) ==> r == Err(TypeError(BUFFER_TOO_SMALL)))
                && (|blob| >= ByteCount(info) ==>
                      && r.Ok? && r.value.Some?
                      && r.value.value.shape == info.shape
                      && r.value.value.dtype == info.dtype
                      && r.value.value.data <= blob
                      && IsContiguous(r.value.value))
  {
    match name
    case None => Ok(None)
    case Some(n) =>
      match GetFile(e, n)
      case Err(err) => Err(err)
      case Ok(buffer) =>
        if n in e.imageInfos && buffer.Some? then
          var info := e.imageInfos[n];
          if |buffer.value| < ByteCount(info) then
            Err(TypeError(BUFFER_TOO_SMALL))
          else
            Ok(Some(Image(buffer.value[..ByteCount(info)], info.shape, info.dtype)))
        else
          Ok(None)
  }

  // ---------------------------------------------------------------------------
  // Scalar accessors. Each setter changes its own field only; uid has a
  // getter and no setter.

  function GetUid(e: BackendConnectionData): int { e.uid }

  function GetIsFrameReemitted(e: BackendConnectionData): Option<bool> { e.isFrameReemitted }

  function SetIsFrameReemitted(e: BackendConnectionData, isFrameReemitted: bool)
    : (r: BackendConnectionData)
    ensures GetIsFrameReemitted(r) == Some(isFrameReemitted)
    ensures OnlyFieldChanged(e, r, IsFrameReemitted)
  {
    e.(isFrameReemitted := Some(isFrameReemitted))
  }

  function GetFrameName(e: BackendConnectionData): Option<string> { e.frameName }

  function SetFrameName(e: BackendConnectionData, frameName: string): (r: BackendConnectionData)
    ensures GetFrameName(r) == Some(frameName)
    ensures OnlyFieldChanged(e, r, FrameName)
  {
    e.(frameName := Some(frameName))
  }

  function GetFrameCount(e: BackendConnectionData): Option<int> { e.frameCount }

  function SetFrameCount(e: BackendConnectionData, frameCount: int): (r: BackendConnectionData)
    ensures GetFrameCount(r) == Some(frameCount)
    ensures OnlyFieldChanged(e, r, FrameCount)
  {
    e.(frameCount := Some(frameCount))
  }

  function GetFrameNum(e: BackendConnectionData): Option<int> { e.frameNum }

  function SetFrameNum(e: BackendConnectionData, frameNum: int): (r: BackendConnectionData)
    ensures GetFrameNum(r) == Some(frameNum)
    ensures OnlyFieldChanged(e, r, FrameNum)
  {
    e.(frameNum := Some(frameNum))
  }

  function GetFrameFps(e: BackendConnectionData): Option<real> { e.frameFps }

  function SetFrameFps(e: BackendConnectionData, frameFps: real): (r: BackendConnectionData)
    ensures GetFrameFps(r) == Some(frameFps)
    ensures OnlyFieldChanged(e, r, FrameFps)
  {
    e.(frameFps := Some(frameFps))
  }

  function GetFrameTimestamp(e: BackendConnectionData): Option<real> { e.frameTimestamp }

  function SetFrameTimestamp(e: BackendConnectionData, frameTimestamp: real)
    : (r: BackendConnectionData)
    ensures GetFrameTimestamp(r) == Some(frameTimestamp)
    ensures OnlyFieldChanged(e, r, FrameTimestamp)
  {
    e.(frameTimestamp := Some(frameTimestamp))
  }

  function GetMergedFrameName(e: BackendConnectionData): Option<string> { e.mergedFrameName }

  function SetMergedFrameName(e: BackendConnectionData, mergedFrameName: string)
    : (r: BackendConnectionData)
    ensures GetMergedFrameName(r) == Some(mergedFrameName)
    ensures OnlyFieldChanged(e, r, MergedFrameName)
  {
    e.(mergedFrameName := Some(mergedFrameName))
  }

  // ---------------------------------------------------------------------------
  // Face marks

  function GetFaceMarkList(e: BackendConnectionData): seq<FaceMark> { e.faceMarks }

  /** `add_face_mark`: a `FaceMark` is appended at the end; any other value
      raises `ValueError` and nothing is appended. */
  function AddFaceMark(e: BackendConnectionData, value: Value): (r: Result<BackendConnectionData, Error>)
    ensures r.Err? <==> !value.FaceMarkValue?
    ensures r.Err? ==> r.error == ValueError(FACE_MARK_ERROR)
    ensures r.Ok? ==>
      && |GetFaceMarkList(r.value)| == |GetFaceMarkList(e)| + 1
      && GetFaceMarkList(r.value)[..|GetFaceMarkList(e)|] == GetFaceMarkList(e)
      && GetFaceMarkList(r.value)[|GetFaceMarkList(e)|] == value.mark
      && r.value.heap == e.heap && r.value.refs == e.refs && r.value.imageInfos == e.imageInfos
      && SameScalars(e, r.value)
  {
    match value
    case OtherValue(_) => Err(ValueError(FACE_MARK_ERROR))
    case FaceMarkValue(mark) => Ok(e.(faceMarks := e.faceMarks + [mark]))
  }

  // ---------------------------------------------------------------------------
  // Properties relating several calls

  /** In a new envelope every name reads as absent, from `get_file` and from
      `get_image`, although no heap is attached. */
  lemma NewHasNoFiles(uid: int, name: string)
    ensures GetFile(New(uid), name) == Ok(None)
    ensures GetImage(New(uid), Some(name)) == Ok(None)
  {
  }

  /** After `set_file`, `get_file` of the same name yields exactly what the
      heap's `get_data` yields, in the heap's new state, for the handle that
      `add_data` issued. */
  lemma SetFileThenGetFile(e: BackendConnectionData, name: string, data: Bytes)
    requires e.heap.Some?
    ensures SetFile(e, name, data).Ok?
    ensures var (handle, h') := AddData(e.heap.value, data);
            && SetFile(e, name, data).value.heap == Some(h')
            && GetFile(SetFile(e, name, data).value, name) == Ok(GetData(h', handle))
  {
  }

  /** A second `set_file` under the same name replaces the handle: the name
      now refers to the handle the second `add_data` issued, and no name is
      added. */
  lemma SetFileLastWriterWins(e: BackendConnectionData, name: string, first: Bytes, second: Bytes)
    requires e.heap.Some?
    ensures SetFile(e, name, first).Ok?
    ensures var e1 := SetFile(e, name, first).value;
            && SetFile(e1, name, second).Ok?
            && SetFile(e1, name, second).value.refs[name] == AddData(e1.heap.value, second).0
            && SetFile(e1, name, second).value.refs.Keys == e1.refs.Keys
  {
  }

  /** `set_file` under one name leaves every other name's handle as it was;
      such a name still resolves its own handle, now against the heap's new
      state. */
  lemma SetFileKeepsOtherNames(e: BackendConnectionData, name: string, other: string, data: Bytes)
    requires e.heap.Some? && other != name
    ensures SetFile(e, name, data).Ok?
    ensures var r := SetFile(e, name, data).value;
            && (other in r.refs <==> other in e.refs)
            && (other in e.refs ==> r.refs[other] == e.refs[other])
            && GetFile(r, other) ==
               (if other in e.refs then Ok(GetData(r.heap.value, e.refs[other])) else Ok(None))
  {
  }

  /** A name stored only with `set_file` has no image metadata, so
      `get_image` reports it absent. */
  lemma FileOnlyNameIsNoImage(e: BackendConnectionData, name: string, data: Bytes)
    requires e.heap.Some? && name !in e.imageInfos
    ensures SetFile(e, name, data).Ok?
    ensures GetImage(SetFile(e, name, data).value, Some(name)) == Ok(None)
  {
  }

  /** After `set_image`, `get_image` views the heap's blob for the new
      handle with the recorded shape and element type: absent when the heap
      yields nothing, `TypeError` when the blob is too short, else the prefix
      the image needs. When the heap returns the bytes of a contiguous image,
      the image comes back unchanged. */
  lemma SetImageThenGetImage(e: BackendConnectionData, name: string, image: Image)
    requires e.heap.Some?
    ensures SetImage(e, name, image).Ok?
    ensures var (handle, h') := AddData(e.heap.value, image.data);
            var r := GetImage(SetImage(e, name, image).value, Some(name));
            var need := ByteCount(ImageInfo(image.shape, image.dtype));
            && (GetData(h', handle).None? ==> r == Ok(None))
            && (GetData(h', handle).Some? && |GetData(h', handle).value| < need ==>
                  r == Err(TypeError(BUFFER_TOO_SMALL)))
            && (GetData(h', handle).Some? && |GetData(h', handle).value| >= need ==>
                  r == Ok(Some(Image(GetData(h', handle).value[..need], image.shape, image.dtype))))
            && (GetData(h', handle) == Some(image.data) && IsContiguous(image) ==>
                  r == Ok(Some(image)))
  {
    var (handle, h') := AddData(e.heap.value, image.data);
    if GetData(h', handle) == Some(image.data) && IsContiguous(image) {
      assert image.data[..|image.data|] == image.data;
    }
  }

  /** The image metadata of a name survives a later `set_file` under that
      name: `get_image` then views the new blob with the old shape and
      element type, raising `TypeError` when the new blob is too short for
      them and viewing only its prefix when it is longer. */
  lemma ImageInfoOutlivesFile(e: BackendConnectionData, name: string, image: Image, data: Bytes)
    requires e.heap.Some?
    ensures SetImage(e, name, image).Ok?
    ensures var e1 := SetImage(e, name, image).value;
            && SetFile(e1, name, data).Ok?
            && var e2 := SetFile(e1, name, data).value;
               var blob := GetFile(e2, name);
               var need := ByteCount(ImageInfo(image.shape, image.dtype));
               blob.Ok? && blob.value.Some? ==>
                 && (|blob.value.value| < need ==>
                       GetImage(e2, Some(name)) == Err(TypeError(BUFFER_TOO_SMALL)))
                 && (|blob.value.value| >= need ==>
                       GetImage(e2, Some(name)) ==
                       Ok(Some(Image(blob.value.value[..need], image.shape, image.dtype))))
  {
  }

  /** The pickled state differs from the envelope in the heap alone: binding
      the same heap again gives back the envelope, and an envelope without a
      heap is its own state. */
  lemma GetStateThenAssign(e: BackendConnectionData)
    ensures e.heap.None? ==> GetState(e) == e
    ensures e.heap.Some? ==> AssignWeakHeap(GetState(e), e.heap.value) == e
  {
  }

  /** Once a heap is bound to the pickled state, every name with a handle
      resolves that handle through the newly bound heap, and every other name
      is absent. */
  lemma BindThenGetFile(e: BackendConnectionData, h: Heap, name: string)
    ensures GetFile(AssignWeakHeap(GetState(e), h), name) ==
            (if name in e.refs then Ok(GetData(h, e.refs[name])) else Ok(None))
  {
  }

  /** In the pickled state, until a heap is bound, every name with a handle
      fails to resolve and every other name is absent. */
  lemma GetStateIsUnbound(e: BackendConnectionData, name: string)
    ensures GetFile(GetState(e), name) ==
            (if name in e.refs then Err(AttributeError("get_data")) else Ok(None))
    ensures GetImage(GetState(e), Some(name)) ==
            (if name in e.refs then Err(AttributeError("get_data")) else Ok(None))
  {
  }
}
