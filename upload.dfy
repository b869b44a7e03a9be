/**
 * Chunked media upload of a composed attachment (`AttachmentViewModel.upload(context:)`):
 * the processed image is cut into 1 MiB chunks, then sent as INIT, one APPEND per chunk in
 * order and FINALIZE (repeated while the server reports processing), with a progress counter.
 * The server's answers are inputs: `initResponse`, `appendError(i)` for chunk `i`, and the
 * successive finalize answers `finalizeResponses` (`Success(true)` = still processing).
 */
module Upload {
  import opened Wrappers
  import opened SeqUtil

  type Byte = bv8

  const MiB := 1024 * 1024
  /** The slice size. */
  const ChunkSize := 1 * MiB

  /** The attachment output; only images are uploaded. */
  datatype Output = Image(data: seq<Byte>)

  /** `maxPayloadSizeInBytes`: 5 MiB for an image. */
  function MaxPayloadSizeInBytes(o: Output): (r: int)
    ensures r == 5 * ChunkSize
  {
    match o
    case Image(_) => 5 * MiB
  }

  datatype UTType = PNG | JPEG

  /** `preferredMIMEType` of the two types a slice can have. */
  function PreferredMIMEType(t: UTType): Option<string>
  {
    match t
    case PNG => Some("image/png")
    case JPEG => Some("image/jpeg")
  }

  datatype SliceResult = SliceResult(chunks: seq<seq<Byte>>, utType: UTType, totalBytes: int)

  /** `chunks.reduce(0) { $0 + $1.count }`: a left fold over the chunk lengths. */
  function TotalBytes(chunks: seq<seq<Byte>>): nat
  {
    if chunks == [] then 0 else TotalBytes(chunks[..|chunks| - 1]) + |chunks[|chunks| - 1]|
  }

  /** The total is the number of bytes of the concatenated chunks. */
  lemma {:induction false} TotalBytesIsFlattenLength(chunks: seq<seq<Byte>>)
    ensures TotalBytes(chunks) == |Flatten(chunks)|
  {
    if chunks != [] {
      var init := chunks[..|chunks| - 1];
      TotalBytesIsFlattenLength(init);
      assert chunks == init + [chunks[|chunks| - 1]];
      FlattenSnoc(init, chunks[|chunks| - 1]);
    }
  }

  /** `SliceResult.init(chunks:type:)`: `totalBytes` is the sum of the chunk lengths. */
  function MakeSliceResult(chunks: seq<seq<Byte>>, utType: UTType): (r: SliceResult)
    ensures r.chunks == chunks && r.utType == utType
    ensures r.totalBytes == |Flatten(chunks)|
  {
    TotalBytesIsFlattenLength(chunks);
    SliceResult(chunks, utType, TotalBytes(chunks))
  }

  /**
   * The end of `slice()`: the processed image data cut into 1 MiB chunks. The chunks concatenate
   * to the data, each is non-empty and at most 1 MiB, all but the last exactly 1 MiB, and the
   * total is the data's size.
   */
  function Slice(imageData: seq<Byte>, isPNG: bool): (r: SliceResult)
    ensures Flatten(r.chunks) == imageData && r.totalBytes == |imageData|
    ensures forall i :: 0 <= i < |r.chunks| ==> 0 < |r.chunks[i]| <= ChunkSize
    ensures forall i :: 0 <= i < |r.chunks| - 1 ==> |r.chunks[i]| == ChunkSize
    ensures r.chunks == [] <==> imageData == []
    ensures r.utType == (if isPNG then PNG else JPEG)
  {
    ChunksFlatten(imageData, ChunkSize);
    ChunksSizes(imageData, ChunkSize);
    MakeSliceResult(Chunks(imageData, ChunkSize), if isPNG then PNG else JPEG)
  }

  // ---------------------------------------------------------------- the upload

  /** `Foundation.Progress`, reduced to its two counters. */
  class Progress {
    var totalUnitCount: int
    var completedUnitCount: int

    constructor ()
      ensures totalUnitCount == 0 && completedUnitCount == 0
    {
      totalUnitCount := 0;
      completedUnitCount := 0;
    }
  }

  datatype Request =
    | MediaInit(totalBytes: int, mediaType: string)
    | MediaAppend(mediaID: string, chunk: seq<Byte>, index: nat)
    | MediaFinalize(mediaID: string)

  datatype UploadError = BadRequest | APIError(message: string) | NotFinalized

  /** One APPEND per chunk, in order, each carrying its position as the segment index. */
  function Appends(mediaID: string, chunks: seq<seq<Byte>>): (r: seq<Request>)
    ensures |r| == |chunks|
    ensures forall i :: 0 <= i < |r| ==> r[i] == MediaAppend(mediaID, chunks[i], i)
  {
    seq(|chunks|, i requires 0 <= i < |chunks| => MediaAppend(mediaID, chunks[i], i))
  }

  function Repeat(r: Request, n: nat): (rs: seq<Request>)
    ensures |rs| == n && forall i :: 0 <= i < n ==> rs[i] == r
  {
    seq(n, _ => r)
  }

  /** The number of FINALIZE calls until the first answer without processing info, if any such answer comes. */
  function FinalizeCalls(responses: seq<Result<bool, string>>): (r: Option<nat>)
    ensures r.Some? ==> (0 < r.value <= |responses| && responses[r.value - 1] == Success(false)
                        && forall k :: 0 <= k < r.value - 1 ==> responses[k] == Success(true))
  {
    if responses == [] then None
    else if responses[0] == Success(false) then Some(1)
    else if responses[0] == Success(true) then
      (match FinalizeCalls(responses[1..])
       case None => None
       case Some(n) => Some(n + 1))
    else None
  }

  /** The converse: the first answer without processing info, after answers with it, fixes the count. */
  lemma {:induction false} FinalizeCallsAt(responses: seq<Result<bool, string>>, n: nat)
    requires 0 < n <= |responses| && responses[n - 1] == Success(false)
    requires forall k :: 0 <= k < n - 1 ==> responses[k] == Success(true)
    ensures FinalizeCalls(responses) == Some(n)
  {
    if n > 1 {
      FinalizeCallsAt(responses[1..], n - 1);
    }
  }

  /** The INIT request of a slice: its total size and MIME type. */
  function InitRequest(s: SliceResult): Request
  {
    MediaInit(s.totalBytes, PreferredMIMEType(s.utType).GetOr(""))
  }

  predicate AppendsSucceed(n: nat, appendError: nat -> Option<string>)
  {
    forall i :: 0 <= i < n ==> appendError(i).None?
  }

  /**
   * `upload(context:)`. Without an output or a slice it fails with `badRequest` before any
   * request. Otherwise the total is chunks + 2, one unit completes after INIT, each APPEND and
   * FINALIZE, and the count never passes the total. It succeeds exactly when INIT, every APPEND
   * and some FINALIZE succeed, and then the requests are INIT, the APPENDs in order and the
   * FINALIZEs up to the first one that is done, with the progress complete.
   */
  method UploadMedia(progress: Progress, output: Option<Output>, slice: Option<SliceResult>,
                     initResponse: Result<string, string>, appendError: nat -> Option<string>,
                     finalizeResponses: seq<Result<bool, string>>)
    returns (result: Result<string, UploadError>, requests: seq<Request>)
    modifies progress
    ensures output.None? || slice.None? ==>
      result == Failure(BadRequest) && requests == []
      && progress.totalUnitCount == old(progress.totalUnitCount) && progress.completedUnitCount == old(progress.completedUnitCount)
    ensures output.Some? && slice.Some? ==>
      && progress.totalUnitCount == |slice.value.chunks| + 2
      && 0 <= progress.completedUnitCount <= progress.totalUnitCount
      && |requests| >= 1
      && requests[0] == InitRequest(slice.value)
    ensures (result.Success? <==>
      && output.Some? && slice.Some? && initResponse.Success?
      && AppendsSucceed(|slice.value.chunks|, appendError) && FinalizeCalls(finalizeResponses).Some?)
    ensures result.Success? ==>
      && result.value == initResponse.value
      && progress.completedUnitCount == progress.totalUnitCount
      && requests == [InitRequest(slice.value)] + Appends(initResponse.value, slice.value.chunks)
                     + Repeat(MediaFinalize(initResponse.value), FinalizeCalls(finalizeResponses).value)
  {
    if output.None? || slice.None? {
      return Failure(BadRequest), [];
    }
    var sliceResult := slice.value;
    var chunks := sliceResult.chunks;
    // init + N * append + finalize
    progress.totalUnitCount := 1 + |chunks| + 1;
    progress.completedUnitCount := 0;

    requests := [InitRequest(sliceResult)];
    if initResponse.Failure? {
      return Failure(APIError(initResponse.error)), requests;
    }
    var mediaID := initResponse.value;
    progress.completedUnitCount := progress.completedUnitCount + 1;

    for i := 0 to |chunks|
      invariant progress.totalUnitCount == |chunks| + 2 && progress.completedUnitCount == 1 + i
      invariant requests == [InitRequest(sliceResult)] + Appends(mediaID, chunks[..i])
      invariant AppendsSucceed(i, appendError)
    {
      requests := requests + [MediaAppend(mediaID, chunks[i], i)];
      assert Appends(mediaID, chunks[..i + 1]) == Appends(mediaID, chunks[..i]) + [MediaAppend(mediaID, chunks[i], i)];
      if appendError(i).Some? {
        return Failure(APIError(appendError(i).value)), requests;
      }
      progress.completedUnitCount := progress.completedUnitCount + 1;
    }
    assert chunks[..|chunks|] == chunks;
    ghost var sent := requests;

    var isFinalized := false;
    var k := 0;
    while !isFinalized
      invariant 0 <= k <= |finalizeResponses|
      invariant forall j :: 0 <= j < k && (!isFinalized || j < k - 1) ==> finalizeResponses[j] == Success(true)
      invariant isFinalized ==> k > 0 && finalizeResponses[k - 1] == Success(false)
      invariant requests == sent + Repeat(MediaFinalize(mediaID), k)
      invariant progress.totalUnitCount == |chunks| + 2 && progress.completedUnitCount == |chunks| + 1
      decreases |finalizeResponses| - k, !isFinalized
    {
      if k == |finalizeResponses| {
        return Failure(NotFinalized), requests;
      }
      var response := finalizeResponses[k];
      requests := requests + [MediaFinalize(mediaID)];
      k := k + 1;
      if response.Failure? {
        return Failure(APIError(response.error)), requests;
      }
      if response.value {
        // still processing: wait, then ask again
        continue;
      } else {
        isFinalized := true;
      }
    }
    FinalizeCallsAt(finalizeResponses, k);
    progress.completedUnitCount := progress.completedUnitCount + 1;
    return Success(mediaID), requests;
  }
}
