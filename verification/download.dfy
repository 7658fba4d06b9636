/** Fetching a document under a size limit: one byte more than the limit is let through, so
    that a document that is too large shows (rinser/job.go:141-144, rinser/jobprocess.go:118-127,
    156-169). */
module Download {
  import opened Basics

  datatype Failure = TooLarge | CreateFailed | ReadFailed

  const MAX_INT64 := 0x7FFF_FFFF_FFFF_FFFF

  /** Arithmetic on 64-bit signed integers. */
  function Wrapped(x: int): (r: int)
    ensures -MAX_INT64 - 1 <= r <= MAX_INT64
    ensures (r - x) % 0x1_0000_0000_0000_0000 == 0
    ensures -MAX_INT64 - 1 <= x <= MAX_INT64 ==> r == x
  {
    (x + MAX_INT64 + 1) % 0x1_0000_0000_0000_0000 - MAX_INT64 - 1
  }

  function MaxUploadSize(maxSizeMB: int): int {
    Wrapped(Wrapped(maxSizeMB * 1024) * 1024)
  }

  /** A response body: its bytes, and an error that may stand at their end. */
  datatype Body = Body(bytes: seq<Byte>, contentLength: int, fault: bool)

  /** io.Copy from a reader limited to `limit` bytes, or not limited; `chunks` says how much
      each read brings. */
  method Copy(body: Body, limit: Option<nat>, chunks: nat -> nat) returns (stored: seq<Byte>, failed: bool)
    ensures limit.None? ==> stored == body.bytes && failed == body.fault
    ensures limit.Some? && |body.bytes| < limit.value ==> stored == body.bytes && failed == body.fault
    ensures limit.Some? && |body.bytes| >= limit.value ==> stored == body.bytes[..limit.value] && !failed
  {
    stored := [];
    var got := 0;
    var stop := if limit.Some? && limit.value <= |body.bytes| then limit.value else |body.bytes|;
    while |stored| < stop
      invariant |stored| <= stop && stored == body.bytes[..|stored|]
      decreases stop - |stored|
    {
      var n := if chunks(got) == 0 then 1 else chunks(got);
      var upto := if |stored| + n < stop then |stored| + n else stop;
      stored := stored + body.bytes[|stored|..upto];
      got := got + 1;
    }
    assert body.bytes[..|body.bytes|] == body.bytes;
    failed := body.fault && !(limit.Some? && limit.value <= |body.bytes|);
  }

  /** Checking the announced length, then storing the body in a new file. */
  method Fetch(body: Body, maxSizeMB: int, createFails: bool, closeFails: bool, chunks: nat -> nat)
    returns (stored: Option<seq<Byte>>, err: Option<Failure>)
    ensures err.None? ==> stored == Some(body.bytes)
    ensures
      var max := MaxUploadSize(maxSizeMB);
      var announced, larger := max > 0 && body.contentLength > max, max > 0 && |body.bytes| > max;
      && (err.None? <==> !announced && !createFails && !larger && !body.fault && !closeFails)
      && (err == Some(TooLarge) <==> announced || (!createFails && (larger || (!body.fault && closeFails))))
      && (err == Some(CreateFailed) <==> !announced && createFails)
      && stored == (if announced || createFails then None
                    else if larger then Some(body.bytes[..max + 1]) else Some(body.bytes))
  {
    stored, err := None, None;
    var maxUploadSize := MaxUploadSize(maxSizeMB);
    LimitDoesNotWrap(maxSizeMB);
    var limit: Option<nat> := None;
    if maxUploadSize > 0 {
      limit := Some(Wrapped(maxUploadSize + 1));
      if body.contentLength > 0 && body.contentLength > maxUploadSize {
        return None, Some(TooLarge);
      }
    }
    if createFails {
      return None, Some(CreateFailed);
    }
    var bytes, failed := Copy(body, limit, chunks);
    stored := Some(bytes);
    if failed {
      err := Some(ReadFailed);
    } else if maxUploadSize < 1 || |bytes| <= maxUploadSize {
      if closeFails {
        err := Some(TooLarge);
      }
    } else {
      err := Some(TooLarge);
    }
  }

  /** Whatever the setting, even one so large that the product wraps around, the limit plus one
      is a number of bytes: a positive limit is never turned into a negative one. */
  lemma LimitDoesNotWrap(maxSizeMB: int)
    ensures Wrapped(MaxUploadSize(maxSizeMB) + 1) == MaxUploadSize(maxSizeMB) + 1
  {
  }

  /** Settings that do not wrap mean what they say. */
  lemma LimitMeansMegabytes(maxSizeMB: int)
    requires 0 <= maxSizeMB < 0x800_0000_0000
    ensures MaxUploadSize(maxSizeMB) == maxSizeMB * 1024 * 1024
  {
  }
}
