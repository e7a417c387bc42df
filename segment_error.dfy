/**
 * The errors of the multipart segment package: its five sentinel errors and the
 * `Error` value that names the operation, the segment and, optionally, the part a
 * failure is about, and wraps the underlying error.
 */
module SegmentErrors {
  import opened Wrappers
  import opened GoStrings

  /** The five failures the segment package can report. */
  datatype Kind =
    | PartSizeInvalid
    | PartIntersected
    | SegmentNotInitiated
    | SegmentPartsEmpty
    | SegmentNotFulfilled

  /**
   * The fixed text of each sentinel error. The texts of the two failures about a
   * single part begin with "part ", those of the three about the whole segment
   * with "segment ".
   */
  function KindText(k: Kind): (t: string)
    ensures HasPrefix(t, "part ") <==> k == PartSizeInvalid || k == PartIntersected
    ensures HasPrefix(t, "segment ") <==> !(k == PartSizeInvalid || k == PartIntersected)
  {
    var t := match k
      case PartSizeInvalid => "part size invalid"
      case PartIntersected => "part intersected"
      case SegmentNotInitiated => "segment not initiated"
      case SegmentPartsEmpty => "segment Parts are empty"
      case SegmentNotFulfilled => "segment not fulfilled";
    // "part " and "segment " differ in their first character
    assert t[..5][0] == t[0] && t[..8][0] == t[0];
    t
  }

  /** Each of the five kinds has a text no other kind shares. */
  lemma KindTextsDistinct()
    ensures forall a: Kind, b: Kind :: KindText(a) == KindText(b) ==> a == b
  {
  }

  /**
   * The error an `Error` wraps: one of the sentinels, or any other error with
   * the text its `Error()` method gives.
   */
  datatype Cause =
    | Sentinel(kind: Kind)
    | OtherCause(text: string)

  /** `Err.Error()`: the text of the wrapped error. */
  function CauseText(c: Cause): string
  {
    match c
    case Sentinel(k) => KindText(k)
    case OtherCause(t) => t
  }

  /**
   * `Error`: the failing operation, the wrapped error, the segment and the part
   * (nil when the failure is about the segment as a whole). `S` and `P` stand for
   * the segment and part references.
   */
  datatype Error<S, P> = Error(op: string, err: Cause, segment: S, part: Option<P>)

  /**
   * `(*Error).Error()`: the operation, then the segment as `showSegment` renders it,
   * then (when a part is attached) a comma and the part as `showPart` renders it,
   * then the wrapped error's text, the three pieces separated by ": ".
   */
  function Message<S, P>(e: Error<S, P>, showSegment: S -> string, showPart: P -> string): (m: string)
    ensures HasPrefix(m, e.op + ": " + showSegment(e.segment))
    ensures HasSuffix(m, ": " + CauseText(e.err))
    ensures e.part.None? ==> |m| == |e.op| + |showSegment(e.segment)| + |CauseText(e.err)| + 4
    ensures e.part.Some? ==>
              |m| == |e.op| + |showSegment(e.segment)| + |showPart(e.part.value)| + |CauseText(e.err)| + 6
    ensures e.part.Some? ==>
              m[|e.op| + 2 + |showSegment(e.segment)|..][..2 + |showPart(e.part.value)|] == ", " + showPart(e.part.value)
  {
    var head := e.op + ": " + showSegment(e.segment);
    var tail := ": " + CauseText(e.err);
    var m := match e.part
      case None => head + tail
      case Some(p) => head + ", " + showPart(p) + tail;
    assert m == head + (m[|head|..|m| - |tail|] + tail);
    m
  }

  /** `(*Error).Unwrap()`: the wrapped error, exactly as stored. */
  function Unwrap<S, P>(e: Error<S, P>): (c: Cause)
    ensures c == e.err
  {
    e.err
  }

  /** The message of an error ends with the text of the error it unwraps to. */
  lemma MessageEndsWithUnwrapped<S, P>(e: Error<S, P>, showSegment: S -> string, showPart: P -> string)
    ensures HasSuffix(Message(e, showSegment, showPart), CauseText(Unwrap(e)))
  {
  }

  /**
   * Attaching a part changes the message only by inserting ", " and the part's
   * text right after the segment's text.
   */
  lemma AttachingPartInsertsItsText<S, P>(e: Error<S, P>, p: P, showSegment: S -> string, showPart: P -> string)
    ensures var k := |e.op| + 2 + |showSegment(e.segment)|;
            var bare := Message(e.(part := None), showSegment, showPart);
            Message(e.(part := Some(p)), showSegment, showPart) == bare[..k] + ", " + showPart(p) + bare[k..]
  {
  }
}
