/**
 * The display objects the scenarios query through pykms, reduced to the
 * attributes they read, and the CRTC and plane selection that every
 * scenario's main repeats for a connector.
 */
module Kms {
  import opened Wrappers

  datatype Crtc = Crtc(id: int)

  /** A plane and the ids of the CRTCs it can be attached to. */
  datatype Plane = Plane(id: int, crtcIds: seq<int>)

  /** pykms Plane.supports_crtc. */
  predicate SupportsCrtc(p: Plane, c: Crtc) {
    c.id in p.crtcIds
  }

  datatype Mode = Mode(name: string, hdisplay: int, vdisplay: int)

  /** A dumb framebuffer allocated at a mode's size. */
  datatype Framebuffer = Framebuffer(id: int, width: int, height: int)

  /**
   * A connector as the scenarios see it. `defaultMode` is None when
   * get_default_mode() raises ValueError.
   */
  datatype Connector = Connector(
    fullname: string,
    connected: bool,
    currentCrtc: Option<Crtc>,
    possibleCrtcs: seq<Crtc>,
    defaultMode: Option<Mode>)

  /**
   * The CRTC to drive a connector from: the one it is currently bound to,
   * otherwise the first one it can be bound to; None when it has neither
   * (the scenarios differ in what they do then).
   */
  function CrtcFor(c: Connector): (r: Option<Crtc>)
    ensures r.None? <==> c.currentCrtc.None? && |c.possibleCrtcs| == 0
    ensures c.currentCrtc.Some? ==> r == c.currentCrtc
    ensures r.Some? && c.currentCrtc.None? ==> r.value == c.possibleCrtcs[0]
  {
    if c.currentCrtc.Some? then c.currentCrtc
    else if |c.possibleCrtcs| == 0 then None
    else Some(c.possibleCrtcs[0])
  }

  /**
   * The page-flip and suspend-resume scenarios check for an empty list of
   * possible CRTCs but do nothing about it, so `crtcs[0]` raises.
   */
  function CrtcOrRaise(c: Connector): (r: Result<Crtc, PyError>)
    ensures r.Failure? <==> c.currentCrtc.None? && |c.possibleCrtcs| == 0
    ensures r.Failure? ==> r.error == IndexError
    ensures r.Success? ==> Some(r.value) == c.currentCrtc || r.value in c.possibleCrtcs
  {
    match CrtcFor(c)
    case None => Failure(IndexError)
    case Some(crtc) => Success(crtc)
  }

  /** The for/else plane search: the first plane that supports the CRTC, if any. */
  method FindPlane(planes: seq<Plane>, crtc: Crtc) returns (found: Option<Plane>)
    ensures found.None? <==> forall i :: 0 <= i < |planes| ==> !SupportsCrtc(planes[i], crtc)
    ensures found.Some? ==> exists k :: (0 <= k < |planes| && planes[k] == found.value
      && SupportsCrtc(planes[k], crtc)
      && forall i :: 0 <= i < k ==> !SupportsCrtc(planes[i], crtc))
  {
    for i := 0 to |planes|
      invariant forall j :: 0 <= j < i ==> !SupportsCrtc(planes[j], crtc)
    {
      if SupportsCrtc(planes[i], crtc) {
        return Some(planes[i]);
      }
    }
    found := None;
  }
}
