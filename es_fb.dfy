/**
 * Framebuffer creation of the ESWIN DRM driver (drivers/gpu/drm/eswin/es_fb.c):
 * the per-plane size check, the GEM references taken by the object lookups
 * and released on every error path, the plane lookup of a framebuffer and
 * the default mode limits.
 *
 * GEM objects are named by an id; the handles of the calling file map to
 * objects and their sizes. Every reference drm_gem_object_lookup takes and
 * every drm_gem_object_put is logged in order, and `Apply` replays such a
 * log over the references held. The format information (the plane count and
 * the height drm_format_info_plane_height gives each plane) and the outcome of
 * the allocation and of drm_framebuffer_init are inputs.
 */
module EsFb {
  import opened CArith

  /** The number of object slots in struct drm_framebuffer and of entries in drm_mode_fb_cmd2. */
  const DRM_FORMAT_MAX_PLANES := 4
  const DEFAULT_MAX_SIZE := 4096

  datatype Gem = Gem(id: nat, size: nat)

  datatype RefOp = Get(id: nat) | Put(id: nat)

  /** The fields of drm_mode_fb_cmd2 the driver reads, one entry per plane. */
  datatype ModeCmd = ModeCmd(handles: seq<nat>, pitches: seq<nat>, offsets: seq<nat>)

  /** drm_format_info with the height of each plane for the requested frame height. */
  datatype FormatInfo = FormatInfo(numPlanes: nat, heights: seq<nat>)

  /** The framebuffer: the mode it was made for and its object slots (None is NULL). */
  datatype Framebuffer = Framebuffer(cmd: ModeCmd, obj: seq<Option<nat>>)

  predicate CmdWellFormed(cmd: ModeCmd)
  {
    |cmd.handles| == DRM_FORMAT_MAX_PLANES && |cmd.pitches| == DRM_FORMAT_MAX_PLANES
    && |cmd.offsets| == DRM_FORMAT_MAX_PLANES
  }

  predicate InfoWellFormed(info: FormatInfo)
  {
    info.numPlanes <= DRM_FORMAT_MAX_PLANES && |info.heights| == DRM_FORMAT_MAX_PLANES
  }

  // ---------------------------------------------------------------------
  // Plane size check
  // ---------------------------------------------------------------------

  /** `height * pitch + offset` in `unsigned int` arithmetic. */
  function PlaneSize(height: nat, pitch: nat, offset: nat): nat
  {
    U32(U32(height * pitch) + offset)
  }

  /** Without wrap-around the computed size is the true extent of the plane. */
  lemma PlaneSizeExact(height: nat, pitch: nat, offset: nat)
    requires height * pitch + offset < U32_MODULUS
    ensures PlaneSize(height, pitch, offset) == height * pitch + offset
  {
  }

  /**
   * The size wraps: a 65536-line plane of pitch 65536 needs 4 GiB yet is
   * computed as 0 and fits any object. The DRM core refuses such a request
   * before it reaches the driver.
   */
  lemma PlaneSizeWraps()
    ensures PlaneSize(0x1_0000, 0x1_0000, 0) == 0
  {
  }

  /** The handle table of the calling file: drm_gem_object_lookup. */
  function Lookup(handles: map<nat, Gem>, handle: nat): (g: Option<Gem>)
    ensures g.Some? <==> handle in handles
  {
    if handle in handles then Some(handles[handle]) else None
  }

  /** Plane `i` names an object that is large enough for it. */
  predicate PlaneOk(handles: map<nat, Gem>, cmd: ModeCmd, info: FormatInfo, i: nat)
    requires CmdWellFormed(cmd) && InfoWellFormed(info) && i < DRM_FORMAT_MAX_PLANES
  {
    cmd.handles[i] in handles
    && !(handles[cmd.handles[i]].size < PlaneSize(info.heights[i], cmd.pitches[i], cmd.offsets[i]))
  }

  /** The first plane from `i` on that fails its lookup or its size check, or the plane count. */
  function FirstBad(handles: map<nat, Gem>, cmd: ModeCmd, info: FormatInfo, i: nat): (f: nat)
    requires CmdWellFormed(cmd) && InfoWellFormed(info) && i <= info.numPlanes
    ensures i <= f <= info.numPlanes
    ensures forall j :: i <= j < f ==> PlaneOk(handles, cmd, info, j)
    ensures f < info.numPlanes ==> !PlaneOk(handles, cmd, info, f)
    decreases info.numPlanes - i
  {
    if i == info.numPlanes then i
    else if !PlaneOk(handles, cmd, info, i) then i
    else FirstBad(handles, cmd, info, i + 1)
  }

  /** The objects of planes `0..k`, all of which passed their checks. */
  function Objs(handles: map<nat, Gem>, cmd: ModeCmd, info: FormatInfo, k: nat): (objs: seq<nat>)
    requires CmdWellFormed(cmd) && InfoWellFormed(info) && k <= info.numPlanes
    requires forall j :: 0 <= j < k ==> PlaneOk(handles, cmd, info, j)
    ensures |objs| == k
    ensures forall j :: 0 <= j < k ==> PlaneOk(handles, cmd, info, j) && objs[j] == handles[cmd.handles[j]].id
  {
    seq<nat>(k, j requires 0 <= j < k => assert PlaneOk(handles, cmd, info, j); handles[cmd.handles[j]].id)
  }

  /** The references taken for `objs`, in order. */
  function Gets(objs: seq<nat>): seq<RefOp>
  {
    seq(|objs|, j requires 0 <= j < |objs| => Get(objs[j]))
  }

  /** The references of `objs` dropped from the last to the first. */
  function PutsRev(objs: seq<nat>): seq<RefOp>
  {
    seq(|objs|, j requires 0 <= j < |objs| => Put(objs[|objs| - 1 - j]))
  }

  /** The object slots es_fb_alloc fills in a zeroed framebuffer. */
  function Slots(objs: seq<nat>): seq<Option<nat>>
  {
    seq(DRM_FORMAT_MAX_PLANES, j requires 0 <= j < DRM_FORMAT_MAX_PLANES => if j < |objs| then Some(objs[j]) else None)
  }

  // ---------------------------------------------------------------------
  // Reference bookkeeping
  // ---------------------------------------------------------------------

  /**
   * The references held after replaying `ops` from `held`, or None when a
   * reference is dropped that is not held.
   */
  function Apply(held: multiset<nat>, ops: seq<RefOp>): Option<multiset<nat>>
    decreases |ops|
  {
    if ops == [] then Some(held)
    else match ops[0]
      case Get(o) => Apply(held + multiset{o}, ops[1..])
      case Put(o) => if o in held then Apply(held - multiset{o}, ops[1..]) else None
  }

  /** Replaying a log in two parts. */
  lemma {:induction false} ApplyAppend(held: multiset<nat>, a: seq<RefOp>, b: seq<RefOp>)
    ensures Apply(held, a + b) == (match Apply(held, a) case None => None case Some(m) => Apply(m, b))
    decreases |a|
  {
    if a == [] {
      assert a + b == b;
    } else {
      assert (a + b)[1..] == a[1..] + b;
      match a[0]
      case Get(o) => ApplyAppend(held + multiset{o}, a[1..], b);
      case Put(o) =>
        if o in held {
          ApplyAppend(held - multiset{o}, a[1..], b);
        }
    }
  }

  /** Taking the references of `objs` adds them to those held. */
  lemma {:induction false} ApplyGets(held: multiset<nat>, objs: seq<nat>)
    ensures Apply(held, Gets(objs)) == Some(held + multiset(objs))
    decreases |objs|
  {
    if objs != [] {
      assert Gets(objs)[0] == Get(objs[0]);
      assert Gets(objs)[1..] == Gets(objs[1..]);
      assert objs == [objs[0]] + objs[1..];
      assert multiset(objs) == multiset{objs[0]} + multiset(objs[1..]);
      ApplyGets(held + multiset{objs[0]}, objs[1..]);
      assert (held + multiset{objs[0]}) + multiset(objs[1..]) == held + multiset(objs);
      assert Apply(held, Gets(objs)) == Apply(held + multiset{objs[0]}, Gets(objs)[1..]);
    } else {
      assert Gets(objs) == [];
      assert held + multiset(objs) == held;
    }
  }

  /** Dropping them from the last to the first gives back exactly what was held before. */
  lemma {:induction false} ApplyPutsRev(held: multiset<nat>, objs: seq<nat>)
    ensures Apply(held + multiset(objs), PutsRev(objs)) == Some(held)
    decreases |objs|
  {
    if objs != [] {
      var k := |objs| - 1;
      assert objs == objs[..k] + [objs[k]];
      assert PutsRev(objs)[0] == Put(objs[k]);
      assert PutsRev(objs)[1..] == PutsRev(objs[..k]);
      assert multiset(objs) == multiset(objs[..k]) + multiset{objs[k]};
      assert objs[k] in held + multiset(objs);
      assert (held + multiset(objs)) - multiset{objs[k]} == held + multiset(objs[..k]);
      ApplyPutsRev(held, objs[..k]);
    } else {
      assert PutsRev(objs) == [];
      assert held + multiset(objs) == held;
    }
  }

  /** A reference taken and dropped at once leaves the held references as they were. */
  lemma ApplyGetPut(held: multiset<nat>, o: nat)
    ensures Apply(held, [Get(o), Put(o)]) == Some(held)
  {
    var ops := [Get(o), Put(o)];
    assert ops[0] == Get(o) && ops[1..] == [Put(o)];
    assert [Put(o)][0] == Put(o) && [Put(o)][1..] == [];
    assert o in held + multiset{o};
    assert (held + multiset{o}) - multiset{o} == held;
    assert Apply(held + multiset{o}, [Put(o)]) == Apply(held, []);
  }

  // ---------------------------------------------------------------------
  // es_fb_create
  // ---------------------------------------------------------------------

  /** The reference operations on the plane that fails: a too-small object is dropped at once. */
  function Dropped(look: Option<Gem>): seq<RefOp>
  {
    if look.Some? then [Get(look.value.id), Put(look.value.id)] else []
  }

  /** The error of the plane that fails: no object, or an object that is too small. */
  function LookupError(look: Option<Gem>): int
  {
    if look.None? then -ENXIO else -EINVAL
  }

  /**
   * What es_fb_create does: the reference operations it performs, the
   * framebuffer it returns and its result. `maxPlanes` is MAX_NUM_PLANES,
   * `info` the format lookup, `allocOk` whether kzalloc succeeded and
   * `initErr` the result of drm_framebuffer_init.
   */
  function Create(handles: map<nat, Gem>, maxPlanes: nat, cmd: ModeCmd, info: Option<FormatInfo>,
                  allocOk: bool, initErr: int): (seq<RefOp>, Option<Framebuffer>, int)
    requires CmdWellFormed(cmd) && (info.Some? ==> InfoWellFormed(info.value))
  {
    if info.None? then ([], None, -EINVAL)
    else if info.value.numPlanes > maxPlanes then ([], None, -EINVAL)
    else
      var inf := info.value;
      var f := FirstBad(handles, cmd, inf, 0);
      var objs := Objs(handles, cmd, inf, f);
      if f < inf.numPlanes then
        var look := Lookup(handles, cmd.handles[f]);
        (Gets(objs) + Dropped(look) + PutsRev(objs), None, LookupError(look))
      else if !allocOk then (Gets(objs) + PutsRev(objs), None, -ENOMEM)
      else if initErr != 0 then (Gets(objs) + PutsRev(objs), None, initErr)
      else (Gets(objs), Some(Framebuffer(cmd, Slots(objs))), 0)
  }

  /** Too many planes, or an unknown format, is refused before any lookup. */
  lemma CreateRefusesFormat(handles: map<nat, Gem>, maxPlanes: nat, cmd: ModeCmd, info: Option<FormatInfo>,
                            allocOk: bool, initErr: int)
    requires CmdWellFormed(cmd) && (info.Some? ==> InfoWellFormed(info.value))
    requires info.None? || info.value.numPlanes > maxPlanes
    ensures Create(handles, maxPlanes, cmd, info, allocOk, initErr) == ([], None, -EINVAL)
  {
  }

  /**
   * es_fb_create succeeds iff every plane names a large enough object and
   * the framebuffer is allocated and registered; the framebuffer then holds
   * plane `i`'s object in slot `i` and nothing beyond the plane count.
   */
  lemma CreateSucceeds(handles: map<nat, Gem>, maxPlanes: nat, cmd: ModeCmd, info: FormatInfo,
                       allocOk: bool, initErr: int)
    requires CmdWellFormed(cmd) && InfoWellFormed(info) && info.numPlanes <= maxPlanes
    ensures var (ops, fb, ret) := Create(handles, maxPlanes, cmd, Some(info), allocOk, initErr);
            (ret == 0 <==> (forall j :: 0 <= j < info.numPlanes ==> PlaneOk(handles, cmd, info, j))
                           && allocOk && initErr == 0)
            && (ret == 0 ==> fb.Some? && |fb.value.obj| == DRM_FORMAT_MAX_PLANES
                             && (forall j :: 0 <= j < info.numPlanes ==>
                                   cmd.handles[j] in handles && fb.value.obj[j] == Some(handles[cmd.handles[j]].id))
                             && (forall j :: info.numPlanes <= j < DRM_FORMAT_MAX_PLANES ==> fb.value.obj[j].None?))
            && (ret != 0 ==> fb.None?)
  {
    var f := FirstBad(handles, cmd, info, 0);
    if f < info.numPlanes {
      if Lookup(handles, cmd.handles[f]).None? {
        assert -ENXIO != 0;
      }
    }
  }

  /**
   * Every reference es_fb_create takes is dropped exactly once on an error
   * path, never before it was taken; on success the references taken are
   * exactly those the framebuffer's slots hold.
   */
  lemma {:induction false} CreateReferences(handles: map<nat, Gem>, maxPlanes: nat, cmd: ModeCmd,
                                            info: Option<FormatInfo>, allocOk: bool, initErr: int)
    requires CmdWellFormed(cmd) && (info.Some? ==> InfoWellFormed(info.value))
    ensures var (ops, fb, ret) := Create(handles, maxPlanes, cmd, info, allocOk, initErr);
            (fb.None? ==> Apply(multiset{}, ops) == Some(multiset{}))
            && (fb.Some? ==> Apply(multiset{}, ops) == Some(multiset(SlotIds(fb.value.obj))))
  {
    if info.Some? && info.value.numPlanes <= maxPlanes {
      var inf := info.value;
      var f := FirstBad(handles, cmd, inf, 0);
      var objs := Objs(handles, cmd, inf, f);
      var e: multiset<nat> := multiset{};
      ApplyGets(e, objs);
      assert e + multiset(objs) == multiset(objs);
      ApplyPutsRev(e, objs);
      if f < inf.numPlanes {
        var look := Lookup(handles, cmd.handles[f]);
        var dropped := Dropped(look);
        ApplyAppend(e, Gets(objs) + dropped, PutsRev(objs));
        ApplyAppend(e, Gets(objs), dropped);
        if look.Some? {
          ApplyGetPut(multiset(objs), look.value.id);
        } else {
          assert Apply(multiset(objs), dropped) == Some(multiset(objs));
        }
      } else if !allocOk || initErr != 0 {
        ApplyAppend(e, Gets(objs), PutsRev(objs));
      } else {
        SlotIdsOfSlots(objs);
      }
    }
  }

  /** The objects held by the filled slots, in slot order. */
  function SlotIds(slots: seq<Option<nat>>): seq<nat>
  {
    if slots == [] then []
    else (if slots[0].Some? then [slots[0].value] else []) + SlotIds(slots[1..])
  }

  /** Slots holding `objs` first and NULL after it give back exactly `objs`. */
  lemma {:induction false} SlotIdsPrefix(slots: seq<Option<nat>>, objs: seq<nat>)
    requires |objs| <= |slots|
    requires forall j :: 0 <= j < |slots| ==> slots[j] == if j < |objs| then Some(objs[j]) else None
    ensures SlotIds(slots) == objs
    decreases |slots|
  {
    if slots != [] {
      var rest := if objs == [] then [] else objs[1..];
      SlotIdsPrefix(slots[1..], rest);
      if objs != [] {
        assert objs == [objs[0]] + rest;
      }
    }
  }

  /** The slots es_fb_alloc fills hold exactly the plane objects. */
  lemma SlotIdsOfSlots(objs: seq<nat>)
    requires |objs| <= DRM_FORMAT_MAX_PLANES
    ensures SlotIds(Slots(objs)) == objs
  {
    SlotIdsPrefix(Slots(objs), objs);
  }

  // ---------------------------------------------------------------------
  // es_fb_alloc
  // ---------------------------------------------------------------------

  /**
   * es_fb_alloc: a zeroed framebuffer whose first slots take the plane
   * objects; an allocation failure gives -ENOMEM and a failed
   * drm_framebuffer_init its error, the framebuffer then being freed.
   */
  method FbAlloc(cmd: ModeCmd, objs: seq<nat>, allocOk: bool, initErr: int)
    returns (fb: Option<Framebuffer>, ret: int)
    requires |objs| <= DRM_FORMAT_MAX_PLANES
    ensures ret == (if !allocOk then -ENOMEM else initErr)
    ensures fb == (if ret == 0 then Some(Framebuffer(cmd, Slots(objs))) else None)
  {
    if !allocOk {
      return None, -ENOMEM;
    }
    var slots: seq<Option<nat>> := [None, None, None, None];
    var i := 0;
    while i < |objs|
      invariant 0 <= i <= |objs|
      invariant |slots| == DRM_FORMAT_MAX_PLANES
      invariant forall j :: 0 <= j < DRM_FORMAT_MAX_PLANES ==> slots[j] == if j < i then Some(objs[j]) else None
    {
      slots := slots[i := Some(objs[i])];
      i := i + 1;
    }
    if initErr != 0 {
      return None, initErr;
    }
    assert slots == Slots(objs);
    fb, ret := Some(Framebuffer(cmd, slots)), 0;
  }

  // ---------------------------------------------------------------------
  // es_fb_get_gem_obj
  // ---------------------------------------------------------------------

  /** What a plane lookup of a framebuffer yields. */
  datatype GemLookup = NoObject | Object(id: nat) | PastEnd

  /**
   * es_fb_get_gem_obj as written: only `plane > MAX_NUM_PLANES` is refused,
   * so `plane == MAX_NUM_PLANES` reads a slot es_fb_alloc never fills, or
   * one past the slot array when MAX_NUM_PLANES is the slot count.
   */
  function GetGemObjAsWritten(fb: Framebuffer, maxPlanes: nat, plane: nat): GemLookup
  {
    if plane > maxPlanes then NoObject
    else if plane >= |fb.obj| then PastEnd
    else if fb.obj[plane].None? then NoObject
    else Object(fb.obj[plane].value)
  }

  /** With MAX_NUM_PLANES equal to the slot count the lookup of plane MAX_NUM_PLANES runs off the array. */
  lemma GetGemObjAsWrittenPastEnd(fb: Framebuffer)
    requires |fb.obj| == DRM_FORMAT_MAX_PLANES
    ensures GetGemObjAsWritten(fb, DRM_FORMAT_MAX_PLANES, DRM_FORMAT_MAX_PLANES) == PastEnd
  {
  }

  /** es_fb_get_gem_obj with the bound checked as `plane >= MAX_NUM_PLANES`. */
  function GetGemObj(fb: Framebuffer, maxPlanes: nat, plane: nat): (r: GemLookup)
    requires maxPlanes <= |fb.obj|
    ensures r != PastEnd
    ensures plane >= maxPlanes ==> r == NoObject
  {
    if plane >= maxPlanes then NoObject
    else if fb.obj[plane].None? then NoObject
    else Object(fb.obj[plane].value)
  }

  /**
   * On a framebuffer es_fb_create made, the corrected lookup gives plane
   * `p`'s object for every plane of the format and no object otherwise; the
   * two versions differ only at `plane == MAX_NUM_PLANES`.
   */
  lemma GetGemObjOfCreated(handles: map<nat, Gem>, maxPlanes: nat, cmd: ModeCmd, info: FormatInfo,
                           allocOk: bool, initErr: int, plane: nat)
    requires CmdWellFormed(cmd) && InfoWellFormed(info) && info.numPlanes <= maxPlanes <= DRM_FORMAT_MAX_PLANES
    requires Create(handles, maxPlanes, cmd, Some(info), allocOk, initErr).1.Some?
    ensures var fb := Create(handles, maxPlanes, cmd, Some(info), allocOk, initErr).1.value;
            (plane < info.numPlanes ==> cmd.handles[plane] in handles
                                        && GetGemObj(fb, maxPlanes, plane) == Object(handles[cmd.handles[plane]].id))
            && (plane >= info.numPlanes ==> GetGemObj(fb, maxPlanes, plane) == NoObject)
            && (plane != maxPlanes ==> GetGemObjAsWritten(fb, maxPlanes, plane) == GetGemObj(fb, maxPlanes, plane))
  {
    CreateSucceeds(handles, maxPlanes, cmd, info, allocOk, initErr);
  }

  // ---------------------------------------------------------------------
  // es_mode_config_init
  // ---------------------------------------------------------------------

  datatype ModeLimits = ModeLimits(minWidth: nat, minHeight: nat, maxWidth: nat, maxHeight: nat)

  /**
   * The limits after es_mode_config_init: a missing maximum replaces all
   * four limits with 0x0 to 4096x4096, otherwise nothing changes.
   */
  function DefaultLimits(l: ModeLimits): (r: ModeLimits)
    ensures r.maxWidth != 0 && r.maxHeight != 0
    ensures l.maxWidth != 0 && l.maxHeight != 0 ==> r == l
    ensures l.maxWidth == 0 || l.maxHeight == 0 ==> r == ModeLimits(0, 0, DEFAULT_MAX_SIZE, DEFAULT_MAX_SIZE)
  {
    if l.maxWidth == 0 || l.maxHeight == 0 then ModeLimits(0, 0, DEFAULT_MAX_SIZE, DEFAULT_MAX_SIZE) else l
  }

  /** Initialising twice is initialising once. */
  lemma DefaultLimitsIdempotent(l: ModeLimits)
    ensures DefaultLimits(DefaultLimits(l)) == DefaultLimits(l)
  {
  }

  // ---------------------------------------------------------------------
  // The device
  // ---------------------------------------------------------------------

  /**
   * The DRM device as es_fb.c sees it: its mode limits, the handle table of
   * the calling file and the log of GEM reference operations.
   */
  class EsDrm {
    const maxPlanes: nat                 // MAX_NUM_PLANES
    const handles: map<nat, Gem>
    var limits: ModeLimits
    var refOps: seq<RefOp>

    constructor (maxPlanes: nat, handles: map<nat, Gem>, limits: ModeLimits)
      requires maxPlanes <= DRM_FORMAT_MAX_PLANES
      ensures this.maxPlanes == maxPlanes && this.handles == handles && this.limits == limits && refOps == []
    {
      this.maxPlanes := maxPlanes;
      this.handles := handles;
      this.limits := limits;
      refOps := [];
    }

    /** es_mode_config_init (the callback tables it installs are not modelled). */
    method ModeConfigInit()
      modifies this
      ensures limits == DefaultLimits(old(limits)) && refOps == old(refOps)
    {
      if limits.maxWidth == 0 || limits.maxHeight == 0 {
        limits := ModeLimits(0, 0, DEFAULT_MAX_SIZE, DEFAULT_MAX_SIZE);
      }
    }

    /**
     * es_fb_create: look up and check each plane's object, keeping the
     * reference; on an error drop the references taken, last first.
     */
    method FbCreate(cmd: ModeCmd, info: Option<FormatInfo>, allocOk: bool, initErr: int)
      returns (fb: Option<Framebuffer>, ret: int)
      requires CmdWellFormed(cmd) && (info.Some? ==> InfoWellFormed(info.value))
      requires maxPlanes <= DRM_FORMAT_MAX_PLANES
      modifies this
      ensures var (ops, f, r) := Create(handles, maxPlanes, cmd, info, allocOk, initErr);
              refOps == old(refOps) + ops && fb == f && ret == r
      ensures limits == old(limits)
    {
      if info.None? {
        return None, -EINVAL;
      }
      var inf := info.value;
      if inf.numPlanes > maxPlanes {
        return None, -EINVAL;
      }
      var objs, taken, err := TakePlanes(handles, cmd, inf);
      refOps := refOps + taken;
      if err == 0 {
        fb, ret := FbAlloc(cmd, objs, allocOk, initErr);
        if ret == 0 {
          return;
        }
      } else {
        ret := err;
      }
      var released := ReleasePlanes(objs);
      assert old(refOps) + taken + released == old(refOps) + (taken + released);
      refOps := refOps + released;
      fb := None;
    }
  }

  /**
   * The lookup loop of es_fb_create: the objects of the planes that pass,
   * the references taken (and the one dropped at once for a too-small
   * object) and 0 or the error of the first plane that fails.
   */
  method TakePlanes(handles: map<nat, Gem>, cmd: ModeCmd, info: FormatInfo)
    returns (objs: seq<nat>, ops: seq<RefOp>, ret: int)
    requires CmdWellFormed(cmd) && InfoWellFormed(info)
    ensures var f := FirstBad(handles, cmd, info, 0);
            objs == Objs(handles, cmd, info, f) && (ret == 0 <==> f == info.numPlanes)
            && (ret == 0 ==> ops == Gets(objs))
            && (ret != 0 ==> ops == Gets(objs) + Dropped(Lookup(handles, cmd.handles[f]))
                             && ret == LookupError(Lookup(handles, cmd.handles[f])))
  {
    ghost var f := FirstBad(handles, cmd, info, 0);
    objs, ops, ret := [], [], 0;
    var i := 0;
    while i < info.numPlanes
      invariant 0 <= i <= f
      invariant objs == Objs(handles, cmd, info, i) && ops == Gets(objs)
    {
      var obj := Lookup(handles, cmd.handles[i]);
      if obj.None? {
        return objs, ops, -ENXIO;
      }
      ops := ops + [Get(obj.value.id)];
      var size := PlaneSize(info.heights[i], cmd.pitches[i], cmd.offsets[i]);
      if obj.value.size < size {
        ops := ops + [Put(obj.value.id)];
        return objs, ops, -EINVAL;
      }
      assert Gets(objs + [obj.value.id]) == Gets(objs) + [Get(obj.value.id)];
      objs := objs + [obj.value.id];
      i := i + 1;
    }
  }

  /** The error path of es_fb_create: the count-down loop dropping each reference, last first. */
  method ReleasePlanes(objs: seq<nat>) returns (ops: seq<RefOp>)
    ensures ops == PutsRev(objs)
  {
    ops := [];
    var i := |objs|;
    while i > 0
      invariant 0 <= i <= |objs|
      invariant ops == PutsRev(objs[i..])
    {
      assert PutsRev(objs[i - 1..]) == PutsRev(objs[i..]) + [Put(objs[i - 1])];
      ops := ops + [Put(objs[i - 1])];
      i := i - 1;
    }
    assert objs[0..] == objs;
  }
}
