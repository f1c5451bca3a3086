/**
 * Device bookkeeping of the ESWIN DRM driver (drivers/gpu/drm/eswin/es_drv.c):
 * the pitch alignment the display controllers raise, attaching devices to
 * the shared IOMMU domain and detaching them, and the device-tree walk over
 * the display ports that decides whether the IOMMU is used at all.
 *
 * Devices are named by an id. The IOMMU calls are logged in order; the
 * domain lookup and the attach result are inputs. The device-tree walk sees
 * each port as its availability and that of the IOMMU it names.
 */
module EsDrv {
  import opened CArith

  /** The pitch alignment es_drm_bind starts from. */
  const INITIAL_PITCH_ALIGNMENT := 64

  /** The domain pointer: NULL, a domain, or an error pointer. */
  datatype Domain = NullDomain | DomainOf(id: nat) | ErrDomain(err: int)

  datatype IommuOp = Attach(domain: Domain, dev: nat) | Detach(domain: Domain, dev: nat)

  /**
   * A node of the "ports" list: whether its parent display controller is
   * available, and, when it names an IOMMU, whether that IOMMU's parent is.
   */
  datatype Port = Port(parentAvailable: bool, iommu: Option<bool>)

  // ---------------------------------------------------------------------
  // Pitch alignment
  // ---------------------------------------------------------------------

  /** The larger of the current alignment and the one asked for. */
  function Raise(current: nat, alignment: nat): (r: nat)
    ensures r >= current && r >= alignment
    ensures r == current || r == alignment
  {
    if alignment > current then alignment else current
  }

  /** The alignment after a series of requests. */
  function RaiseAll(current: nat, requests: seq<nat>): nat
    decreases |requests|
  {
    if requests == [] then current else RaiseAll(Raise(current, requests[0]), requests[1..])
  }

  /**
   * After any series of requests the alignment is the largest of the start
   * and all requests: it covers each of them and is one of them.
   */
  lemma {:induction false} RaiseAllIsMax(current: nat, requests: seq<nat>)
    ensures RaiseAll(current, requests) >= current
    ensures forall i :: 0 <= i < |requests| ==> RaiseAll(current, requests) >= requests[i]
    ensures RaiseAll(current, requests) == current || RaiseAll(current, requests) in requests
    decreases |requests|
  {
    if requests != [] {
      var next := Raise(current, requests[0]);
      RaiseAllIsMax(next, requests[1..]);
      forall i | 0 <= i < |requests|
        ensures RaiseAll(current, requests) >= requests[i]
      {
        if i > 0 {
          assert requests[i] == requests[1..][i - 1];
        }
      }
      if RaiseAll(current, requests) != current {
        if RaiseAll(current, requests) == next {
          assert next == requests[0];
        } else {
          assert RaiseAll(current, requests) in requests[1..];
        }
      }
    }
  }

  /** Requests never lower the alignment, whatever their order. */
  lemma {:induction false} RaiseAllMonotone(current: nat, requests: seq<nat>, extra: seq<nat>)
    ensures RaiseAll(current, requests + extra) >= RaiseAll(current, requests)
    decreases |requests|
  {
    if requests == [] {
      assert requests + extra == extra;
      RaiseAllIsMax(current, extra);
    } else {
      assert (requests + extra)[1..] == requests[1..] + extra;
      RaiseAllMonotone(Raise(current, requests[0]), requests[1..], extra);
    }
  }

  // ---------------------------------------------------------------------
  // Device-tree walk
  // ---------------------------------------------------------------------

  /** Some port's display controller is available. */
  predicate AnyAvailable(ports: seq<Port>)
  {
    exists i :: 0 <= i < |ports| && ports[i].parentAvailable
  }

  /** Every available display controller sits behind an available IOMMU. */
  predicate AllBehindIommu(ports: seq<Port>)
  {
    forall i :: 0 <= i < |ports| && ports[i].parentAvailable ==> ports[i].iommu == Some(true)
  }

  /** The result of es_drm_platform_of_probe for a device-tree node, None when there is none. */
  function OfProbeResult(node: Option<seq<Port>>): (r: int)
    ensures r == 0 <==> node.Some? && AnyAvailable(node.value)
    ensures r != 0 ==> r == -ENODEV
  {
    if node.None? then -ENODEV
    else if |node.value| == 0 then -ENODEV
    else if !AnyAvailable(node.value) then -ENODEV
    else 0
  }

  /** The IOMMU is used after the walk iff it was before and every available controller has one. */
  function IommuAfter(hasIommu: bool, node: Option<seq<Port>>): bool
  {
    hasIommu && (node.None? || AllBehindIommu(node.value))
  }

  /** The walk only ever clears the flag, and a second walk of the same tree changes nothing. */
  lemma IommuAfterOnlyClears(hasIommu: bool, node: Option<seq<Port>>)
    ensures IommuAfter(hasIommu, node) ==> hasIommu
    ensures !hasIommu ==> !IommuAfter(hasIommu, node)
    ensures IommuAfter(IommuAfter(hasIommu, node), node) == IommuAfter(hasIommu, node)
  {
  }

  /**
   * The walk of es_drm_platform_of_probe: the result and the `has_iommu`
   * flag it leaves. Unavailable ports are skipped; an available one
   * without an available IOMMU clears the flag.
   */
  method OfProbe(node: Option<seq<Port>>, hasIommu: bool) returns (ret: int, iommu: bool)
    ensures ret == OfProbeResult(node) && iommu == IommuAfter(hasIommu, node)
  {
    iommu := hasIommu;
    if node.None? {
      return -ENODEV, iommu;
    }
    var ports := node.value;
    var found := false;
    var i := 0;
    while i < |ports|
      invariant 0 <= i <= |ports|
      invariant found <==> exists j :: 0 <= j < i && ports[j].parentAvailable
      invariant iommu == (hasIommu && forall j :: 0 <= j < i && ports[j].parentAvailable ==> ports[j].iommu == Some(true))
    {
      var port := ports[i];
      if !port.parentAvailable {
        i := i + 1;
        continue;
      }
      if port.iommu.None? || !port.iommu.value {
        iommu := false;
      }
      found := true;
      i := i + 1;
    }
    if i == 0 {
      return -ENODEV, iommu;
    }
    if !found {
      return -ENODEV, iommu;
    }
    ret := 0;
  }

  // ---------------------------------------------------------------------
  // The driver
  // ---------------------------------------------------------------------

  /** The module-wide `has_iommu` flag and struct es_drm_private of the bound DRM device. */
  class EsDrm {
    const drmDev: nat                // drm_dev->dev
    var hasIommu: bool
    var pitchAlignment: nat
    var domain: Domain
    var dmaDev: nat
    var iommuOps: seq<IommuOp>

    predicate Valid()
      reads this
    {
      pitchAlignment >= INITIAL_PITCH_ALIGNMENT
    }

    /** Module load (`has_iommu` set) followed by the private state es_drm_bind sets up. */
    constructor (drmDev: nat)
      ensures Valid()
      ensures this.drmDev == drmDev && hasIommu && pitchAlignment == INITIAL_PITCH_ALIGNMENT
      ensures domain == NullDomain && dmaDev == drmDev && iommuOps == []
    {
      this.drmDev := drmDev;
      hasIommu := true;
      pitchAlignment := INITIAL_PITCH_ALIGNMENT;
      domain := NullDomain;
      dmaDev := drmDev;
      iommuOps := [];
    }

    /** es_drm_platform_of_probe, updating the module flag. */
    method PlatformOfProbe(node: Option<seq<Port>>) returns (ret: int)
      modifies this
      ensures ret == OfProbeResult(node) && hasIommu == IommuAfter(old(hasIommu), node)
      ensures pitchAlignment == old(pitchAlignment) && domain == old(domain) && dmaDev == old(dmaDev)
      ensures iommuOps == old(iommuOps)
    {
      ret, hasIommu := OfProbe(node, hasIommu);
    }

    /** es_drm_update_pitch_alignment. */
    method UpdatePitchAlignment(alignment: nat)
      requires Valid()
      modifies this
      ensures Valid() && pitchAlignment == Raise(old(pitchAlignment), alignment)
      ensures hasIommu == old(hasIommu) && domain == old(domain) && dmaDev == old(dmaDev)
      ensures iommuOps == old(iommuOps)
    {
      if alignment > pitchAlignment {
        pitchAlignment := alignment;
      }
    }

    /**
     * es_drm_iommu_attach_device for device `dev`. `fetched` is what
     * iommu_get_domain_for_dev returns and `attachErr` the result of
     * iommu_attach_device.
     */
    method IommuAttach(dev: nat, fetched: Domain, attachErr: int) returns (ret: int)
      modifies this
      ensures !old(hasIommu) ==> ret == 0 && domain == old(domain) && dmaDev == old(dmaDev)
                                 && iommuOps == old(iommuOps)
      ensures old(hasIommu) && old(domain) == NullDomain && fetched.ErrDomain? ==>
                ret == fetched.err && domain == fetched && dmaDev == old(dmaDev) && iommuOps == old(iommuOps)
      ensures old(hasIommu) && old(domain) == NullDomain && !fetched.ErrDomain? ==>
                ret == attachErr && domain == fetched && dmaDev == dev && iommuOps == old(iommuOps) + [Attach(fetched, dev)]
      ensures old(hasIommu) && old(domain) != NullDomain ==>
                ret == attachErr && domain == old(domain) && dmaDev == old(dmaDev)
                && iommuOps == old(iommuOps) + [Attach(domain, dev)]
      ensures hasIommu == old(hasIommu) && pitchAlignment == old(pitchAlignment)
    {
      if !hasIommu {
        return 0;
      }
      if domain == NullDomain {
        domain := fetched;
        if domain.ErrDomain? {
          return domain.err;
        }
        dmaDev := dev;
      }
      iommuOps := iommuOps + [Attach(domain, dev)];
      if attachErr != 0 {
        return attachErr;
      }
      ret := 0;
    }

    /** es_drm_iommu_detach_device for device `dev`. */
    method IommuDetach(dev: nat)
      modifies this
      ensures !old(hasIommu) ==> dmaDev == old(dmaDev) && iommuOps == old(iommuOps)
      ensures old(hasIommu) ==> iommuOps == old(iommuOps) + [Detach(domain, dev)]
                                && dmaDev == (if old(dmaDev) == dev then drmDev else old(dmaDev))
      ensures hasIommu == old(hasIommu) && pitchAlignment == old(pitchAlignment) && domain == old(domain)
    {
      if !hasIommu {
        return;
      }
      iommuOps := iommuOps + [Detach(domain, dev)];
      if dmaDev == dev {
        dmaDev := drmDev;
      }
    }
  }

  /**
   * The first device attached becomes the DMA device and detaching it hands
   * the role back to the DRM device, while the domain stays cached.
   */
  method AttachThenDetach(d: EsDrm, dev: nat, id: nat)
    requires d.hasIommu && d.domain == NullDomain
    modifies d
    ensures d.domain == DomainOf(id) && d.dmaDev == d.drmDev
    ensures d.iommuOps == old(d.iommuOps) + [Attach(DomainOf(id), dev), Detach(DomainOf(id), dev)]
  {
    var _ := d.IommuAttach(dev, DomainOf(id), 0);
    assert d.dmaDev == dev;
    d.IommuDetach(dev);
  }

  /**
   * Only the first attach fetches the domain: a second device joins the
   * cached domain and does not become the DMA device.
   */
  method SecondAttachJoins(d: EsDrm, first: nat, second: nat, id: nat, other: Domain)
    requires d.hasIommu && d.domain == NullDomain
    modifies d
    ensures d.domain == DomainOf(id) && d.dmaDev == first
    ensures d.iommuOps == old(d.iommuOps) + [Attach(DomainOf(id), first), Attach(DomainOf(id), second)]
  {
    var _ := d.IommuAttach(first, DomainOf(id), 0);
    var _ := d.IommuAttach(second, other, 0);
  }

  /**
   * A failed domain lookup leaves the error pointer cached: the next attach
   * does not look again and attaches to it.
   */
  method FailedLookupSticks(d: EsDrm, dev: nat, err: int, retry: Domain)
    requires d.hasIommu && d.domain == NullDomain
    modifies d
    ensures d.domain == ErrDomain(err) && d.iommuOps == old(d.iommuOps) + [Attach(ErrDomain(err), dev)]
  {
    var _ := d.IommuAttach(dev, ErrDomain(err), 0);
    var _ := d.IommuAttach(dev, retry, 0);
  }
}
