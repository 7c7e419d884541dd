/** The objects the proxy works on in place: services decoded from a manifest or handed out by a lister, and the
    collections that renderService builds from them. */
module Objects {
  import opened Kube
  import opened Upstream

  /** A service on the heap.  A shallow copy shares the port array with its origin. */
  class ServiceObject {
    var name: string
    var resourceVersion: nat
    var owners: seq<OwnerReference>
    var serviceType: ServiceType
    var selector: map<string, string>
    const ports: array<ServicePort>
    const otherFields: string

    constructor (view: Service, ports: array<ServicePort>)
      ensures name == view.name && resourceVersion == view.resourceVersion && owners == view.owners
      ensures serviceType == view.serviceType && selector == view.selector && otherFields == view.otherFields
      ensures this.ports == ports
    {
      name, resourceVersion, owners, serviceType := view.name, view.resourceVersion, view.owners, view.serviceType;
      selector, otherFields, this.ports := view.selector, view.otherFields, ports;
    }

    /** What is sent to the server when this object is created or updated. */
    function View(): Service
      reads this, ports
    {
      Service(name, resourceVersion, owners, serviceType, selector, ports[..], otherFields)
    }
  }

  /** A serviceCollection.  renderService never sets `name`. */
  class ServiceCollection {
    const name: string
    const service: string
    const canaryPorts: array<CanaryPort>
    const origin: ServiceObject
    const inCluster: ServiceObject
    const forked: ServiceObject
    const canary: ServiceObject
    var upstreamPorts: map<string, int>

    constructor (service: string, canaryPorts: array<CanaryPort>,
                 origin: ServiceObject, inCluster: ServiceObject, forked: ServiceObject, canary: ServiceObject)
      ensures this.service == service && this.canaryPorts == canaryPorts && name == "" && upstreamPorts == map[]
      ensures this.origin == origin && this.inCluster == inCluster && this.forked == forked && this.canary == canary
    {
      this.service, this.canaryPorts, this.origin, this.inCluster := service, canaryPorts, origin, inCluster;
      this.forked, this.canary, name, upstreamPorts := forked, canary, "", map[];
    }

    function AsColumn(): Column
      reads this, canaryPorts, forked, canary
    {
      Column(name, canaryPorts[..], forked.name, canary.name)
    }
  }

  function Columns(cols: seq<ServiceCollection>): (r: seq<Column>)
    reads cols
    reads set c | c in cols :: c.canaryPorts
    reads set c | c in cols :: c.forked
    reads set c | c in cols :: c.canary
    ensures |r| == |cols| && forall i | 0 <= i < |r| :: r[i] == cols[i].AsColumn()
  {
    if cols == [] then [] else Columns(cols[..|cols| - 1]) + [cols[|cols| - 1].AsColumn()]
  }
}
