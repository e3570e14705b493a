/**
 How a student reaches an instance: the ports of the Pod, the Service in front of it, the
 Ingress in front of the Service and the endpoints in the status. The lists are built by
 appending in loops; Service and Ingress may be absent, and the endpoint loop follows
 pointers to them.
 */
module Routing {
  import opened Prelude
  import opened LabStore
  import opened Naming
  import PodBuild
  import I = InstanceLabController
  import P = PlacementPass

  datatype ContainerPort = ContainerPort(name: string, port: int)

  datatype ServicePort = ServicePort(name: string, port: int, targetPort: int)

  datatype Backend = Backend(service: string, port: int)

  /** An entry of the status; `url` is set for ports reached through the Ingress. */
  datatype Endpoint = Endpoint(name: string, protocol: string, internal: string, url: Option<string>)

  const PORT_NAME_LIMIT := 15

  // ----- what the loops build ----------------------------------------------------------------

  function ContainerPorts(hash: Hash, ports: seq<Port>): seq<ContainerPort>
  {
    seq(|ports|, j requires 0 <= j < |ports| =>
      ContainerPort(SanitizeName(hash, ports[j].name, PORT_NAME_LIMIT), ports[j].targetPort))
  }

  function ServicePorts(hash: Hash, ports: seq<Port>): seq<ServicePort>
  {
    seq(|ports|, j requires 0 <= j < |ports| =>
      ServicePort(SanitizeName(hash, ports[j].name, PORT_NAME_LIMIT), ports[j].port, ports[j].targetPort))
  }

  /** The exposed ports, in their order. */
  function Exposed(ports: seq<Port>): (r: seq<Port>)
    ensures r != [] <==> I.AnyExposed(ports)
    ensures forall p :: p in r <==> p in ports && p.expose
  {
    if ports == [] then []
    else
      var rest := Exposed(ports[1..]);
      assert ports == [ports[0]] + ports[1..];
      assert forall j :: 0 <= j < |ports| - 1 ==> ports[1..][j] == ports[j + 1];
      if ports[0].expose then [ports[0]] + rest else rest
  }

  lemma {:induction false} ExposedAppend(a: seq<Port>, p: Port)
    ensures Exposed(a + [p]) == Exposed(a) + if p.expose then [p] else []
  {
    if a == [] {
      assert [] + [p] == [p];
    } else {
      assert (a + [p])[1..] == a[1..] + [p];
      ExposedAppend(a[1..], p);
    }
  }

  function Internal(service: string, space: string, port: int): string
  {
    "http://" + service + "." + space + ".svc.cluster.local:" + PodBuild.Decimal(port)
  }

  /** The endpoint of a port; `host` is that of the Ingress, if there is one with a rule. */
  function EndpointOf(p: Port, service: string, space: string, host: Option<string>): Endpoint
  {
    if p.expose && host.Some? then
      Endpoint(p.name, "HTTPS", Internal(service, space, p.port), Some("https://" + host.value))
    else Endpoint(p.name, "TCP", Internal(service, space, p.port), None)
  }

  function Endpoints(ports: seq<Port>, service: string, space: string, host: Option<string>): seq<Endpoint>
  {
    seq(|ports|, j requires 0 <= j < |ports| => EndpointOf(ports[j], service, space, host))
  }

  // ----- the objects, as the reconciler builds them ---------------------------------------------

  class PodObject {
    const name: string
    const space: string
    var app: string
    var ports: seq<ContainerPort>

    constructor (name: string, space: string)
      ensures this.name == name && this.space == space && app == "" && ports == []
    {
      this.name, this.space, app, ports := name, space, "", [];
    }
  }

  class ServiceObject {
    const name: string
    var selector: string
    var ports: seq<ServicePort>

    constructor (name: string)
      ensures this.name == name && selector == "" && ports == []
    {
      this.name, selector, ports := name, "", [];
    }
  }

  class IngressObject {
    const name: string
    var tlsHost: string
    var ruleHosts: seq<string>
    var backends: seq<Backend>

    constructor (name: string)
      ensures this.name == name && tlsHost == "" && ruleHosts == [] && backends == []
    {
      this.name, tlsHost, ruleHosts, backends := name, "", [], [];
    }
  }

  method ReconcilePod(hash: Hash, inst: string, ports: seq<Port>, space: string) returns (pod: PodObject)
    ensures fresh(pod) && pod.name == ChildName(hash, Pod, inst) && pod.space == space
    ensures pod.app == pod.name && pod.ports == ContainerPorts(hash, ports)
  {
    pod := new PodObject(ChildName(hash, Pod, inst), space);
    pod.app := pod.name;
    for j := 0 to |ports|
      invariant pod.app == pod.name && pod.ports == ContainerPorts(hash, ports[..j])
    {
      assert ContainerPorts(hash, ports[..j + 1]) == ContainerPorts(hash, ports[..j])
        + [ContainerPort(SanitizeName(hash, ports[j].name, PORT_NAME_LIMIT), ports[j].targetPort)];
      pod.ports := pod.ports + [ContainerPort(SanitizeName(hash, ports[j].name, PORT_NAME_LIMIT), ports[j].targetPort)];
    }
    assert ports[..|ports|] == ports;
  }

  /** No Service without ports. */
  method ReconcileServices(hash: Hash, inst: string, ports: seq<Port>) returns (svc: ServiceObject?)
    ensures svc == null <==> ports == []
    ensures svc != null ==>
      && fresh(svc) && svc.name == ChildName(hash, Service, inst)
      && svc.selector == ChildName(hash, Pod, inst) && svc.ports == ServicePorts(hash, ports)
  {
    if |ports| == 0 {
      return null;
    }
    var s := new ServiceObject(ChildName(hash, Service, inst));
    s.selector := ChildName(hash, Pod, inst);
    var svcPorts := [];
    for j := 0 to |ports|
      invariant svcPorts == ServicePorts(hash, ports[..j])
    {
      var p := ports[j];
      assert ServicePorts(hash, ports[..j + 1]) == ServicePorts(hash, ports[..j])
        + [ServicePort(SanitizeName(hash, p.name, PORT_NAME_LIMIT), p.port, p.targetPort)];
      svcPorts := svcPorts + [ServicePort(SanitizeName(hash, p.name, PORT_NAME_LIMIT), p.port, p.targetPort)];
    }
    assert ports[..|ports|] == ports;
    s.ports := svcPorts;
    svc := s;
  }

  /** No Ingress without a Service or without an exposed port; only the first exposed port is routed. */
  method ReconcileIngress(hash: Hash, inst: string, cluster: string, ports: seq<Port>, svc: ServiceObject?)
    returns (ing: IngressObject?)
    ensures ing == null <==> svc == null || !I.AnyExposed(ports)
    ensures ing != null ==>
      && fresh(ing) && ing.name == ChildName(hash, Ingress, inst)
      && ing.tlsHost == IngressHost(hash, inst, cluster, "") && ing.ruleHosts == [ing.tlsHost]
      && ing.backends == [Backend(svc.name, Exposed(ports)[0].port)]
  {
    hide IngressHost, ChildName;
    if svc == null {
      return null;
    }
    var exposePorts := [];
    for j := 0 to |ports|
      invariant exposePorts == Exposed(ports[..j])
    {
      assert ports[..j + 1] == ports[..j] + [ports[j]];
      ExposedAppend(ports[..j], ports[j]);
      if ports[j].expose {
        exposePorts := exposePorts + [ports[j]];
      }
    }
    assert ports[..|ports|] == ports;
    if |exposePorts| == 0 {
      return null;
    }
    var r := new IngressObject(ChildName(hash, Ingress, inst));
    var host := IngressHost(hash, inst, cluster, "");
    r.tlsHost := host;
    var paths := [];
    for j := 0 to |exposePorts|
      invariant j == 0 && paths == []
    {
      paths := paths + [Backend(svc.name, exposePorts[j].port)];
      break;
    }
    r.backends := paths;
    r.ruleHosts := [host];
    ing := r;
  }

  /** The endpoint loop: it follows `svc` and `pod` once for every port, and `ing` if there is one. */
  method UpdateEndpoints(ports: seq<Port>, pod: PodObject?, svc: ServiceObject?, ing: IngressObject?)
    returns (endpoints: seq<Endpoint>)
    requires ports != [] ==> pod != null && svc != null
    ensures ports == [] ==> endpoints == []
    ensures ports != [] ==>
      endpoints == Endpoints(ports, svc.name, pod.space,
                             if ing != null && |ing.ruleHosts| > 0 then Some(ing.ruleHosts[0]) else None)
  {
    endpoints := [];
    ghost var host := if ing != null && |ing.ruleHosts| > 0 then Some(ing.ruleHosts[0]) else None;
    for j := 0 to |ports|
      invariant ports != [] ==> endpoints == Endpoints(ports[..j], svc.name, pod.space, host)
      invariant ports == [] ==> endpoints == []
    {
      var p := ports[j];
      assert Endpoints(ports[..j + 1], svc.name, pod.space, host) ==
             Endpoints(ports[..j], svc.name, pod.space, host) + [EndpointOf(p, svc.name, pod.space, host)];
      var ep := Endpoint(p.name, "TCP", Internal(svc.name, pod.space, p.port), None);
      if p.expose && ing != null && |ing.ruleHosts| > 0 {
        ep := ep.(protocol := "HTTPS", url := Some("https://" + ing.ruleHosts[0]));
      }
      endpoints := endpoints + [ep];
    }
    assert ports[..|ports|] == ports;
  }

  /**
   The four steps in a row: the endpoint loop never meets a missing Service or Pod, and the
   objects fit together. The Service selects the Pod and each of its ports leads to one the Pod
   opens; the Ingress leads to the Service, at the port of the first exposed one; and the
   endpoints show its host at exactly the exposed ports.
   */
  method Route(hash: Hash, inst: string, cluster: string, ports: seq<Port>, space: string)
    returns (pod: PodObject, svc: ServiceObject?, ing: IngressObject?, endpoints: seq<Endpoint>)
    ensures fresh(pod) && pod.space == space
    ensures svc == null <==> ports == []
    ensures ing != null <==> exists j :: 0 <= j < |ports| && ports[j].expose
    ensures forall spec: InstanceSpec :: spec.ports == ports ==>
      (svc != null <==> P.CallsFor(spec, Service)) && (ing != null <==> P.CallsFor(spec, Ingress))
    ensures svc != null ==> fresh(svc) && svc.selector == pod.app && Forwards(svc.ports, pod.ports)
    ensures ing != null ==>
      fresh(ing) && svc != null && LeadsToFirst(ports, ing.backends, svc.name, svc.ports, pod.ports)
    ensures ing != null ==> ing.ruleHosts == [ing.tlsHost]
    ensures pod.name == ChildName(hash, Pod, inst) && (svc != null ==> svc.name == ChildName(hash, Service, inst))
    ensures ing != null ==> ing.name == ChildName(hash, Ingress, inst)
    ensures ing != null && |inst| + |cluster| <= 62 ==>
      ing.tlsHost == ToLower(inst) + "-" + ToLower(cluster) + ".lab.toiyeuptit.com"
    ensures endpoints == RoutedEndpoints(hash, inst, cluster, ports, space)
    ensures svc != null ==> PortsLine(hash, ports, svc.ports, pod.ports)
    ensures |endpoints| == |ports|
    ensures ports != [] ==>
      svc != null && EndpointsTell(endpoints, ports, svc.name, space, if ing != null then ing.tlsHost else "")
  {
    hide ContainerPorts, ServicePorts, PortsLine, Forwards, LeadsToFirst, IngressHost, ChildName;
    pod := ReconcilePod(hash, inst, ports, space);
    svc := ReconcileServices(hash, inst, ports);
    ing := ReconcileIngress(hash, inst, cluster, ports, svc);
    endpoints := UpdateEndpoints(ports, pod, svc, ing);
    ListsFit(hash, inst, ports);
    RoutingChain(hash, inst, cluster, ports, space);
    PortsLined(hash, ports);
    ShortNames(hash, inst, cluster);
  }

  /**
   Port by port: the address inside the cluster, by Service, namespace and port; and for exactly the
   exposed ports the one URL of the Ingress.
   */
  ghost predicate EndpointsTell(endpoints: seq<Endpoint>, ports: seq<Port>, service: string, space: string, host: string)
  {
    && |endpoints| == |ports|
    && forall j :: 0 <= j < |ports| ==>
         && endpoints[j].name == ports[j].name
         && endpoints[j].internal ==
            "http://" + service + "." + space + ".svc.cluster.local:" + PodBuild.Decimal(ports[j].port)
         && if ports[j].expose then endpoints[j].protocol == "HTTPS" && endpoints[j].url == Some("https://" + host)
            else endpoints[j].protocol == "TCP" && endpoints[j].url == None
  }

  /** Port by port: the Service listens on the port and leads to the target port, which the Pod opens. */
  ghost predicate PortsLine(hash: Hash, ports: seq<Port>, service: seq<ServicePort>, pod: seq<ContainerPort>)
  {
    && |service| == |pod| == |ports|
    && forall j :: 0 <= j < |ports| ==>
         && service[j].port == ports[j].port && service[j].targetPort == ports[j].targetPort
         && pod[j].port == ports[j].targetPort && service[j].name == pod[j].name
         && (|ports[j].name| <= 15 ==> service[j].name == ports[j].name) && |service[j].name| <= 15
  }

  /** Every port of the Service leads to one that the Pod opens, under the same name. */
  ghost predicate Forwards(service: seq<ServicePort>, pod: seq<ContainerPort>)
  {
    forall p :: p in service ==> ContainerPort(p.name, p.targetPort) in pod
  }

  /** One backend: the Service, at a port of its own that leads to the first exposed port's target. */
  ghost predicate LeadsToFirst(ports: seq<Port>, backends: seq<Backend>, name: string,
                               service: seq<ServicePort>, pod: seq<ContainerPort>)
  {
    exists j :: 0 <= j < |ports| && ports[j].expose && (forall l :: 0 <= l < j ==> !ports[l].expose)
                && backends == [Backend(name, ports[j].port)]
                && j < |service| && service[j].port == ports[j].port
                && service[j].targetPort == ports[j].targetPort
                && ContainerPort(service[j].name, ports[j].targetPort) in pod
  }

  function RoutedEndpoints(hash: Hash, inst: string, cluster: string, ports: seq<Port>, space: string): seq<Endpoint>
  {
    Endpoints(ports, ChildName(hash, Service, inst), space,
              if I.AnyExposed(ports) then Some(IngressHost(hash, inst, cluster, "")) else None)
  }

  // ----- the chain ---------------------------------------------------------------------------------

  lemma PortsLined(hash: Hash, ports: seq<Port>)
    ensures PortsLine(hash, ports, ServicePorts(hash, ports), ContainerPorts(hash, ports))
  {
    hide SanitizeName;
    forall j | 0 <= j < |ports|
      ensures var name := SanitizeName(hash, ports[j].name, 15);
              |name| <= 15 && (|ports[j].name| <= 15 ==> name == ports[j].name)
    {
      PortNameFits(hash, ports[j].name);
    }
  }

  lemma PortNameFits(hash: Hash, name: string)
    ensures var r := SanitizeName(hash, name, 15); |r| <= 15 && (|name| <= 15 ==> r == name)
  {
  }

  /** The addresses are those of the Service; every exposed port has the URL of the Ingress. */
  lemma RoutingChain(hash: Hash, inst: string, cluster: string, ports: seq<Port>, space: string)
    ensures var host := if I.AnyExposed(ports) then IngressHost(hash, inst, cluster, "") else "";
            EndpointsTell(RoutedEndpoints(hash, inst, cluster, ports, space), ports, ChildName(hash, Service, inst),
                          space, host)
  {
    hide IngressHost, ChildName, PodBuild.Decimal;
    forall j | 0 <= j < |ports| && ports[j].expose ensures I.AnyExposed(ports) {
    }
  }

  /** What the loops build fits together: Service and Pod, and the backend of the Ingress. */
  lemma ListsFit(hash: Hash, inst: string, ports: seq<Port>)
    ensures Forwards(ServicePorts(hash, ports), ContainerPorts(hash, ports))
    ensures I.AnyExposed(ports) ==>
              var name := ChildName(hash, Service, inst);
              LeadsToFirst(ports, [Backend(name, Exposed(ports)[0].port)], name,
                           ServicePorts(hash, ports), ContainerPorts(hash, ports))
  {
    hide ChildName, SanitizeName;
    forall j | 0 <= j < |ports|
      ensures var p := ServicePorts(hash, ports)[j];
              ContainerPort(p.name, p.targetPort) in ContainerPorts(hash, ports)
    {
      assert ContainerPorts(hash, ports)[j].port == ports[j].targetPort;
    }
    if I.AnyExposed(ports) {
      var j := FirstExposed(ports);
      assert ServicePorts(hash, ports)[j].port == ports[j].port;
    }
  }

  lemma {:induction false} FirstExposed(ports: seq<Port>) returns (j: nat)
    requires I.AnyExposed(ports)
    ensures j < |ports| && ports[j].expose && Exposed(ports)[0] == ports[j]
    ensures forall l :: 0 <= l < j ==> !ports[l].expose
  {
    if ports[0].expose {
      j := 0;
    } else {
      var rest := ports[1..];
      TailExposed(ports);
      assert Exposed(ports) == Exposed(rest);
      hide Exposed, I.AnyExposed;
      var i := FirstExposed(rest);
      j := i + 1;
      assert ports[j] == rest[i];
      forall l | 0 <= l < j ensures !ports[l].expose {
        if l > 0 { assert ports[l] == rest[l - 1]; }
      }
    }
  }

  lemma TailExposed(ports: seq<Port>)
    requires I.AnyExposed(ports) && !ports[0].expose
    ensures I.AnyExposed(ports[1..])
  {
    var l :| 0 <= l < |ports| && ports[l].expose;
    assert ports[1..][l - 1].expose;
  }

  /**
   The Service of one instance selects the Pod of another exactly when both names are over 56
   characters long and their Pod names agree in what is kept and in the hash.
   */
  lemma SelectsOwnPod(hash: Hash, a: string, b: string)
    requires a != b
    ensures ChildName(hash, Pod, a) == ChildName(hash, Pod, b) <==>
            && |a| > 56 && |b| > 56
            && Kept(a + "-sysbox", 63) == Kept(b + "-sysbox", 63) && hash(a + "-sysbox") == hash(b + "-sysbox")
  {
    ChildCollides(hash, Pod, a, b);
  }
}
