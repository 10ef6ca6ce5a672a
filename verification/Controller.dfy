/** One turn of each consumer (`proxy/controller/controller.go`): pop, sample the list flag, hand the event
  to the proxier.  How the turns of the two consumers interleave is the subject of `Pipeline`. */
module Controller {
  import opened EventQueue
  import opened RouteTable
  import P = Proxier

  class ProxyController {
    const proxier: P.Proxier
    const services: EventQueue<Service>
    const endpoints: EventQueue<Endpoints>
    var serviceListConsumed: bool
    var endpointsListConsumed: bool

    constructor (proxier: P.Proxier, services: EventQueue<Service>, endpoints: EventQueue<Endpoints>)
      ensures this.proxier == proxier && this.services == services && this.endpoints == endpoints
      ensures !serviceListConsumed && !endpointsListConsumed
    {
      this.proxier, this.services, this.endpoints := proxier, services, endpoints;
      serviceListConsumed, endpointsListConsumed := false, false;
    }

    method UpdateLastSyncProcessed()
      modifies proxier`skipCommit
      ensures proxier.skipCommit == !(endpointsListConsumed && serviceListConsumed)
    {
      var lastSyncProcessed := endpointsListConsumed && serviceListConsumed;
      if proxier.skipCommit != !lastSyncProcessed {
        proxier.skipCommit := !lastSyncProcessed;
      }
    }

    /** `HandleService`: the event at the head of the queue, or the panic of a queue that lost its state. */
    method HandleService()
      requires CanPop(services.Value()) && TableInv(proxier.table) && ValidService(Popped(services.Value()).obj)
      modifies this, services, proxier
      ensures services.Value() == AfterPop(old(services.Value()))
      ensures serviceListConsumed == (services.Value().lastReplaceKey == "")
      ensures endpointsListConsumed == old(endpointsListConsumed)
      ensures proxier.skipCommit == !(endpointsListConsumed && serviceListConsumed)
      ensures var d := Popped(old(services.Value()));
              && proxier.table == ServiceEvent(old(proxier.table), d.event, d.obj)
              && proxier.haproxyRequested == (old(proxier.haproxyRequested)
                   || (proxier.master && serviceListConsumed && endpointsListConsumed
                       && (d.event == Deleted || IPSet(d.obj))))
              && proxier.vips == VipsAfter(old(proxier.vips), d.event, d.obj)
              && proxier.keepalivedRequested == (old(proxier.keepalivedRequested)
                   || (proxier.master && serviceListConsumed && endpointsListConsumed
                       && ChangesVips(old(proxier.vips), d.event, d.obj)))
    {
      var d := services.Pop();
      serviceListConsumed := services.ListConsumed();
      UpdateLastSyncProcessed();
      proxier.HandleService(d.event, d.obj);
    }

    method HandleEndpoints()
      requires CanPop(endpoints.Value()) && TableInv(proxier.table) && ValidEndpoints(Popped(endpoints.Value()).obj)
      modifies this, endpoints, proxier
      ensures endpoints.Value() == AfterPop(old(endpoints.Value()))
      ensures endpointsListConsumed == (endpoints.Value().lastReplaceKey == "")
      ensures serviceListConsumed == old(serviceListConsumed)
      ensures proxier.skipCommit == !(endpointsListConsumed && serviceListConsumed)
      ensures var d := Popped(old(endpoints.Value()));
              && proxier.table == EndpointsEvent(old(proxier.table), d.event, d.obj)
              && proxier.haproxyRequested == (old(proxier.haproxyRequested)
                   || (proxier.master && serviceListConsumed && endpointsListConsumed
                       && (d.event != Added || d.obj.subsets != [])))
              && proxier.vips == old(proxier.vips)
              && proxier.keepalivedRequested == old(proxier.keepalivedRequested)
    {
      var d := endpoints.Pop();
      endpointsListConsumed := endpoints.ListConsumed();
      UpdateLastSyncProcessed();
      proxier.HandleEndpoints(d.event, d.obj);
    }
  }
}
