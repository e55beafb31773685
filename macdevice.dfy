/** Opening a device in the macOS backend: the bounded retry when IOKit
    reports a resource shortage, the search by location ID, the
    population of interfaces and of the endpoint-address map, and the
    termination flag raised when the device is dropped. IOKit's answers are
    inputs. */
module MacDevice {

  import opened Wrappers
  import opened Numeric
  import opened Errors
  import opened UsbDevice
  import opened MacEndpoint
  import opened MacIoKit
  import opened MacEnumeration

  /** What the backend keeps about one endpoint, keyed by its address. */
  datatype EndpointInformation = EndpointInformation(interfaceNumber: U8, pipeRef: U8)

  /** The endpoint address IOKit's direction and number describe: direction
      0 is OUT, anything else IN. */
  function EndpointAddress(props: EndpointProperties): (address: bv8)
    ensures EndpointAddressIsIn(address) <==> (props.direction != 0 || props.number >= 0x80)
    ensures NumberForEndpointAddress(address) == props.number & 0x7F
  {
    if props.direction == 0 then AddressForOutEndpoint(props.number)
    else AddressForInEndpoint(props.number)
  }

  /** The outcome of populating endpoint metadata for one interface: the
      result, the map afterwards, and whether the interface is left open. */
  datatype MetadataOutcome = MetadataOutcome(result: Result<()>, metadata: map<int, EndpointInformation>, leftOpen: bool)

  /** The `for pipe_ref in pipeRef..=count` loop, from pipe ref `pipeRef` on.
      An interface is opened only to read one endpoint's properties and
      closed straight after; when reading them fails, it stays open. */
  function MetadataFrom(a: InterfaceAnswers, meta: map<int, EndpointInformation>,
                        pipeRef: nat, count: nat, open: bool): (o: MetadataOutcome)
    requires 1 <= pipeRef && count < 0x100
    ensures meta.Keys <= o.metadata.Keys
    ensures o.leftOpen && !open ==>
              o.result.Err? &&
              exists q: U8 :: pipeRef <= q as int <= count && a.endpointProperties(q) == Err(o.result.error)
    decreases count + 1 - pipeRef
  {
    if pipeRef > count then MetadataOutcome(Ok(()), meta, open)
    else if a.openAnswer(pipeRef as U8).Err? then
      MetadataOutcome(Err(a.openAnswer(pipeRef as U8).error), meta, open)
    else
      match a.endpointProperties(pipeRef as U8)
      case Err(e) => MetadataOutcome(Err(e), meta, true)
      case Ok(props) =>
        match a.interfaceNumber
        case Err(e) => MetadataOutcome(Err(e), meta, false)
        case Ok(number) =>
          MetadataFrom(a, meta[EndpointAddress(props) as int := EndpointInformation(number, pipeRef as U8)],
                       pipeRef + 1, count, false)
  }

  /** `populate_endpoint_metadata`, as a function of the interface's answers.
      Entries are only added or overwritten, and a closed interface is left
      open only by a failed endpoint-property read. */
  function MetadataSpec(a: InterfaceAnswers, meta: map<int, EndpointInformation>, open: bool): (o: MetadataOutcome)
    ensures meta.Keys <= o.metadata.Keys
    ensures o.leftOpen && !open ==>
              o.result.Err? && a.endpointCount.Ok? &&
              exists q: U8 :: 1 <= q <= a.endpointCount.value && a.endpointProperties(q) == Err(o.result.error)
  {
    match a.endpointCount
    case Err(e) => MetadataOutcome(Err(e), meta, open)
    case Ok(count) => MetadataFrom(a, meta, 1, count as nat, open)
  }

  /** Every entry the loop adds belongs to the interface, has a one-based
      pipe ref in range, and is keyed by the address of that pipe's endpoint;
      every other entry is as it was. */
  lemma {:induction false} MetadataEntriesFrom(a: InterfaceAnswers, meta: map<int, EndpointInformation>,
                                              pipeRef: nat, count: nat, open: bool)
    requires 1 <= pipeRef && count < 0x100
    ensures var o := MetadataFrom(a, meta, pipeRef, count, open);
            meta.Keys <= o.metadata.Keys &&
            forall k :: k in o.metadata ==>
              (k in meta && o.metadata[k] == meta[k]) ||
              (a.interfaceNumber.Ok? && o.metadata[k].interfaceNumber == a.interfaceNumber.value &&
               pipeRef <= o.metadata[k].pipeRef as int <= count &&
               a.endpointProperties(o.metadata[k].pipeRef).Ok? &&
               k == EndpointAddress(a.endpointProperties(o.metadata[k].pipeRef).value) as int)
    decreases count + 1 - pipeRef
  {
    if pipeRef <= count && a.openAnswer(pipeRef as U8).Ok? && a.endpointProperties(pipeRef as U8).Ok? && a.interfaceNumber.Ok? {
      var props := a.endpointProperties(pipeRef as U8).value;
      var info := EndpointInformation(a.interfaceNumber.value, pipeRef as U8);
      var meta' := meta[EndpointAddress(props) as int := info];
      MetadataEntriesFrom(a, meta', pipeRef + 1, count, false);
      var o := MetadataFrom(a, meta, pipeRef, count, open);
      assert o == MetadataFrom(a, meta', pipeRef + 1, count, false);
      forall k | k in o.metadata
        ensures (k in meta && o.metadata[k] == meta[k]) ||
                (o.metadata[k].interfaceNumber == a.interfaceNumber.value &&
                 pipeRef <= o.metadata[k].pipeRef as int <= count &&
                 a.endpointProperties(o.metadata[k].pipeRef).Ok? &&
                 k == EndpointAddress(a.endpointProperties(o.metadata[k].pipeRef).value) as int)
      {
        if k == EndpointAddress(props) as int && k in meta' && o.metadata[k] == meta'[k] {
          assert o.metadata[k] == info && info.pipeRef as int == pipeRef;
        }
      }
    }
  }

  /** When the loop succeeds, every pipe ref in range has its endpoint's
      address in the map, recorded by that pipe or a later one with the same
      address, and the interface is closed unless no pipe was visited. */
  lemma {:induction false} MetadataCompleteFrom(a: InterfaceAnswers, meta: map<int, EndpointInformation>,
                                               pipeRef: nat, count: nat, open: bool)
    requires 1 <= pipeRef && count < 0x100
    ensures var o := MetadataFrom(a, meta, pipeRef, count, open);
            o.result.Ok? ==>
              o.leftOpen == (open && pipeRef > count) &&
              forall q :: pipeRef <= q <= count ==> PipeRecorded(a, o.metadata, q)
    decreases count + 1 - pipeRef
  {
    if pipeRef <= count && a.openAnswer(pipeRef as U8).Ok? && a.endpointProperties(pipeRef as U8).Ok? && a.interfaceNumber.Ok? {
      var props := a.endpointProperties(pipeRef as U8).value;
      var info := EndpointInformation(a.interfaceNumber.value, pipeRef as U8);
      var meta' := meta[EndpointAddress(props) as int := info];
      MetadataCompleteFrom(a, meta', pipeRef + 1, count, false);
      MetadataEntriesFrom(a, meta', pipeRef + 1, count, false);
      var o := MetadataFrom(a, meta, pipeRef, count, open);
      assert o == MetadataFrom(a, meta', pipeRef + 1, count, false);
      if o.result.Ok? {
        var k := EndpointAddress(props) as int;
        assert k in o.metadata;
        assert meta'[k] == info && info.pipeRef as int == pipeRef;
        assert o.metadata[k].pipeRef as int >= pipeRef;
        assert PipeRecorded(a, o.metadata, pipeRef);
      }
    }
  }

  /** Pipe ref `q` reads its properties and its endpoint's address is a key
      of `m`, recorded by `q` or a later pipe. */
  predicate PipeRecorded(a: InterfaceAnswers, m: map<int, EndpointInformation>, q: nat)
    requires q < 0x100
  {
    a.endpointProperties(q as U8).Ok? &&
    EndpointAddress(a.endpointProperties(q as U8).value) as int in m &&
    m[EndpointAddress(a.endpointProperties(q as U8).value) as int].pipeRef as int >= q
  }

  /** The same two facts for the whole population of one interface: no
      entry has pipe ref 0, and on success the interface is closed again. */
  lemma MetadataSpecEntries(a: InterfaceAnswers, meta: map<int, EndpointInformation>, open: bool)
    ensures var o := MetadataSpec(a, meta, open);
            forall k :: k in o.metadata ==>
              (k in meta && o.metadata[k] == meta[k]) ||
              (o.metadata[k].pipeRef != 0 && a.interfaceNumber.Ok? &&
               o.metadata[k].interfaceNumber == a.interfaceNumber.value)
    ensures var o := MetadataSpec(a, meta, open);
            o.result.Ok? ==> a.endpointCount.Ok? && o.leftOpen == (open && a.endpointCount.value == 0)
  {
    if a.endpointCount.Ok? {
      MetadataEntriesFrom(a, meta, 1, a.endpointCount.value as nat, open);
      MetadataCompleteFrom(a, meta, 1, a.endpointCount.value as nat, open);
    }
  }

  /** The `?` on reading an endpoint's properties returns before the
      interface is closed again, so a failed read leaves it open. */
  lemma PropertyErrorLeavesInterfaceOpen(a: InterfaceAnswers, meta: map<int, EndpointInformation>, open: bool)
    requires a.endpointCount.Ok? && a.endpointCount.value >= 1
    requires a.openAnswer(1).Ok? && a.endpointProperties(1).Err?
    ensures MetadataSpec(a, meta, open) == MetadataOutcome(Err(a.endpointProperties(1).error), meta, true)
  {
  }

  /** Each pipe's open gets its own answer: when the open for pipe 2 fails,
      pipe 1's entry stays in the map, the interface is closed, and the
      error is the failed open's. */
  lemma LaterOpenFailureKeepsEarlierEntries(a: InterfaceAnswers, meta: map<int, EndpointInformation>, open: bool)
    requires a.endpointCount.Ok? && a.endpointCount.value >= 2
    requires a.openAnswer(1).Ok? && a.endpointProperties(1).Ok? && a.interfaceNumber.Ok?
    requires a.openAnswer(2).Err?
    ensures var o := MetadataSpec(a, meta, open);
            var address := EndpointAddress(a.endpointProperties(1).value) as int;
            o.result == a.openAnswer(2) && !o.leftOpen &&
            address in o.metadata && o.metadata[address] == EndpointInformation(a.interfaceNumber.value, 1)
  {
    var count := a.endpointCount.value as nat;
    var address := EndpointAddress(a.endpointProperties(1).value) as int;
    var meta' := meta[address := EndpointInformation(a.interfaceNumber.value, 1)];
    assert MetadataSpec(a, meta, open) == MetadataFrom(a, meta, 1, count, open);
    assert MetadataFrom(a, meta, 1, count, open) == MetadataFrom(a, meta', 2, count, false);
    assert MetadataFrom(a, meta', 2, count, false) == MetadataOutcome(a.openAnswer(2), meta', false);
  }

  /** A stored interface: the answers it gives and whether it is open. */
  datatype InterfaceState = InterfaceState(answers: InterfaceAnswers, isOpen: bool)

  /** The outcome of populating the interfaces: the result, the endpoint
      map, the interfaces by number, and the notification sources. */
  datatype PopulationOutcome = PopulationOutcome(
    result: Result<()>,
    metadata: map<int, EndpointInformation>,
    interfaces: map<int, InterfaceState>,
    sources: seq<NotificationSource>)

  /** The interface the backend keeps for the service at `index`: the one
      IOKit created, or a denying placeholder when creation was refused. */
  function InterfaceAt(created: Result<InterfaceAnswers>, index: U8): InterfaceAnswers
    requires created.Ok? || created.error == PermissionDenied
  {
    if created.Ok? then created.value else DenyingPlaceholder(index)
  }

  /** An interface service that does not stop population. */
  predicate Admitted(services: seq<Result<InterfaceAnswers>>, i: nat)
    requires i < |services| && |services| <= 0xFF
  {
    (services[i].Ok? || services[i].error == PermissionDenied) &&
    InterfaceAt(services[i], i as U8).notificationSource.Ok? &&
    InterfaceAt(services[i], i as U8).interfaceNumber.Ok?
  }

  /** The error with which a service that is not admitted stops population. */
  function AdmissionError(services: seq<Result<InterfaceAnswers>>, i: nat): Error
    requires i < |services| && |services| <= 0xFF && !Admitted(services, i)
  {
    if services[i].Err? && services[i].error != PermissionDenied then services[i].error
    else if InterfaceAt(services[i], i as U8).notificationSource.Err? then
      InterfaceAt(services[i], i as U8).notificationSource.error
    else InterfaceAt(services[i], i as U8).interfaceNumber.error
  }

  /** The `while` loop of `populate_interfaces`, from service `index` on. */
  function PopulationFrom(services: seq<Result<InterfaceAnswers>>, index: nat,
                          meta: map<int, EndpointInformation>, interfaces: map<int, InterfaceState>,
                          sources: seq<NotificationSource>): (o: PopulationOutcome)
    requires |services| <= 0xFF
    ensures interfaces.Keys <= o.interfaces.Keys && meta.Keys <= o.metadata.Keys
    ensures |sources| <= |o.sources| && o.sources[..|sources|] == sources
    decreases |services| - index
  {
    if index >= |services| then PopulationOutcome(Ok(()), meta, interfaces, sources)
    else
      var created := services[index];
      if created.Err? && created.error != PermissionDenied then
        PopulationOutcome(Err(created.error), meta, interfaces, sources)
      else
        var a := InterfaceAt(created, index as U8);
        if a.notificationSource.Err? then
          PopulationOutcome(Err(a.notificationSource.error), meta, interfaces, sources)
        else
          var sources' := sources + [InterfaceNotifications(index as U8)];
          var populated := MetadataSpec(a, meta, false);
          if a.interfaceNumber.Err? then
            PopulationOutcome(Err(a.interfaceNumber.error), populated.metadata, interfaces, sources')
          else
            var o := PopulationFrom(services, index + 1, populated.metadata,
                                    interfaces[a.interfaceNumber.value as int := InterfaceState(a, populated.leftOpen)],
                                    sources');
            assert o.sources[..|sources|] == o.sources[..|sources'|][..|sources|];
            o
  }

  /** Population succeeds exactly when every service is admitted, so errors
      from endpoint population never stop it; otherwise it stops with the
      first refusal's error. On success each service adds one notification
      source and every interface's number is a key of the interface map. */
  lemma {:induction false} PopulationResult(services: seq<Result<InterfaceAnswers>>, index: nat,
                                           meta: map<int, EndpointInformation>,
                                           interfaces: map<int, InterfaceState>,
                                           sources: seq<NotificationSource>)
    requires |services| <= 0xFF && index <= |services|
    ensures var o := PopulationFrom(services, index, meta, interfaces, sources);
            (o.result.Ok? <==> forall i :: index <= i < |services| ==> Admitted(services, i)) &&
            (o.result.Ok? ==>
               |o.sources| == |sources| + |services| - index && o.sources[..|sources|] == sources &&
               interfaces.Keys <= o.interfaces.Keys &&
               forall i :: index <= i < |services| && Admitted(services, i) ==>
                 InterfaceAt(services[i], i as U8).interfaceNumber.value as int in o.interfaces) &&
            (o.result.Err? ==>
               exists i :: index <= i < |services| && !Admitted(services, i) &&
                           o.result.error == AdmissionError(services, i) &&
                           forall j :: index <= j < i ==> Admitted(services, j))
    decreases |services| - index
  {
    if index < |services| && Admitted(services, index) {
      var a := InterfaceAt(services[index], index as U8);
      var sources' := sources + [InterfaceNotifications(index as U8)];
      var meta' := MetadataSpec(a, meta, false).metadata;
      var interfaces' := interfaces[a.interfaceNumber.value as int := InterfaceState(a, MetadataSpec(a, meta, false).leftOpen)];
      PopulationResult(services, index + 1, meta', interfaces', sources');
      var o := PopulationFrom(services, index, meta, interfaces, sources);
      assert o == PopulationFrom(services, index + 1, meta', interfaces', sources');
      if o.result.Ok? {
        assert o.sources[..|sources|] == o.sources[..|sources'|][..|sources|];
      } else {
        var i :| index + 1 <= i < |services| && !Admitted(services, i) &&
                 o.result.error == AdmissionError(services, i) &&
                 forall j :: index + 1 <= j < i ==> Admitted(services, j);
        assert forall j :: index <= j < i ==> Admitted(services, j);
      }
    }
  }

  /** A permission-denied service is kept as a placeholder under its index,
      unless a later interface claims the same number. */
  lemma {:induction false} DeniedInterfaceKept(services: seq<Result<InterfaceAnswers>>, index: nat,
                                              meta: map<int, EndpointInformation>,
                                              interfaces: map<int, InterfaceState>,
                                              sources: seq<NotificationSource>, i: nat)
    requires |services| <= 0xFF && index <= i < |services|
    requires services[i] == Err(PermissionDenied)
    requires forall j :: i < j < |services| && Admitted(services, j) ==>
               InterfaceAt(services[j], j as U8).interfaceNumber.value as int != i
    requires PopulationFrom(services, index, meta, interfaces, sources).result.Ok?
    ensures var o := PopulationFrom(services, index, meta, interfaces, sources);
            i in o.interfaces && o.interfaces[i] == InterfaceState(DenyingPlaceholder(i as U8), false)
    decreases |services| - index
  {
    PopulationResult(services, index, meta, interfaces, sources);
    assert Admitted(services, index);
    var a := InterfaceAt(services[index], index as U8);
    var sources' := sources + [InterfaceNotifications(index as U8)];
    var meta' := MetadataSpec(a, meta, false).metadata;
    var interfaces' := interfaces[a.interfaceNumber.value as int := InterfaceState(a, MetadataSpec(a, meta, false).leftOpen)];
    assert PopulationFrom(services, index, meta, interfaces, sources)
        == PopulationFrom(services, index + 1, meta', interfaces', sources');
    if index < i {
      DeniedInterfaceKept(services, index + 1, meta', interfaces', sources', i);
    } else {
      assert a == DenyingPlaceholder(i as U8);
      assert interfaces'[i] == InterfaceState(DenyingPlaceholder(i as U8), false);
      PlaceholderSurvives(services, index + 1, meta', interfaces', sources', i);
    }
  }

  /** Whether reading some endpoint's properties fails on this interface. */
  predicate FailedPropertyRead(a: InterfaceAnswers)
  {
    a.endpointCount.Ok? &&
    exists q: U8 :: 1 <= q <= a.endpointCount.value && a.endpointProperties(q).Err?
  }

  /** An interface the loop stores is left open only when reading one of its
      endpoints' properties failed; entries the loop does not store are as
      they were. */
  lemma {:induction false} StoredInterfaceOpenOnlyAfterFailedRead(services: seq<Result<InterfaceAnswers>>, index: nat,
                                                                 meta: map<int, EndpointInformation>,
                                                                 interfaces: map<int, InterfaceState>,
                                                                 sources: seq<NotificationSource>)
    requires |services| <= 0xFF
    ensures var o := PopulationFrom(services, index, meta, interfaces, sources);
            forall k :: k in o.interfaces && o.interfaces[k].isOpen ==>
              (k in interfaces && o.interfaces[k] == interfaces[k]) ||
              FailedPropertyRead(o.interfaces[k].answers)
    decreases |services| - index
  {
    if index < |services| && Admitted(services, index) {
      var a := InterfaceAt(services[index], index as U8);
      var sources' := sources + [InterfaceNotifications(index as U8)];
      var populated := MetadataSpec(a, meta, false);
      var interfaces' := interfaces[a.interfaceNumber.value as int := InterfaceState(a, populated.leftOpen)];
      assert PopulationFrom(services, index, meta, interfaces, sources)
          == PopulationFrom(services, index + 1, populated.metadata, interfaces', sources');
      StoredInterfaceOpenOnlyAfterFailedRead(services, index + 1, populated.metadata, interfaces', sources');
      if populated.leftOpen {
        var q: U8 :| 1 <= q <= a.endpointCount.value && a.endpointProperties(q) == Err(populated.result.error);
        assert FailedPropertyRead(a);
      }
    }
  }

  /** An interface-map entry survives the rest of the loop when no later
      interface has its number. */
  lemma {:induction false} PlaceholderSurvives(services: seq<Result<InterfaceAnswers>>, index: nat,
                                              meta: map<int, EndpointInformation>,
                                              interfaces: map<int, InterfaceState>,
                                              sources: seq<NotificationSource>, key: int)
    requires |services| <= 0xFF && index <= |services|
    requires key in interfaces
    requires forall j :: index <= j < |services| && Admitted(services, j) ==>
               InterfaceAt(services[j], j as U8).interfaceNumber.value as int != key
    ensures var o := PopulationFrom(services, index, meta, interfaces, sources);
            key in o.interfaces && o.interfaces[key] == interfaces[key]
    decreases |services| - index
  {
    if index < |services| && Admitted(services, index) {
      var a := InterfaceAt(services[index], index as U8);
      var sources' := sources + [InterfaceNotifications(index as U8)];
      var meta' := MetadataSpec(a, meta, false).metadata;
      var interfaces' := interfaces[a.interfaceNumber.value as int := InterfaceState(a, MetadataSpec(a, meta, false).leftOpen)];
      assert PopulationFrom(services, index, meta, interfaces, sources)
          == PopulationFrom(services, index + 1, meta', interfaces', sources');
      assert a.interfaceNumber.value as int != key;
      PlaceholderSurvives(services, index + 1, meta', interfaces', sources', key);
    }
  }

  /** The shared flag that tells a device's event-loop thread to stop. */
  class TerminationFlag {
    var value: bool

    constructor ()
      ensures !value
    {
      value := false;
    }
  }

  /** `MacOsDevice`: the per-device state of the macOS backend. */
  class MacOsDevice {
    const device: OsDevice
    var interfaces: map<int, OsInterface>
    var endpointMetadata: map<int, EndpointInformation>
    const terminationFlag: TerminationFlag

    /** The interfaces by number, as the answers each one gives and whether
        it is open. */
    ghost function InterfaceView(): map<int, InterfaceState>
      reads this, interfaces.Values
    {
      map k | k in interfaces.Keys :: var iface: OsInterface := interfaces[k]; InterfaceState(iface.answers, iface.isOpen)
    }

    /** A new device: no interfaces, no endpoint metadata, flag lowered. */
    constructor (device: OsDevice)
      ensures this.device == device
      ensures interfaces == map[] && endpointMetadata == map[]
      ensures fresh(terminationFlag) && !terminationFlag.value
    {
      this.device := device;
      interfaces := map[];
      endpointMetadata := map[];
      terminationFlag := new TerminationFlag();
    }

    /** `populate_endpoint_metadata`. */
    method PopulateEndpointMetadata(iface: OsInterface) returns (r: Result<()>)
      modifies this`endpointMetadata, iface
      ensures var o := MetadataSpec(iface.answers, old(endpointMetadata), old(iface.isOpen));
              r == o.result && endpointMetadata == o.metadata && iface.isOpen == o.leftOpen
    {
      var pipeRefCount :- iface.answers.endpointCount;
      var pipeRef: nat := 1;
      while pipeRef <= pipeRefCount as nat
        invariant 1 <= pipeRef <= pipeRefCount as nat + 1
        invariant MetadataFrom(iface.answers, endpointMetadata, pipeRef, pipeRefCount as nat, iface.isOpen)
               == MetadataSpec(iface.answers, old(endpointMetadata), old(iface.isOpen))
        decreases pipeRefCount as nat + 1 - pipeRef
      {
        // The interface is opened only for as long as reading the endpoint's properties takes.
        var _ :- iface.Open(pipeRef as U8);
        var properties :- iface.answers.endpointProperties(pipeRef as U8);
        iface.Close();
        var address := if properties.direction == 0 then AddressForOutEndpoint(properties.number)
                       else AddressForInEndpoint(properties.number);
        var interfaceNumber :- iface.answers.interfaceNumber;
        endpointMetadata := endpointMetadata[address as int := EndpointInformation(interfaceNumber, pipeRef as U8)];
        pipeRef := pipeRef + 1;
      }
      return Ok(());
    }

    /** One pass of `populate_interfaces`' loop: the interface service at
        `index`. An error stops the loop with the state the reference loop
        stops with; otherwise the rest of the reference loop is unchanged. */
    method PopulateInterface(services: seq<Result<InterfaceAnswers>>, index: nat,
                             sources: seq<NotificationSource>)
      returns (r: Result<()>, sources': seq<NotificationSource>)
      requires |services| <= 0xFF && index < |services|
      modifies this`interfaces, this`endpointMetadata
      ensures var step := PopulationFrom(services, index, old(endpointMetadata), old(InterfaceView()), sources);
              if r.Err? then
                r == step.result && endpointMetadata == step.metadata && sources' == step.sources &&
                InterfaceView() == step.interfaces
              else
                PopulationFrom(services, index + 1, endpointMetadata, InterfaceView(), sources') == step
      ensures forall k :: k in interfaces ==>
                (k in old(interfaces) && interfaces[k] == old(interfaces)[k]) || fresh(interfaces[k])
    {
      ghost var view := InterfaceView();
      ghost var step := PopulationFrom(services, index, endpointMetadata, view, sources);
      sources' := sources;
      var created := services[index];
      var iface: OsInterface;
      if created.Err? && created.error == PermissionDenied {
        iface := new OsInterface(DenyingPlaceholder(index as U8));
      } else if created.Err? {
        assert step.result == Err(created.error);
        return Err(created.error), sources';
      } else {
        iface := new OsInterface(created.value);
      }
      assert iface.answers == InterfaceAt(created, index as U8);
      if iface.answers.notificationSource.Err? {
        assert step.result == Err(iface.answers.notificationSource.error);
        return Err(iface.answers.notificationSource.error), sources';
      }
      sources' := sources' + [InterfaceNotifications(index as U8)];
      assert iface !in interfaces.Values;
      var _ := PopulateEndpointMetadata(iface);
      assert InterfaceView() == view;
      if iface.answers.interfaceNumber.Err? {
        assert step == PopulationOutcome(Err(iface.answers.interfaceNumber.error), endpointMetadata, view, sources');
        return Err(iface.answers.interfaceNumber.error), sources';
      }
      interfaces := interfaces[iface.answers.interfaceNumber.value as int := iface];
      assert InterfaceView() == view[iface.answers.interfaceNumber.value as int := InterfaceState(iface.answers, iface.isOpen)];
      return Ok(()), sources';
    }

    /** `populate_interfaces`, given the interface iterator's creation result
        and, for each interface service it yields, the result of creating the
        interface. A service refused with `PermissionDenied` becomes a denying
        placeholder; endpoint-population errors are ignored. */
    method PopulateInterfaces(notificationSources: seq<NotificationSource>,
                              interfaceIterator: Result<seq<Result<InterfaceAnswers>>>)
      returns (r: Result<()>, sources: seq<NotificationSource>)
      requires interfaceIterator.Ok? ==> |interfaceIterator.value| <= 0xFF
      modifies this`interfaces, this`endpointMetadata
      ensures interfaceIterator.Err? ==>
                r == Err(interfaceIterator.error) && sources == notificationSources &&
                interfaces == old(interfaces) && endpointMetadata == old(endpointMetadata)
      ensures interfaceIterator.Ok? ==>
                var o := PopulationFrom(interfaceIterator.value, 0, old(endpointMetadata),
                                        old(InterfaceView()), notificationSources);
                r == o.result && endpointMetadata == o.metadata && sources == o.sources &&
                InterfaceView() == o.interfaces
      ensures forall k :: k in interfaces && k !in old(interfaces) ==> fresh(interfaces[k])
    {
      sources := notificationSources;
      if interfaceIterator.Err? {
        return Err(interfaceIterator.error), sources;
      }
      var services := interfaceIterator.value;
      var interfaceIndex: nat := 0;
      while interfaceIndex < |services|
        invariant interfaceIndex <= |services|
        invariant PopulationFrom(services, interfaceIndex, endpointMetadata, InterfaceView(), sources)
               == PopulationFrom(services, 0, old(endpointMetadata), old(InterfaceView()), notificationSources)
        invariant forall k :: k in interfaces && k !in old(interfaces) ==> fresh(interfaces[k])
      {
        r, sources := PopulateInterface(services, interfaceIndex, sources);
        if r.Err? {
          return r, sources;
        }
        interfaceIndex := interfaceIndex + 1;
      }
      return Ok(()), sources;
    }

    /** `Drop for MacOsDevice`: tells the event-loop thread to stop; then the
        `device` field is dropped, which closes the device if it is open and
        releases it. */
    method Drop()
      modifies terminationFlag, device
      ensures terminationFlag.value
      ensures !device.isOpen
      ensures device.calls == old(device.calls) + (if old(device.isOpen) then [UsbDeviceClose] else []) + [Release]
    {
      terminationFlag.value := true;
      device.Drop();
    }
  }

  /** The answer `IOCreatePlugInInterfaceForService` gives on one attempt. */
  datatype PluginAnswer = PluginAnswer(rc: IoReturn, pluginNonNull: bool)

  /** How many times opening asks IOKit for the device plugin. */
  const MAX_OPEN_ATTEMPTS: nat := 5

  /** Where the retry loop ends: the attempt that succeeded, or the error,
      and how many attempts were made. */
  datatype RetryOutcome = RetryOutcome(result: Result<nat>, attempts: nat)

  /** The retry loop from attempt `attempt` on: a resource shortage is
      retried, any other failure ends the loop with its error, and after
      the last attempt the device counts as not found. */
  function PluginFrom(answerAt: nat -> PluginAnswer, attempt: nat): (o: RetryOutcome)
    requires attempt <= MAX_OPEN_ATTEMPTS
    ensures attempt < o.attempts <= MAX_OPEN_ATTEMPTS || (attempt == o.attempts == MAX_OPEN_ATTEMPTS)
    ensures o.result.Ok? ==> o.result.value == o.attempts - 1
    decreases MAX_OPEN_ATTEMPTS - attempt
  {
    if attempt == MAX_OPEN_ATTEMPTS then RetryOutcome(Err(DeviceNotFound), MAX_OPEN_ATTEMPTS)
    else
      var answer := answerAt(attempt);
      if answer.rc == IO_RETURN_NO_RESOURCES then PluginFrom(answerAt, attempt + 1)
      else if answer.rc != IO_RETURN_SUCCESS then RetryOutcome(Err(OsError(answer.rc as int)), attempt + 1)
      else if !answer.pluginNonNull then RetryOutcome(Err(UnspecifiedOsError), attempt + 1)
      else RetryOutcome(Ok(attempt), attempt + 1)
  }

  /** The whole retry loop, from the first attempt. */
  function PluginOutcome(answerAt: nat -> PluginAnswer): (o: RetryOutcome)
    ensures 1 <= o.attempts <= MAX_OPEN_ATTEMPTS
  {
    PluginFrom(answerAt, 0)
  }

  /** The retry loop of `open_usb_device_from_io_device`, up to the point
      where IOKit has handed over the device plugin. `answerAt(k)` is IOKit's
      answer on attempt `k`; the method returns the attempt that succeeded
      and how many attempts it made. */
  method CreateDevicePlugin(answerAt: nat -> PluginAnswer) returns (r: Result<nat>, attempts: nat)
    ensures RetryOutcome(r, attempts) == PluginOutcome(answerAt)
    ensures 1 <= attempts <= MAX_OPEN_ATTEMPTS
    ensures forall k :: 0 <= k < attempts - 1 ==> answerAt(k).rc == IO_RETURN_NO_RESOURCES
    ensures r == Err(DeviceNotFound) <==>
              forall k :: 0 <= k < MAX_OPEN_ATTEMPTS ==> answerAt(k).rc == IO_RETURN_NO_RESOURCES
    ensures r != Err(DeviceNotFound) ==>
              var last := answerAt(attempts - 1);
              last.rc != IO_RETURN_NO_RESOURCES &&
              r == (if last.rc != IO_RETURN_SUCCESS then Err(OsError(last.rc as int))
                    else if !last.pluginNonNull then Err(UnspecifiedOsError)
                    else Ok(attempts - 1))
  {
    attempts := 0;
    for attempt := 0 to MAX_OPEN_ATTEMPTS
      invariant attempts == attempt
      invariant forall k :: 0 <= k < attempt ==> answerAt(k).rc == IO_RETURN_NO_RESOURCES
      invariant PluginFrom(answerAt, attempt) == PluginOutcome(answerAt)
    {
      var answer := answerAt(attempt);
      attempts := attempt + 1;
      // A resource shortage may be spurious while the OS decides on a driver: retry.
      if answer.rc == IO_RETURN_NO_RESOURCES {
        continue;
      }
      if answer.rc != IO_RETURN_SUCCESS {
        return Err(OsError(answer.rc as int)), attempts;
      }
      if !answer.pluginNonNull {
        return Err(UnspecifiedOsError), attempts;
      }
      return Ok(attempt), attempts;
    }
    return Err(DeviceNotFound), attempts;
  }

  /** IOKit's answers to the calls made while opening one device. */
  datatype OpenAnswers = OpenAnswers(
    plugin: nat -> PluginAnswer,
    deviceOpen: Result<()>,
    deviceNotifications: Result<()>,
    interfaceIterator: Result<seq<Result<InterfaceAnswers>>>)

  /** Whether the answers describe a device whose interface iterator yields
      no more services than a `u8` interface index can count. */
  predicate CountableInterfaces(answers: OpenAnswers)
  {
    answers.interfaceIterator.Ok? ==> |answers.interfaceIterator.value| <= 0xFF
  }

  /** The interfaces that populating a freshly opened device yields. */
  function InitialPopulation(services: seq<Result<InterfaceAnswers>>): PopulationOutcome
    requires |services| <= 0xFF
  {
    PopulationFrom(services, 0, map[], map[], [DeviceNotifications])
  }

  /** Whether every step of opening succeeds: the plugin, the device open,
      the notification subscription, the interface iterator and the
      interface population. */
  predicate OpenSucceeds(answers: OpenAnswers)
    requires CountableInterfaces(answers)
  {
    PluginOutcome(answers.plugin).result.Ok? && answers.deviceOpen.Ok? &&
    answers.deviceNotifications.Ok? && answers.interfaceIterator.Ok? &&
    InitialPopulation(answers.interfaceIterator.value).result.Ok?
  }

  /** `open_usb_device_from_io_device`: obtain the plugin (retrying), then
      build, open, subscribe and populate the backend device. The first
      step that fails decides the error. */
  method OpenUsbDeviceFromIoDevice(answers: OpenAnswers) returns (r: Result<MacOsDevice>)
    requires CountableInterfaces(answers)
    ensures r.Ok? <==> OpenSucceeds(answers)
    ensures var p := PluginOutcome(answers.plugin).result;
            p.Err? ==> r == Err(p.error)
    ensures PluginOutcome(answers.plugin).result.Ok? && answers.deviceOpen.Err? ==>
              r == Err(answers.deviceOpen.error)
    ensures PluginOutcome(answers.plugin).result.Ok? && answers.deviceOpen.Ok? &&
            answers.deviceNotifications.Err? ==>
              r == Err(answers.deviceNotifications.error)
    ensures PluginOutcome(answers.plugin).result.Ok? && answers.deviceOpen.Ok? &&
            answers.deviceNotifications.Ok? && answers.interfaceIterator.Err? ==>
              r == Err(answers.interfaceIterator.error)
    ensures PluginOutcome(answers.plugin).result.Ok? && answers.deviceOpen.Ok? &&
            answers.deviceNotifications.Ok? && answers.interfaceIterator.Ok? &&
            InitialPopulation(answers.interfaceIterator.value).result.Err? ==>
              r == Err(InitialPopulation(answers.interfaceIterator.value).result.error)
    ensures r.Ok? ==>
              fresh(r.value) && fresh(r.value.device) && fresh(r.value.terminationFlag) &&
              r.value.device.isOpen && !r.value.terminationFlag.value
    ensures r.Ok? ==>
              var o := InitialPopulation(answers.interfaceIterator.value);
              r.value.endpointMetadata == o.metadata && r.value.InterfaceView() == o.interfaces
  {
    var plugin, _ := CreateDevicePlugin(answers.plugin);
    if plugin.Err? {
      return Err(plugin.error);
    }
    var osDevice := new OsDevice();
    var backendDevice := new MacOsDevice(osDevice);
    var openResult := backendDevice.device.Open(answers.deviceOpen);
    if openResult.Err? {
      return Err(openResult.error);
    }
    if answers.deviceNotifications.Err? {
      return Err(answers.deviceNotifications.error);
    }
    var notificationSources := [DeviceNotifications];
    var populated, _ := backendDevice.PopulateInterfaces(notificationSources, answers.interfaceIterator);
    if populated.Err? {
      return Err(populated.error);
    }
    return Ok(backendDevice);
  }

  /** Whether an entry's location ID is the target's. */
  predicate LocatedAt(entry: RegistryEntry, target: U64)
  {
    LocationId(entry).Some? && LocationId(entry).value as int == target as int
  }

  /** The search loop of `open_usb_device`: skips entries without a location
      ID and stops at the first whose location ID is the target. */
  method FindByLocation(target: U64, entries: seq<RegistryEntry>) returns (found: Option<nat>)
    ensures found.Some? ==>
              found.value < |entries| && LocatedAt(entries[found.value], target) &&
              forall j :: 0 <= j < found.value ==> !LocatedAt(entries[j], target)
    ensures found.None? ==> forall j :: 0 <= j < |entries| ==> !LocatedAt(entries[j], target)
  {
    var i := 0;
    while i < |entries|
      invariant 0 <= i <= |entries|
      invariant forall j :: 0 <= j < i ==> !LocatedAt(entries[j], target)
    {
      var locationId := LocationId(entries[i]);
      if locationId.None? {
        i := i + 1;
        continue;
      }
      if locationId.value as int != target as int {
        i := i + 1;
        continue;
      }
      return Some(i);
    }
    return None;
  }

  /** Whether the device iterator is created and one of its entries has the
      information's location ID. */
  predicate Located(information: DeviceInformation, iteratorRc: IoReturn, rawIterator: U32,
                    entries: seq<RegistryEntry>)
    requires information.backendNumericLocation.Some?
  {
    GetDeviceIterator(iteratorRc, rawIterator).Ok? &&
    exists j :: 0 <= j < |entries| && LocatedAt(entries[j], information.backendNumericLocation.value)
  }

  /** `open_usb_device`: find the device with the information's location ID
      among the entries a fresh device iterator yields, and open it using
      IOKit's answers for that device. */
  method OpenUsbDevice(information: DeviceInformation, iteratorRc: IoReturn, rawIterator: U32,
                       entries: seq<RegistryEntry>, answers: OpenAnswers)
    returns (r: Result<MacOsDevice>)
    requires information.backendNumericLocation.Some?
    requires CountableInterfaces(answers)
    ensures GetDeviceIterator(iteratorRc, rawIterator).Err? ==>
              r == Err(GetDeviceIterator(iteratorRc, rawIterator).error)
    ensures GetDeviceIterator(iteratorRc, rawIterator).Ok? &&
            (forall j :: 0 <= j < |entries| ==> !LocatedAt(entries[j], information.backendNumericLocation.value)) ==>
              r == Err(DeviceNotFound)
    ensures Located(information, iteratorRc, rawIterator, entries) ==>
              (r.Ok? <==> OpenSucceeds(answers))
    ensures Located(information, iteratorRc, rawIterator, entries) ==>
              var p := PluginOutcome(answers.plugin).result;
              p.Err? ==> r == Err(p.error)
    ensures Located(information, iteratorRc, rawIterator, entries) &&
            PluginOutcome(answers.plugin).result.Ok? && answers.deviceOpen.Err? ==>
              r == Err(answers.deviceOpen.error)
    ensures Located(information, iteratorRc, rawIterator, entries) &&
            PluginOutcome(answers.plugin).result.Ok? && answers.deviceOpen.Ok? &&
            answers.deviceNotifications.Err? ==>
              r == Err(answers.deviceNotifications.error)
    ensures Located(information, iteratorRc, rawIterator, entries) &&
            PluginOutcome(answers.plugin).result.Ok? && answers.deviceOpen.Ok? &&
            answers.deviceNotifications.Ok? && answers.interfaceIterator.Err? ==>
              r == Err(answers.interfaceIterator.error)
    ensures Located(information, iteratorRc, rawIterator, entries) &&
            PluginOutcome(answers.plugin).result.Ok? && answers.deviceOpen.Ok? &&
            answers.deviceNotifications.Ok? && answers.interfaceIterator.Ok? &&
            InitialPopulation(answers.interfaceIterator.value).result.Err? ==>
              r == Err(InitialPopulation(answers.interfaceIterator.value).result.error)
    ensures r.Ok? ==>
              fresh(r.value) && fresh(r.value.device) && fresh(r.value.terminationFlag) &&
              r.value.device.isOpen && !r.value.terminationFlag.value
    ensures r.Ok? ==>
              answers.interfaceIterator.Ok? &&
              var o := InitialPopulation(answers.interfaceIterator.value);
              r.value.endpointMetadata == o.metadata && r.value.InterfaceView() == o.interfaces
  {
    var targetLocationId := information.backendNumericLocation.value;
    var deviceIterator := GetDeviceIterator(iteratorRc, rawIterator);
    if deviceIterator.Err? {
      return Err(deviceIterator.error);
    }
    var found := FindByLocation(targetLocationId, entries);
    if found.None? {
      return Err(DeviceNotFound);
    }
    r := OpenUsbDeviceFromIoDevice(answers);
  }
}
