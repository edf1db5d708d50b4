/** The data of the workspace lifecycle and its validity tests. */
module CloudTypes {
  import opened Common

  const U64_MAX: nat := 0xFFFF_FFFF_FFFF_FFFF

  predicate IdChar(c: char) { 'a' <= c <= 'z' || 'A' <= c <= 'Z' || '0' <= c <= '9' || c == '_' || c == '-' }

  predicate ValidId(s: string) { 0 < |s| <= 128 && forall i :: 0 <= i < |s| ==> IdChar(s[i]) }

  predicate ValidOwnerId(s: string) {
    0 < |s| <= 128 && forall i :: 0 <= i < |s| ==> IdChar(s[i]) || s[i] == ':' || s[i] == '.'
  }

  datatype Key = Key(tenant: string, workspace: string)
  {
    predicate Valid() { ValidOwnerId(tenant) && ValidOwnerId(workspace) }
  }

  datatype Spec = Spec(image: string, region: string, vcpus: nat, memoryMib: nat, diskGib: nat)
  {
    predicate Valid() {
      ValidId(image) && ValidId(region) && 1 <= vcpus <= 1024 && 128 <= memoryMib <= 4_194_304 && 1 <= diskGib <= 65_536
    }
  }

  /** A launch descriptor, opaque but for its own validity and its expiry. */
  datatype Launch = Launch(contents: string, wellFormed: bool, expiresAt: nat)
  {
    predicate Valid() { wellFormed && expiresAt > 0 }
    predicate Expired(now: nat) { Valid() && expiresAt <= now }
    predicate Active(now: nat) { Valid() && expiresAt > now }
  }

  datatype Allocation = Allocation(owner: Key, generation: nat, provider: string, spec: Spec, launch: Option<Launch>)

  datatype Handle = Handle(owner: Key, generation: nat, provider: string, machineId: string)

  datatype FailureCode = Transport | Timeout | Unauthorized | NotFound | Conflicting | Rejected | Unavailable
    | Protocol | Identity
  datatype ProviderError = ProviderError(code: FailureCode, retryable: bool)

  datatype MachineState = Provisioning | Starting | Running | Stopping | Stopped | Failed | Destroyed

  /** Routing metadata; whether its address is canonical is opaque. */
  datatype Connection = Connection(handle: Handle, canonical: bool)

  datatype Status = Status(handle: Handle, state: MachineState, ready: bool, connection: Option<Connection>,
                           failure: Option<ProviderError>)

  datatype Intent = Ensure | Start | Stop | Destroy

  datatype Binding = Binding(allocation: Allocation, revision: nat, status: Option<Status>, pending: Option<Intent>,
                             lastError: Option<ProviderError>, retired: bool)
  {
    function KnownHandle(): Option<Handle> { if status.Some? then Some(status.value.handle) else None }
  }

  predicate AllocationValid(a: Allocation) {
    && a.owner.Valid() && a.spec.Valid() && (a.launch.Some? ==> a.launch.value.Valid())
    && a.generation > 0 && ValidId(a.provider)
  }

  /** Checks a status against the allocation and the handle known so far. */
  function Validate(s: Status, a: Allocation, expected: Option<Handle>): (error: Option<ProviderError>)
    ensures error == None
            ==> s.handle.owner == a.owner && s.handle.generation == a.generation && s.handle.provider == a.provider
  {
    if !AllocationValid(a) || s.handle.owner != a.owner || s.handle.generation != a.generation
      || s.handle.provider != a.provider
       || !ValidId(s.handle.machineId) || (expected.Some? && expected.value != s.handle) then
      Some(ProviderError(Identity, false))
    else if (s.ready && (s.state != Running || s.connection == None)) || (s.connection.Some? && s.state != Running)
            || (s.state == Failed && s.failure == None) || (s.state != Failed && s.failure.Some?) then
      Some(ProviderError(Protocol, false))
    else if s.connection.Some? && s.connection.value.handle != s.handle then Some(ProviderError(Identity, false))
    else if s.connection.Some? && !s.connection.value.canonical then Some(ProviderError(Protocol, false))
    else None
  }

  /** A status is accepted exactly when it is about the machine of this allocation, and the one known
      so far, when its connection leads to just that machine while it runs, when only a reachable
      machine is ready, and when it names a failure exactly if it has failed. */
  lemma AcceptedExactly(s: Status, a: Allocation, expected: Option<Handle>)
    ensures Validate(s, a, expected) == None <==>
            && AllocationValid(a) && ValidId(s.handle.machineId)
            && s.handle == Handle(a.owner, a.generation, a.provider, s.handle.machineId)
            && (expected == None || expected == Some(s.handle))
            && (s.connection.Some? ==> s.state == Running && s.connection.value == Connection(s.handle, true))
            && (s.ready ==> s.connection.Some?)
            && (s.failure.Some? <==> s.state == Failed)
    ensures s.handle.generation != a.generation ==> Validate(s, a, expected) == Some(ProviderError(Identity, false))
  {
  }

  /** The test a stored record has to pass. */
  predicate LoadOk(b: Binding, key: Key) {
    && b.allocation.owner == key && b.allocation.generation > 0 && b.revision > 0
    && b.allocation.spec.Valid() && ValidId(b.allocation.provider)
    && (b.allocation.launch.Some? ==> b.allocation.launch.value.Valid())
    && (b.status.Some? ==> Validate(b.status.value, b.allocation, None) == None)
    && (b.retired <==> b.status.Some? && b.status.value.state == Destroyed)
    && !(b.retired && b.pending.Some?)
    && !(b.status == None && b.pending != Some(Ensure))
  }

  /** The endpoint that a binding may be routed to, if any. */
  function WorkerConnection(b: Binding, now: nat): Option<Connection> {
    if b.retired || b.pending.Some? || b.lastError.Some? then None
    else if b.allocation.launch.Some? && !b.allocation.launch.value.Active(now) then None
    else if b.status == None || !b.status.value.ready || Validate(b.status.value, b.allocation, None).Some? then None
    else b.status.value.connection
  }

  /** A settled, ready binding always has an endpoint, and every endpoint handed out leads to the
      running machine of just this allocation. */
  lemma RoutesToOwnMachine(b: Binding, key: Key, now: nat)
    requires LoadOk(b, key)
    ensures WorkerConnection(b, now).Some? <==>
            !b.retired && b.pending == None && b.lastError == None && b.status.Some? && b.status.value.ready
            && (b.allocation.launch.Some? ==> b.allocation.launch.value.expiresAt > now)
    ensures WorkerConnection(b, now).Some? ==>
              var h := WorkerConnection(b, now).value.handle;
              && h.owner == key && h.generation == b.allocation.generation && h.provider == b.allocation.provider
              && b.status.value.state == Running && b.KnownHandle() == Some(h)
  {
  }
}
