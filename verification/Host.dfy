/** The process the services run in: its clock, its fresh identifiers, and calls that raise. */
module Hosts {
  import opened Incidents

  class Host {
    var now: Time
    var nextUuid: nat
    ghost var faults: nat

    method Clock() returns (t: Time, ghost elapsed: nat)
      modifies this`now
      ensures now == old(now) + elapsed && t == now
    {
      var passed: nat := *;
      elapsed := passed;
      now := now + passed;
      t := now;
    }

    method FreshId() returns (id: Ident)
      modifies this`nextUuid
      ensures id == Uuid(old(nextUuid)) && nextUuid == old(nextUuid) + 1
    {
      id := Uuid(nextUuid);
      nextUuid := nextUuid + 1;
    }

    /** Whether a call to a store, a queue, the leases or Kubernetes raises before it has any effect. */
    method Raises() returns (raised: bool)
      modifies this`faults
      ensures faults == old(faults) + if raised then 1 else 0
    {
      raised := *;
      faults := faults + if raised then 1 else 0;
    }
  }
}
