/** The goroutines of the runtime and the wait groups that count them (internal/providers/zai/runtime.go). */
module WaitGroups {

  /**
   The wait groups that shutdown waits for, and the goroutines they count. Admission adds under
   the runtime lock, pollers start under the lock that shutdown takes first, and a goroutine
   leaves its group after its last write. Shutdown itself sees the three counters only.
   */
  datatype Crew = Crew(
    starting: bool,          // a commit holds the pollers' lock and is starting its pollers
    usage: nat,              // admitted handlers
    workers: nat,            // pollers
    refreshers: nat,         // leaders of forced refreshes
    pollers: set<nat>,
    leaders: set<nat>,
    owner: map<nat, nat>,    // who will write the capture of a ticket
    serial: nat)             // the next goroutine
  {
    function Admit(): Crew {
      this.(usage := usage + 1)
    }

    function Release(): Crew
      requires usage > 0
    {
      this.(usage := usage - 1)
    }

    function StartPoller(): Crew {
      this.(workers := workers + 1, pollers := pollers + {serial}, serial := serial + 1)
    }

    function StartRefresh(): Crew {
      this.(refreshers := refreshers + 1, leaders := leaders + {serial}, serial := serial + 1)
    }

    function Done(goroutine: nat): Crew
      requires goroutine in pollers ==> workers > 0
      requires goroutine in leaders ==> refreshers > 0
    {
      if goroutine in pollers then this.(workers := workers - 1, pollers := pollers - {goroutine})
      else if goroutine in leaders then this.(refreshers := refreshers - 1, leaders := leaders - {goroutine})
      else this
    }

    predicate Idle() {
      usage == 0 && workers == 0 && refreshers == 0
    }
  }

  /** A process that has just published its first snapshot. */
  const NEW_CREW := Crew(true, 0, 0, 0, {}, {}, map[], 0)
}
