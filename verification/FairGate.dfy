/**
 The fair admission gate: per-tenant queues of waiting tickets, a rotation ring
 of the tenants that wait, and one semaphore whose permits are the ceiling.
 */
module FairGate {
  import opened Prelude

  type Tenant = nat
  type Ticket = nat

  /** The waiting tickets of each tenant, oldest first, and the order in which tenants are served. */
  datatype Queues = Queues(fifos: map<Tenant, seq<Ticket>>, ring: seq<Tenant>)

  function RemoveFirst<T(==)>(s: seq<T>, x: T): seq<T> {
    if s == [] then []
    else if s[0] == x then s[1..]
    else [s[0]] + RemoveFirst(s[1..], x)
  }

  function Register(q: Queues, t: Tenant, k: Ticket): Queues {
    if t in q.fifos then q.(fifos := q.fifos[t := q.fifos[t] + [k]])
    else Queues(q.fifos[t := [k]], q.ring + [t])
  }

  /** A ticket that gives up leaves its queue, and a tenant without tickets leaves the ring. */
  function Withdraw(q: Queues, t: Tenant, k: Ticket): Queues {
    if t !in q.fifos then q
    else
      var fifo := RemoveFirst(q.fifos[t], k);
      if fifo != [] then q.(fifos := q.fifos[t := fifo])
      else Queues(q.fifos - {t}, RemoveFirst(q.ring, t))
  }

  /** The next ticket in rotation. The served tenant goes to the back if it still waits;
      a tenant found without tickets is dropped. */
  function Pick(q: Queues): (Queues, Option<Ticket>)
    decreases |q.ring|
  {
    if q.ring == [] then (q, None)
    else
      var t, rest := q.ring[0], q.ring[1..];
      if t in q.fifos && q.fifos[t] != [] then
        var fifo := q.fifos[t][1..];
        (if fifo != [] then Queues(q.fifos[t := fifo], rest + [t]) else Queues(q.fifos - {t}, rest),
         Some(q.fifos[t][0]))
      else Pick(Queues(q.fifos - {t}, rest))
  }

  datatype Core = Core(free: nat, queues: Queues, granted: set<Ticket>)

  /** Hand out free permits in rotation until there are no more permits or no more tickets. */
  function Dispatch(c: Core): Core
    decreases c.free
  {
    if c.queues.fifos == map[] || c.free == 0 then c
    else
      var (q, k) := Pick(c.queues);
      if k.None? then c.(queues := q)
      else Dispatch(Core(c.free - 1, q, c.granted + {k.value}))
  }

  class Gate {
    var free: nat
    var fifos: map<Tenant, seq<Ticket>>
    var ring: seq<Tenant>
    var granted: set<Ticket>

    ghost function Contents(): Core
      reads this
    {
      Core(free, Queues(fifos, ring), granted)
    }

    constructor (ceiling: nat)
      ensures Contents() == Core(ceiling, Queues(map[], []), {})
    {
      free, fifos, ring, granted := ceiling, map[], [], {};
    }

    method PickLocked() returns (ticket: Option<Ticket>)
      modifies this`fifos, this`ring
      ensures (Queues(fifos, ring), ticket) == Pick(old(Queues(fifos, ring)))
    {
      var checked := 0;
      var n := |ring|;
      while ring != [] && checked <= n
        invariant checked + |ring| == n
        invariant Pick(Queues(fifos, ring)) == Pick(old(Queues(fifos, ring)))
        decreases |ring|
      {
        var t := ring[0];
        ring := ring[1..];
        if t in fifos && fifos[t] != [] {
          ticket := Some(fifos[t][0]);
          if |fifos[t]| > 1 {
            fifos := fifos[t := fifos[t][1..]];
            ring := ring + [t];
          } else {
            fifos := fifos - {t};
          }
          return;
        }
        fifos := fifos - {t};
        checked := checked + 1;
      }
      return None;
    }

    method DispatchLocked()
      modifies this
      ensures Contents() == Dispatch(old(Contents()))
    {
      while fifos != map[]
        invariant Dispatch(Contents()) == Dispatch(old(Contents()))
        decreases free
      {
        if free == 0 {
          return;
        }
        free := free - 1;
        var ticket := PickLocked();
        if ticket.None? {
          free := free + 1;
          return;
        }
        granted := granted + {ticket.value};
      }
    }

    method EnterFair(t: Tenant, k: Ticket)
      modifies this
      ensures Contents() == var c := old(Contents()); Dispatch(c.(queues := Register(c.queues, t, k)))
    {
      if t !in fifos {
        fifos := fifos[t := []];
        ring := ring + [t];
      }
      fifos := fifos[t := fifos[t] + [k]];
      assert t !in old(fifos) ==> fifos[t] == [k];
      assert fifos == Register(old(Queues(fifos, ring)), t, k).fifos;
      assert Queues(fifos, ring) == Register(old(Queues(fifos, ring)), t, k);
      DispatchLocked();
    }

    method TimeOut(t: Tenant, k: Ticket)
      modifies this
      ensures Contents() == var c := old(Contents());
                            if k in c.granted then Dispatch(c.(free := c.free + 1, granted := c.granted - {k}))
                            else c.(queues := Withdraw(c.queues, t, k))
    {
      if k in granted {
        free, granted := free + 1, granted - {k};
        DispatchLocked();
      } else if t in fifos {
        fifos := fifos[t := RemoveFirst(fifos[t], k)];
        if fifos[t] == [] {
          fifos := fifos - {t};
          ring := RemoveFirst(ring, t);
          assert fifos == old(fifos) - {t};
        }
      }
    }

    method LeaveFair(k: Ticket)
      requires k in granted
      modifies this
      ensures Contents() == var c := old(Contents()); Dispatch(c.(free := c.free + 1, granted := c.granted - {k}))
    {
      free, granted := free + 1, granted - {k};
      DispatchLocked();
    }
  }
}
