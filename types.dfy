/** The record and the closed enumeration shared by the daemon's components. */
module Types {

  /** The two monitored rails, in declaration order. */
  datatype PowerDomain = VBAT | USB

  /** Iterating the enumeration yields its members in declaration order. */
  const Domains: seq<PowerDomain> := [VBAT, USB]

  /** A member's value, which is its own name; it keys the queue map. */
  function DomainValue(d: PowerDomain): (s: string)
    ensures |s| > 0
  {
    match d
    case VBAT => "VBAT"
    case USB => "USB"
  }

  /** A reading of the monotonic clock, carried through unchanged. */
  type Timestamp = real

  /**
   * One sample of a domain, as the named tuple `electrical_data`. The three
   * quantities are raw sensor counts: voltage in 1.25 mV steps, current in
   * 1.25 mA steps, power in 10 mW steps.
   */
  datatype Reading = Reading(time: Timestamp, voltage: int, current: int, power: int)

  /** Every member occurs in `Domains` exactly once, and member values tell members apart. */
  lemma DomainsEnumerated()
    ensures |Domains| == 2
    ensures forall d: PowerDomain :: d in Domains
    ensures forall i, j :: 0 <= i < j < |Domains| ==> Domains[i] != Domains[j]
    ensures forall d, e: PowerDomain :: DomainValue(d) == DomainValue(e) ==> d == e
  {
    forall d: PowerDomain ensures d in Domains {
      match d
      case VBAT => assert Domains[0] == d;
      case USB => assert Domains[1] == d;
    }
  }
}
