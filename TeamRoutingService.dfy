/** Which team is the main (primary) team at a given instant. */
module TeamRoutingService {
  import opened Models
  import opened OfficeHoursService

  /** The day team when forced or in business hours, otherwise the night team. */
  function SelectMainTeam(office: OfficeHours, now: Instant, forceOfficeHours: bool): (t: Teams)
    ensures t == TeamA <==> forceOfficeHours || office.IsWithinOfficeHours(now)
    ensures t == TeamC <==> !forceOfficeHours && !office.IsWithinOfficeHours(now)
    ensures t != TeamB && t != Overflow
  {
    if forceOfficeHours then TeamA
    else if office.IsWithinOfficeHours(now) then TeamA else TeamC
  }
}
