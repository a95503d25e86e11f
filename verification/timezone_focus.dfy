/** Which region the dashboard focuses on at a given time of day
    (frontend/src/services/timezone-focus.ts, `getActiveRegion`): a chain of
    overlapping UTC hour ranges in which the first match wins. The clock is
    not modelled: the UTC hour is a parameter. */
module TimezoneFocus {
  import opened RegionConfig

  /** A UTC hour, as `Date.getUTCHours` returns it. */
  type Hour = h: int | 0 <= h < 24

  /** The region in focus at `hour`. */
  function ActiveRegion(hour: Hour): (r: string)
    ensures r in Regions
    ensures r == "apac" <==> hour < 8
    ensures r == "europe" <==> 8 <= hour < 16
    ensures r == "americas" <==> 16 <= hour < 22
    ensures r == "global" <==> 22 <= hour
  {
    if hour >= 0 && hour < 8 then "apac"
    else if hour >= 7 && hour < 16 then "europe"
    else if hour >= 13 && hour < 22 then "americas"
    else "global"
  }

  /** Position of each focus region in the day's rotation. */
  function RotationIndex(r: string): nat {
    if r == "apac" then 0 else if r == "europe" then 1 else if r == "americas" then 2 else 3
  }

  /** Through the day the focus moves apac, europe, americas, global and never back. */
  lemma FocusMovesForward(h1: Hour, h2: Hour)
    requires h1 <= h2
    ensures RotationIndex(ActiveRegion(h1)) <= RotationIndex(ActiveRegion(h2))
  {
  }

  /** Hour 7 lies in the europe range too, and hours 13 to 15 in the americas
      range too; the earlier test wins both times. */
  lemma OverlapsGoToTheEarlierRange()
    ensures ActiveRegion(7) == "apac"
    ensures forall h: Hour :: 13 <= h < 16 ==> ActiveRegion(h) == "europe"
  {
  }

  /** The focus is one of four regions, and each of the four is in focus at some hour. */
  lemma FourFocusRegions()
    ensures forall h: Hour :: ActiveRegion(h) in {"apac", "europe", "americas", "global"}
    ensures ActiveRegion(0) == "apac" && ActiveRegion(8) == "europe"
    ensures ActiveRegion(16) == "americas" && ActiveRegion(22) == "global"
  {
  }
}
