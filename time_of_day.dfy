// The greeting's time of day. The hour comes from the system clock and is
// taken as a parameter.
module TimeOfDay {
  datatype TimeOfDay = Morning | Afternoon | Evening

  function Name(t: TimeOfDay): string
  {
    match t
    case Morning => "MORNING"
    case Afternoon => "AFTERNOON"
    case Evening => "EVENING"
  }

  /** `getTimeOfDay` for a given hour. */
  function GetTimeOfDay(hour: int): (r: TimeOfDay)
    ensures r == Morning <==> hour < 12
    ensures r == Afternoon <==> 12 <= hour < 18
    ensures r == Evening <==> hour >= 18
  {
    if hour < 12 then Morning else if hour < 18 then Afternoon else Evening
  }

  /** The result is one of the three names, and later hours never give an earlier part of the day. */
  lemma TimeOfDayNames(hour: int, later: int)
    requires hour <= later
    ensures Name(GetTimeOfDay(hour)) in ["MORNING", "AFTERNOON", "EVENING"]
    ensures GetTimeOfDay(hour) == Evening ==> GetTimeOfDay(later) == Evening
    ensures GetTimeOfDay(later) == Morning ==> GetTimeOfDay(hour) == Morning
  {
  }
}
