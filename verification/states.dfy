/** Agent states: the plane's kinematic state and status, and the environment's weather. */
module States {
  import opened Geometry

  /** `PlaneStatus`, in declaration order. */
  datatype PlaneStatus =
    | Approaching
    | Entering
    | InQueue
    | ExitingQueue
    | Descending
    | Landing
    | Landed
    | Crashed

  /** `PlaneState`: position (m), speed (m/s), heading (rad) and status. */
  datatype PlaneState = PlaneState(position: Vec, speed: real, angle: real, status: PlaneStatus)

  /** `new PlaneState()`: every field at its default, and the status is the first enum member. */
  const DefaultPlaneState := PlaneState(Origin, 0.0, 0.0, Approaching)

  /** `WeatherType`, in declaration order: the level walk moves through all five. */
  datatype WeatherType = Clear | Clouds | Rain | Fog | Storm

  /** The enum's underlying integer. */
  function Ordinal(w: WeatherType): (n: nat)
    ensures n < 5
  {
    match w
    case Clear => 0
    case Clouds => 1
    case Rain => 2
    case Fog => 3
    case Storm => 4
  }

  function FromOrdinal(n: nat): (w: WeatherType)
    requires n < 5
    ensures Ordinal(w) == n
  {
    if n == 0 then Clear
    else if n == 1 then Clouds
    else if n == 2 then Rain
    else if n == 3 then Fog
    else Storm
  }

  /** `EnvironmentState`: the weather is its only field. */
  datatype EnvironmentState = EnvironmentState(weather: WeatherType)

  /** `new EnvironmentState()`. */
  const DefaultEnvironmentState := EnvironmentState(Clear)
}
