/** `src/components/Header.tsx`: the heading's gradient, chosen once from the
    hour of the day when the header mounts. */
module Header {
  const Morning: string := "from-yellow-300 via-orange-400 to-sky-400"
  const Afternoon: string := "from-sky-400 via-cyan-300 to-blue-500"
  const Evening: string := "from-orange-500 via-red-500 to-purple-600"
  const Night: string := "from-indigo-400 via-purple-500 to-gray-400"
  /** The heading's classes while the gradient state is still empty. */
  const DefaultGradient: string := "from-purple-400 via-pink-500 to-blue-500"

  /** `getGradientForTimeOfDay`, with the hour passed in: 5–11 morning,
      12–16 afternoon, 17–20 evening, every other hour night. */
  function GradientForHour(hour: int): (g: string)
    ensures g == Morning <==> 5 <= hour < 12
    ensures g == Afternoon <==> 12 <= hour < 17
    ensures g == Evening <==> 17 <= hour < 21
    ensures g == Night <==> hour < 5 || hour >= 21
  {
    if 5 <= hour < 12 then Morning
    else if 12 <= hour < 17 then Afternoon
    else if 17 <= hour < 21 then Evening
    else Night
  }

  /** `gradientClasses || DefaultGradient`. */
  function HeadingGradient(gradientClasses: string): (g: string)
    ensures g != ""
    ensures gradientClasses != "" ==> g == gradientClasses
  {
    if gradientClasses != "" then gradientClasses else DefaultGradient
  }

  /** The gradient never falls back to the default once an hour was read. */
  lemma NoDefaultAfterMount(hour: int)
    ensures HeadingGradient(GradientForHour(hour)) == GradientForHour(hour)
    ensures GradientForHour(hour) != DefaultGradient
  {
  }

  class HeaderState {
    var gradientClasses: string

    constructor ()
      ensures gradientClasses == "" && HeadingGradient(gradientClasses) == DefaultGradient
    {
      gradientClasses := "";
    }

    /** The mount effect. */
    method Mounted(hour: int)
      modifies this
      ensures gradientClasses == GradientForHour(hour)
      ensures HeadingGradient(gradientClasses) == GradientForHour(hour)
    {
      gradientClasses := GradientForHour(hour);
    }
  }
}
