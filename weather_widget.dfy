/**
 * client/src/components/common/WeatherWidget.tsx: which view the widget
 * shows and the two humidity alerts. The location and weather fetch is a
 * parameter.
 */
module WeatherWidget {
  import opened Options

  /** The part of the weather report the logic reads: relative humidity in percent. */
  datatype Weather = Weather(city: string, humidity: int)

  datatype View = Skeleton | Unavailable | Report(weather: Weather, lowAlert: bool, highAlert: bool)

  const DryBelow: int := 40
  const HumidAbove: int := 80

  /** `needsIrrigation`: the low-humidity alert. */
  function NeedsIrrigation(humidity: int): (r: bool)
    ensures r <==> humidity <= 39
    ensures r ==> humidity <= HumidAbove
  {
    humidity < DryBelow
  }

  /** `highHumidity`: the high-humidity alert. */
  function HighHumidity(humidity: int): (r: bool)
    ensures r <==> humidity >= 81
    ensures r ==> humidity >= DryBelow
  {
    humidity > HumidAbove
  }

  /**
   * The widget: the skeleton while loading, the unavailable notice on an error
   * or without data, otherwise the report with the alerts that apply.
   */
  function Render(loading: bool, error: bool, weather: Option<Weather>): (v: View)
    ensures loading ==> v == Skeleton
    ensures !loading && (error || weather.None?) ==> v == Unavailable
    ensures v.Report? <==> !loading && !error && weather.Some?
    ensures v.Report? ==>
      (v.weather == weather.value
       && (v.lowAlert <==> v.weather.humidity < 40)
       && (v.highAlert <==> v.weather.humidity > 80))
  {
    if loading then Skeleton
    else if error || weather.None? then Unavailable
    else Report(weather.value, NeedsIrrigation(weather.value.humidity), HighHumidity(weather.value.humidity))
  }

  /** The alerts exclude each other, and humidity from 40 to 80 raises neither. */
  lemma AlertsExclusive(humidity: int)
    ensures !(NeedsIrrigation(humidity) && HighHumidity(humidity))
    ensures 40 <= humidity <= 80 <==> !NeedsIrrigation(humidity) && !HighHumidity(humidity)
  {
  }
}
