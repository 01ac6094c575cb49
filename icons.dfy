/** Choice of the icon file shown for a weather description. */
module Icons {
  import opened JsonValues

  /** The icon table, as (description, icon file), in table order. */
  const WeatherIcons: seq<(string, string)> := [
    ("晴", "sunny.png"),
    ("多云", "cloudy.png"),
    ("阴", "overcast.png"),
    ("小雨", "light_rain.png"),
    ("中雨", "moderate_rain.png"),
    ("大雨", "heavy_rain.png"),
    ("暴雨", "storm.png"),
    ("雷阵雨", "thunderstorm.png"),
    ("小雪", "light_snow.png"),
    ("中雪", "moderate_snow.png"),
    ("大雪", "heavy_snow.png"),
    ("暴雪", "snowstorm.png"),
    ("雾", "fog.png"),
    ("霾", "haze.png")
  ]

  const UnknownIcon: string := "unknown.png"

  /** `key` occurs in `text` starting at position `i`. */
  predicate OccursAt(text: string, key: string, i: nat) {
    i + |key| <= |text| && text[i..i + |key|] == key
  }

  /** `key` occurs in `text` as a contiguous substring (Python's `key in text`). */
  predicate Contains(text: string, key: string) {
    exists i: nat :: i <= |text| && OccursAt(text, key, i)
  }

  /** The icon of the first entry (from position `i` on) whose description is
      exactly `text`: the table's dictionary lookup. */
  function ExactIcon(text: string, i: nat := 0): (r: Option<string>)
    requires i <= |WeatherIcons|
    ensures r.Some? <==> exists k :: i <= k < |WeatherIcons| && WeatherIcons[k].0 == text
    ensures r.Some? ==> exists k :: i <= k < |WeatherIcons| && WeatherIcons[k] == (text, r.value)
    decreases |WeatherIcons| - i
  {
    if i == |WeatherIcons| then None
    else if WeatherIcons[i].0 == text then Some(WeatherIcons[i].1)
    else ExactIcon(text, i + 1)
  }

  /** The descriptions in the table are distinct, so it is a dictionary. */
  lemma KeysDistinct()
    ensures forall i, j :: 0 <= i < j < |WeatherIcons| ==> WeatherIcons[i].0 != WeatherIcons[j].0
  {
  }

  /** An exact description gets its own icon; otherwise the first description in
      table order that occurs in the text decides; otherwise the unknown icon. */
  method GetWeatherIcon(weatherText: string) returns (icon: string)
    ensures forall i :: 0 <= i < |WeatherIcons| && WeatherIcons[i].0 == weatherText ==> icon == WeatherIcons[i].1
    ensures (forall i :: 0 <= i < |WeatherIcons| ==> WeatherIcons[i].0 != weatherText) ==>
              forall j :: 0 <= j < |WeatherIcons| && Contains(weatherText, WeatherIcons[j].0)
                          && (forall k :: 0 <= k < j ==> !Contains(weatherText, WeatherIcons[k].0))
                          ==> icon == WeatherIcons[j].1
    ensures (forall i :: 0 <= i < |WeatherIcons| ==>
               WeatherIcons[i].0 != weatherText && !Contains(weatherText, WeatherIcons[i].0))
            ==> icon == UnknownIcon
  {
    var exact := ExactIcon(weatherText);
    if exact.Some? {
      KeysDistinct();
      return exact.value;
    }
    var i := 0;
    while i < |WeatherIcons|
      invariant i <= |WeatherIcons|
      invariant forall k :: 0 <= k < i ==> !Contains(weatherText, WeatherIcons[k].0)
    {
      var key := WeatherIcons[i].0;
      if Contains(weatherText, key) {
        return WeatherIcons[i].1;
      }
      i := i + 1;
    }
    return UnknownIcon;
  }

  /** No description in the table occurs inside a later one, so for a text that is
      exactly a description the scan alone would pick the same icon: the exact
      lookup never changes the outcome for this table. */
  lemma ScanAgreesWithExact(j: nat)
    requires j < |WeatherIcons|
    ensures Contains(WeatherIcons[j].0, WeatherIcons[j].0)
    ensures forall k :: 0 <= k < j ==> !Contains(WeatherIcons[j].0, WeatherIcons[k].0)
  {
    var text := WeatherIcons[j].0;
    assert OccursAt(text, text, 0);
    forall k, i: nat | 0 <= k < j && i <= |text|
      ensures !OccursAt(text, WeatherIcons[k].0, i)
    {
      var key := WeatherIcons[k].0;
      if i + |key| <= |text| {
        // Each description is checked one character at a time.
        assert text[i] != key[0] || text[i..i + |key|] != key;
      }
    }
  }
}
