/** The `weather_icon` and `weather_color` template filters
    (weather/templatetags/weather_tags.py): the condition is lower-cased and
    the first key of an ordered table that occurs in it decides the result. */
module WeatherTags {
  import opened Wrappers
  import opened Text

  /** The keys of both tables, in their written order (a dict literal keeps
      its order); the two filters' tables share them. */
  const ConditionKeys: seq<string> := [
    "clear", "clouds", "rain", "drizzle", "thunderstorm", "snow", "mist", "smoke",
    "haze", "dust", "fog", "sand", "ash", "squall", "tornado"]

  /** The icon for each key of `ConditionKeys`, position by position. */
  const Icons: seq<string> := [
    "bi-sun", "bi-cloud", "bi-cloud-rain", "bi-cloud-drizzle", "bi-cloud-lightning",
    "bi-snow", "bi-cloud-fog", "bi-cloud-haze", "bi-cloud-haze", "bi-cloud-haze",
    "bi-cloud-fog", "bi-cloud-haze", "bi-cloud-haze", "bi-cloud-lightning-rain", "bi-tornado"]

  const DefaultIcon: string := "bi-cloud"

  /** The text colour for each key of `ConditionKeys`, position by position. */
  const Colors: seq<string> := [
    "text-warning", "text-secondary", "text-primary", "text-info", "text-danger",
    "text-info", "text-secondary", "text-secondary", "text-secondary", "text-secondary",
    "text-secondary", "text-warning", "text-secondary", "text-primary", "text-danger"]

  const DefaultColor: string := "text-secondary"

  /** The position of the first key, at `i` or later, that occurs in `text`;
      `|keys|` when there is none. */
  function FirstMatchFrom(keys: seq<string>, text: string, i: nat): (k: nat)
    requires i <= |keys|
    ensures i <= k <= |keys|
    ensures k < |keys| ==> IsSubstring(keys[k], text)
    ensures forall j :: i <= j < k ==> !IsSubstring(keys[j], text)
    decreases |keys| - i
  {
    if i == |keys| then i
    else if IsSubstring(keys[i], text) then i
    else FirstMatchFrom(keys, text, i + 1)
  }

  /** The `for key, value in table.items(): if key in text: return value`
      loop, with `default` after it. */
  function Lookup(keys: seq<string>, values: seq<string>, text: string, default: string): string
    requires |keys| == |values|
  {
    var k := FirstMatchFrom(keys, text, 0);
    if k < |keys| then values[k] else default
  }

  /** The lookup answers with the value of the first key, in table order,
      that occurs in the text, and with the default exactly when no key does. */
  lemma LookupSpec(keys: seq<string>, values: seq<string>, text: string, default: string)
    requires |keys| == |values|
    ensures (forall j :: 0 <= j < |keys| ==> !IsSubstring(keys[j], text)) ==> Lookup(keys, values, text, default) == default
    ensures forall k :: (0 <= k < |keys| && IsSubstring(keys[k], text) &&
      (forall j :: 0 <= j < k ==> !IsSubstring(keys[j], text))) ==> Lookup(keys, values, text, default) == values[k]
  {
  }

  /** The answer is always one of the table's values or the default. */
  lemma LookupRange(keys: seq<string>, values: seq<string>, text: string, default: string)
    requires |keys| == |values|
    ensures Lookup(keys, values, text, default) == default ||
      exists k :: 0 <= k < |values| && Lookup(keys, values, text, default) == values[k]
  {
    var m := FirstMatchFrom(keys, text, 0);
    if m < |keys| {
      assert Lookup(keys, values, text, default) == values[m];
    }
  }

  /** `condition.lower() if condition else ""`. */
  function Normalize(condition: Option<string>): (s: string)
    ensures condition.None? ==> s == []
    ensures condition.Some? ==> s == Lower(condition.value)
  {
    match condition
    case None => []
    case Some(c) => Lower(c)
  }

  /** `weather_icon`. */
  function WeatherIcon(condition: Option<string>): string
  {
    Lookup(ConditionKeys, Icons, Normalize(condition), DefaultIcon)
  }

  /** `weather_color`. */
  function WeatherColor(condition: Option<string>): string
  {
    Lookup(ConditionKeys, Colors, Normalize(condition), DefaultColor)
  }

  /** Matching ignores case: a condition and its lower-cased form get the same icon and colour. */
  lemma CaseInsensitive(c: string)
    ensures WeatherIcon(Some(Lower(c))) == WeatherIcon(Some(c))
    ensures WeatherColor(Some(Lower(c))) == WeatherColor(Some(c))
  {
    LowerIdempotent(c);
  }

  /** No key is empty, so nothing occurs in the empty text. */
  lemma {:induction false} NothingInEmpty(keys: seq<string>, i: nat)
    requires i <= |keys|
    requires forall j :: 0 <= j < |keys| ==> keys[j] != []
    ensures FirstMatchFrom(keys, [], i) == |keys|
    decreases |keys| - i
  {
    if i < |keys| {
      NothingInEmpty(keys, i + 1);
    }
  }

  /** A missing condition and the empty condition get the defaults. */
  lemma MissingConditionDefaults()
    ensures WeatherIcon(None) == DefaultIcon && WeatherColor(None) == DefaultColor
    ensures WeatherIcon(Some("")) == DefaultIcon && WeatherColor(Some("")) == DefaultColor
  {
    NothingInEmpty(ConditionKeys, 0);
  }

  /** Both filters return a table value or their default. */
  lemma FilterRange(condition: Option<string>)
    ensures WeatherIcon(condition) == DefaultIcon ||
      exists k :: 0 <= k < |Icons| && WeatherIcon(condition) == Icons[k]
    ensures WeatherColor(condition) == DefaultColor ||
      exists k :: 0 <= k < |Colors| && WeatherColor(condition) == Colors[k]
  {
    LookupRange(ConditionKeys, Icons, Normalize(condition), DefaultIcon);
    LookupRange(ConditionKeys, Colors, Normalize(condition), DefaultColor);
  }

  /** A text without capitals is its own lower-cased form. */
  lemma LowerNoCapitals(s: string)
    requires forall i :: 0 <= i < |s| ==> !('A' <= s[i] <= 'Z')
    ensures Lower(s) == s
  {
  }

  /** A condition containing "rain" but neither "clear" nor "clouds" gets the
      "rain" entry, whatever later keys ("thunderstorm", "squall") it also contains. */
  lemma RainOutranksLaterKeys(c: string)
    requires !IsSubstring("clear", Lower(c)) && !IsSubstring("clouds", Lower(c)) && IsSubstring("rain", Lower(c))
    ensures WeatherIcon(Some(c)) == "bi-cloud-rain"
    ensures WeatherColor(Some(c)) == "text-primary"
  {
    var s := Lower(c);
    assert FirstMatchFrom(ConditionKeys, s, 2) == 2;
    assert FirstMatchFrom(ConditionKeys, s, 1) == 2;
    assert FirstMatchFrom(ConditionKeys, s, 0) == 2;
  }

  lemma ThunderstormLower()
    ensures Lower("thunderstorm with light rain") == "thunderstorm with light rain"
  {
    LowerNoCapitals("thunderstorm with light rain");
  }

  /** Neither "clear" nor "clouds" occurs in "thunderstorm with light rain": it has no "c". */
  lemma ThunderstormNoEarlierKeys()
    ensures !IsSubstring("clear", "thunderstorm with light rain")
    ensures !IsSubstring("clouds", "thunderstorm with light rain")
  {
    CharAbsent("clear", "thunderstorm with light rain", 0);
    CharAbsent("clouds", "thunderstorm with light rain", 0);
  }

  /** "rain" occurs in "thunderstorm with light rain", at position 24. */
  lemma ThunderstormHasRain()
    ensures IsSubstring("rain", "thunderstorm with light rain")
  {
    assert MatchesFrom("rain", "thunderstorm with light rain", 24, 0);
    OccursAt("rain", "thunderstorm with light rain", 0, 24);
  }

  /** "thunderstorm with light rain" contains both "thunderstorm" and "rain";
      "rain" comes first in the tables, so it decides. */
  lemma ThunderstormWithLightRain()
    ensures WeatherIcon(Some("thunderstorm with light rain")) == "bi-cloud-rain"
    ensures WeatherColor(Some("thunderstorm with light rain")) == "text-primary"
  {
    ThunderstormLower();
    ThunderstormNoEarlierKeys();
    ThunderstormHasRain();
    RainOutranksLaterKeys("thunderstorm with light rain");
  }

  /** A condition no key occurs in gets both defaults. */
  lemma NoKeyGivesDefaults(c: string)
    requires forall k :: k in ConditionKeys ==> !IsSubstring(k, Lower(c))
    ensures WeatherIcon(Some(c)) == DefaultIcon && WeatherColor(Some(c)) == DefaultColor
  {
    assert forall j :: 0 <= j < |ConditionKeys| ==> ConditionKeys[j] in ConditionKeys;
    LookupSpec(ConditionKeys, Icons, Lower(c), DefaultIcon);
    LookupSpec(ConditionKeys, Colors, Lower(c), DefaultColor);
  }

  // One lemma per key: a letter of the key that each mock name lacks.
  lemma ClearAbsent()
    ensures !IsSubstring("clear", "sunny") && !IsSubstring("clear", "partly cloudy")
  {
    CharAbsent("clear", "sunny", 0);
    CharAbsent("clear", "partly cloudy", 2);
  }

  lemma CloudsAbsent()
    ensures !IsSubstring("clouds", "sunny") && !IsSubstring("clouds", "partly cloudy")
  {
    CharAbsent("clouds", "sunny", 0);
    CharAbsent("clouds", "partly cloudy", 5);
  }

  lemma RainAbsent()
    ensures !IsSubstring("rain", "sunny") && !IsSubstring("rain", "partly cloudy")
  {
    CharAbsent("rain", "sunny", 0);
    CharAbsent("rain", "partly cloudy", 2);
  }

  lemma DrizzleAbsent()
    ensures !IsSubstring("drizzle", "sunny") && !IsSubstring("drizzle", "partly cloudy")
  {
    CharAbsent("drizzle", "sunny", 0);
    CharAbsent("drizzle", "partly cloudy", 2);
  }

  lemma ThunderstormAbsent()
    ensures !IsSubstring("thunderstorm", "sunny") && !IsSubstring("thunderstorm", "partly cloudy")
  {
    CharAbsent("thunderstorm", "sunny", 0);
    CharAbsent("thunderstorm", "partly cloudy", 1);
  }

  lemma SnowAbsent()
    ensures !IsSubstring("snow", "sunny") && !IsSubstring("snow", "partly cloudy")
  {
    CharAbsent("snow", "sunny", 2);
    CharAbsent("snow", "partly cloudy", 0);
  }

  lemma MistAbsent()
    ensures !IsSubstring("mist", "sunny") && !IsSubstring("mist", "partly cloudy")
  {
    CharAbsent("mist", "sunny", 0);
    CharAbsent("mist", "partly cloudy", 0);
  }

  lemma SmokeAbsent()
    ensures !IsSubstring("smoke", "sunny") && !IsSubstring("smoke", "partly cloudy")
  {
    CharAbsent("smoke", "sunny", 1);
    CharAbsent("smoke", "partly cloudy", 0);
  }

  lemma HazeAbsent()
    ensures !IsSubstring("haze", "sunny") && !IsSubstring("haze", "partly cloudy")
  {
    CharAbsent("haze", "sunny", 0);
    CharAbsent("haze", "partly cloudy", 0);
  }

  lemma DustAbsent()
    ensures !IsSubstring("dust", "sunny") && !IsSubstring("dust", "partly cloudy")
  {
    CharAbsent("dust", "sunny", 0);
    CharAbsent("dust", "partly cloudy", 2);
  }

  lemma FogAbsent()
    ensures !IsSubstring("fog", "sunny") && !IsSubstring("fog", "partly cloudy")
  {
    CharAbsent("fog", "sunny", 0);
    CharAbsent("fog", "partly cloudy", 0);
  }

  lemma SandAbsent()
    ensures !IsSubstring("sand", "sunny") && !IsSubstring("sand", "partly cloudy")
  {
    CharAbsent("sand", "sunny", 1);
    CharAbsent("sand", "partly cloudy", 0);
  }

  lemma AshAbsent()
    ensures !IsSubstring("ash", "sunny") && !IsSubstring("ash", "partly cloudy")
  {
    CharAbsent("ash", "sunny", 0);
    CharAbsent("ash", "partly cloudy", 1);
  }

  lemma SquallAbsent()
    ensures !IsSubstring("squall", "sunny") && !IsSubstring("squall", "partly cloudy")
  {
    CharAbsent("squall", "sunny", 1);
    CharAbsent("squall", "partly cloudy", 0);
  }

  lemma TornadoAbsent()
    ensures !IsSubstring("tornado", "sunny") && !IsSubstring("tornado", "partly cloudy")
  {
    CharAbsent("tornado", "sunny", 0);
    CharAbsent("tornado", "partly cloudy", 3);
  }

  /** No key occurs in "sunny". */
  lemma SunnyKeys()
    ensures forall k :: k in ConditionKeys ==> !IsSubstring(k, "sunny")
  {
    forall k | k in ConditionKeys ensures !IsSubstring(k, "sunny") {
      if k == "clear" { ClearAbsent();
      } else if k == "clouds" { CloudsAbsent();
      } else if k == "rain" { RainAbsent();
      } else if k == "drizzle" { DrizzleAbsent();
      } else if k == "thunderstorm" { ThunderstormAbsent();
      } else if k == "snow" { SnowAbsent();
      } else if k == "mist" { MistAbsent();
      } else if k == "smoke" { SmokeAbsent();
      } else if k == "haze" { HazeAbsent();
      } else if k == "dust" { DustAbsent();
      } else if k == "fog" { FogAbsent();
      } else if k == "sand" { SandAbsent();
      } else if k == "ash" { AshAbsent();
      } else if k == "squall" { SquallAbsent();
      } else { TornadoAbsent(); }
    }
  }

  /** The mock generator's "Sunny" matches no key, so it gets the defaults. */
  lemma SunnyGetsDefaults()
    ensures WeatherIcon(Some("Sunny")) == DefaultIcon && WeatherColor(Some("Sunny")) == DefaultColor
  {
    assert Lower("Sunny") == "sunny";
    SunnyKeys();
    NoKeyGivesDefaults("Sunny");
  }

  /** No key occurs in "partly cloudy": "clouds" needs a final "s". */
  lemma PartlyCloudyKeys()
    ensures forall k :: k in ConditionKeys ==> !IsSubstring(k, "partly cloudy")
  {
    forall k | k in ConditionKeys ensures !IsSubstring(k, "partly cloudy") {
      if k == "clear" { ClearAbsent();
      } else if k == "clouds" { CloudsAbsent();
      } else if k == "rain" { RainAbsent();
      } else if k == "drizzle" { DrizzleAbsent();
      } else if k == "thunderstorm" { ThunderstormAbsent();
      } else if k == "snow" { SnowAbsent();
      } else if k == "mist" { MistAbsent();
      } else if k == "smoke" { SmokeAbsent();
      } else if k == "haze" { HazeAbsent();
      } else if k == "dust" { DustAbsent();
      } else if k == "fog" { FogAbsent();
      } else if k == "sand" { SandAbsent();
      } else if k == "ash" { AshAbsent();
      } else if k == "squall" { SquallAbsent();
      } else { TornadoAbsent(); }
    }
  }
  /** The mock generator's "Partly Cloudy" matches no key either: "cloudy"
      does not contain "clouds". */
  lemma PartlyCloudyGetsDefaults()
    ensures WeatherIcon(Some("Partly Cloudy")) == DefaultIcon && WeatherColor(Some("Partly Cloudy")) == DefaultColor
  {
    assert Lower("Partly Cloudy") == "partly cloudy";
    PartlyCloudyKeys();
    NoKeyGivesDefaults("Partly Cloudy");
  }

  /** The mock generator's "Clear" finds its own entry. */
  lemma ClearEntry()
    ensures WeatherIcon(Some("Clear")) == "bi-sun" && WeatherColor(Some("Clear")) == "text-warning"
  {
    assert Lower("Clear") == "clear";
    assert IsSubstring("clear", "clear");
    assert FirstMatchFrom(ConditionKeys, "clear", 0) == 0;
  }

  /** A condition containing "clouds" but not "clear" gets the "clouds" entry,
      whatever later keys it also contains. */
  lemma CloudsOutranksLaterKeys(c: string)
    requires !IsSubstring("clear", Lower(c)) && IsSubstring("clouds", Lower(c))
    ensures WeatherIcon(Some(c)) == "bi-cloud"
    ensures WeatherColor(Some(c)) == "text-secondary"
  {
    var s := Lower(c);
    assert FirstMatchFrom(ConditionKeys, s, 1) == 1;
    assert FirstMatchFrom(ConditionKeys, s, 0) == 1;
  }

  /** "clear" does not occur in "clouds", which has no "e"; "clouds" does. */
  lemma CloudsKeys()
    ensures !IsSubstring("clear", "clouds") && IsSubstring("clouds", "clouds")
  {
    CharAbsent("clear", "clouds", 2);
    OccursAt("clouds", "clouds", 0, 0);
  }

  /** "Clouds" passes over "clear" and finds its own entry. */
  lemma CloudsEntry()
    ensures WeatherIcon(Some("Clouds")) == "bi-cloud" && WeatherColor(Some("Clouds")) == "text-secondary"
  {
    assert Lower("Clouds") == "clouds";
    CloudsKeys();
    CloudsOutranksLaterKeys("Clouds");
  }

  /** "Rain" passes over "clear" and "clouds" and finds its own entry. */
  lemma RainEntry()
    ensures WeatherIcon(Some("Rain")) == "bi-cloud-rain" && WeatherColor(Some("Rain")) == "text-primary"
  {
    assert Lower("Rain") == "rain";
    CharAbsent("clear", "rain", 0);
    CharAbsent("clouds", "rain", 0);
    assert IsSubstring("rain", "rain");
    RainOutranksLaterKeys("Rain");
  }
}
