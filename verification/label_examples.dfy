/** `formatLabel` on the names the dashboard offers, worked out stage by stage. */
module LabelExamples {
  import opened Strings
  import opened LineChart

  /** `CleanParameter` computed stage by stage. */
  lemma CleanStages(param: string, spaced: string, removed: string, trimmed: string)
    requires ReplaceUnderscores(param) == spaced
    requires ReplaceFirst(spaced, "2m", "") == removed
    requires Trim(removed) == trimmed
    ensures CleanParameter(param) == Capitalize(trimmed)
  {
  }

  /** Trimming a string with one trailing space and no other whitespace at the ends. */
  lemma TrimOneTrailingSpace(s: string)
    requires |s| > 0 && !IsJsWhitespace(s[0]) && !IsJsWhitespace(s[|s| - 1])
    ensures Trim(s + " ") == s
  {
    assert TrimStart(s + " ") == s + " ";
    assert (s + " ")[..|s|] == s;
    assert TrimEnd(s + " ") == TrimEnd(s) == s;
  }

  /** A name without underscores, without a "2" and without whitespace at
      its ends is only capitalised. */
  lemma CleanPlainName(param: string)
    requires |param| > 0 && '_' !in param && '2' !in param
    requires !IsJsWhitespace(param[0]) && !IsJsWhitespace(param[|param| - 1])
    ensures CleanParameter(param) == Capitalize(param)
  {
    assert ReplaceUnderscores(param) == param;
    NoOccurrence(param, "2m");
    assert TrimStart(param) == param;
    assert TrimEnd(param) == param;
  }

  lemma CleanTemperature(param: string)
    requires param == "temperature_2m"
    ensures CleanParameter(param) == "Temperature"
  {
    TemperatureSpaced();
    TemperatureRemoved();
    TrimOneTrailingSpace("temperature");
    TemperatureCapitalized();
    CleanStages("temperature_2m", "temperature 2m", "temperature ", "temperature");
  }

  lemma TemperatureSpaced()
    ensures ReplaceUnderscores("temperature_2m") == "temperature 2m"
  {
  }

  lemma TemperatureRemoved()
    ensures ReplaceFirst("temperature 2m", "2m", "") == "temperature "
  {
    RemoveFirstAt("temperature 2m", 12);
  }

  lemma TemperatureCapitalized()
    ensures Capitalize("temperature") == "Temperature"
  {
  }

  lemma CleanRelativeHumidity(param: string)
    requires param == "relative_humidity_2m"
    ensures CleanParameter(param) == "Relative humidity"
  {
    HumiditySpaced();
    HumidityRemoved();
    TrimOneTrailingSpace("relative humidity");
    HumidityCapitalized();
    CleanStages("relative_humidity_2m", "relative humidity 2m", "relative humidity ", "relative humidity");
  }

  lemma HumiditySpaced()
    ensures ReplaceUnderscores("relative_humidity_2m") == "relative humidity 2m"
  {
  }

  lemma HumidityRemoved()
    ensures ReplaceFirst("relative humidity 2m", "2m", "") == "relative humidity "
  {
    RemoveFirstAt("relative humidity 2m", 18);
  }

  lemma HumidityCapitalized()
    ensures Capitalize("relative humidity") == "Relative humidity"
  {
  }

  lemma CleanRain(param: string)
    requires param == "rain"
    ensures CleanParameter(param) == "Rain"
  {
    CleanPlainName("rain");
    RainCapitalized();
  }

  lemma RainCapitalized()
    ensures Capitalize("rain") == "Rain"
  {
  }

  lemma CleanSnowfall(param: string)
    requires param == "snowfall"
    ensures CleanParameter(param) == "Snowfall"
  {
    CleanPlainName("snowfall");
    SnowfallCapitalized();
  }

  lemma SnowfallCapitalized()
    ensures Capitalize("snowfall") == "Snowfall"
  {
  }

  /** The y-axis title of the initial selection. */
  lemma InitialTitle(weather: seq<string>)
    requires weather == ["temperature_2m"]
    ensures FormatLabel(weather) == "Temperature"
  {
    LabelOfOne(weather[0]);
    CleanTemperature(weather[0]);
  }

  /** A two-name label is both cleaned names with ", " between them. */
  lemma LabelPair(first: string, second: string)
    ensures FormatLabel([first, second]) == CleanParameter(first) + ", " + CleanParameter(second)
  {
    assert [first, second] == [first] + [second];
    LabelOfOne(first);
    LabelSnoc([first], second);
  }
}
