/**
  Background selection (p4.py:72-80 and p4.py:208-210): the time of day is
  read off the icon code, joined to the weather's main condition, and the
  resulting key is looked up in a fixed table of fourteen images, with
  "default.png" for any key the table lacks.
 */
module Backgrounds {

  const DefaultImage := "default.png"

  /** The table the application builds in its constructor. */
  const BackgroundMap: map<string, string> := map[
    "Clear_day" := "clear_day.png", "Clear_night" := "clear_night.png",
    "Clouds_day" := "cloudy_day.png", "Clouds_night" := "cloudy_night.png",
    "Rain_day" := "rainy_day.png", "Rain_night" := "rainy_day.png",
    "Drizzle_day" := "rainy_day.png", "Drizzle_night" := "rainy_day.png",
    "Thunderstorm_day" := "stormy_day.png", "Thunderstorm_night" := "stormy_day.png",
    "Snow_day" := "snowy_day.png", "Snow_night" := "snowy_night.png",
    "Mist_day" := "cloudy_day.png", "Mist_night" := "cloudy_night.png"
  ]

  /** Python's `icon.endswith('d')`. */
  predicate IsDayIcon(icon: string) {
    |icon| > 0 && icon[|icon| - 1] == 'd'
  }

  /** The time-of-day part of a table key. */
  function TodName(day: bool): string {
    if day then "day" else "night"
  }

  /** "day" for a day icon, "night" for every other icon, the empty one included. */
  function TimeOfDay(icon: string): (tod: string)
    ensures tod == "day" || tod == "night"
    ensures tod == "day" <==> IsDayIcon(icon)
  {
    TodName(IsDayIcon(icon))
  }

  function ConditionKey(main: string, tod: string): string {
    main + "_" + tod
  }

  /** The image `update_ui` asks for, given the main condition and the icon code. */
  function BackgroundFor(main: string, icon: string): (image: string)
    ensures image == DefaultImage || image in BackgroundMap.Values
    ensures image == DefaultImage <==> ConditionKey(main, TimeOfDay(icon)) !in BackgroundMap
  {
    var key := ConditionKey(main, TimeOfDay(icon));
    if key in BackgroundMap then BackgroundMap[key] else DefaultImage
  }

  // An independent description of the same table, by condition.

  /** The conditions the table knows, each under its API name. */
  datatype Condition = Clear | Clouds | Rain | Drizzle | Thunderstorm | Snow | Mist

  function Name(c: Condition): string {
    match c
    case Clear => "Clear"
    case Clouds => "Clouds"
    case Rain => "Rain"
    case Drizzle => "Drizzle"
    case Thunderstorm => "Thunderstorm"
    case Snow => "Snow"
    case Mist => "Mist"
  }

  /** The artwork family: mist borrows the cloud images, drizzle the rain images. */
  function Artwork(c: Condition): string {
    match c
    case Clear => "clear"
    case Clouds | Mist => "cloudy"
    case Rain | Drizzle => "rainy"
    case Thunderstorm => "stormy"
    case Snow => "snowy"
  }

  /** Only these families have a night image; the others show the day image at night. */
  predicate HasNightArt(c: Condition) {
    c.Clear? || c.Clouds? || c.Snow? || c.Mist?
  }

  function ReferenceImage(c: Condition, day: bool): string {
    Artwork(c) + (if day || !HasNightArt(c) then "_day.png" else "_night.png")
  }

  /** The table key of a known condition at a time of day. */
  function KeyOf(c: Condition, day: bool): string {
    ConditionKey(Name(c), TodName(day))
  }

  /** A key splits back into its condition and time of day. */
  lemma KeySplits(a: string, b: string, t: string, u: string)
    requires t == "day" || t == "night"
    requires u == "day" || u == "night"
    requires ConditionKey(a, t) == ConditionKey(b, u)
    ensures a == b && t == u
  {
    var k := ConditionKey(a, t);
    assert k[|k| - 1] == t[|t| - 1];
    assert k[|k| - 1] == u[|u| - 1];
    assert t == u;
    assert a == k[..|a|];
    assert b == k[..|b|];
  }

  /** The table's entries, one by one. */
  lemma TableEntries()
    ensures "Clear_day" in BackgroundMap && BackgroundMap["Clear_day"] == "clear_day.png"
    ensures "Clear_night" in BackgroundMap && BackgroundMap["Clear_night"] == "clear_night.png"
    ensures "Clouds_day" in BackgroundMap && BackgroundMap["Clouds_day"] == "cloudy_day.png"
    ensures "Clouds_night" in BackgroundMap && BackgroundMap["Clouds_night"] == "cloudy_night.png"
    ensures "Rain_day" in BackgroundMap && BackgroundMap["Rain_day"] == "rainy_day.png"
    ensures "Rain_night" in BackgroundMap && BackgroundMap["Rain_night"] == "rainy_day.png"
    ensures "Drizzle_day" in BackgroundMap && BackgroundMap["Drizzle_day"] == "rainy_day.png"
    ensures "Drizzle_night" in BackgroundMap && BackgroundMap["Drizzle_night"] == "rainy_day.png"
    ensures "Thunderstorm_day" in BackgroundMap && BackgroundMap["Thunderstorm_day"] == "stormy_day.png"
    ensures "Thunderstorm_night" in BackgroundMap && BackgroundMap["Thunderstorm_night"] == "stormy_day.png"
    ensures "Snow_day" in BackgroundMap && BackgroundMap["Snow_day"] == "snowy_day.png"
    ensures "Snow_night" in BackgroundMap && BackgroundMap["Snow_night"] == "snowy_night.png"
    ensures "Mist_day" in BackgroundMap && BackgroundMap["Mist_day"] == "cloudy_day.png"
    ensures "Mist_night" in BackgroundMap && BackgroundMap["Mist_night"] == "cloudy_night.png"
  {
  }

  /** The keys of the known conditions, spelled out. */
  lemma KeyEntries()
    ensures KeyOf(Clear, true) == "Clear_day"
    ensures KeyOf(Clear, false) == "Clear_night"
    ensures KeyOf(Clouds, true) == "Clouds_day"
    ensures KeyOf(Clouds, false) == "Clouds_night"
    ensures KeyOf(Rain, true) == "Rain_day"
    ensures KeyOf(Rain, false) == "Rain_night"
    ensures KeyOf(Drizzle, true) == "Drizzle_day"
    ensures KeyOf(Drizzle, false) == "Drizzle_night"
    ensures KeyOf(Thunderstorm, true) == "Thunderstorm_day"
    ensures KeyOf(Thunderstorm, false) == "Thunderstorm_night"
    ensures KeyOf(Snow, true) == "Snow_day"
    ensures KeyOf(Snow, false) == "Snow_night"
    ensures KeyOf(Mist, true) == "Mist_day"
    ensures KeyOf(Mist, false) == "Mist_night"
  {
  }

  /** The reference images by day, spelled out. */
  lemma ReferenceDayEntries()
    ensures ReferenceImage(Clear, true) == "clear_day.png"
    ensures ReferenceImage(Clouds, true) == "cloudy_day.png"
    ensures ReferenceImage(Rain, true) == "rainy_day.png"
    ensures ReferenceImage(Drizzle, true) == "rainy_day.png"
    ensures ReferenceImage(Thunderstorm, true) == "stormy_day.png"
    ensures ReferenceImage(Snow, true) == "snowy_day.png"
    ensures ReferenceImage(Mist, true) == "cloudy_day.png"
  {
  }

  /** The reference images by night, spelled out. */
  lemma ReferenceNightEntries()
    ensures ReferenceImage(Clear, false) == "clear_night.png"
    ensures ReferenceImage(Clouds, false) == "cloudy_night.png"
    ensures ReferenceImage(Rain, false) == "rainy_day.png"
    ensures ReferenceImage(Drizzle, false) == "rainy_day.png"
    ensures ReferenceImage(Thunderstorm, false) == "stormy_day.png"
    ensures ReferenceImage(Snow, false) == "snowy_night.png"
    ensures ReferenceImage(Mist, false) == "cloudy_night.png"
  {
  }

  /** Each known condition has both its keys in the table, bound to the reference image. */
  lemma KeyOfInTable(c: Condition, day: bool)
    ensures KeyOf(c, day) in BackgroundMap
    ensures BackgroundMap[KeyOf(c, day)] == ReferenceImage(c, day)
  {
    TableEntries();
    KeyEntries();
    ReferenceDayEntries();
    ReferenceNightEntries();
  }

  /** Every key of the table is the key of some known condition by day or by night. */
  lemma TableKeyShape(k: string)
    requires k in BackgroundMap
    ensures exists c: Condition, day: bool :: k == KeyOf(c, day)
  {
    KeyEntries();
    if k == "Clear_day" {
      assert k == KeyOf(Clear, true);
    } else if k == "Clear_night" {
      assert k == KeyOf(Clear, false);
    } else if k == "Clouds_day" {
      assert k == KeyOf(Clouds, true);
    } else if k == "Clouds_night" {
      assert k == KeyOf(Clouds, false);
    } else if k == "Rain_day" {
      assert k == KeyOf(Rain, true);
    } else if k == "Rain_night" {
      assert k == KeyOf(Rain, false);
    } else if k == "Drizzle_day" {
      assert k == KeyOf(Drizzle, true);
    } else if k == "Drizzle_night" {
      assert k == KeyOf(Drizzle, false);
    } else if k == "Thunderstorm_day" {
      assert k == KeyOf(Thunderstorm, true);
    } else if k == "Thunderstorm_night" {
      assert k == KeyOf(Thunderstorm, false);
    } else if k == "Snow_day" {
      assert k == KeyOf(Snow, true);
    } else if k == "Snow_night" {
      assert k == KeyOf(Snow, false);
    } else if k == "Mist_day" {
      assert k == KeyOf(Mist, true);
    } else if k == "Mist_night" {
      assert k == KeyOf(Mist, false);
    }
  }

  /** For a known condition the lookup agrees with the reference, day and night. */
  lemma KnownConditionImage(c: Condition, icon: string)
    ensures BackgroundFor(Name(c), icon) == ReferenceImage(c, IsDayIcon(icon))
  {
    KeyOfInTable(c, IsDayIcon(icon));
  }

  /** The default image is chosen exactly when the condition is not one the table knows. */
  lemma DefaultIffUnknown(main: string, icon: string)
    ensures BackgroundFor(main, icon) == DefaultImage <==> forall c :: Name(c) != main
  {
    var tod := TimeOfDay(icon);
    var key := ConditionKey(main, tod);
    if key in BackgroundMap {
      TableKeyShape(key);
      var c: Condition, day: bool :| key == KeyOf(c, day);
      KeySplits(main, Name(c), tod, TodName(day));
      KnownConditionImage(c, icon);
    } else {
      forall c: Condition
        ensures Name(c) != main
      {
        if Name(c) == main {
          KeyOfInTable(c, IsDayIcon(icon));
        }
      }
    }
  }

  /** Rain, drizzle and thunderstorms at night show their day images. */
  lemma NightFallsBackToDay(icon: string)
    requires !IsDayIcon(icon)
    ensures BackgroundFor("Rain", icon) == "rainy_day.png"
    ensures BackgroundFor("Drizzle", icon) == "rainy_day.png"
    ensures BackgroundFor("Thunderstorm", icon) == "stormy_day.png"
  {
    KnownConditionImage(Rain, icon);
    KnownConditionImage(Drizzle, icon);
    KnownConditionImage(Thunderstorm, icon);
  }
}
