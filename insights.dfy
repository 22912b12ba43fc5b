/**
 * The insight rules engine: a weather reading becomes an ordered list of
 * advisory records (icon, title, message), and a separate three-level risk
 * classification. Each advisory is one `Rule`; `Present` is the fixed record
 * the engine emits for it.
 */
module Insights {
  import opened Wrappers
  import opened Text
  import opened Weather

  /** One advisory as the page shows it. */
  datatype Insight = Insight(icon: string, title: string, message: string)

  /** Every advisory the engine can emit, in the order the engine considers them. */
  datatype Rule =
    | ExtremeHeat | HotWeather | Freezing | ColdWeather | PerfectWeather
    | Rainy | Snowy | ThunderstormWarning
    | HighHumidity | LowHumidity
    | StrongWinds
    | PoorVisibility
    | LightClothing | LayerUp | Waterproof | CasualWear
    | OutdoorActivity | IndoorActivity | BeatTheHeat
    | GeneralUpdate

  /** The groups of rules; the result lists them in this order. */
  datatype Group =
    | Temperature | Rain | Snow | Thunderstorm | Humidity | Wind | Visibility
    | Clothing | Activity | General

  function GroupOf(r: Rule): Group {
    match r
    case ExtremeHeat | HotWeather | Freezing | ColdWeather | PerfectWeather => Temperature
    case Rainy => Rain
    case Snowy => Snow
    case ThunderstormWarning => Thunderstorm
    case HighHumidity | LowHumidity => Humidity
    case StrongWinds => Wind
    case PoorVisibility => Visibility
    case LightClothing | LayerUp | Waterproof | CasualWear => Clothing
    case OutdoorActivity | IndoorActivity | BeatTheHeat => Activity
    case GeneralUpdate => General
  }

  /** The place of a group in the output order. */
  function Position(g: Group): nat {
    match g
    case Temperature => 0
    case Rain => 1
    case Snow => 2
    case Thunderstorm => 3
    case Humidity => 4
    case Wind => 5
    case Visibility => 6
    case Clothing => 7
    case Activity => 8
    case General => 9
  }

  /** The fixed record emitted for each rule. */
  function Present(r: Rule): Insight {
    Insight(Icon(r), Title(r), Message(r))
  }

  function Icon(r: Rule): string {
    match r
    case ExtremeHeat => "\U{1F525}"
    case HotWeather => "\U{2600}\U{FE0F}"
    case Freezing => "\U{1F976}"
    case ColdWeather => "\U{2744}\U{FE0F}"
    case PerfectWeather => "\U{1F324}\U{FE0F}"
    case Rainy => "\U{2614}"
    case Snowy => "\U{26C4}"
    case ThunderstormWarning => "\U{26A1}"
    case HighHumidity => "\U{1F4A7}"
    case LowHumidity => "\U{1F3DC}\U{FE0F}"
    case StrongWinds => "\U{1F4A8}"
    case PoorVisibility => "\U{1F32B}\U{FE0F}"
    case LightClothing => "\U{1F455}"
    case LayerUp => "\U{1F9E5}"
    case Waterproof => "\U{1F302}"
    case CasualWear => "\U{1F454}"
    case OutdoorActivity => "\U{1F6B4}"
    case IndoorActivity => "\U{1F4DA}"
    case BeatTheHeat => "\U{1F3CA}"
    case GeneralUpdate => "\U{2728}"
  }

  function Title(r: Rule): string {
    match r
    case ExtremeHeat => "Extreme Heat Alert"
    case HotWeather => "Hot Weather"
    case Freezing => "Freezing Temperature"
    case ColdWeather => "Cold Weather"
    case PerfectWeather => "Perfect Weather"
    case Rainy => "Rainy Conditions"
    case Snowy => "Snowy Weather"
    case ThunderstormWarning => "Thunderstorm Warning"
    case HighHumidity => "High Humidity"
    case LowHumidity => "Low Humidity"
    case StrongWinds => "Strong Winds"
    case PoorVisibility => "Poor Visibility"
    case LightClothing => "Clothing Tip"
    case LayerUp => "Clothing Tip"
    case Waterproof => "Clothing Tip"
    case CasualWear => "Clothing Tip"
    case OutdoorActivity => "Activity Suggestion"
    case IndoorActivity => "Activity Suggestion"
    case BeatTheHeat => "Activity Suggestion"
    case GeneralUpdate => "Weather Update"
  }

  function Message(r: Rule): string {
    match r
    case ExtremeHeat => "Stay hydrated and avoid prolonged sun exposure. Wear light, breathable clothing."
    case HotWeather => "It's hot outside! Drink plenty of water and use sunscreen if going out."
    case Freezing => "Bundle up! Wear warm layers, gloves, and a hat. Watch for icy conditions."
    case ColdWeather => "It's chilly. Wear a jacket and warm clothes when heading outside."
    case PerfectWeather => "Ideal temperature for outdoor activities! Great day to go for a walk."
    case Rainy => "Don't forget your umbrella! Roads may be slippery, drive carefully."
    case Snowy => "Watch for snow accumulation. Drive slowly and give yourself extra time."
    case ThunderstormWarning => "Stay indoors if possible. Avoid using electronic devices during the storm."
    case HighHumidity => "The air feels heavy. Stay in air-conditioned spaces when possible."
    case LowHumidity => "Dry air detected. Use moisturizer and stay hydrated."
    case StrongWinds => "High winds expected. Secure loose objects and be cautious when driving."
    case PoorVisibility => "Foggy or misty conditions. Use headlights and drive carefully."
    case LightClothing => "Wear light, loose-fitting clothes in light colors. Don't forget sunglasses!"
    case LayerUp => "Layer up! Wear a warm coat, scarf, and gloves."
    case Waterproof => "Waterproof jacket recommended. Wear closed-toe shoes."
    case CasualWear => "Comfortable casual wear is perfect. Maybe bring a light jacket."
    case OutdoorActivity => "Great weather for outdoor activities like cycling, jogging, or picnics!"
    case IndoorActivity => "Perfect day to stay indoors. How about reading a book or watching movies?"
    case BeatTheHeat => "Beat the heat! Visit a pool or stay in air-conditioned places."
    case GeneralUpdate => "Conditions are normal. Have a great day!"
  }

  /** The rule an icon stands for, recognised by its first character. */
  function RuleOfIcon(icon: string): Option<Rule> {
    if |icon| == 0 then None
    else
      var c := icon[0];
      if c == '\U{1F525}' then Some(ExtremeHeat)
      else if c == '\U{2600}' then Some(HotWeather)
      else if c == '\U{1F976}' then Some(Freezing)
      else if c == '\U{2744}' then Some(ColdWeather)
      else if c == '\U{1F324}' then Some(PerfectWeather)
      else if c == '\U{2614}' then Some(Rainy)
      else if c == '\U{26C4}' then Some(Snowy)
      else if c == '\U{26A1}' then Some(ThunderstormWarning)
      else if c == '\U{1F4A7}' then Some(HighHumidity)
      else if c == '\U{1F3DC}' then Some(LowHumidity)
      else if c == '\U{1F4A8}' then Some(StrongWinds)
      else if c == '\U{1F32B}' then Some(PoorVisibility)
      else if c == '\U{1F455}' then Some(LightClothing)
      else if c == '\U{1F9E5}' then Some(LayerUp)
      else if c == '\U{1F302}' then Some(Waterproof)
      else if c == '\U{1F454}' then Some(CasualWear)
      else if c == '\U{1F6B4}' then Some(OutdoorActivity)
      else if c == '\U{1F4DA}' then Some(IndoorActivity)
      else if c == '\U{1F3CA}' then Some(BeatTheHeat)
      else if c == '\U{2728}' then Some(GeneralUpdate)
      else None
  }

  /** Every icon names its rule: reading the rule back from the icon gives it again. */
  lemma RuleOfIconRoundTrip(r: Rule)
    ensures RuleOfIcon(Icon(r)) == Some(r)
  {
  }

  /** Distinct rules emit distinct records, so a record in the output identifies the rule that fired. */
  lemma PresentInjective()
    ensures forall a, b :: Present(a) == Present(b) ==> a == b
  {
    forall a, b | Present(a) == Present(b) ensures a == b {
      assert Icon(a) == Present(a).icon;
      RuleOfIconRoundTrip(a);
      RuleOfIconRoundTrip(b);
    }
  }

  // ---------------------------------------------------------------------------
  // The reference table: when each rule fires, stated band by band.
  // ---------------------------------------------------------------------------

  /**
   * The exact condition under which an advisory rule fires, written without
   * reference to the ladders: strict comparisons except the inclusive bands,
   * and the condition matched lower-cased.
   */
  predicate Triggers(r: Rule, w: Reading) {
    var t := w.temp;
    var c := Lower(w.condition);
    match r
    case ExtremeHeat => t > 35.0
    case HotWeather => 30.0 < t <= 35.0
    case Freezing => t < 0.0
    case ColdWeather => 0.0 <= t < 10.0
    case PerfectWeather => 20.0 <= t <= 25.0
    case Rainy => Contains(c, "rain") || Contains(c, "drizzle")
    case Snowy => Contains(c, "snow")
    case ThunderstormWarning => Contains(c, "thunderstorm")
    case HighHumidity => w.humidity > 80
    case LowHumidity => w.humidity < 30
    case StrongWinds => WindKmh(w) > 40.0
    case PoorVisibility => w.visibility < 1000
    case LightClothing => t > 30.0
    case LayerUp => t < 10.0
    case Waterproof => 10.0 <= t <= 30.0 && Contains(c, "rain")
    case CasualWear => 15.0 <= t <= 25.0 && !Contains(c, "rain")
    case OutdoorActivity => 20.0 <= t <= 28.0 && !Contains(c, "rain")
    case IndoorActivity => Contains(c, "rain")
    case BeatTheHeat => t > 32.0 && !Contains(c, "rain")
    case GeneralUpdate => false
  }

  /** No advisory rule triggers on the reading. */
  predicate Quiet(w: Reading) {
    forall r :: !Triggers(r, w)
  }

  /** A rule fires when it triggers; the fallback fires exactly on a quiet reading. */
  predicate Fires(r: Rule, w: Reading) {
    if r == GeneralUpdate then Quiet(w) else Triggers(r, w)
  }

  // ---------------------------------------------------------------------------
  // The ladders, as the engine runs them.
  // ---------------------------------------------------------------------------

  /** The temperature ladder: first match over >35, >30, <0, <10 and 20..25 inclusive. */
  function TemperatureAdvisory(t: real): (r: Option<Rule>)
    ensures r.Some? ==> GroupOf(r.value) == Temperature
    ensures r == Some(ExtremeHeat) <==> t > 35.0
    ensures r == Some(HotWeather) <==> 30.0 < t <= 35.0
    ensures r == Some(Freezing) <==> t < 0.0
    ensures r == Some(ColdWeather) <==> 0.0 <= t < 10.0
    ensures r == Some(PerfectWeather) <==> 20.0 <= t <= 25.0
    ensures r == None <==> (10.0 <= t < 20.0 || 25.0 < t <= 30.0)
  {
    if t > 35.0 then Some(ExtremeHeat)
    else if t > 30.0 then Some(HotWeather)
    else if t < 0.0 then Some(Freezing)
    else if t < 10.0 then Some(ColdWeather)
    else if t >= 20.0 && t <= 25.0 then Some(PerfectWeather)
    else None
  }

  /** The humidity ladder: high above 80, low below 30, nothing on 30..80 inclusive. */
  function HumidityAdvisory(h: int): (r: Option<Rule>)
    ensures r.Some? ==> GroupOf(r.value) == Humidity
    ensures r == Some(HighHumidity) <==> h > 80
    ensures r == Some(LowHumidity) <==> h < 30
    ensures r == None <==> 30 <= h <= 80
  {
    if h > 80 then Some(HighHumidity)
    else if h < 30 then Some(LowHumidity)
    else None
  }

  /**
   * `getClothingRecommendation` on the lower-cased condition: first match, so
   * heat and cold win over rain, and only "rain" (not "drizzle") asks for a waterproof.
   */
  function ClothingRecommendation(temp: real, condition: string): (r: Option<Rule>)
    ensures r.Some? ==> GroupOf(r.value) == Clothing
    ensures r == Some(LightClothing) <==> temp > 30.0
    ensures r == Some(LayerUp) <==> temp < 10.0
    ensures r == Some(Waterproof) <==> 10.0 <= temp <= 30.0 && Contains(condition, "rain")
    ensures r == Some(CasualWear) <==> 15.0 <= temp <= 25.0 && !Contains(condition, "rain")
    ensures r == None <==>
      10.0 <= temp <= 30.0 && !Contains(condition, "rain") && !(15.0 <= temp <= 25.0)
  {
    if temp > 30.0 then Some(LightClothing)
    else if temp < 10.0 then Some(LayerUp)
    else if Contains(condition, "rain") then Some(Waterproof)
    else if temp >= 15.0 && temp <= 25.0 then Some(CasualWear)
    else None
  }

  /**
   * `getActivitySuggestion` on the lower-cased condition: first match, so rain
   * means the indoor tip whatever the temperature.
   */
  function ActivitySuggestion(temp: real, condition: string): (r: Option<Rule>)
    ensures r.Some? ==> GroupOf(r.value) == Activity
    ensures r == Some(OutdoorActivity) <==> 20.0 <= temp <= 28.0 && !Contains(condition, "rain")
    ensures r == Some(IndoorActivity) <==> Contains(condition, "rain")
    ensures r == Some(BeatTheHeat) <==> temp > 32.0 && !Contains(condition, "rain")
    ensures r == None <==> !Contains(condition, "rain") && !(20.0 <= temp <= 28.0) && temp <= 32.0
  {
    if temp >= 20.0 && temp <= 28.0 && !Contains(condition, "rain") then Some(OutdoorActivity)
    else if Contains(condition, "rain") then Some(IndoorActivity)
    else if temp > 32.0 then Some(BeatTheHeat)
    else None
  }

  /** The rain check: "rain" or "drizzle" anywhere in the lower-cased condition. */
  function RainAdvisory(condition: string): (r: Option<Rule>)
    ensures r.Some? ==> GroupOf(r.value) == Rain
    ensures r == Some(Rainy) <==> Contains(condition, "rain") || Contains(condition, "drizzle")
  {
    if Contains(condition, "rain") || Contains(condition, "drizzle") then Some(Rainy) else None
  }

  /** The snow check. */
  function SnowAdvisory(condition: string): (r: Option<Rule>)
    ensures r.Some? ==> GroupOf(r.value) == Snow
    ensures r == Some(Snowy) <==> Contains(condition, "snow")
  {
    if Contains(condition, "snow") then Some(Snowy) else None
  }

  /** The thunderstorm check. */
  function ThunderstormAdvisory(condition: string): (r: Option<Rule>)
    ensures r.Some? ==> GroupOf(r.value) == Thunderstorm
    ensures r == Some(ThunderstormWarning) <==> Contains(condition, "thunderstorm")
  {
    if Contains(condition, "thunderstorm") then Some(ThunderstormWarning) else None
  }

  /** The wind check, on the speed in km/h. */
  function WindAdvisory(windSpeed: real): (r: Option<Rule>)
    ensures r.Some? ==> GroupOf(r.value) == Wind
    ensures r == Some(StrongWinds) <==> windSpeed > 40.0
  {
    if windSpeed > 40.0 then Some(StrongWinds) else None
  }

  /** The visibility check, on the distance in metres. */
  function VisibilityAdvisory(visibility: int): (r: Option<Rule>)
    ensures r.Some? ==> GroupOf(r.value) == Visibility
    ensures r == Some(PoorVisibility) <==> visibility < 1000
  {
    if visibility < 1000 then Some(PoorVisibility) else None
  }

  /**
   * The advisory rules that fire, section after section, before the fallback
   * is considered; each section contributes at most one rule.
   */
  function Advisories(w: Reading): seq<Rule> {
    var t := w.temp;
    var c := Lower(w.condition);
    TemperatureAdvisory(t).ToSeq() + RainAdvisory(c).ToSeq() + SnowAdvisory(c).ToSeq()
    + ThunderstormAdvisory(c).ToSeq() + HumidityAdvisory(w.humidity).ToSeq()
    + WindAdvisory(WindKmh(w)).ToSeq() + VisibilityAdvisory(w.visibility).ToSeq()
    + ClothingRecommendation(t, c).ToSeq() + ActivitySuggestion(t, c).ToSeq()
  }

  /** The rules behind the records `generateInsights` returns. */
  function FiredRules(w: Reading): seq<Rule> {
    WithGeneral(Advisories(w))
  }

  /** The fallback rule when no advisory fired, otherwise the advisories. */
  function WithGeneral(a: seq<Rule>): seq<Rule> {
    if a == [] then [GeneralUpdate] else a
  }

  /** The records of `rules`, in the same order. */
  function Render(rules: seq<Rule>): (insights: seq<Insight>)
    ensures |insights| == |rules|
    ensures forall i | 0 <= i < |rules| :: insights[i] == Present(rules[i])
  {
    if rules == [] then [] else [Present(rules[0])] + Render(rules[1..])
  }

  /** Rendering distributes over concatenation. */
  lemma RenderConcat(a: seq<Rule>, b: seq<Rule>)
    ensures Render(a + b) == Render(a) + Render(b)
  {
    assert |Render(a + b)| == |Render(a) + Render(b)|;
    forall i | 0 <= i < |a + b| ensures Render(a + b)[i] == (Render(a) + Render(b))[i] {
      if i < |a| { assert (a + b)[i] == a[i]; } else { assert (a + b)[i] == b[i - |a|]; }
    }
  }

  /** A record is in the rendered list exactly when its rule is in the rule list. */
  lemma RenderedMembership(rules: seq<Rule>)
    ensures forall r :: Present(r) in Render(rules) <==> r in rules
  {
    var insights := Render(rules);
    PresentInjective();
    forall r ensures Present(r) in insights <==> r in rules {
      if Present(r) in insights {
        var i :| 0 <= i < |insights| && insights[i] == Present(r);
        assert rules[i] == r;
      }
      if r in rules {
        var i :| 0 <= i < |rules| && rules[i] == r;
        assert insights[i] == Present(r);
      }
    }
  }

  /** Rendering nine pieces one after another renders their concatenation. */
  lemma RenderNine(p0: seq<Rule>, p1: seq<Rule>, p2: seq<Rule>, p3: seq<Rule>, p4: seq<Rule>,
                   p5: seq<Rule>, p6: seq<Rule>, p7: seq<Rule>, p8: seq<Rule>)
    ensures Render(p0 + p1 + p2 + p3 + p4 + p5 + p6 + p7 + p8)
         == Render(p0) + Render(p1) + Render(p2) + Render(p3) + Render(p4)
          + Render(p5) + Render(p6) + Render(p7) + Render(p8)
  {
    RenderConcat(p0, p1);
    RenderConcat(p0 + p1, p2);
    RenderConcat(p0 + p1 + p2, p3);
    RenderConcat(p0 + p1 + p2 + p3, p4);
    RenderConcat(p0 + p1 + p2 + p3 + p4, p5);
    RenderConcat(p0 + p1 + p2 + p3 + p4 + p5, p6);
    RenderConcat(p0 + p1 + p2 + p3 + p4 + p5 + p6, p7);
    RenderConcat(p0 + p1 + p2 + p3 + p4 + p5 + p6 + p7, p8);
  }

  /** Each group contributes at most one rule, and the groups appear in order. */
  predicate Grouped(rs: seq<Rule>) {
    forall i, j | 0 <= i < j < |rs| :: Position(GroupOf(rs[i])) < Position(GroupOf(rs[j]))
  }

  // ---------------------------------------------------------------------------
  // What the engine promises.
  // ---------------------------------------------------------------------------

  /** The check a group runs on a reading. */
  function Section(g: Group, w: Reading): Option<Rule> {
    var t := w.temp;
    var c := Lower(w.condition);
    match g
    case Temperature => TemperatureAdvisory(t)
    case Rain => RainAdvisory(c)
    case Snow => SnowAdvisory(c)
    case Thunderstorm => ThunderstormAdvisory(c)
    case Humidity => HumidityAdvisory(w.humidity)
    case Wind => WindAdvisory(WindKmh(w))
    case Visibility => VisibilityAdvisory(w.visibility)
    case Clothing => ClothingRecommendation(t, c)
    case Activity => ActivitySuggestion(t, c)
    case General => None
  }

  /** A group yields at most one rule: one of its own, exactly when that rule triggers. */
  lemma SectionExact(g: Group, w: Reading)
    ensures forall r :: r in Section(g, w).ToSeq() <==> GroupOf(r) == g && Triggers(r, w)
  {
    var o := Section(g, w);
    assert forall r :: r in o.ToSeq() <==> o == Some(r);
  }

  /** An advisory rule is listed exactly when it triggers. */
  lemma AdvisoriesExact(w: Reading)
    ensures forall r :: r in Advisories(w) <==> Triggers(r, w)
  {
    assert Advisories(w)
      == Section(Temperature, w).ToSeq() + Section(Rain, w).ToSeq() + Section(Snow, w).ToSeq()
       + Section(Thunderstorm, w).ToSeq() + Section(Humidity, w).ToSeq() + Section(Wind, w).ToSeq()
       + Section(Visibility, w).ToSeq() + Section(Clothing, w).ToSeq() + Section(Activity, w).ToSeq();
    SectionExact(Temperature, w);
    SectionExact(Rain, w);
    SectionExact(Snow, w);
    SectionExact(Thunderstorm, w);
    SectionExact(Humidity, w);
    SectionExact(Wind, w);
    SectionExact(Visibility, w);
    SectionExact(Clothing, w);
    SectionExact(Activity, w);
  }

  /**
   * The result lists exactly the rules that fire: every advisory whose condition
   * holds, and the fallback exactly when no advisory does.
   */
  lemma FiredRulesExact(w: Reading)
    ensures forall r :: r in FiredRules(w) <==> Fires(r, w)
  {
    AdvisoriesExact(w);
    FallbackExact(Advisories(w), w);
  }

  /** Adding the fallback to an exact list of advisories gives an exact list of what fires. */
  lemma FallbackExact(a: seq<Rule>, w: Reading)
    requires forall r :: r in a <==> Triggers(r, w)
    ensures forall r :: r in WithGeneral(a) <==> Fires(r, w)
  {
    if a != [] {
      assert Triggers(a[0], w);
    }
  }

  /** An advisory rule other than the fallback is in the result exactly when it triggers. */
  lemma FiredAdvisory(r: Rule, w: Reading)
    requires r != GeneralUpdate
    ensures r in FiredRules(w) <==> Triggers(r, w)
  {
    FiredRulesExact(w);
  }

  /** The fallback record is present exactly when it is the whole result. */
  lemma FallbackAlone(w: Reading)
    ensures GeneralUpdate in FiredRules(w) <==> FiredRules(w) == [GeneralUpdate]
    ensures GeneralUpdate in FiredRules(w) <==> Quiet(w)
  {
    AdvisoriesExact(w);
    FiredRulesExact(w);
  }

  /** The result is never empty and holds at most one rule per group, so at most nine. */
  lemma FiredRulesCount(w: Reading)
    ensures 1 <= |FiredRules(w)| <= 9
  {
  }

  /** The records of a section's tip: none, or the one record of its rule. */
  function Records(tip: Option<Rule>): (insights: seq<Insight>)
    ensures insights == Render(tip.ToSeq())
  {
    if tip.Some? then [Present(tip.value)] else []
  }

  /** The records the sections append, in order, before the fallback is considered. */
  function SectionRecords(w: Reading): seq<Insight> {
    var t := w.temp;
    var c := Lower(w.condition);
    // The leading `[] +` makes the sum read as the pushes onto the empty list,
    // term for term with `RenderTips`, so the two are matched without regrouping.
    [] + Records(TemperatureAdvisory(t)) + Records(RainAdvisory(c))
    + Records(SnowAdvisory(c)) + Records(ThunderstormAdvisory(c))
    + Records(HumidityAdvisory(w.humidity)) + Records(WindAdvisory(w.windSpeed * 3.6))
    + Records(VisibilityAdvisory(w.visibility)) + Records(ClothingRecommendation(t, c))
    + Records(ActivitySuggestion(t, c))
  }

  /** The list with the fallback record added when it is empty. */
  function WithFallback(insights: seq<Insight>): seq<Insight> {
    if |insights| == 0 then [Present(GeneralUpdate)] else insights
  }

  /** Rendering the fallback-completed list adds the fallback record exactly when there are no records. */
  lemma RenderWithGeneral(a: seq<Rule>)
    ensures Render(WithGeneral(a)) == WithFallback(Render(a))
  {
    assert Render([GeneralUpdate]) == [Present(GeneralUpdate)];
  }

  /** Rendering the rules of nine tips is appending the records of each tip in turn. */
  lemma RenderTips(o0: Option<Rule>, o1: Option<Rule>, o2: Option<Rule>, o3: Option<Rule>, o4: Option<Rule>,
                   o5: Option<Rule>, o6: Option<Rule>, o7: Option<Rule>, o8: Option<Rule>)
    ensures Render(WithGeneral(o0.ToSeq() + o1.ToSeq() + o2.ToSeq() + o3.ToSeq() + o4.ToSeq()
                               + o5.ToSeq() + o6.ToSeq() + o7.ToSeq() + o8.ToSeq()))
         // `[] +` matches the shape of `SectionRecords`, which starts from the empty list.
         == WithFallback([] + Records(o0) + Records(o1) + Records(o2) + Records(o3) + Records(o4)
                         + Records(o5) + Records(o6) + Records(o7) + Records(o8))
  {
    var all := o0.ToSeq() + o1.ToSeq() + o2.ToSeq() + o3.ToSeq() + o4.ToSeq()
             + o5.ToSeq() + o6.ToSeq() + o7.ToSeq() + o8.ToSeq();
    RenderNine(o0.ToSeq(), o1.ToSeq(), o2.ToSeq(), o3.ToSeq(), o4.ToSeq(),
               o5.ToSeq(), o6.ToSeq(), o7.ToSeq(), o8.ToSeq());
    assert [] + Records(o0) == Records(o0);
    RenderWithGeneral(all);
  }

  /** The records of the result are the section records, with the fallback when there are none. */
  lemma RenderedBySection(w: Reading)
    ensures Render(FiredRules(w)) == WithFallback(SectionRecords(w))
  {
    var t := w.temp;
    var c := Lower(w.condition);
    RenderTips(
      TemperatureAdvisory(t), RainAdvisory(c), SnowAdvisory(c), ThunderstormAdvisory(c),
      HumidityAdvisory(w.humidity), WindAdvisory(WindKmh(w)), VisibilityAdvisory(w.visibility),
      ClothingRecommendation(t, c), ActivitySuggestion(t, c));
  }

  /** What the section records with the fallback amount to: the records of the fired rules. */
  lemma GeneratedRecords(w: Reading, insights: seq<Insight>)
    requires insights == WithFallback(SectionRecords(w))
    ensures insights == Render(FiredRules(w))
    ensures 1 <= |insights| <= 9
    ensures forall r :: Present(r) in insights <==> Fires(r, w)
  {
    RenderedBySection(w);
    RenderedFiredRules(w);
  }

  /** The records of the result: between one and nine, and a record is there exactly when its rule fires. */
  lemma RenderedFiredRules(w: Reading)
    ensures 1 <= |Render(FiredRules(w))| <= 9
    ensures forall r :: Present(r) in Render(FiredRules(w)) <==> Fires(r, w)
  {
    FiredRulesExact(w);
    FiredRulesCount(w);
    RenderedMembership(FiredRules(w));
  }

  /** Each rule's group comes after the group of the rule before it. */
  predicate Chained(rs: seq<Rule>)
    decreases |rs|
  {
    |rs| <= 1
    || (Chained(rs[..|rs| - 1])
        && Position(GroupOf(rs[|rs| - 2])) < Position(GroupOf(rs[|rs| - 1])))
  }

  /** Groups that rise from each rule to the next rise between any two rules. */
  lemma {:induction false} ChainedGrouped(rs: seq<Rule>)
    requires Chained(rs)
    ensures Grouped(rs)
    decreases |rs|
  {
    if |rs| > 1 {
      var n := |rs|;
      var front := rs[..n - 1];
      ChainedGrouped(front);
      forall i, j | 0 <= i < j < n ensures Position(GroupOf(rs[i])) < Position(GroupOf(rs[j])) {
        assert forall k | 0 <= k < n - 1 :: front[k] == rs[k];
        if j == n - 1 && i < n - 2 {
          assert Position(GroupOf(front[i])) < Position(GroupOf(front[n - 2]));
        }
      }
    }
  }

  /** The last rule of `s`, if any, belongs to a group placed before position `k`. */
  predicate Before(s: seq<Rule>, k: nat) {
    s == [] || Position(GroupOf(s[|s| - 1])) < k
  }

  /** Appending the tip of group `g` to a chained list of earlier groups keeps it chained. */
  lemma ExtendTip(s: seq<Rule>, tip: Option<Rule>, g: Group)
    requires Chained(s) && Before(s, Position(g))
    requires tip.Some? ==> GroupOf(tip.value) == g
    ensures Chained(s + tip.ToSeq()) && Before(s + tip.ToSeq(), Position(g) + 1)
  {
    if tip.Some? {
      var t := s + [tip.value];
      assert t[..|t| - 1] == s;
    } else {
      assert s + tip.ToSeq() == s;
    }
  }

  /** The temperature tip alone is chained and comes before every later group. */
  lemma StartTip(tip: Option<Rule>)
    requires tip.Some? ==> GroupOf(tip.value) == Temperature
    ensures Chained(tip.ToSeq()) && Before(tip.ToSeq(), 1)
  {
  }

  /** The fallback alone is grouped, so adding it to an empty list keeps a grouped list grouped. */
  lemma GroupedWithGeneral(a: seq<Rule>)
    requires Grouped(a)
    ensures Grouped(WithGeneral(a))
  {
  }

  /** Nine tips of the nine groups, in order, with the fallback when all are absent, form a grouped list. */
  lemma GroupedTips(o0: Option<Rule>, o1: Option<Rule>, o2: Option<Rule>, o3: Option<Rule>, o4: Option<Rule>,
                    o5: Option<Rule>, o6: Option<Rule>, o7: Option<Rule>, o8: Option<Rule>)
    requires o0.Some? ==> GroupOf(o0.value) == Temperature
    requires o1.Some? ==> GroupOf(o1.value) == Rain
    requires o2.Some? ==> GroupOf(o2.value) == Snow
    requires o3.Some? ==> GroupOf(o3.value) == Thunderstorm
    requires o4.Some? ==> GroupOf(o4.value) == Humidity
    requires o5.Some? ==> GroupOf(o5.value) == Wind
    requires o6.Some? ==> GroupOf(o6.value) == Visibility
    requires o7.Some? ==> GroupOf(o7.value) == Clothing
    requires o8.Some? ==> GroupOf(o8.value) == Activity
    ensures Grouped(WithGeneral(o0.ToSeq() + o1.ToSeq() + o2.ToSeq() + o3.ToSeq() + o4.ToSeq()
                                + o5.ToSeq() + o6.ToSeq() + o7.ToSeq() + o8.ToSeq()))
  {
    var s0 := o0.ToSeq();
    StartTip(o0);
    ExtendTip(s0, o1, Rain);
    var s1 := s0 + o1.ToSeq();
    ExtendTip(s1, o2, Snow);
    var s2 := s1 + o2.ToSeq();
    ExtendTip(s2, o3, Thunderstorm);
    var s3 := s2 + o3.ToSeq();
    ExtendTip(s3, o4, Humidity);
    var s4 := s3 + o4.ToSeq();
    ExtendTip(s4, o5, Wind);
    var s5 := s4 + o5.ToSeq();
    ExtendTip(s5, o6, Visibility);
    var s6 := s5 + o6.ToSeq();
    ExtendTip(s6, o7, Clothing);
    var s7 := s6 + o7.ToSeq();
    ExtendTip(s7, o8, Activity);
    ChainedGrouped(s7 + o8.ToSeq());
    GroupedWithGeneral(s7 + o8.ToSeq());
  }

  /** The groups appear in the order temperature, rain, snow, thunderstorm, humidity, wind, visibility, clothing, activity. */
  lemma FiredRulesGrouped(w: Reading)
    ensures Grouped(FiredRules(w))
  {
    var t := w.temp;
    var c := Lower(w.condition);
    GroupedTips(
      TemperatureAdvisory(t), RainAdvisory(c), SnowAdvisory(c), ThunderstormAdvisory(c),
      HumidityAdvisory(w.humidity), WindAdvisory(WindKmh(w)), VisibilityAdvisory(w.visibility),
      ClothingRecommendation(t, c), ActivitySuggestion(t, c));
  }

  /**
   * The fallback fires exactly on a reading in the quiet bands: a temperature in
   * [10, 15) or (28, 30], none of the watched words in the condition, humidity
   * in 30..80, wind at most 40 km/h and visibility of at least 1000 m.
   */
  lemma QuietBands(w: Reading)
    ensures GeneralUpdate in FiredRules(w) <==>
      var t := w.temp;
      var c := Lower(w.condition);
      (10.0 <= t < 15.0 || 28.0 < t <= 30.0)
      && !Contains(c, "rain") && !Contains(c, "drizzle")
      && !Contains(c, "snow") && !Contains(c, "thunderstorm")
      && 30 <= w.humidity <= 80 && WindKmh(w) <= 40.0 && w.visibility >= 1000
  {
    FallbackAlone(w);
    var t := w.temp;
    if Quiet(w) {
      assert !Triggers(Waterproof, w) && !Triggers(CasualWear, w) && !Triggers(OutdoorActivity, w);
      assert !Triggers(LayerUp, w) && !Triggers(LightClothing, w) && !Triggers(IndoorActivity, w);
      assert !Triggers(Rainy, w) && !Triggers(Snowy, w) && !Triggers(ThunderstormWarning, w);
      assert !Triggers(HighHumidity, w) && !Triggers(LowHumidity, w);
      assert !Triggers(StrongWinds, w) && !Triggers(PoorVisibility, w);
    }
  }

  /** The bands meet at 35: exactly 35 degrees is hot weather, anything above is extreme heat. */
  lemma HeatBoundary(w: Reading)
    ensures w.temp == 35.0 ==> HotWeather in FiredRules(w) && ExtremeHeat !in FiredRules(w)
    ensures w.temp > 35.0 ==> ExtremeHeat in FiredRules(w) && HotWeather !in FiredRules(w)
  {
    FiredAdvisory(HotWeather, w);
    FiredAdvisory(ExtremeHeat, w);
  }

  /** Between the bands, 10 to 20 and 25 to 30, no temperature record is emitted. */
  lemma TemperatureGaps(w: Reading)
    requires 10.0 <= w.temp < 20.0 || 25.0 < w.temp <= 30.0
    ensures forall r | GroupOf(r) == Temperature :: r !in FiredRules(w)
  {
    FiredRulesExact(w);
  }

  /**
   * The three condition checks are separate ifs: each looks only for its own
   * word, so any combination of them can fire together.
   */
  lemma ConditionChecksIndependent(w: Reading)
    ensures Rainy in FiredRules(w)
        <==> Contains(Lower(w.condition), "rain") || Contains(Lower(w.condition), "drizzle")
    ensures Snowy in FiredRules(w) <==> Contains(Lower(w.condition), "snow")
    ensures ThunderstormWarning in FiredRules(w) <==> Contains(Lower(w.condition), "thunderstorm")
  {
    var c := Lower(w.condition);
    assert Triggers(Rainy, w) <==> Contains(c, "rain") || Contains(c, "drizzle");
    assert Triggers(Snowy, w) <==> Contains(c, "snow");
    assert Triggers(ThunderstormWarning, w) <==> Contains(c, "thunderstorm");
    FiredAdvisory(Rainy, w);
    FiredAdvisory(Snowy, w);
    FiredAdvisory(ThunderstormWarning, w);
  }

  /** "drizzle" does not contain "rain": the only 'r' is followed by 'i'. */
  lemma DrizzleHasNoRain()
    ensures !Contains("drizzle", "rain")
  {
    var s := "drizzle";
    forall i ensures !OccursAt(s, "rain", i) {
      if i == 1 {
        assert s[i..i + 4][1] != "rain"[1];
      } else if 0 <= i && i + 4 <= |s| {
        assert s[i..i + 4][0] != "rain"[0];
      }
    }
    NotContains(s, "rain");
  }

  /** Drizzle is not rain to the clothing ladder: at 20 degrees it suggests casual wear, not a waterproof. */
  lemma DrizzleIsNotRainForClothing()
    ensures ClothingRecommendation(20.0, "drizzle") == Some(CasualWear)
  {
    DrizzleHasNoRain();
  }

  /**
   * A hot rainy reading: 32 degrees, "Rain", humidity 85, 2 m/s of wind and
   * 500 m of visibility give hot weather, rain, high humidity, poor visibility,
   * light clothes (heat wins over rain) and the indoor tip, in that order.
   */
  lemma HotRainyScenario(w: Reading)
    requires w.temp == 32.0 && w.condition == "Rain" && w.humidity == 85
    requires w.windSpeed == 2.0 && w.visibility == 500
    ensures FiredRules(w)
         == [HotWeather, Rainy, HighHumidity, PoorVisibility, LightClothing, IndoorActivity]
  {
    var c := Lower(w.condition);
    assert c == "rain";
    assert OccursAt(c, "rain", 0);
    ContainsIff(c, "rain");
    ContainsIff(c, "drizzle");
    ContainsIff(c, "snow");
    ContainsIff(c, "thunderstorm");
  }

  // ---------------------------------------------------------------------------
  // `getRiskLevel`.
  // ---------------------------------------------------------------------------

  datatype Risk = Low | Medium | High

  /**
   * `getRiskLevel`: high on extreme temperature, a thunderstorm or wind above
   * 50 km/h; otherwise medium on strong temperature, rain or wind above 35 km/h;
   * otherwise low.
   */
  function RiskLevel(w: Reading): (risk: Risk)
    ensures risk == High <==>
      w.temp > 38.0 || w.temp < -5.0 || Contains(Lower(w.condition), "thunderstorm") || WindKmh(w) > 50.0
    ensures risk == Medium <==>
      !(w.temp > 38.0 || w.temp < -5.0 || Contains(Lower(w.condition), "thunderstorm") || WindKmh(w) > 50.0)
      && (w.temp > 33.0 || w.temp < 5.0 || Contains(Lower(w.condition), "rain") || WindKmh(w) > 35.0)
    ensures risk == Low <==>
      w.temp <= 33.0 && w.temp >= 5.0 && !Contains(Lower(w.condition), "thunderstorm")
      && !Contains(Lower(w.condition), "rain") && WindKmh(w) <= 35.0
  {
    var temp := w.temp;
    var condition := Lower(w.condition);
    var windSpeed := w.windSpeed * 3.6;
    if temp > 38.0 || temp < -5.0 || Contains(condition, "thunderstorm") || windSpeed > 50.0 then High
    else if temp > 33.0 || temp < 5.0 || Contains(condition, "rain") || windSpeed > 35.0 then Medium
    else Low
  }

  /** A thunderstorm warning in the advisories means high risk. */
  lemma ThunderstormMeansHighRisk(w: Reading)
    ensures ThunderstormWarning in FiredRules(w) ==> RiskLevel(w) == High
  {
    FiredAdvisory(ThunderstormWarning, w);
  }

  /** Extreme heat, freezing, strong wind or the rainy-day indoor tip in the advisories each rule out low risk. */
  lemma SevereAdvisoryMeansRisk(r: Rule, w: Reading)
    requires r == ExtremeHeat || r == Freezing || r == StrongWinds || r == IndoorActivity
    ensures r in FiredRules(w) ==> RiskLevel(w) != Low
  {
    FiredAdvisory(r, w);
  }

  /** Drizzle raises the rain advisory but, not being "rain", leaves a mild reading at low risk. */
  lemma DrizzleIsLowRisk(w: Reading)
    requires w.temp == 22.0 && w.condition == "Drizzle" && w.windSpeed == 1.0
    ensures Rainy in FiredRules(w) && RiskLevel(w) == Low
  {
    DrizzleLower();
    DrizzleWords();
    FiredAdvisory(Rainy, w);
  }

  /** The condition as sent, lower-cased. */
  lemma DrizzleLower()
    ensures Lower("Drizzle") == "drizzle"
  {
    var s := "Drizzle";
    assert forall i | 0 <= i < |s| :: LowerChar(s[i]) == "drizzle"[i];
  }

  /** "drizzle" contains itself but neither "rain" nor "thunderstorm". */
  lemma DrizzleWords()
    ensures Contains("drizzle", "drizzle")
    ensures !Contains("drizzle", "rain") && !Contains("drizzle", "thunderstorm")
  {
    var c := "drizzle";
    DrizzleHasNoRain();
    assert OccursAt(c, "drizzle", 0);
    ContainsIff(c, "drizzle");
    ContainsFirstChar(c, "thunderstorm");
  }

  // ---------------------------------------------------------------------------
  // `generateInsights`, section by section.
  // ---------------------------------------------------------------------------

  /** The temperature section: at most one record, from the first band that matches. */
  method PushTemperatureInsight(insights: seq<Insight>, temp: real) returns (out: seq<Insight>)
    ensures out == insights + Records(TemperatureAdvisory(temp))
  {
    out := insights;
    if temp > 35.0 {
      out := out + [Present(ExtremeHeat)];
    } else if temp > 30.0 {
      out := out + [Present(HotWeather)];
    } else if temp < 0.0 {
      out := out + [Present(Freezing)];
    } else if temp < 10.0 {
      out := out + [Present(ColdWeather)];
    } else if temp >= 20.0 && temp <= 25.0 {
      out := out + [Present(PerfectWeather)];
    }
  }

  /** The rain section. */
  method PushRainInsight(insights: seq<Insight>, condition: string) returns (out: seq<Insight>)
    ensures out == insights + Records(RainAdvisory(condition))
  {
    out := insights;
    if Contains(condition, "rain") || Contains(condition, "drizzle") {
      out := out + [Present(Rainy)];
    }
  }

  /** The snow section. */
  method PushSnowInsight(insights: seq<Insight>, condition: string) returns (out: seq<Insight>)
    ensures out == insights + Records(SnowAdvisory(condition))
  {
    out := insights;
    if Contains(condition, "snow") {
      out := out + [Present(Snowy)];
    }
  }

  /** The thunderstorm section. */
  method PushThunderstormInsight(insights: seq<Insight>, condition: string) returns (out: seq<Insight>)
    ensures out == insights + Records(ThunderstormAdvisory(condition))
  {
    out := insights;
    if Contains(condition, "thunderstorm") {
      out := out + [Present(ThunderstormWarning)];
    }
  }

  /** The humidity section: high wins over low, nothing in between. */
  method PushHumidityInsight(insights: seq<Insight>, humidity: int) returns (out: seq<Insight>)
    ensures out == insights + Records(HumidityAdvisory(humidity))
  {
    out := insights;
    if humidity > 80 {
      out := out + [Present(HighHumidity)];
    } else if humidity < 30 {
      out := out + [Present(LowHumidity)];
    }
  }

  /** The wind section, on the speed in km/h. */
  method PushWindInsight(insights: seq<Insight>, windSpeed: real) returns (out: seq<Insight>)
    ensures out == insights + Records(WindAdvisory(windSpeed))
  {
    out := insights;
    if windSpeed > 40.0 {
      out := out + [Present(StrongWinds)];
    }
  }

  /** The visibility section. */
  method PushVisibilityInsight(insights: seq<Insight>, visibility: int) returns (out: seq<Insight>)
    ensures out == insights + Records(VisibilityAdvisory(visibility))
  {
    out := insights;
    if visibility < 1000 {
      out := out + [Present(PoorVisibility)];
    }
  }

  /** The clothing and activity sections: push the tip when there is one. */
  method PushTip(insights: seq<Insight>, tip: Option<Rule>) returns (out: seq<Insight>)
    ensures out == insights + Records(tip)
  {
    out := insights;
    if tip.Some? {
      out := out + [Present(tip.value)];
    }
  }

  /**
   * `generateInsights`: runs the sections in order, each appending at most one
   * record, and appends the fallback record when the list is still empty at the end.
   */
  method GenerateInsights(w: Reading) returns (insights: seq<Insight>)
    ensures insights == Render(FiredRules(w))
    ensures 1 <= |insights| <= 9
    ensures forall r :: Present(r) in insights <==> Fires(r, w)
  {
    insights := [];
    var temp := w.temp;
    var condition := Lower(w.condition);
    var humidity := w.humidity;
    var windSpeed := w.windSpeed * 3.6;

    insights := PushTemperatureInsight(insights, temp);
    insights := PushRainInsight(insights, condition);
    insights := PushSnowInsight(insights, condition);
    insights := PushThunderstormInsight(insights, condition);
    insights := PushHumidityInsight(insights, humidity);
    insights := PushWindInsight(insights, windSpeed);
    insights := PushVisibilityInsight(insights, w.visibility);
    var clothingTip := ClothingRecommendation(temp, condition);
    insights := PushTip(insights, clothingTip);
    var activityTip := ActivitySuggestion(temp, condition);
    insights := PushTip(insights, activityTip);
    assert insights == SectionRecords(w);

    if |insights| == 0 {
      insights := insights + [Present(GeneralUpdate)];
    }
    GeneratedRecords(w, insights);
  }
}
