/** The threshold classifiers of the mood panels: the score status of the
    dashboard (src/pages/Dash_old.jsx, getMoodStatus) and the trend, greeting,
    impact label and recommendation list of the analysis page
    (src/pages/MoodAnalysis.jsx).  Focus, energy and mood scores are inputs. */
module Mood {
  import opened Readings

  // ---------------------------------------------------------------------
  // getMoodStatus

  datatype Status = Low | Moderate | Good

  /** Low < Moderate < Good. */
  function Rank(s: Status): nat
  {
    match s
    case Low => 0
    case Moderate => 1
    case Good => 2
  }

  /** The status of one score: Good from 0.7, Moderate from 0.5, else Low. */
  function MoodStatus(score: real): (s: Status)
    ensures s == Good <==> score >= 0.7
    ensures s == Moderate <==> 0.5 <= score < 0.7
    ensures s == Low <==> score < 0.5
  {
    if score >= 0.7 then Good
    else if score >= 0.5 then Moderate
    else Low
  }

  function StatusText(s: Status): string
  {
    match s
    case Good => "Good"
    case Moderate => "Moderate"
    case Low => "Low"
  }

  /** The colour shown for a status. */
  function StatusColor(s: Status): string
  {
    match s
    case Good => "#4caf50"
    case Moderate => "#ff9800"
    case Low => "#f44336"
  }

  /** Status text and colour determine each other: the colour is a function
      of the text. */
  lemma StatusTextDeterminesColor(s1: Status, s2: Status)
    ensures StatusText(s1) == StatusText(s2) <==> s1 == s2
    ensures StatusColor(s1) == StatusColor(s2) <==> s1 == s2
  {
  }

  /** A higher score never gets a lower status. */
  lemma MoodStatusMonotone(s1: real, s2: real)
    requires s1 <= s2
    ensures Rank(MoodStatus(s1)) <= Rank(MoodStatus(s2))
  {
  }

  // ---------------------------------------------------------------------
  // getMoodTrend

  datatype Trend = NeedsAttention | Stable | Positive

  function Average(focus: real, energy: real, mood: real): real
  {
    (focus + energy + mood) / 3.0
  }

  /** The trend of the three scores' average, on the same thresholds as the
      status. */
  function MoodTrend(focus: real, energy: real, mood: real): (t: Trend)
    ensures t == Positive <==> focus + energy + mood >= 2.1
    ensures t == Stable <==> 1.5 <= focus + energy + mood < 2.1
    ensures t == NeedsAttention <==> focus + energy + mood < 1.5
  {
    var avg := Average(focus, energy, mood);
    if avg >= 0.7 then Positive
    else if avg >= 0.5 then Stable
    else NeedsAttention
  }

  function TrendText(t: Trend): string
  {
    match t
    case Positive => "\U{2197}\U{FE0F} Positive"
    case Stable => "\U{27A1}\U{FE0F} Stable"
    case NeedsAttention => "\U{2198}\U{FE0F} Needs Attention"
  }

  function TrendColor(t: Trend): string
  {
    match t
    case Positive => "#4caf50"
    case Stable => "#ff9800"
    case NeedsAttention => "#f44336"
  }

  /** The trend is the status of the average: same thresholds, same colours. */
  lemma TrendIsStatusOfAverage(focus: real, energy: real, mood: real)
    ensures TrendColor(MoodTrend(focus, energy, mood)) == StatusColor(MoodStatus(Average(focus, energy, mood)))
    ensures MoodTrend(focus, energy, mood) == Positive <==> MoodStatus(Average(focus, energy, mood)) == Good
    ensures MoodTrend(focus, energy, mood) == Stable <==> MoodStatus(Average(focus, energy, mood)) == Moderate
  {
  }

  /** Only the average matters: permuting focus, energy and mood never
      changes the trend. */
  lemma MoodTrendPermutationInvariant(a: real, b: real, c: real, x: real, y: real, z: real)
    requires multiset{a, b, c} == multiset{x, y, z}
    ensures MoodTrend(a, b, c) == MoodTrend(x, y, z)
  {
  }

  // ---------------------------------------------------------------------
  // generateInitialGreeting and the air-quality impact label

  datatype Greeting = PoorAirGreeting | ModerateAirGreeting | GoodAirGreeting

  /** The greeting for the current AQI.  An AQI that is absent or a
      placeholder such as "N/A" fails both comparisons and gets the good-air
      greeting. */
  function InitialGreeting(aqi: Reading): (g: Greeting)
    ensures g == PoorAirGreeting <==> Above(aqi, 150.0)
    ensures g == ModerateAirGreeting <==> Above(aqi, 100.0) && !Above(aqi, 150.0)
    ensures g == GoodAirGreeting <==> !Above(aqi, 100.0)
  {
    if Above(aqi, 150.0) then PoorAirGreeting
    else if Above(aqi, 100.0) then ModerateAirGreeting
    else GoodAirGreeting
  }

  const PoorAirText := "Hi! I'm your AI Mood Companion. I see the air quality is quite poor today. I'm here to help you manage the impact on your well-being. How are you feeling right now?"
  const ModerateAirText := "Hello! I'm your AI wellness assistant. The air quality is moderate today, which might affect your mood and energy. How can I support you today?"
  const GoodAirText := "Hi there! I'm your AI Mood Companion. The air quality looks good today! I'm here to help you optimize your well-being. What would you like to know?"

  function GreetingText(g: Greeting): string
  {
    match g
    case PoorAirGreeting => PoorAirText
    case ModerateAirGreeting => ModerateAirText
    case GoodAirGreeting => GoodAirText
  }

  /** Greetings ordered by how bad the air is. */
  function Severity(g: Greeting): nat
  {
    match g
    case GoodAirGreeting => 0
    case ModerateAirGreeting => 1
    case PoorAirGreeting => 2
  }

  /** Worse air never gets a milder greeting. */
  lemma GreetingMonotone(a1: real, a2: real)
    requires a1 <= a2
    ensures Severity(InitialGreeting(Some(a1))) <= Severity(InitialGreeting(Some(a2)))
  {
  }

  datatype Impact = LowImpact | ModerateImpact | HighImpact

  /** The "Air Quality Impact" label: High above 100, Moderate above 50,
      otherwise (including an absent AQI) Low. */
  function ImpactLabel(aqi: Reading): (l: Impact)
    ensures l == HighImpact <==> Above(aqi, 100.0)
    ensures l == ModerateImpact <==> Above(aqi, 50.0) && !Above(aqi, 100.0)
    ensures l == LowImpact <==> !Above(aqi, 50.0)
  {
    if Above(aqi, 100.0) then HighImpact
    else if Above(aqi, 50.0) then ModerateImpact
    else LowImpact
  }

  function ImpactText(l: Impact): string
  {
    match l
    case HighImpact => "High"
    case ModerateImpact => "Moderate"
    case LowImpact => "Low"
  }

  function ImpactRank(l: Impact): nat
  {
    match l
    case LowImpact => 0
    case ModerateImpact => 1
    case HighImpact => 2
  }

  /** A larger AQI never gives a lower impact label, and an absent AQI gives
      the lowest. */
  lemma ImpactMonotone(a1: real, a2: real)
    requires a1 <= a2
    ensures ImpactRank(ImpactLabel(Some(a1))) <= ImpactRank(ImpactLabel(Some(a2)))
    ensures ImpactRank(ImpactLabel(None)) <= ImpactRank(ImpactLabel(Some(a1)))
  {
  }

  /** Whenever the greeting warns about the air (AQI above 100) the impact
      label is High, and the good-air greeting never comes with High. */
  lemma GreetingAgreesWithImpact(aqi: Reading)
    ensures InitialGreeting(aqi) != GoodAirGreeting <==> ImpactLabel(aqi) == HighImpact
  {
  }

  /** Each displayed trend text names exactly one trend. */
  lemma TrendTextIdentifiesTrend(t1: Trend, t2: Trend)
    ensures TrendText(t1) == TrendText(t2) <==> t1 == t2
  {
    if t1 != t2 {
      assert TrendText(t1)[0] != TrendText(t2)[0];
    }
  }

  /** Each greeting text names exactly one greeting (the three differ in length). */
  lemma GreetingTextIdentifiesGreeting(g1: Greeting, g2: Greeting)
    ensures GreetingText(g1) == GreetingText(g2) <==> g1 == g2
  {
    assert |PoorAirText| == 164 && |ModerateAirText| == 143 && |GoodAirText| == 147;
  }

  /** Each impact text names exactly one impact label. */
  lemma ImpactTextIdentifiesImpact(l1: Impact, l2: Impact)
    ensures ImpactText(l1) == ImpactText(l2) <==> l1 == l2
  {
    if l1 != l2 {
      assert ImpactText(l1)[0] != ImpactText(l2)[0];
    }
  }

  // ---------------------------------------------------------------------
  // The recommendation list

  datatype NumberedRecommendation = NumberedRecommendation(number: int, text: string)

  /** What the recommendations card shows: the numbered items and whether the
      "no special precautions" notice is displayed. */
  datatype RecommendationsCard = RecommendationsCard(items: seq<NumberedRecommendation>, showsNoPrecautions: bool)

  function RenderRecommendations(recs: seq<string>): (card: RecommendationsCard)
    ensures Texts(card.items) == recs
    ensures forall i :: 0 <= i < |card.items| ==> card.items[i].number == i + 1
    ensures card.showsNoPrecautions <==> |card.items| == 0
  {
    var items := seq(|recs|, i requires 0 <= i < |recs| => NumberedRecommendation(i + 1, recs[i]));
    TextsElementwise(items, recs);
    RecommendationsCard(items, |recs| == 0)
  }

  /** The texts of the shown items, in order. */
  function Texts(items: seq<NumberedRecommendation>): (ts: seq<string>)
    ensures |ts| == |items|
  {
    if |items| == 0 then [] else [items[0].text] + Texts(items[1..])
  }

  /** Reading the texts back is element-wise. */
  lemma {:induction false} TextsElementwise(items: seq<NumberedRecommendation>, recs: seq<string>)
    requires |items| == |recs|
    requires forall i :: 0 <= i < |items| ==> items[i].text == recs[i]
    ensures Texts(items) == recs
  {
    if |items| > 0 {
      TextsElementwise(items[1..], recs[1..]);
    }
  }
}
