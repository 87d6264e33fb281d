/** Worked examples of the keyword chain of components/AIChatbot.tsx. */
module Scenarios {
  import opened Text
  import opened Responder

  /** "drain" holds none of the watering, fertilising, disease or sunlight
      triggers. */
  lemma DrainSilentEarly(m: string)
    requires m == "drain"
    ensures Silent(Watering, m) && Silent(Fertilizing, m)
    ensures Silent(Disease, m) && Silent(Sunlight, m)
  {
    MissingCharRulesOut(m, "water", 'w');
    MissingCharRulesOut(m, "fertiliz", 'f');
    MissingCharRulesOut(m, "disease", 's');
    MissingCharRulesOut(m, "pest", 'p');
    MissingCharRulesOut(m, "sun", 's');
    MissingCharRulesOut(m, "light", 'l');
  }

  /** "drain" holds none of the care or market triggers. */
  lemma DrainSilentLate(m: string)
    requires m == "drain"
    ensures Silent(Care, m) && Silent(Market, m)
  {
    MissingCharRulesOut(m, "care", 'c');
    MissingCharRulesOut(m, "tip", 't');
    MissingCharRulesOut(m, "market", 'm');
    MissingCharRulesOut(m, "price", 'p');
    MissingCharRulesOut(m, "sell", 's');
  }

  /** Matching is by substring, not by word: the lower-cased text "drain"
      fires the weather rule through "rain", and nothing earlier fires. */
  lemma DrainIsWeather(m: string)
    requires m == "drain"
    ensures Classify(m) == Weather
  {
    assert Contains(m, "rain") by {
      ContainsInfix("d", "rain", "");
      assert "d" + "rain" + "" == m;
    }
    DrainSilentEarly(m);
    DrainSilentLate(m);
    ClassifyIffQuiet(Weather, m);
  }
}
