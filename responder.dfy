/** The scripted farm assistant of components/AIChatbot.tsx: `getAIResponse`
    picks one canned advisory paragraph by testing the lower-cased question
    for keywords in a fixed order, and `handleQuickReply` turns a quick-reply
    button id into a canned question. */
module Responder {
  import opened Text

  /** The eight replies, in the order the keyword tests are made. */
  datatype Category = Watering | Fertilizing | Disease | Sunlight | Care | Market | Weather | General

  /** Position of a rule in the chain; General is the final `else`. */
  function Rank(c: Category): nat
  {
    match c
    case Watering => 0
    case Fertilizing => 1
    case Disease => 2
    case Sunlight => 3
    case Care => 4
    case Market => 5
    case Weather => 6
    case General => 7
  }

  /** The substrings whose presence fires each rule. */
  function Triggers(c: Category): seq<string>
  {
    match c
    case Watering => ["water"]
    case Fertilizing => ["fertiliz"]
    case Disease => ["disease", "pest"]
    case Sunlight => ["sun", "light"]
    case Care => ["care", "tip"]
    case Market => ["market", "price", "sell"]
    case Weather => ["weather", "rain", "forecast"]
    case General => []
  }

  /** All fourteen trigger substrings, in chain order. */
  const AllTriggers: seq<string> :=
    ["water", "fertiliz", "disease", "pest", "sun", "light", "care", "tip",
     "market", "price", "sell", "weather", "rain", "forecast"]

  /** Some trigger of rule `c` occurs in the lower-cased text `m`. */
  predicate Fires(c: Category, m: string)
  {
    exists t :: t in Triggers(c) && Contains(m, t)
  }

  /** Reference definition of first-match-wins: `c` is the rule that answers
      `m` when it fires (or is the fallback) and no earlier rule fires. */
  predicate FirstMatch(c: Category, m: string)
  {
    (c == General || Fires(c, m)) && forall d :: Rank(d) < Rank(c) ==> !Fires(d, m)
  }

  /** At most one rule is the first match. */
  lemma FirstMatchUnique(c1: Category, c2: Category, m: string)
    requires FirstMatch(c1, m) && FirstMatch(c2, m)
    ensures c1 == c2
  {
    assert Rank(c1) < Rank(c2) ==> !Fires(c1, m);
    assert Rank(c2) < Rank(c1) ==> !Fires(c2, m);
  }

  /** The keyword chain of `getAIResponse`, applied to the lower-cased text:
      its result is the first match. */
  function Classify(m: string): (r: Category)
    ensures FirstMatch(r, m)
  {
    SilentIffNotFiresAll(m);
    if Contains(m, "water") then Watering
    else if Contains(m, "fertiliz") then Fertilizing
    else if Contains(m, "disease") || Contains(m, "pest") then Disease
    else if Contains(m, "sun") || Contains(m, "light") then Sunlight
    else if Contains(m, "care") || Contains(m, "tip") then Care
    else if Contains(m, "market") || Contains(m, "price") || Contains(m, "sell") then Market
    else if Contains(m, "weather") || Contains(m, "rain") || Contains(m, "forecast") then Weather
    else General
  }

  /** The fixed text a reply starts with, before the plant name. */
  function Lead(c: Category): string
  {
    match c
    case Watering => "For your "
    case Fertilizing => "For "
    case Disease => "Based on your "
    case Sunlight => ""
    case Care => "For maximizing your "
    case Market => "Current market prices for "
    case Weather => "Based on weather forecasts for your region, expect moderate rainfall (15-20mm) over the next 5 days. Consider delaying any pesticide application until after this rain period. The upcoming humidity may increase disease pressure, so monitor your "
    case General => "Thank you for your question about your "
  }

  /** The fixed text a reply ends with, after the plant name. */
  function Tail(c: Category): string
  {
    match c
    case Watering =>
      " crop, maintain consistent soil moisture. During the vegetative stage, water when the top 2-3 cm of soil feels dry. Reduce watering during ripening to improve flavor and reduce disease risk."
    case Fertilizing =>
      ", apply nitrogen-rich fertilizer during early growth stages. Switch to phosphorus and potassium-rich fertilizer during flowering and fruiting. Consider organic options like compost tea or manure for sustainable farming."
    case Disease =>
      " image, I've detected early signs of Early Blight. Remove infected leaves immediately and improve air circulation between plants. Apply copper-based fungicide every 7-10 days. For prevention, practice crop rotation and avoid overhead irrigation."
    case Sunlight =>
      " requires full sun exposure (6-8 hours daily) for optimal yield. In your region's climate, consider providing afternoon shade during the hottest months to prevent sun scald on fruits."
    case Care =>
      " yield: 1) Plant in well-draining soil with pH 6.0-6.8, 2) Space plants properly for air circulation, 3) Implement drip irrigation to reduce leaf wetness, 4) Apply mulch to conserve moisture and suppress weeds, 5) Consider companion planting with marigolds to deter pests."
    case Market =>
      " in your region range from $0.75-$1.25/kg depending on quality. Consider direct marketing to local restaurants for premium prices. Organic certified crops can command 20-30% higher prices."
    case Weather =>
      " closely."
    case General =>
      " crop. To provide more specific advice for your farm, could you share more details about your soil type, irrigation method, or the specific symptoms you're observing?"
  }

  /** The reply of rule `c`: its fixed text with the plant name spliced in,
      so that every reply quotes the plant name verbatim. */
  function Template(c: Category, plantName: string): (r: string)
    ensures Contains(r, plantName)
  {
    ContainsInfix(Lead(c), plantName, Tail(c));
    Lead(c) + plantName + Tail(c)
  }

  /** `getAIResponse(userMessage, plantName)`: the reply of the first rule
      that fires on the lower-cased message; total, and it always quotes the
      plant name. */
  function Respond(userMessage: string, plantName: string): (r: string)
    ensures forall c :: FirstMatch(c, Lower(userMessage)) ==> r == Template(c, plantName)
    ensures Contains(r, plantName)
  {
    var c := Classify(Lower(userMessage));
    assert forall d :: FirstMatch(d, Lower(userMessage)) ==> d == c by {
      forall d | FirstMatch(d, Lower(userMessage)) {
        FirstMatchUnique(d, c, Lower(userMessage));
      }
    }
    Template(c, plantName)
  }

  /** Matching ignores case: the reply depends on the message only through
      its lower-cased form. */
  lemma RespondIgnoresCase(userMessage: string, plantName: string)
    ensures Respond(userMessage, plantName) == Respond(Lower(userMessage), plantName)
  {
    LowerIdempotent(userMessage);
  }

  /** Two messages with the same lower-cased form get the same reply. */
  lemma SameLowerSameReply(a: string, b: string, plantName: string)
    requires Lower(a) == Lower(b)
    ensures Respond(a, plantName) == Respond(b, plantName)
  {
  }

  /** Any message mentioning "water", in any case, gets the watering reply,
      whatever other keywords it holds. */
  lemma WaterAlwaysWins(userMessage: string, plantName: string)
    requires Contains(Lower(userMessage), "water")
    ensures Respond(userMessage, plantName) == Template(Watering, plantName)
  {
  }

  /** A message holding none of the fourteen triggers gets the fallback. */
  lemma NoTriggerMeansFallback(userMessage: string)
    requires forall t :: t in AllTriggers ==> !Contains(Lower(userMessage), t)
    ensures Classify(Lower(userMessage)) == General
  {
  }

  lemma ShoutedWater()
    ensures Lower("WATER") == Lower("water")
    ensures Classify(Lower("water")) == Watering
  {
    assert Lower("water") == "water";
    assert Contains("water", "water");
  }

  /** A message that names a disease or pest and also a market keyword gets
      the disease reply, as long as it mentions neither watering nor
      fertilising. */
  lemma DiseaseOutranksMarket(m: string)
    requires Contains(m, "disease") || Contains(m, "pest")
    requires Contains(m, "market") || Contains(m, "price") || Contains(m, "sell")
    requires !Contains(m, "water") && !Contains(m, "fertiliz")
    ensures Classify(m) == Disease
  {
    ClassifyIffQuiet(Disease, m);
  }

  /** No trigger occurs in the lower-cased text `m`. */
  predicate MentionsNoTrigger(m: string)
  {
    forall t :: t in AllTriggers ==> !Contains(m, t)
  }

  /** The fallback answers exactly the texts that hold no trigger. */
  lemma FallbackIffNoTrigger(m: string)
    ensures Classify(m) == General <==> MentionsNoTrigger(m)
  {
    if Classify(m) != General {
      var t :| t in Triggers(Classify(m)) && Contains(m, t);
      assert t in AllTriggers;
    }
  }

  /** Rule `c` does not fire on `m`, spelled out trigger by trigger. */
  predicate Silent(c: Category, m: string)
  {
    match c
    case Watering => !Contains(m, "water")
    case Fertilizing => !Contains(m, "fertiliz")
    case Disease => !Contains(m, "disease") && !Contains(m, "pest")
    case Sunlight => !Contains(m, "sun") && !Contains(m, "light")
    case Care => !Contains(m, "care") && !Contains(m, "tip")
    case Market => !Contains(m, "market") && !Contains(m, "price") && !Contains(m, "sell")
    case Weather => !Contains(m, "weather") && !Contains(m, "rain") && !Contains(m, "forecast")
    case General => true
  }

  lemma SilentIffNotFires(c: Category, m: string)
    ensures Silent(c, m) <==> !Fires(c, m)
  {
    if !Silent(c, m) {
      match c
      case Watering => assert "water" in Triggers(c);
      case Fertilizing => assert "fertiliz" in Triggers(c);
      case Disease => assert "disease" in Triggers(c) && "pest" in Triggers(c);
      case Sunlight => assert "sun" in Triggers(c) && "light" in Triggers(c);
      case Care => assert "care" in Triggers(c) && "tip" in Triggers(c);
      case Market => assert "market" in Triggers(c) && "price" in Triggers(c) && "sell" in Triggers(c);
      case Weather => assert "weather" in Triggers(c) && "rain" in Triggers(c) && "forecast" in Triggers(c);
    }
  }

  lemma SilentIffNotFiresAll(m: string)
    ensures forall c :: Silent(c, m) <==> !Fires(c, m)
  {
    forall c {
      SilentIffNotFires(c, m);
    }
  }

  /** No rule ranked before `c` fires on `m`. */
  predicate Quiet(c: Category, m: string)
  {
    (Rank(c) > 0 ==> Silent(Watering, m)) && (Rank(c) > 1 ==> Silent(Fertilizing, m))
    && (Rank(c) > 2 ==> Silent(Disease, m)) && (Rank(c) > 3 ==> Silent(Sunlight, m))
    && (Rank(c) > 4 ==> Silent(Care, m)) && (Rank(c) > 5 ==> Silent(Market, m))
    && (Rank(c) > 6 ==> Silent(Weather, m))
  }

  /** The chain answers `m` with `c` exactly when no earlier rule fires and
      `c` itself fires (or is the fallback). */
  lemma ClassifyIffQuiet(c: Category, m: string)
    ensures Classify(m) == c <==> Quiet(c, m) && (c == General || !Silent(c, m))
  {
    forall d {
      SilentIffNotFires(d, m);
    }
    if Quiet(c, m) && (c == General || !Silent(c, m)) {
      assert FirstMatch(c, m);
    }
  }

  /** The chain only looks at which rules fire. */
  lemma SameSilenceSameClass(m1: string, m2: string)
    requires forall c :: Silent(c, m1) <==> Silent(c, m2)
    ensures Classify(m1) == Classify(m2)
  {
    ClassifyIffQuiet(Classify(m1), m1);
    ClassifyIffQuiet(Classify(m1), m2);
  }

  /** A character that is not a letter occurs in no trigger. */
  lemma NonLetterNotInTrigger(c: char, t: string)
    requires t in AllTriggers && !IsLetter(c)
    ensures c !in t
  {
  }

  /** A trigger cannot straddle a character that is not a letter: across such
      a seam, a rule is silent on the whole exactly when it is silent on both
      sides. */
  lemma SilentAcrossSeam(c: Category, a: string, b: string)
    requires (a != [] && !IsLetter(a[|a| - 1])) || (b != [] && !IsLetter(b[0]))
    ensures Silent(c, a + b) <==> Silent(c, a) && Silent(c, b)
  {
    forall t | t in Triggers(c)
      ensures Contains(a + b, t) <==> Contains(a, t) || Contains(b, t)
    {
      assert t in AllTriggers;
      if a != [] && !IsLetter(a[|a| - 1]) {
        NonLetterNotInTrigger(a[|a| - 1], t);
      } else {
        NonLetterNotInTrigger(b[0], t);
      }
      ContainsAcrossSeam(a, b, t);
    }
  }

  /** A plant name that holds no trigger, spliced in at non-letter seams, does
      not change the reply to a question: it is the reply to the question with
      the name left out. */
  lemma NameDoesNotRoute(lead: string, name: string, tail: string)
    requires lead != [] && !IsLetter(lead[|lead| - 1])
    requires tail != [] && !IsLetter(tail[0])
    requires MentionsNoTrigger(Lower(name))
    ensures Classify(Lower(lead + name + tail)) == Classify(Lower(lead + tail))
  {
    LowerConcat(lead + name, tail);
    LowerConcat(lead, name);
    LowerConcat(lead, tail);
    var l, n, r := Lower(lead), Lower(name), Lower(tail);
    assert l[|l| - 1] == LowerChar(lead[|lead| - 1]);
    assert r[0] == LowerChar(tail[0]);
    FallbackIffNoTrigger(n);
    ClassifyIffQuiet(General, n);
    forall c ensures Silent(c, l + n + r) <==> Silent(c, l + r) {
      SilentAcrossSeam(c, l + n, r);
      SilentAcrossSeam(c, l, n);
      SilentAcrossSeam(c, l, r);
    }
    SameSilenceSameClass(l + n + r, l + r);
  }

  /** The text of `handleQuickReply`'s canned question before the plant name. */
  function QuestionLead(buttonId: string): string
  {
    if buttonId == "care" then "What are the best practices for growing "
    else if buttonId == "water" then "What's the optimal irrigation schedule for "
    else if buttonId == "disease" then "What diseases and pests commonly affect "
    else if buttonId == "fertilizer" then "What fertilizer schedule is recommended for "
    else if buttonId == "sunlight" then "How much sunlight does "
    else if buttonId == "market" then "What are current market prices for "
    else if buttonId == "weather" then "How will upcoming weather affect my "
    else "Tell me more about growing "
  }

  /** The text of the canned question after the plant name. */
  function QuestionTail(buttonId: string): string
  {
    if buttonId == "care" then "?"
    else if buttonId == "water" then " in my region?"
    else if buttonId == "disease" then " crops?"
    else if buttonId == "fertilizer" then "?"
    else if buttonId == "sunlight" then " need for optimal yield?"
    else if buttonId == "market" then "?"
    else if buttonId == "weather" then " crop?"
    else " commercially."
  }

  /** `handleQuickReply`'s switch: the canned question of a button id, which
      always names the plant. */
  function QuickReplyQuestion(buttonId: string, plantName: string): (r: string)
    ensures Contains(r, plantName)
  {
    ContainsInfix(QuestionLead(buttonId), plantName, QuestionTail(buttonId));
    QuestionLead(buttonId) + plantName + QuestionTail(buttonId)
  }

  /** The ids of the default quick-reply buttons, in display order. */
  const QuickReplyIds: seq<string> := ["care", "water", "disease", "fertilizer", "market", "weather", "sunlight"]

  /** Every canned question of a default button opens with "W" or "H"; only
      the generic one opens with "T". */
  lemma LeadOpening(buttonId: string)
    ensures QuestionLead(buttonId) != []
    ensures QuestionLead(buttonId)[0] == 'T' <==> buttonId !in QuickReplyIds
  {
    var lead := QuestionLead(buttonId);
    if buttonId in QuickReplyIds {
      if buttonId == "care" || buttonId == "water" || buttonId == "disease" || buttonId == "market" {
        assert lead[0] == 'W';
      } else if buttonId == "fertilizer" {
        assert lead == "What fertilizer schedule is recommended for ";
      } else {
        assert lead[0] == 'H';
      }
    } else {
      assert buttonId != "care" && buttonId != "water" && buttonId != "disease" && buttonId != "fertilizer";
      assert buttonId != "market" && buttonId != "weather" && buttonId != "sunlight";
      assert lead == "Tell me more about growing ";
    }
  }

  /** The switch recognises exactly the default button ids: any other id gets
      the generic question. */
  lemma QuickReplyIdsRecognised(buttonId: string, plantName: string)
    ensures buttonId in QuickReplyIds
      <==> QuickReplyQuestion(buttonId, plantName) != "Tell me more about growing " + plantName + " commercially."
  {
    var q := QuickReplyQuestion(buttonId, plantName);
    var generic := "Tell me more about growing " + plantName + " commercially.";
    LeadOpening(buttonId);
    assert generic[0] == 'T';
    assert q[0] == QuestionLead(buttonId)[0];
  }
}
