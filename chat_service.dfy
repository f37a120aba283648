/** The study-coach chat service: an external language model when the user supplies an API
    key, a table of study-technique answers keyed by regular expressions otherwise (and
    whenever the external reply looks like an error), and the choice of a Gemini model from
    the models a key may use. */
module Chat {
  import opened Wrappers
  import Text

  // ---------------------------------------------------------------------------------------
  // The local answer table

  /** Number of entries in the answer table. */
  const PatternCount: nat := 27

  /** Regular expression of table entry `i`, in table order. */
  function Pattern(i: nat): string
    requires i < PatternCount
  {
    if i < 13 then
      if i == 0 then "memory|remember|forget|retention"
      else if i == 1 then "feynman|explain|teach|simplif"
      else if i == 2 then "retrieval practice|testing|quiz"
      else if i == 3 then "spaced repetition|anki|flashcard"
      else if i == 4 then "elaborative|elaboration|why|how"
      else if i == 5 then "dual coding|visual|diagram|image"
      else if i == 6 then "concrete example|real.world|application"
      else if i == 7 then "interleaving|interleave|mix|switch"
      else if i == 8 then "self.explanation|explain to myself"
      else if i == 9 then "focus|concentrat|distract|attention"
      else if i == 10 then "pomodoro|timer|break"
      else if i == 11 then "deep work|flow|immersion"
      else "motivat|tired|bore|uninspired"
    else
      if i == 13 then "procrastinat|lazy|start|avoid"
      else if i == 14 then "growth mindset|failure|mistake"
      else if i == 15 then "goal|plan|objective"
      else if i == 16 then "plan|schedul|organiz|routine"
      else if i == 17 then "priorit|important|urgent"
      else if i == 18 then "study environment|workspace|setup"
      else if i == 19 then "note.taking|notes|cornell"
      else if i == 20 then "exam|test|quiz|assessment"
      else if i == 21 then "test anxiety|exam stress|nervous"
      else if i == 22 then "cognitive load|overwhelm|too much"
      else if i == 23 then "metacognition|thinking about thinking|self.aware"
      else if i == 24 then "hello|hi|hey|greetings"
      else if i == 25 then "help|what can you|capabilities"
      else "thank|thanks|appreciate"
  }

  /** The answer of table entry `i`. The two greeting-and-help entries sit between the
      learning-science entries and the thanks entry, as in the table. */
  function Response(i: nat): string
    requires i < PatternCount
  {
    if i < 13 then
      if i == 0 then "Memory can be improved using **Spaced Repetition** and **Active Recall**. Try breaking your study sessions into smaller chunks and testing yourself frequently. Review material at increasing intervals: 1 day, 3 days, 1 week, 2 weeks."
      else if i == 1 then "The **Feynman Technique** is powerful: 1) Choose a concept. 2) Explain it in simple terms as if teaching a child. 3) Identify gaps in your understanding. 4) Review and simplify further. Teaching forces deep understanding!"
      else if i == 2 then "**Retrieval Practice** is one of the most effective study methods! Instead of re-reading, close your notes and try to recall everything. Use flashcards, practice tests, or just write down what you remember. The struggle to recall strengthens memory."
      else if i == 3 then "**Spaced Repetition** leverages the forgetting curve. Review material right before you're about to forget it. Use apps like Anki or create a schedule: Day 1, Day 3, Week 1, Week 2, Month 1. This creates long-term retention with less total study time."
      else if i == 4 then "**Elaborative Interrogation** means asking 'why' and 'how' questions. Don't just memorize facts—understand the reasoning behind them. Ask: 'Why is this true?' 'How does this connect to what I already know?' This creates deeper, more durable learning."
      else if i == 5 then "**Dual Coding** combines words with visuals. Draw diagrams, create mind maps, or use imagery alongside your notes. Your brain processes visual and verbal information differently, so using both creates stronger memory traces."
      else if i == 6 then "Use **Concrete Examples** to understand abstract concepts. For every theory or formula, find a real-world application. Ask yourself: 'When would I use this?' 'What's a practical example?' This makes learning meaningful and memorable."
      else if i == 7 then "**Interleaving** means mixing different topics or problem types in one session, rather than blocking (doing all of one type). Example: Instead of 20 algebra problems, do 5 algebra, 5 geometry, 5 calculus, repeat. It's harder but creates better long-term learning and transfer."
      else if i == 8 then "**Self-Explanation** is talking through your reasoning. As you study, pause and explain to yourself: 'This step works because...' 'This connects to... because...' Verbalizing your thought process reveals gaps and strengthens understanding."
      else if i == 9 then "To improve focus: 1) **Remove distractions** (phone away, block sites). 2) Use our **Focus Timer** (Pomodoro: 25min work, 5min break). 3) Try **white noise or binaural beats**. 4) Keep a 'distraction list' to write down intrusive thoughts and deal with them later."
      else if i == 10 then "The **Pomodoro Technique**: Work for 25 minutes with full focus, then take a 5-minute break. After 4 pomodoros, take a longer 15-30 minute break. This prevents burnout and maintains high concentration. Use our Focus Timer!"
      else if i == 11 then "**Deep Work** requires: 1) Eliminate all distractions. 2) Set a specific, challenging goal. 3) Time-box your session (90-120 min max). 4) Take real breaks between sessions. Quality > Quantity. One hour of deep focus beats three hours of shallow work."
      else "Motivation follows action, not the other way around. Don't wait to feel motivated—**start with just 5 minutes**. Use the **2-Minute Rule**: if it takes less than 2 minutes, do it now. Build momentum with small wins. Motivation will come once you're in motion."
    else
      if i == 13 then "Procrastination often comes from: 1) **Lack of clarity** (break tasks into tiny steps). 2) **Fear of failure** (focus on learning, not perfection). 3) **Task seems too big** (just do 5 minutes). Try the **2-Minute Rule** or **Pomodoro Technique** to overcome initial resistance."
      else if i == 14 then "Embrace a **Growth Mindset**: Mistakes and struggles are where learning happens. When you find something difficult, say 'I can't do this *yet*.' View challenges as opportunities to grow, not signs of inadequacy. Your brain literally grows when you struggle!"
      else if i == 15 then "Set **SMART goals**: Specific, Measurable, Achievable, Relevant, Time-bound. Instead of 'study more,' try 'complete 3 practice problems and review 2 chapters by 5 PM today.' Break big goals into daily actions. Track your progress visually."
      else if i == 16 then "A good study plan is **realistic and specific**. Block time for *specific tasks*, not just 'studying.' Use **time-blocking**: assign each hour a purpose. Prioritize your **hardest subjects when you're most alert** (usually morning). Leave buffer time for the unexpected."
      else if i == 17 then "Use the **Eisenhower Matrix**: 1) Urgent + Important = Do first. 2) Important + Not Urgent = Schedule it. 3) Urgent + Not Important = Delegate/minimize. 4) Neither = Eliminate. Focus on Important tasks before they become Urgent!"
      else if i == 18 then "Optimize your **study environment**: 1) Good lighting (natural light best). 2) Comfortable temperature (slightly cool is ideal). 3) Organized desk (clear space = clear mind). 4) Dedicated study spot (trains your brain). 5) Minimal visual distractions. Your environment shapes your focus!"
      else if i == 19 then "Effective note-taking: Try the **Cornell Method** (divide page: notes, cues, summary) or **Mind Mapping** for visual learners. Don't transcribe—**process and summarize** in your own words. Review and reorganize notes within 24 hours for best retention."
      else if i == 20 then "For exams: 1) **Practice with past papers** under timed conditions—this is the #1 predictor of success. 2) **Identify your weak areas** and focus there. 3) **Simulate exam pressure** to reduce anxiety. 4) **Sleep well** the night before (all-nighters hurt performance). 5) Review your mistakes thoroughly."
      else if i == 21 then "Combat **test anxiety**: 1) **Preparation** is the best anxiety reducer. 2) Practice **4-7-8 breathing**: Inhale 4s, hold 7s, exhale 8s. 3) **Reframe anxiety as excitement** (same physical symptoms!). 4) **Arrive early** to settle in. 5) **Start with easy questions** to build confidence. You've got this!"
      else if i == 22 then "**Cognitive Load Theory**: Your working memory is limited (7±2 items). Reduce load by: 1) **Chunking** information into groups. 2) **Using schemas** (organized knowledge structures). 3) **Eliminating distractions**. 4) **Building on prior knowledge**. Don't try to learn everything at once!"
      else if i == 23 then "**Metacognition** is thinking about your thinking. Ask yourself: 'Do I really understand this?' 'What's my learning strategy?' 'Is this working?' Self-aware learners adjust their approach. Use **self-testing** to calibrate your confidence vs. actual knowledge."
      else if i == 24 then "Hello! I'm your AI Study Coach, powered by learning science. I can help with memory techniques, focus strategies, exam prep, motivation, and effective study methods. What are you working on today?"
      else if i == 25 then "I can help with: **Memory techniques** (Feynman, Spaced Repetition, Retrieval Practice), **Focus strategies** (Pomodoro, Deep Work), **Motivation** (Growth Mindset, Goal Setting), **Study planning**, **Exam preparation**, **Cognitive load management**, and more. Just ask!"
      else "You're very welcome! Keep up the great work. Remember: effective studying is about quality, not just quantity. You've got this! 🎯"
  }

  /** The answer when no entry matches. */
  const DefaultReply: string := "That's an interesting question! I specialize in evidence-based study techniques. I can help with: **Memory** (Spaced Repetition, Feynman Technique), **Focus** (Pomodoro, Deep Work), **Exam Prep**, **Motivation**, **Study Planning**, and more. Could you be more specific about what you'd like to learn?"

  /** `re.search(pattern, text)` succeeds. Regular-expression semantics are not modelled:
      the search is a parameter of the operations that use it. */
  type Matcher = (string, string) -> bool

  /** Whether table entry `j` is found in a text. */
  type EntryMatcher = (nat, string) -> bool

  /** Entry `j` is found in `text` when its pattern is: the table's patterns under a search. */
  function TableSearch(search: Matcher): (found: EntryMatcher)
    ensures forall j: nat, text :: found(j, text) <==> j < PatternCount && search(Pattern(j), text)
  {
    (j: nat, text: string) => j < PatternCount && search(Pattern(j), text)
  }

  /** The first entry at or after `from`, in table order, that is found in `text`. */
  function FirstFound(found: EntryMatcher, text: string, from: nat): (r: Option<nat>)
    requires from <= PatternCount
    ensures r.Some? ==> from <= r.value < PatternCount && found(r.value, text)
    ensures r.Some? ==> forall j :: from <= j < r.value ==> !found(j, text)
    ensures r.None? <==> forall j :: from <= j < PatternCount ==> !found(j, text)
    decreases PatternCount - from
  {
    if from == PatternCount then None
    else if found(from, text) then Some(from)
    else FirstFound(found, text, from + 1)
  }

  /** Which answer the local table gives: the answer of entry `k`, or the default answer. */
  datatype Answer = Entry(k: nat) | Default

  /** The text of an answer. */
  function AnswerText(a: Answer): string
    requires a.Entry? ==> a.k < PatternCount
  {
    match a
    case Entry(k) => Response(k)
    case Default => DefaultReply
  }

  /** The local lookup: the lower-cased message is searched for each pattern in table order
      and the first hit's entry answers, or the default answer when nothing matches. */
  function LocalAnswer(message: string, found: EntryMatcher): (a: Answer)
    ensures a.Entry? ==> a.k < PatternCount
  {
    match FirstFound(found, Text.Lower(message), 0)
    case Some(k) => Entry(k)
    case None => Default
  }

  /** The local answer is the earliest matching entry's, and the default answer exactly when
      no entry matches. */
  lemma LocalAnswerIsFirstMatch(message: string, found: EntryMatcher)
    ensures LocalAnswer(message, found) == Default
            <==> forall j :: 0 <= j < PatternCount ==> !found(j, Text.Lower(message))
    ensures forall k :: 0 <= k < PatternCount && found(k, Text.Lower(message))
              && (forall j :: 0 <= j < k ==> !found(j, Text.Lower(message)))
              ==> LocalAnswer(message, found) == Entry(k)
  {
    var r := FirstFound(found, Text.Lower(message), 0);
    forall k | 0 <= k < PatternCount && found(k, Text.Lower(message))
      && (forall j :: 0 <= j < k ==> !found(j, Text.Lower(message)))
      ensures LocalAnswer(message, found) == Entry(k)
    {
      assert r.Some?;
    }
  }

  /** Only the lower-cased message decides the local answer: messages that differ only in
      the case of their letters get the same answer. */
  lemma LocalAnswerIgnoresCase(a: string, b: string, found: EntryMatcher)
    requires |a| == |b|
    requires forall i :: 0 <= i < |a| ==> Text.LowerChar(a[i]) == Text.LowerChar(b[i])
    ensures LocalAnswer(a, found) == LocalAnswer(b, found)
  {
    assert Text.Lower(a) == Text.Lower(b);
  }

  // ---------------------------------------------------------------------------------------
  // Routing between the external model and the local table

  datatype Provider = Gemini | OpenAI

  /** The outcome of an external call: the text it returned, or an exception. */
  datatype Outcome = Returned(text: string) | Raised

  /** A key is sent to an external model only when it is present and longer than ten
      characters. */
  predicate UsesExternal(apiKey: Option<string>) {
    apiKey.Some? && |apiKey.value| > 10
  }

  /** Keys starting with `AIzaSy` are Gemini keys; every other key goes to OpenAI. */
  function ProviderFor(apiKey: string): Provider {
    if Text.StartsWith(apiKey, "AIzaSy") then Gemini else OpenAI
  }

  /** An external reply is shown only when it is non-empty and does not start with one of
      the error prefixes the callers produce. */
  predicate Acceptable(reply: string) {
    |reply| > 0
    && !Text.StartsWith(reply, "Error")
    && !Text.StartsWith(reply, "Failed")
    && !Text.StartsWith(reply, "All Gemini")
  }

  /** What the user is sent: an external model's text, or an answer of the local table. */
  datatype Reply = External(text: string) | Local(answer: Answer)

  function ReplyText(r: Reply): string
    requires r.Local? && r.answer.Entry? ==> r.answer.k < PatternCount
  {
    match r
    case External(text) => text
    case Local(a) => AnswerText(a)
  }

  /** The external reply is used exactly when the key asks for an external model and the
      reply of the key's provider came back acceptable. */
  predicate ExternalAccepted(apiKey: Option<string>, call: Provider -> Outcome) {
    UsesExternal(apiKey) && call(ProviderFor(apiKey.value)).Returned?
    && Acceptable(call(ProviderFor(apiKey.value)).text)
  }

  /** `get_response`: `call(p)` is what asking provider `p` with this message and key gives. */
  function GetResponse(message: string, apiKey: Option<string>, call: Provider -> Outcome,
                       search: Matcher): (r: Reply)
    ensures r.External? <==> ExternalAccepted(apiKey, call)
    ensures r.External? ==> call(ProviderFor(apiKey.value)) == Returned(r.text) && Acceptable(r.text)
    ensures r.Local? ==> r.answer == LocalAnswer(message, TableSearch(search))
  {
    if ExternalAccepted(apiKey, call) then External(call(ProviderFor(apiKey.value)).text)
    else Local(LocalAnswer(message, TableSearch(search)))
  }

  /** Without a usable key the answer always comes from the local table. */
  lemma NoKeyMeansLocal(message: string, apiKey: Option<string>, call: Provider -> Outcome,
                        search: Matcher)
    requires !UsesExternal(apiKey)
    ensures GetResponse(message, apiKey, call, search) == Local(LocalAnswer(message, TableSearch(search)))
  {
  }

  /** An exception, an empty reply or an error-looking reply falls back to the local table. */
  lemma FailedCallFallsBack(message: string, apiKey: Option<string>, call: Provider -> Outcome,
                            search: Matcher)
    requires UsesExternal(apiKey)
    requires call(ProviderFor(apiKey.value)).Raised? || !Acceptable(call(ProviderFor(apiKey.value)).text)
    ensures GetResponse(message, apiKey, call, search) == Local(LocalAnswer(message, TableSearch(search)))
  {
  }

  /** Only the provider the key selects is consulted: a Gemini key never uses OpenAI's
      outcome, and every other key never uses Gemini's. */
  lemma OnlySelectedProviderMatters(message: string, apiKey: Option<string>,
                                    call: Provider -> Outcome, call': Provider -> Outcome,
                                    search: Matcher)
    requires apiKey.Some? ==> call(ProviderFor(apiKey.value)) == call'(ProviderFor(apiKey.value))
    ensures GetResponse(message, apiKey, call, search) == GetResponse(message, apiKey, call', search)
  {
  }

  // ---------------------------------------------------------------------------------------
  // Gemini model discovery

  /** An entry of the model listing: its full resource name and its generation methods. */
  datatype ModelInfo = ModelInfo(name: string, supportedGenerationMethods: seq<string>)

  /** The model Gemini calls use when discovery fails. */
  const DefaultGeminiModel: string := "gemini-1.5-flash"

  /** The preferred model families, most preferred first. */
  const Preferences: seq<string> := ["gemini-1.5-flash", "gemini-1.5-pro", "gemini-1.0-pro", "gemini-pro"]

  predicate SupportsGenerate(m: ModelInfo) {
    "generateContent" in m.supportedGenerationMethods
  }

  /** Model `m` belongs to `family` (its name contains it) and can generate content. */
  predicate Qualifies(m: ModelInfo, family: string) {
    Text.Contains(m.name, family) && SupportsGenerate(m)
  }

  /** `name.split("/")[-1]`: the part after the last slash, or the whole name without one. */
  function LastSegment(name: string): (r: string)
    ensures |r| <= |name| && name[|name| - |r|..] == r
    ensures forall i :: 0 <= i < |r| ==> r[i] != '/'
    ensures |r| < |name| ==> name[|name| - |r| - 1] == '/'
  {
    if |name| == 0 then []
    else if name[|name| - 1] == '/' then []
    else LastSegment(name[..|name| - 1]) + [name[|name| - 1]]
  }

  /** The segment after the last slash of a path `prefix/segment` is that segment. */
  lemma {:induction false} LastSegmentOfPath(prefix: string, segment: string)
    requires forall i :: 0 <= i < |segment| ==> segment[i] != '/'
    ensures LastSegment(prefix + "/" + segment) == segment
  {
    if |segment| > 0 {
      var s := prefix + "/" + segment;
      var init := segment[..|segment| - 1];
      assert s[|s| - 1] == segment[|segment| - 1] != '/';
      assert s[..|s| - 1] == prefix + "/" + init;
      LastSegmentOfPath(prefix, init);
      assert LastSegment(s) == init + [segment[|segment| - 1]];
      assert segment == init + [segment[|segment| - 1]];
    } else {
      assert (prefix + "/" + segment)[|prefix|] == '/';
    }
  }

  /** Index of the first model in listing order that qualifies for `family`. */
  function FirstQualifying(models: seq<ModelInfo>, family: string): (r: Option<nat>)
    ensures r.Some? ==> r.value < |models| && Qualifies(models[r.value], family)
    ensures r.Some? ==> forall j :: 0 <= j < r.value ==> !Qualifies(models[j], family)
    ensures r.None? <==> forall j :: 0 <= j < |models| ==> !Qualifies(models[j], family)
  {
    if |models| == 0 then None
    else if Qualifies(models[0], family) then Some(0)
    else match FirstQualifying(models[1..], family)
      case Some(i) => Some(i + 1)
      case None => None
  }

  /** Index of the first model in listing order that can generate content. */
  function FirstGenerating(models: seq<ModelInfo>): (r: Option<nat>)
    ensures r.Some? ==> r.value < |models| && SupportsGenerate(models[r.value])
    ensures r.Some? ==> forall j :: 0 <= j < r.value ==> !SupportsGenerate(models[j])
    ensures r.None? <==> forall j :: 0 <= j < |models| ==> !SupportsGenerate(models[j])
  {
    if |models| == 0 then None
    else if SupportsGenerate(models[0]) then Some(0)
    else match FirstGenerating(models[1..])
      case Some(i) => Some(i + 1)
      case None => None
  }

  /** The preference loop over `prefs`: the first family with a qualifying model decides,
      and within it the first such model in listing order. */
  function SearchPreferences(models: seq<ModelInfo>, prefs: seq<string>): Option<string> {
    if |prefs| == 0 then None
    else match FirstQualifying(models, prefs[0])
      case Some(i) => Some(LastSegment(models[i].name))
      case None => SearchPreferences(models, prefs[1..])
  }

  /** `_discover_gemini_model`: the preference loop, then the first model that can generate
      content at all; `None` stands for the exception raised when no model can. */
  function DiscoverGeminiModel(models: seq<ModelInfo>): (r: Option<string>)
    ensures r.Some? ==> exists i :: 0 <= i < |models| && SupportsGenerate(models[i]) && r.value == LastSegment(models[i].name)
  {
    SearchPicksChosenPreference(models, Preferences);
    match SearchPreferences(models, Preferences)
    case Some(name) =>
      var i := FirstQualifying(models, Preferences[ChosenPreference(models, Preferences).value]).value;
      assert SupportsGenerate(models[i]) && name == LastSegment(models[i].name);
      Some(name)
    case None =>
      match FirstGenerating(models)
      case Some(i) => Some(LastSegment(models[i].name))
      case None => None
  }

  /** Some listed model qualifies for `family`. */
  predicate HasQualifying(models: seq<ModelInfo>, family: string) {
    exists m :: m in models && Qualifies(m, family)
  }

  /** Position in `prefs` of the most preferred family that some listed model qualifies for. */
  function ChosenPreference(models: seq<ModelInfo>, prefs: seq<string>): (r: Option<nat>)
    ensures r.Some? ==> r.value < |prefs| && HasQualifying(models, prefs[r.value])
    ensures r.Some? ==> forall j :: 0 <= j < r.value ==> !HasQualifying(models, prefs[j])
    ensures r.None? <==> forall j :: 0 <= j < |prefs| ==> !HasQualifying(models, prefs[j])
  {
    if |prefs| == 0 then None
    else if HasQualifying(models, prefs[0]) then Some(0)
    else match ChosenPreference(models, prefs[1..])
      case Some(k) => Some(k + 1)
      case None => None
  }

  /** Some listed model qualifies for a family exactly when the listing has a first one. */
  lemma HasQualifyingIsFound(models: seq<ModelInfo>, family: string)
    ensures HasQualifying(models, family) <==> FirstQualifying(models, family).Some?
  {
    var i := FirstQualifying(models, family);
    if HasQualifying(models, family) {
      var m :| m in models && Qualifies(m, family);
      var j :| 0 <= j < |models| && models[j] == m;
    }
  }

  /** The preference loop returns the last segment of the first model, in listing order, of
      the most preferred family that any listed model qualifies for; it returns nothing when
      no family has one. */
  lemma {:induction false} SearchPicksChosenPreference(models: seq<ModelInfo>, prefs: seq<string>)
    ensures ChosenPreference(models, prefs).None? ==> SearchPreferences(models, prefs).None?
    ensures ChosenPreference(models, prefs).Some? ==>
      var i := FirstQualifying(models, prefs[ChosenPreference(models, prefs).value]);
      i.Some? && SearchPreferences(models, prefs) == Some(LastSegment(models[i.value].name))
  {
    if |prefs| > 0 {
      HasQualifyingIsFound(models, prefs[0]);
      if !HasQualifying(models, prefs[0]) {
        SearchPicksChosenPreference(models, prefs[1..]);
        var c := ChosenPreference(models, prefs[1..]);
        if c.Some? {
          assert prefs[1..][c.value] == prefs[c.value + 1];
        }
      }
    }
  }

  /** Which family is chosen does not depend on the order of the listing: listings with the
      same models choose the same family. */
  lemma {:induction false} ChosenPreferenceIgnoresOrder(models: seq<ModelInfo>, models': seq<ModelInfo>,
                                                        prefs: seq<string>)
    requires forall m :: m in models <==> m in models'
    ensures ChosenPreference(models, prefs) == ChosenPreference(models', prefs)
  {
    if |prefs| > 0 {
      if HasQualifying(models, prefs[0]) {
        var m :| m in models && Qualifies(m, prefs[0]);
        assert m in models';
      }
      if HasQualifying(models', prefs[0]) {
        var m :| m in models' && Qualifies(m, prefs[0]);
        assert m in models;
      }
      ChosenPreferenceIgnoresOrder(models, models', prefs[1..]);
    }
  }

  /** Discovery finds a model exactly when some listed model can generate content, and then
      the one it names is the last segment of such a model's name. */
  lemma DiscoveryFindsGenerator(models: seq<ModelInfo>)
    ensures DiscoverGeminiModel(models).Some? <==> exists i :: 0 <= i < |models| && SupportsGenerate(models[i])
    ensures DiscoverGeminiModel(models).Some? ==>
      exists i :: 0 <= i < |models| && SupportsGenerate(models[i])
        && DiscoverGeminiModel(models).value == LastSegment(models[i].name)
  {
    SearchPicksChosenPreference(models, Preferences);
    var c := ChosenPreference(models, Preferences);
    if c.Some? {
      var i := FirstQualifying(models, Preferences[c.value]).value;
      assert SupportsGenerate(models[i]);
    } else if FirstGenerating(models).None? {
      assert forall i :: 0 <= i < |models| ==> !SupportsGenerate(models[i]);
    }
  }

  /** Without any preferred model, discovery takes the first model in listing order that can
      generate content. */
  lemma DiscoveryFallsBackToFirstGenerator(models: seq<ModelInfo>)
    requires ChosenPreference(models, Preferences).None?
    ensures DiscoverGeminiModel(models) ==
      match FirstGenerating(models)
      case Some(i) => Some(LastSegment(models[i].name))
      case None => None
  {
    SearchPicksChosenPreference(models, Preferences);
  }

  /** The model `_call_gemini` uses: the discovered one, or the default when the listing
      request failed (`None`) or discovery raised. */
  function GeminiModelName(listing: Option<seq<ModelInfo>>): (r: string)
    ensures listing.None? ==> r == DefaultGeminiModel
    ensures listing.Some? && (forall i :: 0 <= i < |listing.value| ==> !SupportsGenerate(listing.value[i]))
            ==> r == DefaultGeminiModel
    ensures r == DefaultGeminiModel
            || (listing.Some? && (exists i :: 0 <= i < |listing.value| && SupportsGenerate(listing.value[i])
                                     && r == LastSegment(listing.value[i].name)))
  {
    match listing
    case None => DefaultGeminiModel
    case Some(models) =>
      DiscoveryFindsGenerator(models);
      DiscoverGeminiModel(models).GetOr(DefaultGeminiModel)
  }
}
