/**
  The backend service: it parses the comma-separated form fields, builds one prompt per
  selected option or descriptor, asks the generative model for each, and collects the
  answers in a dictionary; for a YouTube link it fetches the comments and asks for one
  summary.

  The generative model is the parameter `reply`, a function from prompt to answer: within
  one request the uploaded video is the same for every call, so the answer is modelled as
  depending on the prompt alone. The comment downloader is the sequence `stream` of comment
  texts it yields before it finishes or fails.
 */
module Server {
  import opened Wrappers
  import opened Text
  import opened Prompts
  import opened Cards

  // ---------------------------------------------------------------------------
  // Form fields

  /** `[x.strip() for x in field.split(",")]`: one item per comma plus one, each stripped. */
  function ParseList(field: string): (r: seq<string>)
    ensures |r| == Count(field, ',') + 1
    ensures forall k :: 0 <= k < |r| ==> ',' !in r[k] && PyStrip(r[k]) == r[k]
  {
    var pieces := Split(field, ',');
    SplitPieces(field, ',');
    var r := seq(|pieces|, i requires 0 <= i < |pieces| => PyStrip(pieces[i]));
    forall k | 0 <= k < |r| ensures ',' !in r[k] && PyStrip(r[k]) == r[k] {
      TrimmedChars(pieces[k], Python);
      TrimIdempotent(pieces[k], Python);
    }
    r
  }

  /** An empty field is not an empty list: it parses to one empty item. */
  lemma ParseEmpty()
    ensures ParseList("") == [""]
  {
    assert Split("", ',') == [""];
  }

  /** The page sends each list joined with commas; a non-empty list whose items hold no comma
      and no surrounding whitespace is parsed back to exactly that list. */
  lemma ParseJoin(xs: seq<string>)
    requires |xs| >= 1
    requires forall k :: 0 <= k < |xs| ==> ',' !in xs[k] && PyStrip(xs[k]) == xs[k]
    ensures ParseList(Join(xs, ",")) == xs
  {
    SplitJoin(xs, ',');
  }

  // ---------------------------------------------------------------------------
  // The results dictionary

  lemma {:induction false} KeysCons(x: (string, string), d: Results)
    ensures Keys([x] + d) == [x.0] + Keys(d)
  {
    var a, b := Keys([x] + d), [x.0] + Keys(d);
    forall i | 0 <= i < |a| ensures a[i] == b[i] {
      if i > 0 {
        assert ([x] + d)[i] == d[i - 1];
      }
    }
  }

  /** `d.get(key)`. */
  function Get(d: Results, key: string): (r: Option<string>)
    ensures r.None? <==> key !in Keys(d)
    decreases |d|
  {
    if d == [] then None
    else
      KeysCons(d[0], d[1..]);
      assert [d[0]] + d[1..] == d;
      if d[0].0 == key then Some(d[0].1) else Get(d[1..], key)
  }

  /** No key is listed twice. */
  predicate DistinctKeys(d: Results) {
    forall i, j :: 0 <= i < j < |d| ==> d[i].0 != d[j].0
  }

  /** `d[key] = value`: a key already present keeps its place, a new key goes last. */
  function Put(d: Results, key: string, value: string): (r: Results)
    ensures Keys(r) == if key in Keys(d) then Keys(d) else Keys(d) + [key]
    decreases |d|
  {
    if d == [] then [(key, value)]
    else
      KeysCons(d[0], d[1..]);
      assert [d[0]] + d[1..] == d;
      if d[0].0 == key then
        KeysCons((key, value), d[1..]);
        [(key, value)] + d[1..]
      else
        var rest := Put(d[1..], key, value);
        KeysCons(d[0], rest);
        [d[0]] + rest
  }

  /** After `d[key] = value` the key reads the new value and every other key reads what it
      read before. */
  lemma {:induction false} PutGet(d: Results, key: string, value: string)
    ensures Get(Put(d, key, value), key) == Some(value)
    ensures forall k :: k != key ==> Get(Put(d, key, value), k) == Get(d, k)
    decreases |d|
  {
    if d != [] {
      var r := Put(d, key, value);
      if d[0].0 == key {
        assert r[0] == (key, value) && r[1..] == d[1..];
      } else {
        PutGet(d[1..], key, value);
        assert r[0] == d[0] && r[1..] == Put(d[1..], key, value);
      }
    }
  }

  /** `d[key] = value` never lists a key twice. */
  lemma PutDistinct(d: Results, key: string, value: string)
    requires DistinctKeys(d)
    ensures DistinctKeys(Put(d, key, value))
  {
    var r := Put(d, key, value);
    var kd, kr := Keys(d), Keys(r);
    forall i, j | 0 <= i < j < |r| ensures r[i].0 != r[j].0 {
      assert kr[i] == r[i].0 && kr[j] == r[j].0;
      if j < |d| {
        assert kd[i] == d[i].0 && kd[j] == d[j].0;
      } else {
        assert kr[j] == key && key !in kd;
      }
    }
  }

  // ---------------------------------------------------------------------------
  // The analysis loops

  /** What the loops of `analyze_video` and `analyze_marketing` build: for each name, in
      order, that has a prompt, the model's answer to that prompt stored under the name;
      names without a prompt are skipped. */
  function Answers(names: seq<string>, promptOf: string -> Option<string>, reply: string -> string): Results
    decreases |names|
  {
    if names == [] then []
    else
      var d := Answers(names[..|names| - 1], promptOf, reply);
      var name := names[|names| - 1];
      match promptOf(name)
      case Some(prompt) => Put(d, name, reply(prompt))
      case None => d
  }

  /** The prompts such a loop sends, in order: one per name that has a prompt, a repeated
      name included. */
  function Calls(names: seq<string>, promptOf: string -> Option<string>): seq<string>
    decreases |names|
  {
    if names == [] then []
    else
      var calls := Calls(names[..|names| - 1], promptOf);
      match promptOf(names[|names| - 1])
      case Some(prompt) => calls + [prompt]
      case None => calls
  }

  /** The answers name each name that has a prompt, once, and nothing else; each holds the
      model's answer to that name's prompt. */
  lemma {:induction false} AnswersSpec(names: seq<string>, promptOf: string -> Option<string>, reply: string -> string)
    ensures var r := Answers(names, promptOf, reply);
      && DistinctKeys(r)
      && (forall k :: k in Keys(r) <==> k in names && promptOf(k).Some?)
      && (forall k :: k in Keys(r) ==> Get(r, k) == Some(reply(promptOf(k).value)))
    decreases |names|
  {
    if names != [] {
      var init, name := names[..|names| - 1], names[|names| - 1];
      AnswersSpec(init, promptOf, reply);
      var d := Answers(init, promptOf, reply);
      assert names == init + [name];
      match promptOf(name)
      case Some(prompt) =>
        assert Answers(names, promptOf, reply) == Put(d, name, reply(prompt));
        AnswersStep(d, init, name, promptOf, reply);
      case None =>
        assert Answers(names, promptOf, reply) == d;
        SkipStep(d, init, name, promptOf);
    }
  }

  /** Skipping a name without a prompt keeps the answers' keys right. */
  lemma SkipStep(d: Results, init: seq<string>, name: string, promptOf: string -> Option<string>)
    requires forall k :: k in Keys(d) <==> k in init && promptOf(k).Some?
    requires promptOf(name).None?
    ensures forall k :: k in Keys(d) <==> k in init + [name] && promptOf(k).Some?
  {
  }

  /** Answering one more prompted name keeps the answers' description true. */
  lemma AnswersStep(d: Results, init: seq<string>, name: string,
                    promptOf: string -> Option<string>, reply: string -> string)
    requires DistinctKeys(d)
    requires forall k :: k in Keys(d) <==> k in init && promptOf(k).Some?
    requires forall k :: k in Keys(d) ==> Get(d, k) == Some(reply(promptOf(k).value))
    requires promptOf(name).Some?
    ensures var r := Put(d, name, reply(promptOf(name).value));
      && DistinctKeys(r)
      && (forall k :: k in Keys(r) <==> k in init + [name] && promptOf(k).Some?)
      && (forall k :: k in Keys(r) ==> Get(r, k) == Some(reply(promptOf(k).value)))
  {
    PutGet(d, name, reply(promptOf(name).value));
    PutDistinct(d, name, reply(promptOf(name).value));
  }

  /** Where `x` first occurs in `s`. */
  function FirstIndex(s: seq<string>, x: string): (r: nat)
    requires x in s
    ensures r < |s| && s[r] == x && x !in s[..r]
    decreases |s|
  {
    if s[0] == x then 0
    else
      var r := FirstIndex(s[1..], x) + 1;
      assert s[..r] == [s[0]] + s[1..][..r - 1];
      r
  }

  /** The first occurrence is the only one with no earlier occurrence. */
  lemma FirstIndexUnique(s: seq<string>, x: string, k: nat)
    requires k < |s| && s[k] == x && x !in s[..k]
    ensures FirstIndex(s, x) == k
  {
    var r := FirstIndex(s, x);
    var lo, hi := if r < k then r else k, if r < k then k else r;
    assert lo <= hi && s[..hi][lo..] == s[lo..hi];
  }

  /** The answers list the names in the order in which each is first prompted. */
  lemma {:induction false} AnswersOrder(names: seq<string>, promptOf: string -> Option<string>, reply: string -> string)
    ensures var keys := Keys(Answers(names, promptOf, reply));
      forall i, j :: 0 <= i < j < |keys| ==>
        keys[i] in names && keys[j] in names && FirstIndex(names, keys[i]) < FirstIndex(names, keys[j])
    decreases |names|
  {
    if names != [] {
      var init, name := names[..|names| - 1], names[|names| - 1];
      var d := Answers(init, promptOf, reply);
      AnswersOrder(init, promptOf, reply);
      AnswersSpec(init, promptOf, reply);
      assert names == init + [name];
      match promptOf(name)
      case Some(prompt) =>
        assert Answers(names, promptOf, reply) == Put(d, name, reply(prompt));
        OrderStep(init, name, Keys(d), Keys(Answers(names, promptOf, reply)));
      case None =>
        assert Answers(names, promptOf, reply) == d;
        OrderStep(init, name, Keys(d), Keys(d));
    }
  }

  /** Keeping the keys, or appending a name not seen before, keeps them in order of first
      occurrence when one more name is appended. */
  lemma OrderStep(init: seq<string>, name: string, before: seq<string>, after: seq<string>)
    requires forall k :: k in before ==> k in init
    requires forall i, j :: 0 <= i < j < |before| ==>
      before[i] in init && before[j] in init && FirstIndex(init, before[i]) < FirstIndex(init, before[j])
    requires after == before || (name !in init && after == before + [name])
    ensures forall i, j :: 0 <= i < j < |after| ==>
      after[i] in init + [name] && after[j] in init + [name]
      && FirstIndex(init + [name], after[i]) < FirstIndex(init + [name], after[j])
  {
    var names := init + [name];
    FirstIndexExtend(init, name);
    if after != before {
      assert names[..|init|] == init;
      FirstIndexUnique(names, name, |init|);
    }
  }

  /** Appending a name moves no earlier first occurrence. */
  lemma FirstIndexExtend(init: seq<string>, name: string)
    ensures forall x :: x in init ==> FirstIndex(init + [name], x) == FirstIndex(init, x)
  {
    forall x | x in init ensures FirstIndex(init + [name], x) == FirstIndex(init, x) {
      var k := FirstIndex(init, x);
      assert (init + [name])[..k] == init[..k];
      FirstIndexUnique(init + [name], x, k);
    }
  }

  /** When every name has a prompt, one prompt is sent per name, in the order of the names. */
  lemma {:induction false} CallsEvery(names: seq<string>, promptOf: string -> Option<string>)
    requires forall k :: promptOf(k).Some?
    ensures |Calls(names, promptOf)| == |names|
    ensures forall i :: 0 <= i < |names| ==> Calls(names, promptOf)[i] == promptOf(names[i]).value
    decreases |names|
  {
    if names != [] {
      CallsEvery(names[..|names| - 1], promptOf);
    }
  }

  // ---------------------------------------------------------------------------
  // Video analysis

  /** The prompt `analyze_video` sends for an option: the option's video prompt when it has
      one and it is not empty. */
  function VideoPrompt(option: string): (r: Option<string>)
    ensures r.Some? <==> option in VideoPromptOptions
    ensures r.Some? ==> r.value == VideoPromptOptions[option]
  {
    if option in VideoPromptOptions && VideoPromptOptions[option] != "" then Some(VideoPromptOptions[option])
    else None
  }

  /** `analyze_video`: the loop over the selected options; it returns the results and the
      prompts sent. */
  method AnalyzeVideo(selected: seq<string>, reply: string -> string) returns (results: Results, calls: seq<string>)
    ensures results == Answers(selected, VideoPrompt, reply)
    ensures calls == Calls(selected, VideoPrompt)
  {
    results, calls := [], [];
    for i := 0 to |selected|
      invariant results == Answers(selected[..i], VideoPrompt, reply)
      invariant calls == Calls(selected[..i], VideoPrompt)
    {
      assert selected[..i + 1][..i] == selected[..i];
      var option := selected[i];
      var prompt := VideoPrompt(option);
      if prompt.Some? {
        calls := calls + [prompt.value];
        results := Put(results, option, reply(prompt.value));
      }
    }
    assert selected[..|selected|] == selected;
  }

  /** The video results name each selected option that has a video prompt, once, and nothing
      else; each holds the model's answer to that option's prompt. */
  lemma VideoResultsSpec(selected: seq<string>, reply: string -> string)
    ensures var r := Answers(selected, VideoPrompt, reply);
      && DistinctKeys(r)
      && (forall k :: k in Keys(r) <==> k in selected && k in VideoPromptOptions)
      && (forall k :: k in Keys(r) ==> Get(r, k) == Some(reply(VideoPromptOptions[k])))
  {
    AnswersSpec(selected, VideoPrompt, reply);
  }

  /** The page offers "Consumer Review", for which the backend has no prompt: it is never
      answered, whatever else is selected. */
  lemma ConsumerReviewSkipped(selected: seq<string>, reply: string -> string)
    ensures "Consumer Review" !in Keys(Answers(selected, VideoPrompt, reply))
  {
    AnswersSpec(selected, VideoPrompt, reply);
  }

  /** An option selected twice is sent to the model twice but answered once: the second
      answer replaces the first in place. */
  lemma RepeatedOption(option: string, reply: string -> string)
    requires option in VideoPromptOptions
    ensures Calls([option, option], VideoPrompt) == [VideoPromptOptions[option], VideoPromptOptions[option]]
    ensures Answers([option, option], VideoPrompt, reply) == [(option, reply(VideoPromptOptions[option]))]
  {
    assert [option, option][..1] == [option];
    assert [option][..0] == [];
    assert Calls([option], VideoPrompt) == [VideoPromptOptions[option]];
    assert Answers([option], VideoPrompt, reply) == [(option, reply(VideoPromptOptions[option]))];
  }

  /** `/video-analysis`: the options field parsed, then analysed. */
  method VideoAnalysis(options: string, reply: string -> string) returns (results: Results)
    ensures results == Answers(ParseList(options), VideoPrompt, reply)
  {
    var selectedOptions := ParseList(options);
    var calls;
    results, calls := AnalyzeVideo(selectedOptions, reply);
  }

  // ---------------------------------------------------------------------------
  // Marketing analysis

  /** `VIDEO_DESCRIPTIONS.get(video_key, "Advertisement video")`; the page sends its campaign
      platform as the key, and only "YouTube" has a description of its own. */
  function VideoDescription(videoKey: string): (r: string)
    ensures videoKey != "YouTube" ==> r == DefaultVideoDescription
    ensures '[' !in r
  {
    YouTubeDescriptionPlain();
    if videoKey in VideoDescriptions then Join(VideoDescriptions[videoKey], "") else DefaultVideoDescription
  }

  /** One line of the persona text: the demographic, a colon, and its persona (empty for a
      demographic the backend does not know). */
  function PersonaLine(demographic: string): (r: string)
    ensures StartsWith(r, demographic + ": ")
    ensures demographic !in PersonaDict ==> r == demographic + ": "
    ensures '[' !in demographic ==> '[' !in r
  {
    var persona := if demographic in PersonaDict then PersonaPlain(demographic); Join(PersonaDict[demographic], "")
                   else "";
    assert (demographic + ": " + persona)[..|demographic + ": "|] == demographic + ": ";
    demographic + ": " + persona
  }

  function PersonaLines(demographics: seq<string>): (r: seq<string>)
    ensures |r| == |demographics|
    ensures forall i :: 0 <= i < |r| ==> r[i] == PersonaLine(demographics[i])
  {
    seq(|demographics|, i requires 0 <= i < |demographics| => PersonaLine(demographics[i]))
  }

  /** The persona details: one line per selected demographic, in order. */
  function PersonaText(demographics: seq<string>): string {
    Join(PersonaLines(demographics), "\n")
  }

  /** The persona text holds a '[' only where a demographic's own name does. */
  lemma PersonaTextPlain(demographics: seq<string>)
    requires forall i :: 0 <= i < |demographics| ==> '[' !in demographics[i]
    ensures '[' !in PersonaText(demographics)
  {
    JoinFree(PersonaLines(demographics), "\n", '[');
  }

  /** The line appended to every marketing prompt. */
  function DemographicsSuffix(demographics: seq<string>): string {
    "\n\nSelected Demographics: " + Join(demographics, ", ")
  }

  lemma DemographicsSuffixPlain(demographics: seq<string>)
    requires forall i :: 0 <= i < |demographics| ==> '[' !in demographics[i]
    ensures '[' !in DemographicsSuffix(demographics)
  {
    JoinFree(demographics, ", ", '[');
  }

  /** `generate_marketing_prompt`: the descriptor's template with both placeholders replaced,
      followed by the list of selected demographics. A descriptor without a template gives
      the demographics line alone. */
  function GenerateMarketingPrompt(descriptor: string, demographics: seq<string>, videoKey: string): (r: string)
    ensures EndsWith(r, DemographicsSuffix(demographics))
    ensures descriptor !in Instructions ==> r == DemographicsSuffix(demographics)
  {
    var template := PromptOption(descriptor);
    var filled := ReplaceAll(ReplaceAll(template, DescriptionPlaceholder, VideoDescription(videoKey)),
                             PersonaPlaceholder, PersonaText(demographics));
    var suffix := DemographicsSuffix(demographics);
    assert (filled + suffix)[|filled + suffix| - |suffix|..] == suffix;
    filled + suffix
  }

  /** Filling a template whose fixed parts hold no '[': each placeholder is replaced once, in
      place, and nothing else changes. */
  lemma FillTemplate(head: string, mid: string, instructions: string, description: string, persona: string)
    requires '[' !in head && '[' !in mid && '[' !in instructions && '[' !in description
    ensures ReplaceAll(ReplaceAll(head + DescriptionPlaceholder + mid + PersonaPlaceholder + instructions,
                                  DescriptionPlaceholder, description), PersonaPlaceholder, persona)
            == head + description + mid + persona + instructions
  {
    FillDescription(head, mid, instructions, description);
    var front := head + description + mid;
    assert head + description + mid + PersonaPlaceholder + instructions == front + PersonaPlaceholder + instructions;
    FillPersona(front, instructions, persona);
  }

  /** The description placeholder is replaced; the persona placeholder, which differs from it
      in its second character, is left for the next replacement. */
  lemma FillDescription(head: string, mid: string, instructions: string, description: string)
    requires '[' !in head && '[' !in mid && '[' !in instructions
    ensures ReplaceAll(head + DescriptionPlaceholder + mid + PersonaPlaceholder + instructions,
                       DescriptionPlaceholder, description)
            == head + description + mid + PersonaPlaceholder + instructions
  {
    var dp, pp := DescriptionPlaceholder, PersonaPlaceholder;
    var tail := pp + instructions;
    assert head + dp + mid + pp + instructions == head + (dp + (mid + tail));
    ReplaceAllSkip(head, dp + (mid + tail), dp, description);
    ReplaceAllFront(dp, mid + tail, description);
    ReplaceAllSkip(mid, tail, dp, description);
    PersonaUntouched(instructions, description);
    assert head + (description + (mid + tail)) == head + description + mid + pp + instructions;
  }

  /** The description placeholder does not occur in the persona placeholder and what follows
      it: they differ in their second character. */
  lemma PersonaUntouched(instructions: string, description: string)
    requires '[' !in instructions
    ensures ReplaceAll(PersonaPlaceholder + instructions, DescriptionPlaceholder, description)
            == PersonaPlaceholder + instructions
  {
    var tail := PersonaPlaceholder + instructions;
    assert tail[1] == 'p' && DescriptionPlaceholder[1] == 'd';
    assert tail[1..] == PersonaPlaceholder[1..] + instructions;
    ReplaceAllMissFront(tail, DescriptionPlaceholder, description);
  }

  /** The persona placeholder is replaced. */
  lemma FillPersona(front: string, instructions: string, persona: string)
    requires '[' !in front && '[' !in instructions
    ensures ReplaceAll(front + PersonaPlaceholder + instructions, PersonaPlaceholder, persona)
            == front + persona + instructions
  {
    var pp := PersonaPlaceholder;
    assert front + pp + instructions == front + (pp + instructions);
    ReplaceAllSkip(front, pp + instructions, pp, persona);
    ReplaceAllFront(pp, instructions, persona);
    ReplaceAllNoStart(instructions, pp, persona);
    assert front + (persona + instructions) == front + persona + instructions;
  }

  /** For each of the three descriptors the prompt is the shared context with the video
      description and the persona details in place of the placeholders, then the
      descriptor's instructions, then the demographics line. */
  lemma KnownDescriptorPrompt(descriptor: string, demographics: seq<string>, videoKey: string)
    requires descriptor in Instructions
    ensures GenerateMarketingPrompt(descriptor, demographics, videoKey)
            == ContextHead + VideoDescription(videoKey) + ContextMid + PersonaText(demographics)
               + Join(Instructions[descriptor], "") + DemographicsSuffix(demographics)
  {
    var instructions := Join(Instructions[descriptor], "");
    ContextHeadPlain();
    ContextMidPlain();
    InstructionsPlain(descriptor);
    FillTemplate(ContextHead, ContextMid, instructions, VideoDescription(videoKey),
                 PersonaText(demographics));
  }

  /** Once filled, the prompt of a known descriptor holds no '[' unless a demographic's name
      brings one, so neither placeholder is left in it. */
  lemma FilledPromptPlain(descriptor: string, demographics: seq<string>, videoKey: string)
    requires descriptor in Instructions
    requires forall i :: 0 <= i < |demographics| ==> '[' !in demographics[i]
    ensures '[' !in GenerateMarketingPrompt(descriptor, demographics, videoKey)
    ensures forall i :: !OccursAt(GenerateMarketingPrompt(descriptor, demographics, videoKey), i, DescriptionPlaceholder)
    ensures forall i :: !OccursAt(GenerateMarketingPrompt(descriptor, demographics, videoKey), i, PersonaPlaceholder)
  {
    FilledPromptNoBracket(descriptor, demographics, videoKey);
    NoPlaceholder(GenerateMarketingPrompt(descriptor, demographics, videoKey));
  }

  /** Both placeholders begin with '[', so a text without one holds neither. */
  lemma NoPlaceholder(s: string)
    requires '[' !in s
    ensures forall i :: !OccursAt(s, i, DescriptionPlaceholder)
    ensures forall i :: !OccursAt(s, i, PersonaPlaceholder)
  {
    forall i | 0 <= i < |s|
      ensures !OccursAt(s, i, DescriptionPlaceholder) && !OccursAt(s, i, PersonaPlaceholder)
    {
      assert s[i] in s;
      if i + |PersonaPlaceholder| <= |s| {
        assert s[i..i + |PersonaPlaceholder|][0] == s[i];
      }
      if i + |DescriptionPlaceholder| <= |s| {
        assert s[i..i + |DescriptionPlaceholder|][0] == s[i];
      }
    }
  }

  lemma FilledPromptNoBracket(descriptor: string, demographics: seq<string>, videoKey: string)
    requires descriptor in Instructions
    requires forall i :: 0 <= i < |demographics| ==> '[' !in demographics[i]
    ensures '[' !in GenerateMarketingPrompt(descriptor, demographics, videoKey)
  {
    KnownDescriptorPrompt(descriptor, demographics, videoKey);
    ContextHeadPlain();
    ContextMidPlain();
    InstructionsPlain(descriptor);
    PersonaTextPlain(demographics);
    DemographicsSuffixPlain(demographics);
    ConcatFree(ContextHead, VideoDescription(videoKey), ContextMid, PersonaText(demographics),
               Join(Instructions[descriptor], ""), DemographicsSuffix(demographics));
  }

  lemma ConcatFree(a: string, b: string, c: string, d: string, e: string, f: string)
    requires '[' !in a && '[' !in b && '[' !in c && '[' !in d && '[' !in e && '[' !in f
    ensures '[' !in a + b + c + d + e + f
  {
  }

  lemma InstructionsPlain(descriptor: string)
    requires descriptor in Instructions
    ensures '[' !in Join(Instructions[descriptor], "")
  {
    if descriptor == "Consumer Impact & Engagement" {
      ImpactInstructionsPlain();
    } else if descriptor == "Brand & Creative Quality" {
      BrandInstructionsPlain();
    } else {
      ComplianceInstructionsPlain();
    }
  }

  /** The prompt `analyze_marketing` sends for a descriptor: every descriptor has one. */
  function MarketingPrompt(demographics: seq<string>, videoKey: string): (promptOf: string -> Option<string>)
    ensures forall descriptor :: promptOf(descriptor) == Some(GenerateMarketingPrompt(descriptor, demographics, videoKey))
  {
    descriptor => Some(GenerateMarketingPrompt(descriptor, demographics, videoKey))
  }

  /** `analyze_marketing`: the loop over the descriptors; it returns the results and the
      prompts sent. */
  method AnalyzeMarketing(descriptors: seq<string>, demographics: seq<string>, videoKey: string,
                          reply: string -> string) returns (results: Results, calls: seq<string>)
    ensures results == Answers(descriptors, MarketingPrompt(demographics, videoKey), reply)
    ensures calls == Calls(descriptors, MarketingPrompt(demographics, videoKey))
  {
    var promptOf := MarketingPrompt(demographics, videoKey);
    results, calls := [], [];
    for i := 0 to |descriptors|
      invariant results == Answers(descriptors[..i], promptOf, reply)
      invariant calls == Calls(descriptors[..i], promptOf)
    {
      assert descriptors[..i + 1][..i] == descriptors[..i];
      var descriptor := descriptors[i];
      var prompt := GenerateMarketingPrompt(descriptor, demographics, videoKey);
      calls := calls + [prompt];
      results := Put(results, descriptor, reply(prompt));
    }
    assert descriptors[..|descriptors|] == descriptors;
  }

  /** The marketing results name each selected descriptor once and nothing else, a
      descriptor without a template included; each holds the model's answer to that
      descriptor's prompt, and one prompt is sent per selected descriptor, in order. */
  lemma MarketingResultsSpec(descriptors: seq<string>, demographics: seq<string>, videoKey: string,
                             reply: string -> string)
    ensures var r := Answers(descriptors, MarketingPrompt(demographics, videoKey), reply);
      && DistinctKeys(r)
      && (forall k :: k in Keys(r) <==> k in descriptors)
      && (forall k :: k in Keys(r) ==> Get(r, k) == Some(reply(GenerateMarketingPrompt(k, demographics, videoKey))))
    ensures var calls := Calls(descriptors, MarketingPrompt(demographics, videoKey));
      && |calls| == |descriptors|
      && (forall i :: 0 <= i < |calls| ==> calls[i] == GenerateMarketingPrompt(descriptors[i], demographics, videoKey))
  {
    AnswersSpec(descriptors, MarketingPrompt(demographics, videoKey), reply);
    CallsEvery(descriptors, MarketingPrompt(demographics, videoKey));
  }

  /** `/marketing-analysis`: both list fields parsed, then analysed with the video type. */
  method MarketingAnalysis(descriptors: string, demographics: string, videoType: string, reply: string -> string)
    returns (results: Results)
    ensures results == Answers(ParseList(descriptors), MarketingPrompt(ParseList(demographics), videoType), reply)
  {
    var descriptorsList := ParseList(descriptors);
    var demographicsList := ParseList(demographics);
    var calls;
    results, calls := AnalyzeMarketing(descriptorsList, demographicsList, videoType, reply);
  }

  /** The descriptors the page offers survive the trip through the comma-joined field: the
      backend analyses exactly the descriptors that were checked, in the same order. */
  lemma DescriptorsRoundTrip(descriptors: seq<string>)
    requires |descriptors| >= 1
    requires forall k :: 0 <= k < |descriptors| ==> descriptors[k] in Instructions
    ensures ParseList(Join(descriptors, ",")) == descriptors
  {
    DescriptorNamesPlain();
    ParseJoin(descriptors);
  }

  lemma DescriptorNamesPlain()
    ensures forall d :: d in Instructions ==> ',' !in d && PyStrip(d) == d
  {
    forall d | d in Instructions ensures ',' !in d && PyStrip(d) == d {
      TrimUntouched(d, Python);
    }
  }

  // ---------------------------------------------------------------------------
  // Comment analysis

  /** The number of comments `fetch_youtube_comments` keeps from a stream of `n`: it stops
      right after the append that reaches the limit, so a limit below one still keeps one. */
  function FetchCount(n: nat, maxComments: int): (k: nat)
    ensures k <= n
    ensures n > 0 ==> k >= 1
    ensures k < n ==> k >= maxComments
    ensures k > 1 ==> k - 1 < maxComments
  {
    if n == 0 then 0
    else if maxComments <= 1 then 1
    else if n < maxComments then n
    else maxComments
  }

  /** `fetch_youtube_comments`: the comments in the order the downloader yields them, up to
      the limit. */
  method FetchYoutubeComments(stream: seq<string>, maxComments: int) returns (comments: seq<string>)
    ensures comments == stream[..FetchCount(|stream|, maxComments)]
  {
    comments := [];
    var i := 0;
    while i < |stream|
      invariant 0 <= i <= |stream|
      invariant comments == stream[..i]
      invariant i == 0 || i < maxComments
    {
      comments := comments + [stream[i]];
      i := i + 1;
      if |comments| >= maxComments {
        break;
      }
    }
  }

  /** Each comment on its own line after a dash. */
  function CommentLines(comments: seq<string>): (r: seq<string>)
    ensures |r| == |comments|
    ensures forall i :: 0 <= i < |r| ==> r[i] == "- " + comments[i]
  {
    seq(|comments|, i requires 0 <= i < |comments| => "- " + comments[i])
  }

  /** The prompt `analyze_youtube_comments` sends: the introduction, the URL, the comment
      lines, the instructions. */
  function CommentPrompt(videoUrl: string, comments: seq<string>): string {
    CommentIntro + videoUrl + CommentMid + Join(CommentLines(comments), "\n") + CommentInstructions
  }

  /** The comment section of the prompt is read back line by line as the comments, in order,
      when no comment spans several lines. */
  lemma CommentSection(comments: seq<string>)
    requires |comments| >= 1
    requires forall i :: 0 <= i < |comments| ==> '\n' !in comments[i]
    ensures Split(Join(CommentLines(comments), "\n"), '\n') == CommentLines(comments)
  {
    var lines := CommentLines(comments);
    forall i | 0 <= i < |lines| ensures '\n' !in lines[i] {
      assert lines[i] == "- " + comments[i];
    }
    SplitJoin(lines, '\n');
  }

  /** The number of comments the backend asks the downloader for, whatever the request says. */
  const FetchLimit: int := 50

  /** What `analyze_youtube_comments` returns: a warning when the video yields no comment,
      otherwise the model's answer about the first fifty. */
  function CommentInsights(videoUrl: string, stream: seq<string>, reply: string -> string): (r: string)
    ensures stream == [] ==> r == NoCommentsMessage
    ensures stream != [] ==>
              r == reply(CommentPrompt(videoUrl, stream[..if |stream| < FetchLimit then |stream| else FetchLimit]))
  {
    var comments := stream[..FetchCount(|stream|, FetchLimit)];
    if comments == [] then NoCommentsMessage else reply(CommentPrompt(videoUrl, comments))
  }

  /** `analyze_youtube_comments`. */
  method AnalyzeYoutubeComments(videoUrl: string, stream: seq<string>, reply: string -> string) returns (insights: string)
    ensures insights == CommentInsights(videoUrl, stream, reply)
  {
    var comments := FetchYoutubeComments(stream, FetchLimit);
    if |comments| == 0 {
      return NoCommentsMessage;
    }
    insights := reply(CommentPrompt(videoUrl, comments));
  }

  /** `/comment-analysis`: the request's `max_comments` is accepted but never used, so the
      page's 25 and the tab's 10, 25 or 50 all get the same fifty comments. */
  method CommentAnalysis(videoUrl: string, maxComments: int, stream: seq<string>, reply: string -> string)
    returns (insights: string)
    ensures insights == CommentInsights(videoUrl, stream, reply)
  {
    insights := AnalyzeYoutubeComments(videoUrl, stream, reply);
  }

  /** As written, a request for ten comments on a video with more than ten still gets a
      prompt listing more than ten: the limit the tab offers has no effect. */
  lemma CommentLimitIgnored(videoUrl: string, stream: seq<string>, reply: string -> string)
    requires |stream| > 10
    ensures FetchCount(|stream|, FetchLimit) > 10
    ensures CommentInsights(videoUrl, stream, reply) == reply(CommentPrompt(videoUrl, stream[..FetchCount(|stream|, FetchLimit)]))
  {
  }

  /** The evidently intended endpoint: the request's limit is handed to the downloader. */
  function LimitedInsights(videoUrl: string, maxComments: int, stream: seq<string>, reply: string -> string): string {
    var comments := stream[..FetchCount(|stream|, maxComments)];
    if comments == [] then NoCommentsMessage else reply(CommentPrompt(videoUrl, comments))
  }

  /** With the limit passed on, a positive limit caps the comments in the prompt at exactly
      the number asked for, or all of them when the video has fewer. */
  lemma LimitedInsightsRespectLimit(videoUrl: string, maxComments: int, stream: seq<string>, reply: string -> string)
    requires maxComments >= 1
    ensures stream == [] ==> LimitedInsights(videoUrl, maxComments, stream, reply) == NoCommentsMessage
    ensures stream != [] ==>
              LimitedInsights(videoUrl, maxComments, stream, reply)
              == reply(CommentPrompt(videoUrl, stream[..if |stream| < maxComments then |stream| else maxComments]))
  {
  }

  /** `/comment-analysis` with the request's `max_comments` passed on to the downloader. */
  method LimitedCommentAnalysis(videoUrl: string, maxComments: int, stream: seq<string>, reply: string -> string)
    returns (insights: string)
    ensures insights == LimitedInsights(videoUrl, maxComments, stream, reply)
  {
    var comments := FetchYoutubeComments(stream, maxComments);
    if |comments| == 0 {
      return NoCommentsMessage;
    }
    insights := reply(CommentPrompt(videoUrl, comments));
  }
}
