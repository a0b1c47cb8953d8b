/**
 * The text side of the AI pipeline (ai/gpt.py): turning a chat completion
 * into exactly five numbered photo descriptions, turning descriptions into
 * image URLs, and the demo data both fall back to.
 *
 * The OpenAI client is an oracle: a completion is the returned text or
 * None when the call (or reading its content) raises; an image call is the
 * returned URL or None. `random.choice` is the index it picks.
 */
module AiGpt {
  import opened Wrappers
  import opened Text

  /** A numbered scene: its digit, '.', its text and a closing full stop. */
  function Scene(number: char, text: string): (s: string)
    ensures |s| == |text| + 3
    ensures s[0] == number && s[1] == '.' && s[|s| - 1] == '.'
  {
    [number, '.'] + text + "."
  }

  /** A demo storyline: five scenes numbered 1 to 5, each a line the filter keeps as it is. */
  function DemoStory(t1: string, t2: string, t3: string, t4: string, t5: string): (story: seq<string>)
    ensures |story| == SceneCount
    ensures forall k :: 0 <= k < |story| ==> CleanScene(story[k])
  {
    [Scene('1', t1), Scene('2', t2), Scene('3', t3), Scene('4', t4), Scene('5', t5)]
  }

  /** `MOCK_DESCRIPTIONS`: two storylines of five numbered scenes. */
  const MockDescriptions: seq<seq<string>> := [
    DemoStory(
      " A mischievous cat with bright green eyes sits atop a globe, playfully batting at countries with its paw",
      " The cat grows to gigantic size, now towering over skyscrapers, knocking buildings over like toys",
      " Chaos ensues as the giant cat chases vehicles down highways, causing traffic jams and mayhem with a playful expression",
      " The cat now sits in space, using Earth as a ball of yarn, unraveling continents with its claws",
      " A final scene shows the cat napping peacefully among the remnants of civilization, purring contentedly"),
    DemoStory(
      " A colorful fantasy landscape with floating islands and crystal waterfalls under a purple sky",
      " A wise old wizard teaching magic to young apprentices in an ancient library filled with glowing books",
      " A dragon and a knight sharing tea instead of fighting, sitting at a small table on a hilltop",
      " A futuristic city with flying vehicles and buildings that touch the clouds, glowing with neon lights",
      " A group of diverse adventurers standing at the entrance to a mysterious cave, preparing for their journey")
  ]

  /** `MOCK_IMAGE_URLS`. */
  const MockImageUrls: seq<string> := [
    "https://picsum.photos/seed/1/400/300",
    "https://picsum.photos/seed/2/400/300",
    "https://picsum.photos/seed/3/400/300",
    "https://picsum.photos/seed/4/400/300",
    "https://picsum.photos/seed/5/400/300"
  ]

  /** The number of descriptions a storyline must have. */
  const SceneCount: nat := 5

  /** What the filter does with one stripped line. */
  datatype LineVerdict = Skip | Keep | Raise

  /**
   * The filter's test on a stripped line: empty or not starting with a
   * digit, skip; a lone digit, indexing its second character raises; a
   * digit followed by '.', keep; anything else, skip.
   */
  function Classify(s: string): (v: LineVerdict)
    ensures v == Keep <==> |s| >= 2 && IsDigit(s[0]) && s[1] == '.'
    ensures v == Raise <==> |s| == 1 && IsDigit(s[0])
  {
    if |s| == 0 || !IsDigit(s[0]) then Skip
    else if |s| < 2 then Raise
    else if s[1] == '.' then Keep
    else Skip
  }

  /** Every line with its surrounding whitespace removed. */
  function StripAll(lines: seq<string>): (r: seq<string>)
    ensures |r| == |lines|
    ensures forall i :: 0 <= i < |lines| ==> r[i] == Strip(lines[i])
  {
    seq(|lines|, i requires 0 <= i < |lines| => Strip(lines[i]))
  }

  /** Some stripped line is a lone digit. */
  predicate AnyRaises(stripped: seq<string>) {
    exists i :: 0 <= i < |stripped| && Classify(stripped[i]) == Raise
  }

  /**
   * The outcome of the filter loop over the stripped lines: those it
   * keeps, in input order, or None when a line raised.
   */
  function KeptLines(stripped: seq<string>): (r: Option<seq<string>>)
    ensures r.Some? ==> |r.value| == KeepCount(stripped) <= |stripped|
    ensures r.Some? ==> forall k :: 0 <= k < |r.value| ==> Classify(r.value[k]) == Keep
  {
    if stripped == [] then Some([])
    else
      match KeptLines(stripped[..|stripped| - 1])
      case None => None
      case Some(kept) =>
        var last := stripped[|stripped| - 1];
        match Classify(last)
        case Raise => None
        case Keep => Some(kept + [last])
        case Skip => Some(kept)
  }

  /** How many of the lines the filter keeps. */
  function KeepCount(lines: seq<string>): (n: nat)
    ensures n <= |lines|
  {
    if lines == [] then 0
    else KeepCount(lines[..|lines| - 1]) + (if Classify(lines[|lines| - 1]) == Keep then 1 else 0)
  }

  /**
   * Every line the filter keeps lands in the output, at the position
   * given by the number of kept lines before it: together with the
   * count and the all-Keep clauses of KeptLines, the output is exactly
   * the Keep lines in input order.
   */
  lemma {:induction false} KeptLinesExact(stripped: seq<string>)
    requires KeptLines(stripped).Some?
    ensures forall i :: 0 <= i < |stripped| && Classify(stripped[i]) == Keep ==>
      KeepCount(stripped[..i]) < |KeptLines(stripped).value|
      && KeptLines(stripped).value[KeepCount(stripped[..i])] == stripped[i]
  {
    if stripped != [] {
      var n := |stripped| - 1;
      var init := stripped[..n];
      KeptLinesExact(init);
      var kept := KeptLines(init).value;
      var out := KeptLines(stripped).value;
      assert kept == out[..|kept|];
      forall i | 0 <= i < |stripped| && Classify(stripped[i]) == Keep
        ensures KeepCount(stripped[..i]) < |out| && out[KeepCount(stripped[..i])] == stripped[i]
      {
        if i < n {
          assert stripped[..i] == init[..i];
          assert stripped[i] == init[i];
        } else {
          assert stripped[..i] == init;
        }
      }
    }
  }

  /** The outcome after one more line, from the outcome before it. */
  lemma KeptLinesStep(stripped: seq<string>, i: nat)
    requires i < |stripped|
    ensures KeptLines(stripped[..i + 1]) ==
      match KeptLines(stripped[..i])
      case None => None
      case Some(kept) =>
        match Classify(stripped[i])
        case Raise => None
        case Keep => Some(kept + [stripped[i]])
        case Skip => Some(kept)
  {
    assert stripped[..i + 1][..i] == stripped[..i];
  }

  /** Once a line has raised, no later line changes the outcome. */
  lemma {:induction false} RaiseIsFinal(stripped: seq<string>, more: seq<string>)
    requires KeptLines(stripped) == None
    ensures KeptLines(stripped + more) == None
    decreases |more|
  {
    if more != [] {
      var init := more[..|more| - 1];
      RaiseIsFinal(stripped, init);
      var all := stripped + more;
      assert all[..|all| - 1] == stripped + init;
      assert KeptLines(all[..|all| - 1]) == None;
    } else {
      assert stripped + more == stripped;
    }
  }

  /** The filter gives up exactly when some stripped line is a lone digit. */
  lemma {:induction false} KeptLinesFailIffRaises(stripped: seq<string>)
    ensures KeptLines(stripped).None? <==> AnyRaises(stripped)
  {
    if stripped != [] {
      var init := stripped[..|stripped| - 1];
      KeptLinesFailIffRaises(init);
      if AnyRaises(init) {
        var j :| 0 <= j < |init| && Classify(init[j]) == Raise;
        assert stripped[j] == init[j];
      }
      if AnyRaises(stripped) {
        var j :| 0 <= j < |stripped| && Classify(stripped[j]) == Raise;
        if j < |init| {
          assert init[j] == stripped[j];
        }
      }
    }
  }

  /** The completion's lines (split at '\n'), each stripped, through the filter. */
  method ParseDescriptions(text: string) returns (r: Option<seq<string>>)
    ensures r == KeptLines(StripAll(Split(text, '\n')))
  {
    r := FilterLines(StripAll(Split(text, '\n')));
  }

  /**
   * The loop over the stripped lines: keep, skip, or stop at the first
   * line that raises. (Stripping every line before the loop is the same as
   * stripping each at the top of the loop body.)
   */
  method FilterLines(stripped: seq<string>) returns (r: Option<seq<string>>)
    ensures r == KeptLines(stripped)
  {
    var kept: seq<string> := [];
    for i := 0 to |stripped|
      invariant KeptLines(stripped[..i]) == Some(kept)
    {
      KeptLinesStep(stripped, i);
      var s := stripped[i];
      var verdict := Classify(s);
      if verdict == Raise {
        RaiseIsFinal(stripped[..i + 1], stripped[i + 1..]);
        assert stripped[..i + 1] + stripped[i + 1..] == stripped;
        return None;
      }
      if verdict == Keep {
        kept := kept + [s];
      }
    }
    assert stripped[..|stripped|] == stripped;
    r := Some(kept);
  }

  /**
   * The descriptions a request ends up with: the five kept lines of a
   * completion that yields exactly five, else the storyline `pick` of the
   * demo data, which is what demo mode always gives.
   */
  function Storyline(useMock: bool, pick: nat, completion: Option<string>): (story: seq<string>)
    requires pick < |MockDescriptions|
    ensures |story| == SceneCount
    ensures forall k :: 0 <= k < SceneCount ==> Classify(story[k]) == Keep
    ensures useMock ==> story == MockDescriptions[pick]
  {
    if useMock || completion.None? then
      MockScenesKept(pick);
      MockDescriptions[pick]
    else
      var kept := KeptLines(StripAll(Split(completion.value, '\n')));
      if kept.Some? && |kept.value| == SceneCount then kept.value
      else
        MockScenesKept(pick);
        MockDescriptions[pick]
  }

  /** Every demo scene passes the filter's test. */
  lemma MockScenesKept(p: nat)
    requires p < |MockDescriptions|
    ensures |MockDescriptions[p]| == SceneCount
    ensures forall k :: 0 <= k < SceneCount ==> Classify(MockDescriptions[p][k]) == Keep
  {
    MockScenesClean(p);
  }

  /**
   * `generate_photo_descriptions`: in demo mode, or when the completion
   * fails, raises in the filter or yields other than five lines, the
   * storyline `pick` of the demo data; otherwise the five kept lines.
   */
  method GeneratePhotoDescriptions(useMock: bool, pick: nat, completion: Option<string>)
    returns (descriptions: seq<string>)
    requires pick < |MockDescriptions|
    ensures descriptions == Storyline(useMock, pick, completion)
    ensures |descriptions| == SceneCount
  {
    if useMock || completion.None? {
      return MockDescriptions[pick];
    }
    var kept := ParseDescriptions(completion.value);
    if kept.None? || |kept.value| != SceneCount {
      return MockDescriptions[pick];
    }
    descriptions := kept.value;
  }

  /** A demo scene: numbered, and without blanks at either end. */
  predicate CleanScene(s: string) {
    |s| >= 2 && IsDigit(s[0]) && s[1] == '.' && !IsSpace(s[|s| - 1])
  }

  /** Every demo scene is clean. */
  lemma MockScenesClean(p: nat)
    requires p < |MockDescriptions|
    ensures |MockDescriptions[p]| == SceneCount
    ensures forall k :: 0 <= k < |MockDescriptions[p]| ==> CleanScene(MockDescriptions[p][k])
  {
  }

  /** Clean scenes are their own strip, and the filter keeps each of them. */
  lemma {:induction false} CleanScenesKept(story: seq<string>)
    requires forall k :: 0 <= k < |story| ==> CleanScene(story[k])
    ensures StripAll(story) == story
    ensures KeptLines(StripAll(story)) == Some(story)
  {
    forall k | 0 <= k < |story| ensures Strip(story[k]) == story[k] {
      StripUnchanged(story[k]);
    }
    KeptLinesOfCleanLines(story);
  }

  /**
   * Each demo storyline has five scenes, and each scene is a line the
   * filter keeps as it is.
   */
  lemma MockStorylinesPassFilter(p: nat)
    requires p < |MockDescriptions|
    ensures |MockDescriptions[p]| == SceneCount
    ensures KeptLines(StripAll(MockDescriptions[p])) == Some(MockDescriptions[p])
  {
    MockScenesClean(p);
    CleanScenesKept(MockDescriptions[p]);
  }

  /** Stripped lines that are all kept pass through the filter unchanged. */
  lemma {:induction false} KeptLinesOfCleanLines(stripped: seq<string>)
    requires forall k :: 0 <= k < |stripped| ==> Classify(stripped[k]) == Keep
    ensures KeptLines(stripped) == Some(stripped)
  {
    if stripped != [] {
      var init := stripped[..|stripped| - 1];
      KeptLinesOfCleanLines(init);
      assert init + [stripped[|stripped| - 1]] == stripped;
    }
  }

  /**
   * A completion that lists numbered scenes one per line, without stray
   * blanks around them, is parsed back to exactly those scenes; the demo
   * storylines are such lists.
   */
  lemma CleanStorylineRoundTrip(story: seq<string>)
    requires |story| >= 1
    requires forall k :: 0 <= k < |story| ==>
      '\n' !in story[k] && Strip(story[k]) == story[k] && Classify(story[k]) == Keep
    ensures KeptLines(StripAll(Split(Join(story, '\n'), '\n'))) == Some(story)
  {
    JoinSplit(story, '\n');
    assert StripAll(story) == story;
    KeptLinesOfCleanLines(story);
  }

  /** A line numbered with two digits, such as "10. …", is dropped rather than kept. */
  lemma TwoDigitNumberDropped(s: string)
    requires |s| >= 2 && IsDigit(s[0]) && IsDigit(s[1])
    ensures Classify(s) == Skip
  {
  }

  /**
   * A lone digit on a line makes the whole completion fall back to the demo
   * data, whatever the other lines hold.
   */
  lemma LoneDigitFallsBack(lines: seq<string>, i: nat)
    requires i < |lines| && |Strip(lines[i])| == 1 && IsDigit(Strip(lines[i])[0])
    ensures KeptLines(StripAll(lines)) == None
  {
    assert Classify(StripAll(lines)[i]) == Raise;
    KeptLinesFailIffRaises(StripAll(lines));
  }

  /** Whether every image call returned a URL. */
  predicate AllGenerated(descriptions: seq<string>, dalle: (nat, string) -> Option<string>) {
    forall i :: 0 <= i < |descriptions| ==> dalle(i, descriptions[i]).Some?
  }

  /**
   * `generate_images_from_descriptions`: one URL per description, in order;
   * the demo URLs in demo mode or as soon as one call fails. `dalle(i, d)`
   * is the i-th image call, made with description d.
   */
  method GenerateImages(descriptions: seq<string>, useMock: bool, dalle: (nat, string) -> Option<string>)
    returns (urls: seq<string>)
    ensures |descriptions| == SceneCount ==> |urls| == SceneCount
    ensures useMock || !AllGenerated(descriptions, dalle) ==> urls == MockImageUrls
    ensures !useMock && AllGenerated(descriptions, dalle) ==>
      |urls| == |descriptions|
      && forall i :: 0 <= i < |urls| ==> urls[i] == dalle(i, descriptions[i]).value
  {
    if useMock {
      return MockImageUrls;
    }
    urls := [];
    for i := 0 to |descriptions|
      invariant |urls| == i
      invariant forall k :: 0 <= k < i ==> dalle(k, descriptions[k]).Some? && urls[k] == dalle(k, descriptions[k]).value
    {
      var answer := dalle(i, descriptions[i]);
      if answer.None? {
        return MockImageUrls;
      }
      urls := urls + [answer.value];
    }
  }
}
