/** The Turnstile content script: it runs inside the page, finds the Cloudflare
    Turnstile iframes, describes each as a `CaptchaInfo`, marks them as busy, and
    later writes solved tokens into the widgets' hidden response inputs.

    The page is abstract: a sequence of iframes (DOM id, `src`, and whether the
    element is in the viewport), a table from input-element id to value, and the
    set of iframes painted with the "busy" filter. */
module TurnstileContent {
  import opened Types
  import opened Strings

  /** The only entry of `baseUrls`. */
  const BaseUrl: string := "challenges.cloudflare.com/cdn-cgi/challenge-platform"
  const WidgetPrefix: string := "cf-chl-widget-"
  const ResponseSuffix: string := "_response"

  datatype Iframe = Iframe(id: string, src: string, inViewport: bool)

  /** What a DOM call inside the content script can throw. */
  datatype DomError =
    | SelectorSyntaxError(selector: string)  // querySelector on a malformed selector
    | NullValueWrite                         // `.value = …` on a missing input

  /** Outcome of a `querySelector` for one element. */
  datatype Lookup = Absent | Found(key: string) | Throws(error: DomError)

  /** The part of the page the script reads. */
  datatype DomView = DomView(href: string, hasBody: bool, iframes: seq<Iframe>, inputs: map<string, string>)

  datatype FindResult = FindResult(captchas: seq<CaptchaInfo>, error: Option<DomError>)

  /** `types.CaptchaSolved`, without the `solvedAt` timestamp. */
  datatype Solved = Solved(vendor: Vendor, id: Option<string>, isSolved: bool)

  datatype InjectError = NoSolutionsProvided | Thrown(error: DomError)

  datatype EnterResult = EnterResult(solved: seq<Solved>, error: Option<InjectError>)

  // ---------------------------------------------------------------------------
  // Document readiness

  /** `/^loaded|^i|^c/.test(document.readyState)` */
  predicate LoadedAlready(readyState: string): (b: bool)
    ensures b <==>
      (|readyState| > 0 &&
       (readyState[0] == 'i' || readyState[0] == 'c' || (|readyState| >= 6 && readyState[..6] == "loaded")))
  {
    IsPrefix("loaded", readyState) || IsPrefix("i", readyState) || IsPrefix("c", readyState)
  }

  /** Of the three standard `readyState` values, only `loading` makes the script wait. */
  lemma ReadyStateValues()
    ensures !LoadedAlready("loading")
    ensures LoadedAlready("interactive") && LoadedAlready("complete")
  {
    assert "loading"[..6][4] == 'i' && "loaded"[4] == 'e';
    assert !IsPrefix("loaded", "loading");
    assert "loading"[..1][0] == 'l';
    assert !IsPrefix("i", "loading") && !IsPrefix("c", "loading");
  }

  // ---------------------------------------------------------------------------
  // Selectors

  /** A selector that embeds `id` between `quote` characters is modelled as
      well-formed when `id` has no such quote, no backslash and no newline;
      otherwise `querySelector` raises. */
  predicate QuoteSafe(id: string, quote: char) {
    quote !in id && '\\' !in id && '\n' !in id
  }

  function ResponseInputKey(id: string): string {
    WidgetPrefix + id + ResponseSuffix
  }

  /** `getResponseInputById`: no lookup for a falsy id or a missing body, else the
      input whose id is exactly `cf-chl-widget-<id>_response`. */
  function GetResponseInputById(id: Option<string>, hasBody: bool, inputs: map<string, string>): (r: Lookup)
    ensures !StrTruthy(id) || !hasBody ==> r == Absent
    ensures r.Found? ==> r.key in inputs && r.key == ResponseInputKey(id.value)
    ensures r.Throws? <==> StrTruthy(id) && hasBody && !QuoteSafe(id.value, '\'')
    ensures StrTruthy(id) && hasBody && QuoteSafe(id.value, '\'') ==>
      (r.Found? <==> ResponseInputKey(id.value) in inputs)
  {
    if !StrTruthy(id) || !hasBody then Absent
    else if !QuoteSafe(id.value, '\'') then
      Throws(SelectorSyntaxError("input[id='" + ResponseInputKey(id.value) + "']"))
    else if ResponseInputKey(id.value) in inputs then Found(ResponseInputKey(id.value))
    else Absent
  }

  /** Only which ids exist matters to the lookup, not their values. */
  lemma LookupIgnoresValues(id: Option<string>, hasBody: bool, m1: map<string, string>, m2: map<string, string>)
    requires m1.Keys == m2.Keys
    ensures GetResponseInputById(id, hasBody, m1) == GetResponseInputById(id, hasBody, m2)
  {
  }

  /** `isInvisible`: Turnstile has no invisible variant. */
  function IsInvisible(id: Option<string>): (b: bool)
    ensures !b
  {
    false
  }

  /** Index of the first iframe whose DOM id contains `needle` (`iframe[id*="…"]`). */
  function FirstIframeWithIdContaining(frames: seq<Iframe>, needle: string): (r: Option<nat>)
    ensures r.Some? ==> r.value < |frames| && Contains(frames[r.value].id, needle)
    ensures r.Some? ==> forall k :: 0 <= k < r.value ==> !Contains(frames[k].id, needle)
    ensures r.None? ==> forall k :: 0 <= k < |frames| ==> !Contains(frames[k].id, needle)
  {
    if |frames| == 0 then None
    else if Contains(frames[0].id, needle) then Some(0)
    else
      match FirstIframeWithIdContaining(frames[1..], needle)
      case None => None
      case Some(i) => Some(i + 1)
  }

  /** `isInViewport`: `undefined` for a falsy id, `false` when no iframe id
      contains `cf-chl-widget-<id>`, else the (abstract) geometric test of the
      first such iframe. */
  function IsInViewport(id: Option<string>, frames: seq<Iframe>): (r: Result<Option<bool>, DomError>)
    ensures !StrTruthy(id) ==> r == Ok(None)
    ensures r.Err? <==> StrTruthy(id) && !QuoteSafe(id.value, '"')
    ensures r.Ok? && StrTruthy(id) ==>
      r.value.Some? &&
      (r.value.value <==>
         exists k :: 0 <= k < |frames| && frames[k].inViewport &&
           Contains(frames[k].id, WidgetPrefix + id.value) &&
           forall m :: 0 <= m < k ==> !Contains(frames[m].id, WidgetPrefix + id.value))
  {
    if !StrTruthy(id) then Ok(None)
    else if !QuoteSafe(id.value, '"') then
      Err(SelectorSyntaxError("iframe[id*=\"" + WidgetPrefix + id.value + "\"]"))
    else
      match FirstIframeWithIdContaining(frames, WidgetPrefix + id.value)
      case None => Ok(Some(false))
      case Some(k) => Ok(Some(frames[k].inViewport))
  }

  // ---------------------------------------------------------------------------
  // Detection

  /** The iframes from index `from` on whose `src` contains the base URL, in order. */
  function MatchingFrom(frames: seq<Iframe>, from: nat): (idxs: seq<nat>)
    requires from <= |frames|
    ensures forall k :: 0 <= k < |idxs| ==> from <= idxs[k] < |frames|
    ensures forall k, l :: 0 <= k < l < |idxs| ==> idxs[k] < idxs[l]
    ensures forall i :: from <= i < |frames| ==> (i in idxs <==> Contains(frames[i].src, BaseUrl))
    decreases |frames| - from
  {
    if from == |frames| then []
    else if Contains(frames[from].src, BaseUrl) then [from] + MatchingFrom(frames, from + 1)
    else MatchingFrom(frames, from + 1)
  }

  /** `_findRegularCheckboxes`: the indices, in document order, of exactly the
      iframes whose `src` contains the Turnstile challenge-platform URL. */
  function FindRegularCheckboxes(frames: seq<Iframe>): (idxs: seq<nat>)
    ensures forall k :: 0 <= k < |idxs| ==> idxs[k] < |frames|
    ensures forall k, l :: 0 <= k < l < |idxs| ==> idxs[k] < idxs[l]
    ensures forall i :: 0 <= i < |frames| ==> (i in idxs <==> Contains(frames[i].src, BaseUrl))
  {
    MatchingFrom(frames, 0)
  }

  function FramesAt(frames: seq<Iframe>, idxs: seq<nat>): (r: seq<Iframe>)
    requires forall k :: 0 <= k < |idxs| ==> idxs[k] < |frames|
    ensures |r| == |idxs| && forall k :: 0 <= k < |idxs| ==> r[k] == frames[idxs[k]]
  {
    seq(|idxs|, k requires 0 <= k < |idxs| => frames[idxs[k]])
  }

  /** `el.id.split('-').pop()`: a `-`-free tail of the DOM id. */
  function WidgetIdOf(domId: string): (id: string)
    ensures '-' !in id && |id| <= |domId|
  {
    var chunks := Split(domId, '-');
    LastChunkIsLastSegment(domId, '-');
    chunks[|chunks| - 1]
  }

  /** `el.src.split('/')` popped three times: the third pop, `undefined` when
      fewer than three chunks remain. */
  function SitekeyOf(src: string): (key: Option<string>)
    ensures key.Some? <==> Count(src, '/') >= 2
    ensures key.Some? ==> '/' !in key.value
  {
    var chunks := Split(src, '/');
    SplitCount(src, '/');
    if |chunks| >= 3 then Some(chunks[|chunks| - 3]) else None
  }

  /** The record the map callback of `_extractInfoFromIframes` builds for one
      iframe; the two selector queries can raise, the response-input query
      first. */
  function InfoOf(view: DomView, frame: Iframe): (r: Result<CaptchaInfo, DomError>)
    ensures r.Err? <==>
      WidgetIdOf(frame.id) != "" &&
      ((view.hasBody && !QuoteSafe(WidgetIdOf(frame.id), '\'')) || !QuoteSafe(WidgetIdOf(frame.id), '"'))
    ensures var id := WidgetIdOf(frame.id);
      id != "" && view.hasBody && !QuoteSafe(id, '\'') ==>
        r == Err(SelectorSyntaxError("input[id='" + ResponseInputKey(id) + "']"))
    ensures var id := WidgetIdOf(frame.id);
      id != "" && !(view.hasBody && !QuoteSafe(id, '\'')) && !QuoteSafe(id, '"') ==>
        r == Err(SelectorSyntaxError("iframe[id*=\"" + WidgetPrefix + id + "\"]"))
    ensures r.Ok? ==>
      var info := r.value;
      && info.vendor == Turnstile && info.kind == Checkbox
      && info.url == Some(view.href)
      && info.id == Some(WidgetIdOf(frame.id))
      && info.sitekey == SitekeyOf(frame.src)
      && info.s.None? && !info.isInvisible
      && (info.hasResponseElement <==>
            WidgetIdOf(frame.id) != "" && view.hasBody && ResponseInputKey(WidgetIdOf(frame.id)) in view.inputs)
      && info.isInViewport == IsInViewport(Some(WidgetIdOf(frame.id)), view.iframes).value
  {
    var id := WidgetIdOf(frame.id);
    var sitekey := SitekeyOf(frame.src);
    var input := GetResponseInputById(Some(id), view.hasBody, view.inputs);
    if input.Throws? then Err(input.error)
    else
      var inViewport := IsInViewport(Some(id), view.iframes);
      if inViewport.Err? then Err(inViewport.error)
      else
        Ok(CaptchaInfo(
          vendor := Turnstile,
          kind := Checkbox,
          url := Some(view.href),
          id := Some(id),
          sitekey := sitekey,
          s := None,
          hasResponseElement := input.Found?,
          isInvisible := IsInvisible(Some(id)),
          isInViewport := inViewport.value))
  }

  /** `_extractInfoFromIframes`: one record per iframe, in order, unless one of
      the records raises, in which case the whole map raises. */
  function ExtractInfoFromIframes(view: DomView, frames: seq<Iframe>): (r: Result<seq<CaptchaInfo>, DomError>)
    ensures r.Ok? <==> forall k :: 0 <= k < |frames| ==> InfoOf(view, frames[k]).Ok?
    ensures r.Ok? ==> (|r.value| == |frames| &&
      forall k :: 0 <= k < |frames| ==> Ok(r.value[k]) == InfoOf(view, frames[k]))
    ensures r.Err? ==>
      exists k :: (0 <= k < |frames| && InfoOf(view, frames[k]) == Err(r.error) &&
                   forall m :: 0 <= m < k ==> InfoOf(view, frames[m]).Ok?)
  {
    if |frames| == 0 then Ok([])
    else
      match InfoOf(view, frames[0])
      case Err(e) => Err(e)
      case Ok(info) =>
        match ExtractInfoFromIframes(view, frames[1..])
        case Err(e) => Err(e)
        case Ok(rest) => Ok([info] + rest)
  }

  /** The widget id is the part of the DOM id after its last `-`, and all of it
      when there is none. */
  lemma WidgetIdMeaning(domId: string)
    ensures IsLastSegment(domId, '-', WidgetIdOf(domId))
    ensures '-' !in domId ==> WidgetIdOf(domId) == domId
  {
    LastChunkIsLastSegment(domId, '-');
  }

  /** The sitekey exists exactly when `src` has at least two `/`; it is then the
      `/`-segment that precedes the last two (size and theme). */
  lemma SitekeyMeaning(src: string)
    ensures SitekeyOf(src).Some? <==> Count(src, '/') >= 2
    ensures SitekeyOf(src).Some? ==>
      var parts := Split(src, '/');
      var size := parts[|parts| - 1];
      var theme := parts[|parts| - 2];
      && IsLastSegment(src, '/', size)
      && |size| < |src|
      && IsLastSegment(DropLastSegment(src, size), '/', theme)
      && |theme| < |DropLastSegment(src, size)|
      && IsLastSegment(DropLastSegment(DropLastSegment(src, size), theme), '/', SitekeyOf(src).value)
  {
    SplitCount(src, '/');
    if Count(src, '/') >= 2 {
      ThirdFromLastChunk(src, '/');
    }
  }

  /** An iframe whose DOM id is empty or ends in `-` gets an empty widget id, so
      it has no response element and no viewport answer. */
  lemma EmptyWidgetId(view: DomView, frame: Iframe)
    requires frame.id == "" || frame.id[|frame.id| - 1] == '-'
    ensures InfoOf(view, frame).Ok?
    ensures InfoOf(view, frame).value.id == Some("")
    ensures !InfoOf(view, frame).value.hasResponseElement
    ensures InfoOf(view, frame).value.isInViewport.None?
  {
    LastChunkIsLastSegment(frame.id, '-');
    LastSegmentEnd(frame.id, '-', WidgetIdOf(frame.id));
  }

  // ---------------------------------------------------------------------------
  // Injection (pure part)

  /** The two filters of `enterRecaptchaSolutions`. */
  predicate IsEligible(s: CaptchaSolution) {
    s.vendor == Turnstile && s.hasSolution == Some(true)
  }

  function Eligible(sols: seq<CaptchaSolution>): (r: seq<CaptchaSolution>)
    ensures |r| <= |sols|
    ensures forall x :: x in r <==> x in sols && IsEligible(x)
  {
    if |sols| == 0 then []
    else if IsEligible(sols[0]) then [sols[0]] + Eligible(sols[1..])
    else Eligible(sols[1..])
  }

  /** Filtering distributes over concatenation, so it keeps the input order. */
  lemma {:induction false} EligibleAppend(a: seq<CaptchaSolution>, b: seq<CaptchaSolution>)
    ensures Eligible(a + b) == Eligible(a) + Eligible(b)
  {
    if |a| > 0 {
      assert (a + b)[1..] == a[1..] + b;
      EligibleAppend(a[1..], b);
    } else {
      assert a + b == b;
    }
  }

  /** The string an input holds after `input.value = text` (`undefined` converts
      to the string "undefined"). */
  function TextValue(text: Option<string>): string {
    if text.Some? then text.value else "undefined"
  }

  /** The error raised by `getResponseInputById(id).value = …` when the lookup did
      not find the input. */
  function WriteError(l: Lookup): DomError {
    if l.Throws? then l.error else NullValueWrite
  }

  /** One assignment of the map callback, when the input exists. */
  function WriteOne(inputs: map<string, string>, s: CaptchaSolution, hasBody: bool): map<string, string> {
    match GetResponseInputById(s.id, hasBody, inputs)
    case Found(key) => inputs[key := TextValue(s.text)]
    case _ => inputs
  }

  /** The inputs after the callback ran for each of `sols`, in order. */
  function WriteAll(inputs: map<string, string>, sols: seq<CaptchaSolution>, hasBody: bool): map<string, string> {
    if |sols| == 0 then inputs
    else WriteOne(WriteAll(inputs, sols[..|sols| - 1], hasBody), sols[|sols| - 1], hasBody)
  }

  /** Index of the first solution whose input cannot be written (the one whose
      callback raises), or `|sols|` when every input exists. */
  function FirstUnwritable(sols: seq<CaptchaSolution>, hasBody: bool, inputs: map<string, string>): (j: nat)
    ensures j <= |sols|
    ensures forall k :: 0 <= k < j ==> GetResponseInputById(sols[k].id, hasBody, inputs).Found?
    ensures j < |sols| ==> !GetResponseInputById(sols[j].id, hasBody, inputs).Found?
  {
    if |sols| == 0 then 0
    else if !GetResponseInputById(sols[0].id, hasBody, inputs).Found? then 0
    else 1 + FirstUnwritable(sols[1..], hasBody, inputs)
  }

  /** The `{_vendor, id, isSolved: true}` records of the map. */
  function SolvedRecords(sols: seq<CaptchaSolution>): (r: seq<Solved>)
    ensures |r| == |sols|
    ensures forall k :: 0 <= k < |sols| ==> r[k] == Solved(sols[k].vendor, sols[k].id, true)
  {
    seq(|sols|, k requires 0 <= k < |sols| => Solved(sols[k].vendor, sols[k].id, true))
  }

  /** Writing only assigns existing inputs: the set of input ids is unchanged. */
  lemma {:induction false} WriteAllKeys(inputs: map<string, string>, sols: seq<CaptchaSolution>, hasBody: bool)
    ensures WriteAll(inputs, sols, hasBody).Keys == inputs.Keys
    decreases |sols|
  {
    if |sols| > 0 {
      WriteAllKeys(inputs, sols[..|sols| - 1], hasBody);
    }
  }

  /** An input that none of `sols` targets keeps its value. */
  lemma {:induction false} WriteAllUntouched(inputs: map<string, string>, sols: seq<CaptchaSolution>, hasBody: bool, key: string)
    requires key in inputs
    requires forall k :: 0 <= k < |sols| ==> GetResponseInputById(sols[k].id, hasBody, inputs) != Found(key)
    ensures key in WriteAll(inputs, sols, hasBody)
    ensures WriteAll(inputs, sols, hasBody)[key] == inputs[key]
    decreases |sols|
  {
    WriteAllKeys(inputs, sols, hasBody);
    if |sols| > 0 {
      var init := sols[..|sols| - 1];
      WriteAllUntouched(inputs, init, hasBody, key);
      WriteAllKeys(inputs, init, hasBody);
      LookupIgnoresValues(sols[|sols| - 1].id, hasBody, WriteAll(inputs, init, hasBody), inputs);
    }
  }

  /** An input targeted by solution `i` and by no later one holds `i`'s token. */
  lemma {:induction false} WriteAllLastWriter(inputs: map<string, string>, sols: seq<CaptchaSolution>, hasBody: bool, key: string, i: nat)
    requires i < |sols|
    requires GetResponseInputById(sols[i].id, hasBody, inputs) == Found(key)
    requires forall k :: i < k < |sols| ==> GetResponseInputById(sols[k].id, hasBody, inputs) != Found(key)
    ensures key in WriteAll(inputs, sols, hasBody)
    ensures WriteAll(inputs, sols, hasBody)[key] == TextValue(sols[i].text)
    decreases |sols|
  {
    var init := sols[..|sols| - 1];
    WriteAllKeys(inputs, init, hasBody);
    LookupIgnoresValues(sols[|sols| - 1].id, hasBody, WriteAll(inputs, init, hasBody), inputs);
    if i < |sols| - 1 {
      WriteAllLastWriter(inputs, init, hasBody, key, i);
    }
  }

  /** A solution not found, with none missing before it, is the first unwritable one. */
  lemma FirstUnwritableAt(sols: seq<CaptchaSolution>, hasBody: bool, inputs: map<string, string>, i: nat)
    requires i < |sols| && i <= FirstUnwritable(sols, hasBody, inputs)
    requires !GetResponseInputById(sols[i].id, hasBody, inputs).Found?
    ensures FirstUnwritable(sols, hasBody, inputs) == i
  {
  }

  /** A solution found, with none missing before it, comes before the first unwritable one. */
  lemma FirstUnwritableAfter(sols: seq<CaptchaSolution>, hasBody: bool, inputs: map<string, string>, i: nat)
    requires i < |sols| && i <= FirstUnwritable(sols, hasBody, inputs)
    requires GetResponseInputById(sols[i].id, hasBody, inputs).Found?
    ensures i < FirstUnwritable(sols, hasBody, inputs)
  {
  }

  /** One more solution of the batch: one more write and one more record. */
  lemma WriteStep(inputs: map<string, string>, sols: seq<CaptchaSolution>, hasBody: bool, i: nat)
    requires i < |sols|
    ensures WriteAll(inputs, sols[..i + 1], hasBody) == WriteOne(WriteAll(inputs, sols[..i], hasBody), sols[i], hasBody)
    ensures SolvedRecords(sols[..i + 1]) == SolvedRecords(sols[..i]) + [Solved(sols[i].vendor, sols[i].id, true)]
  {
    assert sols[..i + 1][..i] == sols[..i];
  }

  // ---------------------------------------------------------------------------
  // The page and the script

  /** The page the script runs in; the script changes the input values and the
      set of painted iframes, nothing else. */
  class Page {
    const href: string
    const hasBody: bool
    const iframes: seq<Iframe>
    var inputs: map<string, string>
    var painted: set<nat>

    constructor (href: string, hasBody: bool, iframes: seq<Iframe>, inputs: map<string, string>)
      ensures this.href == href && this.hasBody == hasBody
      ensures this.iframes == iframes && this.inputs == inputs && painted == {}
    {
      this.href := href;
      this.hasBody := hasBody;
      this.iframes := iframes;
      this.inputs := inputs;
      painted := {};
    }

    function View(): DomView
      reads this`inputs
    {
      DomView(href, hasBody, iframes, inputs)
    }
  }

  /** `TurnstileContentScript` with its options (`visualFeedback`) and data
      (`solutions`, possibly undefined). */
  class TurnstileContentScript {
    const visualFeedback: bool
    const solutions: Option<seq<CaptchaSolution>>

    constructor (visualFeedback: bool, solutions: Option<seq<CaptchaSolution>>)
      ensures this.visualFeedback == visualFeedback && this.solutions == solutions
    {
      this.visualFeedback := visualFeedback;
      this.solutions := solutions;
    }

    /** The default options and data: visual feedback on, no solutions. */
    constructor Default()
      ensures visualFeedback && solutions == Some([])
    {
      visualFeedback := true;
      solutions := Some([]);
    }

    /** `_paintCaptchaBusy`: marks iframe `i` when visual feedback is on; never raises. */
    method PaintCaptchaBusy(page: Page, i: nat)
      modifies page`painted
      ensures page.painted == if visualFeedback then old(page.painted) + {i} else old(page.painted)
    {
      if visualFeedback {
        page.painted := page.painted + {i};
      }
    }

    /** `findRecaptchas`: no Turnstile iframe gives an empty result; a raise while
        extracting gives no captchas, the error, and no painting; otherwise one
        record per matching iframe and, with visual feedback, every matching
        iframe painted. */
    method FindRecaptchas(page: Page) returns (result: FindResult)
      modifies page`painted
      ensures
        var idxs := FindRegularCheckboxes(page.iframes);
        var extracted := ExtractInfoFromIframes(page.View(), FramesAt(page.iframes, idxs));
        if |idxs| == 0 then
          result == FindResult([], None) && page.painted == old(page.painted)
        else if extracted.Err? then
          result == FindResult([], Some(extracted.error)) && page.painted == old(page.painted)
        else
          result == FindResult(extracted.value, None) &&
          page.painted == old(page.painted) + (if visualFeedback then set k | k in idxs else {})
    {
      result := FindResult([], None);
      var idxs := FindRegularCheckboxes(page.iframes);
      if |idxs| == 0 {
        return;
      }
      var extracted := ExtractInfoFromIframes(page.View(), FramesAt(page.iframes, idxs));
      if extracted.Err? {
        result := result.(error := Some(extracted.error));
        return;
      }
      result := result.(captchas := extracted.value);
      PaintEach(page, idxs);
    }

    /** `iframes.forEach(el => this._paintCaptchaBusy(el))` */
    method PaintEach(page: Page, idxs: seq<nat>)
      modifies page`painted
      ensures page.painted == old(page.painted) + (if visualFeedback then set k | k in idxs else {})
    {
      for n := 0 to |idxs|
        invariant page.painted == old(page.painted) + (if visualFeedback then set m | 0 <= m < n :: idxs[m] else {})
      {
        PaintCaptchaBusy(page, idxs[n]);
      }
      assert (set m | 0 <= m < |idxs| :: idxs[m]) == set k | k in idxs;
    }

    /** `enterRecaptchaSolutions`: without solutions, the "No solutions provided"
        error and no write; otherwise the eligible solutions are written in order
        until one has no input, which aborts the batch with that error and an
        empty `solved` list while the earlier writes stay. */
    method EnterRecaptchaSolutions(page: Page) returns (result: EnterResult)
      modifies page`inputs
      ensures solutions.None? || |solutions.value| == 0 ==>
        result == EnterResult([], Some(NoSolutionsProvided)) && page.inputs == old(page.inputs)
      ensures solutions.Some? && |solutions.value| > 0 ==>
        var todo := Eligible(solutions.value);
        var j := FirstUnwritable(todo, page.hasBody, old(page.inputs));
        && page.inputs == WriteAll(old(page.inputs), todo[..j], page.hasBody)
        && result == if j == |todo| then EnterResult(SolvedRecords(todo), None)
                     else EnterResult([], Some(Thrown(WriteError(GetResponseInputById(todo[j].id, page.hasBody, old(page.inputs))))))
    {
      result := EnterResult([], None);
      if solutions.None? || |solutions.value| == 0 {
        result := result.(error := Some(NoSolutionsProvided));
        return;
      }
      var todo := Eligible(solutions.value);
      var solved, error := WriteSolutions(page, todo);
      if error.Some? {
        result := result.(error := Some(Thrown(error.value)));
      } else {
        result := result.(solved := solved);
      }
    }

    /** The map callback over the eligible solutions, in order: each writes its
        token and yields its record, until one raises. */
    method WriteSolutions(page: Page, todo: seq<CaptchaSolution>) returns (solved: seq<Solved>, error: Option<DomError>)
      modifies page`inputs
      ensures
        var j := FirstUnwritable(todo, page.hasBody, old(page.inputs));
        && page.inputs == WriteAll(old(page.inputs), todo[..j], page.hasBody)
        && (j == |todo| ==> solved == SolvedRecords(todo) && error.None?)
        && (j < |todo| ==> error == Some(WriteError(GetResponseInputById(todo[j].id, page.hasBody, old(page.inputs)))))
    {
      var hasBody := page.hasBody;
      ghost var inputs0 := page.inputs;
      ghost var j := FirstUnwritable(todo, hasBody, inputs0);
      solved, error := [], None;
      var i := 0;
      while i < |todo|
        invariant 0 <= i <= j
        invariant page.inputs == WriteAll(inputs0, todo[..i], hasBody)
        invariant page.inputs.Keys == inputs0.Keys
        invariant solved == SolvedRecords(todo[..i])
      {
        var target := GetResponseInputById(todo[i].id, hasBody, page.inputs);
        LookupIgnoresValues(todo[i].id, hasBody, page.inputs, inputs0);
        if !target.Found? {
          FirstUnwritableAt(todo, hasBody, inputs0, i);
          error := Some(WriteError(target));
          return;
        }
        FirstUnwritableAfter(todo, hasBody, inputs0, i);
        WriteStep(inputs0, todo, hasBody, i);
        page.inputs := page.inputs[target.key := TextValue(todo[i].text)];
        solved := solved + [Solved(todo[i].vendor, todo[i].id, true)];
        i := i + 1;
      }
      assert todo[..i] == todo;
    }
  }

  /** After a batch in which every eligible solution found its input, an input
      that solution `i` targets, and no later one, holds `i`'s token; an input no
      eligible solution targets keeps its value; no input is added or removed. */
  lemma InjectionWritesTokens(inputs: map<string, string>, sols: seq<CaptchaSolution>, hasBody: bool, key: string)
    requires FirstUnwritable(Eligible(sols), hasBody, inputs) == |Eligible(sols)|
    requires key in inputs
    ensures var todo := Eligible(sols);
      var after := WriteAll(inputs, todo, hasBody);
      && after.Keys == inputs.Keys
      && ((forall k :: 0 <= k < |todo| ==> GetResponseInputById(todo[k].id, hasBody, inputs) != Found(key)) ==>
            after[key] == inputs[key])
      && (forall i :: (0 <= i < |todo| && GetResponseInputById(todo[i].id, hasBody, inputs) == Found(key) &&
            (forall k :: i < k < |todo| ==> GetResponseInputById(todo[k].id, hasBody, inputs) != Found(key))) ==>
            after[key] == TextValue(todo[i].text))
  {
    var todo := Eligible(sols);
    WriteAllKeys(inputs, todo, hasBody);
    if forall k :: 0 <= k < |todo| ==> GetResponseInputById(todo[k].id, hasBody, inputs) != Found(key) {
      WriteAllUntouched(inputs, todo, hasBody, key);
    }
    forall i | 0 <= i < |todo| && GetResponseInputById(todo[i].id, hasBody, inputs) == Found(key) &&
      (forall k :: i < k < |todo| ==> GetResponseInputById(todo[k].id, hasBody, inputs) != Found(key))
      ensures WriteAll(inputs, todo, hasBody)[key] == TextValue(todo[i].text)
    {
      WriteAllLastWriter(inputs, todo, hasBody, key, i);
    }
  }
}
