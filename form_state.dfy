/**
  The form state shared by the sidebar, the page and the three tabs: the checkbox lists
  (analysis options, demographics, descriptors), the uploaded file, and the rules that
  decide when an analysis may run and which buttons can be pressed.
 */
module FormState {
  import opened Wrappers
  import opened Text
  import YouTube

  /** The browser's `File` as far as the application looks at it. */
  datatype VideoFile = VideoFile(name: string, mimeType: string, size: nat)

  // ---------------------------------------------------------------------------
  // Checkbox lists

  /** `list.filter(x => x !== item)`: every occurrence of `item` removed, the rest kept in
      order. */
  function RemoveAll(list: seq<string>, item: string): (r: seq<string>)
    ensures item !in r
    ensures forall x :: x in r ==> x in list
    ensures |r| + multiset(list)[item] == |list|
    ensures forall x :: x != item ==> multiset(r)[x] == multiset(list)[x]
    decreases |list|
  {
    if list == [] then []
    else
      assert list == [list[0]] + list[1..];
      var rest := RemoveAll(list[1..], item);
      if list[0] == item then rest else [list[0]] + rest
  }

  /** Removing distributes over concatenation: the survivors of each part stay in order. */
  lemma {:induction false} RemoveAllAppend(a: seq<string>, b: seq<string>, item: string)
    ensures RemoveAll(a + b, item) == RemoveAll(a, item) + RemoveAll(b, item)
    decreases |a|
  {
    if a == [] {
      assert a + b == b;
    } else {
      assert (a + b)[0] == a[0];
      assert (a + b)[1..] == a[1..] + b;
      RemoveAllAppend(a[1..], b, item);
    }
  }

  /** A list without the item is left exactly as it was. */
  lemma {:induction false} RemoveAllAbsent(list: seq<string>, item: string)
    requires item !in list
    ensures RemoveAll(list, item) == list
    decreases |list|
  {
    if list != [] {
      RemoveAllAbsent(list[1..], item);
      assert [list[0]] + list[1..] == list;
    }
  }

  /** The sidebar's `handleAnalysisOptionChange`, `handleDemographicChange` and
      `handleDescriptorChange`, which share one shape: with no setter nothing happens;
      checking appends the item at the end (even when it is already listed); unchecking
      removes every occurrence of it. */
  function ChangeListed(list: seq<string>, hasSetter: bool, item: string, checked: bool): (r: seq<string>)
    ensures !hasSetter ==> r == list
    ensures hasSetter && checked ==> |r| == |list| + 1 && r[..|list|] == list && r[|list|] == item
    ensures hasSetter && !checked ==> item !in r && r == RemoveAll(list, item)
  {
    if !hasSetter then list
    else if checked then
      assert (list + [item])[..|list|] == list;
      list + [item]
    else RemoveAll(list, item)
  }

  /** Checking an item that was not listed and then unchecking it gives the list back. */
  lemma CheckUncheck(list: seq<string>, item: string)
    requires item !in list
    ensures ChangeListed(ChangeListed(list, true, item, true), true, item, false) == list
  {
    RemoveAllAppend(list, [item], item);
    RemoveAllAbsent(list, item);
    assert RemoveAll([item], item) == [];
  }

  /** Checking an item twice lists it twice: the handlers do not de-duplicate. */
  lemma CheckTwice(list: seq<string>, item: string)
    ensures var r := ChangeListed(ChangeListed(list, true, item, true), true, item, true);
      multiset(r)[item] == multiset(list)[item] + 2
  {
    var r := ChangeListed(ChangeListed(list, true, item, true), true, item, true);
    assert r == list + [item, item];
  }

  /** One uncheck removes an item however many times it was checked. */
  lemma UncheckAfterChecks(list: seq<string>, item: string)
    ensures var once := ChangeListed(list, true, item, true);
      ChangeListed(ChangeListed(once, true, item, true), true, item, false) == RemoveAll(list, item)
  {
    RemoveAllAppend(list, [item, item], item);
    assert list + [item] + [item] == list + [item, item];
    assert RemoveAll([item, item], item) == [];
  }

  // ---------------------------------------------------------------------------
  // When an analysis may run

  const VideoTab: string := "video-analysis"
  const MarketingTab: string := "marketing-analysis"
  const CommentTab: string := "comment-analysis"

  /** The fields every form reads from: the page keeps them all, each tab a subset. */
  datatype Form = Form(
    campaign: string,
    locality: string,
    selectedVideo: Option<VideoFile>,
    analysisOptions: seq<string>,
    demographics: seq<string>,
    descriptors: seq<string>,
    videoUrl: string)

  /** The video tab's `canAnalyze`: a campaign, a locality, a video and an option. */
  predicate VideoReady(campaign: string, locality: string, video: Option<VideoFile>, options: seq<string>) {
    campaign != "" && locality != "" && video.Some? && |options| > 0
  }

  /** The marketing tab's `canAnalyze`: a campaign, a demographic, a descriptor and a video. */
  predicate MarketingReady(campaign: string, demographics: seq<string>, descriptors: seq<string>, video: Option<VideoFile>) {
    campaign != "" && |demographics| > 0 && |descriptors| > 0 && video.Some?
  }

  /** The comment tab's `canAnalyze`: a URL the validator accepts. */
  predicate CommentReady(url: string) {
    url != "" && YouTube.IsValidYouTubeUrl(url)
  }

  /** The page's `getCanAnalyze`, read as a condition: the active tab's rule, and false for
      any other tab. */
  function GetCanAnalyze(tab: string, f: Form): (r: bool)
    ensures r ==> tab == VideoTab || tab == MarketingTab || tab == CommentTab
    ensures r ==> tab != CommentTab ==> f.campaign != "" && f.selectedVideo.Some?
    ensures tab == VideoTab ==> (r <==> VideoReady(f.campaign, f.locality, f.selectedVideo, f.analysisOptions))
    ensures tab == MarketingTab ==> (r <==> MarketingReady(f.campaign, f.demographics, f.descriptors, f.selectedVideo))
    ensures tab == CommentTab ==> (r <==> YouTube.IsValidYouTubeUrl(f.videoUrl))
  {
    if tab == VideoTab then VideoReady(f.campaign, f.locality, f.selectedVideo, f.analysisOptions)
    else if tab == MarketingTab then MarketingReady(f.campaign, f.demographics, f.descriptors, f.selectedVideo)
    else if tab == CommentTab then CommentReady(f.videoUrl)
    else false
  }

  /** The comment rule needs no separate empty-string test: the validator rejects `""`. */
  lemma CommentReadyIsValid(url: string)
    ensures CommentReady(url) <==> YouTube.IsValidYouTubeUrl(url)
  {
    if url == "" {
      assert !YouTube.IsValidYouTubeUrl(url) by {
        if YouTube.IsValidYouTubeUrl(url) {
          YouTube.ValidLength(url);
        }
      }
    }
  }

  /** A ready comment form always yields a video id for the preview. */
  lemma CommentReadyHasId(url: string)
    requires CommentReady(url)
    ensures YouTube.ExtractVideoId(url).Some?
  {
    YouTube.ValidHasId(url);
  }

  /** The request an analysis sends: the video form's fields, the marketing form's fields,
      or the URL and the comment count. */
  datatype Request =
    | VideoRequest(campaign: string, locality: string, video: VideoFile, analysisOptions: seq<string>)
    | MarketingRequest(campaign: string, demographics: seq<string>, descriptors: seq<string>, video: VideoFile)
    | CommentRequest(videoUrl: string, maxComments: nat)

  /** The number of comments the page always asks for. */
  const PageMaxComments: nat := 25

  /** The request the page's `handleAnalyze` builds for a ready form: the form's own fields,
      with the non-null video it was checked to hold; the comment request asks for 25
      comments. */
  function RequestFor(tab: string, f: Form): (r: Request)
    requires GetCanAnalyze(tab, f)
    ensures tab == VideoTab <==> r.VideoRequest?
    ensures tab == MarketingTab <==> r.MarketingRequest?
    ensures tab == CommentTab <==> r.CommentRequest?
    ensures !r.CommentRequest? ==> r.campaign == f.campaign && Some(r.video) == f.selectedVideo
    ensures r.VideoRequest? ==> r.locality == f.locality && r.analysisOptions == f.analysisOptions
    ensures r.MarketingRequest? ==> r.demographics == f.demographics && r.descriptors == f.descriptors
    ensures r.CommentRequest? ==> r.videoUrl == f.videoUrl && r.maxComments == PageMaxComments
  {
    if tab == VideoTab then VideoRequest(f.campaign, f.locality, f.selectedVideo.value, f.analysisOptions)
    else if tab == MarketingTab then MarketingRequest(f.campaign, f.demographics, f.descriptors, f.selectedVideo.value)
    else CommentRequest(f.videoUrl, PageMaxComments)
  }

  /** Every field of a request the page sends is filled: a campaign, a locality, an option,
      a demographic and a descriptor where the request has them, and a URL the validator
      accepts. */
  lemma RequestFilled(tab: string, f: Form)
    requires GetCanAnalyze(tab, f)
    ensures var r := RequestFor(tab, f);
      && (!r.CommentRequest? ==> r.campaign != "")
      && (r.VideoRequest? ==> r.locality != "" && |r.analysisOptions| > 0)
      && (r.MarketingRequest? ==> |r.demographics| > 0 && |r.descriptors| > 0)
      && (r.CommentRequest? ==> r.videoUrl != "" && YouTube.IsValidYouTubeUrl(r.videoUrl))
  {
    CommentReadyIsValid(f.videoUrl);
  }

  // ---------------------------------------------------------------------------
  // The sidebar's buttons

  /** The Analyze button: enabled when the form is ready and no analysis is running. */
  function AnalyzeEnabled(canAnalyze: bool, isAnalyzing: bool): bool {
    canAnalyze && !isAnalyzing
  }

  /** The Reset button: disabled exactly while an analysis is running. */
  function ResetEnabled(isAnalyzing: bool): bool {
    !isAnalyzing
  }

  /** While an analysis runs neither button can be pressed; otherwise Reset always can, and
      Analyze can exactly when the form is ready. */
  lemma Buttons(canAnalyze: bool, isAnalyzing: bool)
    ensures isAnalyzing ==> !AnalyzeEnabled(canAnalyze, isAnalyzing) && !ResetEnabled(isAnalyzing)
    ensures !isAnalyzing ==> ResetEnabled(isAnalyzing) && (AnalyzeEnabled(canAnalyze, isAnalyzing) <==> canAnalyze)
    ensures AnalyzeEnabled(canAnalyze, isAnalyzing) ==> ResetEnabled(isAnalyzing)
  {
  }
}
