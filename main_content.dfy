/**
  The main content panel of the page: the header title and the empty-state message of the
  active tab, and when each preview is shown. The panel keeps no state of its own.
 */
module MainContent {
  import opened Wrappers
  import opened Text
  import opened FormState
  import YouTube

  predicate IsKnownTab(tab: string) {
    tab == VideoTab || tab == MarketingTab || tab == CommentTab
  }

  const DefaultTitle: string := "Analysis"
  const DefaultMessage: string := "Configure your settings to begin analysis."

  /** `getTabTitle`. */
  function GetTabTitle(tab: string): (r: string)
    ensures r != ""
  {
    if tab == VideoTab then "Video Analysis"
    else if tab == MarketingTab then "Marketing Analysis"
    else if tab == CommentTab then "Comment Analysis"
    else DefaultTitle
  }

  /** `getEmptyStateMessage`. */
  function GetEmptyStateMessage(tab: string): (r: string)
    ensures r != ""
  {
    if tab == VideoTab then
      "Configure your campaign settings, upload a video, and select analysis options to get started."
    else if tab == MarketingTab then
      "Select your campaign platform, target demographics, and upload a video to analyze marketing effectiveness."
    else if tab == CommentTab then
      "Enter a YouTube video URL to analyze viewer comments, sentiment, and engagement patterns."
    else DefaultMessage
  }

  /** Exactly the unknown tabs fall back to the default title. */
  lemma DefaultTitleIffUnknown(tab: string)
    ensures GetTabTitle(tab) == DefaultTitle <==> !IsKnownTab(tab)
  {
    if IsKnownTab(tab) {
      assert |GetTabTitle(tab)| > |DefaultTitle|;
    }
  }

  /** Exactly the unknown tabs fall back to the default message. */
  lemma DefaultMessageIffUnknown(tab: string)
    ensures GetEmptyStateMessage(tab) == DefaultMessage <==> !IsKnownTab(tab)
  {
    if IsKnownTab(tab) {
      KnownMessageLength(tab);
    }
  }

  lemma KnownMessageLength(tab: string)
    requires IsKnownTab(tab)
    ensures |GetEmptyStateMessage(tab)| > 42 == |DefaultMessage|
  {
    if tab == VideoTab {
      VideoMessageLength(tab);
    } else if tab == MarketingTab {
      MarketingMessageLength(tab);
    } else {
      CommentMessageLength(tab);
    }
  }

  lemma VideoMessageLength(tab: string)
    requires tab == VideoTab
    ensures |GetEmptyStateMessage(tab)| == 93
  {
  }

  lemma MarketingMessageLength(tab: string)
    requires tab == MarketingTab
    ensures |GetEmptyStateMessage(tab)| == 106
  {
  }

  lemma CommentMessageLength(tab: string)
    requires tab == CommentTab
    ensures |GetEmptyStateMessage(tab)| == 89
  {
  }

  /** The three known tabs have three different titles. */
  lemma TitlesDistinct(t1: string, t2: string)
    requires IsKnownTab(t1) && IsKnownTab(t2) && t1 != t2
    ensures GetTabTitle(t1) != GetTabTitle(t2)
  {
    assert |GetTabTitle(VideoTab)| == 14;
    assert |GetTabTitle(MarketingTab)| == 18;
    assert |GetTabTitle(CommentTab)| == 16;
  }

  /** The uploaded-file preview: on the video and marketing tabs, once a video is chosen. */
  predicate ShowsFilePreview(tab: string, selectedVideo: Option<VideoFile>) {
    (tab == VideoTab || tab == MarketingTab) && selectedVideo.Some?
  }

  /** The "Target" line inside the file preview: on the video tab, with a campaign and a
      locality set. */
  predicate ShowsTarget(tab: string, selectedVideo: Option<VideoFile>, campaign: string, locality: string) {
    ShowsFilePreview(tab, selectedVideo) && campaign != "" && locality != "" && tab == VideoTab
  }

  /** The YouTube preview: on the comment tab, with a non-empty URL the validator accepts. */
  predicate ShowsYouTubePreview(tab: string, videoUrl: string) {
    tab == CommentTab && videoUrl != "" && YouTube.IsValidYouTubeUrl(videoUrl)
  }

  /** The two previews never show together; the "Target" line shows only on the video tab
      inside a file preview, and the file preview shows on a ready video or marketing form. */
  lemma PreviewsExclusive(tab: string, f: Form)
    ensures !(ShowsFilePreview(tab, f.selectedVideo) && ShowsYouTubePreview(tab, f.videoUrl))
    ensures ShowsTarget(tab, f.selectedVideo, f.campaign, f.locality) ==>
              tab == VideoTab && ShowsFilePreview(tab, f.selectedVideo)
    ensures GetCanAnalyze(tab, f) && tab != CommentTab ==> ShowsFilePreview(tab, f.selectedVideo)
  {
  }

  /** Whenever the YouTube preview shows, the thumbnail and the id it prints exist (the
      preview reads them with a non-null assertion), and the id begins with the eleven
      characters the validator checked. */
  lemma PreviewHasThumbnail(tab: string, videoUrl: string)
    requires ShowsYouTubePreview(tab, videoUrl)
    ensures YouTube.GetThumbnailUrl(videoUrl).Some?
    ensures YouTube.ExtractVideoId(videoUrl).Some?
    ensures var id, s := YouTube.ExtractVideoId(videoUrl).value, YouTube.IdStart(videoUrl).value;
      |id| >= 11 && id[..11] == videoUrl[s..s + 11]
  {
    YouTube.ValidHasId(videoUrl);
  }

  /** The YouTube preview shows on the comment tab exactly when that tab is ready to analyse. */
  lemma PreviewIffReady(tab: string, f: Form)
    requires tab == CommentTab
    ensures ShowsYouTubePreview(tab, f.videoUrl) <==> GetCanAnalyze(tab, f)
  {
    CommentReadyIsValid(f.videoUrl);
  }
}
