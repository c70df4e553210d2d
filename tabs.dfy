/**
  The three stand-alone analysis tabs. Each keeps its own form, its `isAnalyzing` flag,
  its results and its expanded cards, and updates them through its handlers.
 */
module Tabs {
  import opened Wrappers
  import opened FormState
  import opened Cards
  import YouTube

  // ---------------------------------------------------------------------------
  // Video analysis

  class VideoAnalysisTab {
    var campaign: string
    var locality: string
    var selectedVideo: Option<VideoFile>
    var analysisOptions: seq<string>
    var isAnalyzing: bool
    var results: Option<Results>
    var openCards: OpenCards

    predicate Initial()
      reads this
    {
      campaign == "" && locality == "" && selectedVideo == None && analysisOptions == []
      && results == None && openCards == map[]
    }

    constructor ()
      ensures Initial() && !isAnalyzing
    {
      campaign, locality, selectedVideo, analysisOptions := "", "", None, [];
      isAnalyzing, results, openCards := false, None, map[];
    }

    /** `canAnalyze`: the same rule as the page's for the video tab. */
    function CanAnalyze(): (r: bool)
      reads this
      ensures r == GetCanAnalyze(VideoTab, Form(campaign, locality, selectedVideo, analysisOptions, [], [], ""))
    {
      VideoReady(campaign, locality, selectedVideo, analysisOptions)
    }

    /** `handleAnalysisOptionChange`: append on check, remove every occurrence on uncheck. */
    method HandleAnalysisOptionChange(option: string, checked: bool)
      modifies this`analysisOptions
      ensures analysisOptions == ChangeListed(old(analysisOptions), true, option, checked)
    {
      if checked {
        analysisOptions := analysisOptions + [option];
      } else {
        analysisOptions := RemoveAll(analysisOptions, option);
      }
    }

    /** `handleAnalyze`: returns without touching anything unless `canAnalyze`; otherwise
        sends the form, shows the results (`outcome`, `None` when the call failed), expands
        the first card and ends with `isAnalyzing` false. */
    method HandleAnalyze(outcome: Option<Results>) returns (request: Option<Request>)
      modifies this
      ensures !old(CanAnalyze()) ==> request == None && unchanged(this)
      ensures old(CanAnalyze()) ==>
                request == Some(VideoRequest(campaign, locality, old(selectedVideo).value, analysisOptions))
      ensures old(CanAnalyze()) ==>
                && campaign == old(campaign) && locality == old(locality) && selectedVideo == old(selectedVideo)
                && analysisOptions == old(analysisOptions) && !isAnalyzing
      ensures old(CanAnalyze()) && outcome.Some? ==>
                results == outcome && openCards == OpenFirstCard(old(openCards), outcome.value)
      ensures old(CanAnalyze()) && outcome.None? ==> results == old(results) && openCards == old(openCards)
    {
      if campaign == "" || locality == "" || selectedVideo.None? || |analysisOptions| == 0 {
        return None;
      }
      isAnalyzing := true;
      request := Some(VideoRequest(campaign, locality, selectedVideo.value, analysisOptions));
      if outcome.Some? {
        results := outcome;
        openCards := OpenFirstCard(openCards, outcome.value);
      }
      isAnalyzing := false;
    }

    /** `handleReset`: the six fields back to their initial values. */
    method HandleReset()
      modifies this
      ensures Initial() && isAnalyzing == old(isAnalyzing)
    {
      campaign, locality, selectedVideo, analysisOptions := "", "", None, [];
      results, openCards := None, map[];
    }

    /** `toggleCard`. */
    method ToggleCard(key: string)
      modifies this`openCards
      ensures openCards == Cards.ToggleCard(old(openCards), key)
    {
      openCards := openCards[key := !IsOpen(openCards, key)];
    }
  }

  // ---------------------------------------------------------------------------
  // Marketing analysis

  class MarketingAnalysisTab {
    var campaign: string
    var demographics: seq<string>
    var descriptors: seq<string>
    var selectedVideo: Option<VideoFile>
    var isAnalyzing: bool
    var results: Option<Results>
    var openCards: OpenCards

    predicate Initial()
      reads this
    {
      campaign == "" && demographics == [] && descriptors == [] && selectedVideo == None
      && results == None && openCards == map[]
    }

    constructor ()
      ensures Initial() && !isAnalyzing
    {
      campaign, demographics, descriptors, selectedVideo := "", [], [], None;
      isAnalyzing, results, openCards := false, None, map[];
    }

    /** `canAnalyze`: the same rule as the page's for the marketing tab. */
    function CanAnalyze(): (r: bool)
      reads this
      ensures r == GetCanAnalyze(MarketingTab, Form(campaign, "", selectedVideo, [], demographics, descriptors, ""))
    {
      MarketingReady(campaign, demographics, descriptors, selectedVideo)
    }

    /** `handleDemographicChange`. */
    method HandleDemographicChange(demographic: string, checked: bool)
      modifies this`demographics
      ensures demographics == ChangeListed(old(demographics), true, demographic, checked)
    {
      if checked {
        demographics := demographics + [demographic];
      } else {
        demographics := RemoveAll(demographics, demographic);
      }
    }

    /** `handleDescriptorChange`. */
    method HandleDescriptorChange(descriptor: string, checked: bool)
      modifies this`descriptors
      ensures descriptors == ChangeListed(old(descriptors), true, descriptor, checked)
    {
      if checked {
        descriptors := descriptors + [descriptor];
      } else {
        descriptors := RemoveAll(descriptors, descriptor);
      }
    }

    /** `handleAnalyze`: the guard is the `canAnalyze` condition. */
    method HandleAnalyze(outcome: Option<Results>) returns (request: Option<Request>)
      modifies this
      ensures !old(CanAnalyze()) ==> request == None && unchanged(this)
      ensures old(CanAnalyze()) ==>
                request == Some(MarketingRequest(campaign, demographics, descriptors, old(selectedVideo).value))
      ensures old(CanAnalyze()) ==>
                && campaign == old(campaign) && demographics == old(demographics) && descriptors == old(descriptors)
                && selectedVideo == old(selectedVideo) && !isAnalyzing
      ensures old(CanAnalyze()) && outcome.Some? ==>
                results == outcome && openCards == OpenFirstCard(old(openCards), outcome.value)
      ensures old(CanAnalyze()) && outcome.None? ==> results == old(results) && openCards == old(openCards)
    {
      if campaign == "" || |demographics| == 0 || |descriptors| == 0 || selectedVideo.None? {
        return None;
      }
      isAnalyzing := true;
      request := Some(MarketingRequest(campaign, demographics, descriptors, selectedVideo.value));
      if outcome.Some? {
        results := outcome;
        openCards := OpenFirstCard(openCards, outcome.value);
      }
      isAnalyzing := false;
    }

    /** `handleReset`. */
    method HandleReset()
      modifies this
      ensures Initial() && isAnalyzing == old(isAnalyzing)
    {
      campaign, demographics, descriptors, selectedVideo := "", [], [], None;
      results, openCards := None, map[];
    }

    /** `toggleCard`. */
    method ToggleCard(key: string)
      modifies this`openCards
      ensures openCards == Cards.ToggleCard(old(openCards), key)
    {
      openCards := openCards[key := !IsOpen(openCards, key)];
    }
  }

  // ---------------------------------------------------------------------------
  // Comment analysis

  /** The comment counts the tab offers. */
  const CommentLimits: seq<nat> := [10, 25, 50]

  class CommentAnalysisTab {
    var videoUrl: string
    var maxComments: nat
    var isAnalyzing: bool
    var results: Option<Results>
    var openCards: OpenCards

    predicate Initial()
      reads this
    {
      videoUrl == "" && maxComments == 25 && results == None && openCards == map[]
    }

    constructor ()
      ensures Initial() && !isAnalyzing
    {
      videoUrl, maxComments := "", 25;
      isAnalyzing, results, openCards := false, None, map[];
    }

    /** `canAnalyze`: the same rule as the page's for the comment tab. */
    function CanAnalyze(): (r: bool)
      reads this
      ensures r == GetCanAnalyze(CommentTab, Form("", "", None, [], [], [], videoUrl))
    {
      CommentReady(videoUrl)
    }

    /** The comment-count select. */
    method SetMaxComments(limit: nat)
      requires limit in CommentLimits
      modifies this`maxComments
      ensures maxComments == limit
    {
      maxComments := limit;
    }

    /** `handleAnalyze`: nothing happens for an empty or rejected URL; otherwise the URL and
        the chosen comment count are sent. */
    method HandleAnalyze(outcome: Option<Results>) returns (request: Option<Request>)
      modifies this
      ensures !old(CanAnalyze()) ==> request == None && unchanged(this)
      ensures old(CanAnalyze()) ==> request == Some(CommentRequest(videoUrl, maxComments))
      ensures old(CanAnalyze()) ==>
                videoUrl == old(videoUrl) && maxComments == old(maxComments) && !isAnalyzing
      ensures old(CanAnalyze()) && outcome.Some? ==>
                results == outcome && openCards == OpenFirstCard(old(openCards), outcome.value)
      ensures old(CanAnalyze()) && outcome.None? ==> results == old(results) && openCards == old(openCards)
    {
      if videoUrl == "" || !YouTube.IsValidYouTubeUrl(videoUrl) {
        return None;
      }
      isAnalyzing := true;
      request := Some(CommentRequest(videoUrl, maxComments));
      if outcome.Some? {
        results := outcome;
        openCards := OpenFirstCard(openCards, outcome.value);
      }
      isAnalyzing := false;
    }

    /** `handleReset`: the URL, the comment count, the results and the expanded cards back
        to their initial values. */
    method HandleReset()
      modifies this
      ensures Initial() && isAnalyzing == old(isAnalyzing)
    {
      videoUrl, maxComments := "", 25;
      results, openCards := None, map[];
    }

    /** `toggleCard`. */
    method ToggleCard(key: string)
      modifies this`openCards
      ensures openCards == Cards.ToggleCard(old(openCards), key)
    {
      openCards := openCards[key := !IsOpen(openCards, key)];
    }
  }
}
