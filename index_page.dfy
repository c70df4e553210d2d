/**
  The page that hosts the sidebar and the main content: it owns every form field of the
  three workflows, the active tab, the results and the expanded cards.
 */
module IndexPage {
  import opened Wrappers
  import opened FormState
  import opened Cards

  /** The checkbox lists the page hands to the sidebar, each with its setter. */
  datatype ListField = AnalysisOptions | Demographics | Descriptors

  class Page {
    var activeTab: string
    var isAnalyzing: bool
    var results: Option<Results>
    var openCards: OpenCards
    var campaign: string
    var locality: string
    var selectedVideo: Option<VideoFile>
    var analysisOptions: seq<string>
    var demographics: seq<string>
    var descriptors: seq<string>
    var videoUrl: string

    /** The seven form fields. */
    function FormOf(): (f: Form)
      reads this
      ensures f.campaign == campaign && f.locality == locality && f.selectedVideo == selectedVideo
      ensures f.analysisOptions == analysisOptions && f.demographics == demographics
      ensures f.descriptors == descriptors && f.videoUrl == videoUrl
    {
      Form(campaign, locality, selectedVideo, analysisOptions, demographics, descriptors, videoUrl)
    }

    /** Every form field empty and nothing shown. */
    predicate Cleared()
      reads this
    {
      FormOf() == Form("", "", None, [], [], [], "") && results == None && openCards == map[]
    }

    constructor ()
      ensures activeTab == VideoTab && !isAnalyzing && Cleared()
    {
      activeTab := VideoTab;
      isAnalyzing := false;
      results := None;
      openCards := map[];
      campaign, locality, selectedVideo := "", "", None;
      analysisOptions, demographics, descriptors := [], [], [];
      videoUrl := "";
    }

    /** `getCanAnalyze`. */
    function CanAnalyze(): bool
      reads this
    {
      GetCanAnalyze(activeTab, FormOf())
    }

    /** `handleAnalyze`. When the active form is not ready nothing happens. Otherwise the
        request for the active tab is sent; `outcome` is the results the service returned,
        or `None` when the call failed. On success the results are shown and the card of the
        first key alone is expanded (when that key is not empty); on failure both stay as
        they were; either way the form is kept and `isAnalyzing` ends false. */
    method HandleAnalyze(outcome: Option<Results>) returns (request: Option<Request>)
      modifies this
      ensures !old(CanAnalyze()) ==> request == None && unchanged(this)
      ensures old(CanAnalyze()) ==> request == Some(RequestFor(old(activeTab), old(FormOf())))
      ensures old(CanAnalyze()) ==> FormOf() == old(FormOf()) && activeTab == old(activeTab) && !isAnalyzing
      ensures old(CanAnalyze()) && outcome.Some? ==>
                results == outcome && openCards == OpenFirstCard(old(openCards), outcome.value)
      ensures old(CanAnalyze()) && outcome.None? ==> results == old(results) && openCards == old(openCards)
    {
      if !CanAnalyze() {
        return None;
      }
      isAnalyzing := true;
      request := Some(RequestFor(activeTab, FormOf()));
      if outcome.Some? {
        var analysisResults := outcome.value;
        results := Some(analysisResults);
        if |analysisResults| > 0 && analysisResults[0].0 != "" {
          openCards := map[analysisResults[0].0 := true];
        }
      }
      isAnalyzing := false;
    }

    /** `handleReset`: every form field, the results and the expanded cards are cleared; the
        active tab stays. */
    method HandleReset()
      modifies this
      ensures Cleared()
      ensures activeTab == old(activeTab) && isAnalyzing == old(isAnalyzing)
    {
      campaign := "";
      locality := "";
      selectedVideo := None;
      analysisOptions := [];
      demographics := [];
      descriptors := [];
      videoUrl := "";
      results := None;
      openCards := map[];
    }

    /** `toggleCard`. */
    method ToggleCard(key: string)
      modifies this`openCards
      ensures openCards == Cards.ToggleCard(old(openCards), key)
    {
      openCards := openCards[key := !IsOpen(openCards, key)];
    }

    /** `handleTabChange`: the new tab is shown with no results and no expanded card, and
        every form field is kept. */
    method HandleTabChange(newTab: string)
      modifies this
      ensures activeTab == newTab && results == None && openCards == map[]
      ensures FormOf() == old(FormOf()) && isAnalyzing == old(isAnalyzing)
    {
      activeTab := newTab;
      results := None;
      openCards := map[];
    }

    /** A sidebar checkbox: the page always passes the setter, so the sidebar's handler
        always updates the list. */
    method ChangeListField(field: ListField, item: string, checked: bool)
      modifies this
      ensures field == AnalysisOptions ==> analysisOptions == ChangeListed(old(analysisOptions), true, item, checked)
      ensures field != AnalysisOptions ==> analysisOptions == old(analysisOptions)
      ensures field == Demographics ==> demographics == ChangeListed(old(demographics), true, item, checked)
      ensures field != Demographics ==> demographics == old(demographics)
      ensures field == Descriptors ==> descriptors == ChangeListed(old(descriptors), true, item, checked)
      ensures field != Descriptors ==> descriptors == old(descriptors)
      ensures campaign == old(campaign) && locality == old(locality) && selectedVideo == old(selectedVideo)
      ensures videoUrl == old(videoUrl) && activeTab == old(activeTab) && isAnalyzing == old(isAnalyzing)
      ensures results == old(results) && openCards == old(openCards)
    {
      match field
      case AnalysisOptions => analysisOptions := ChangeListed(analysisOptions, true, item, checked);
      case Demographics => demographics := ChangeListed(demographics, true, item, checked);
      case Descriptors => descriptors := ChangeListed(descriptors, true, item, checked);
    }
  }

  /** After a reset no tab is ready to analyse, so the Analyze button is disabled: every
      rule needs a field the reset cleared. */
  lemma ResetNotReady(tab: string)
    ensures !GetCanAnalyze(tab, Form("", "", None, [], [], [], ""))
  {
  }
}
