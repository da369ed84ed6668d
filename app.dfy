/**
 * The landing page's map and card view: the local building search, the
 * selection of a result, and the sidebar and mobile-view toggles.
 */
module App {
  import opened Base
  import opened MapUtil

  /** The lower-cased name, or the lower-cased category when there is one, contains the lower-cased value. */
  predicate FeatureMatches(value: string, f: Feature)
  {
    Contains(ToLower(f.name), ToLower(value))
    || (f.category.Some? && Contains(ToLower(f.category.value), ToLower(value)))
  }

  /** `handleLocalSearchChange`: a value of one character or none finds nothing. */
  function LocalResults(catalogue: seq<Feature>, value: string): seq<Feature>
  {
    if |value| > 1 then Filter(catalogue, (f: Feature) => FeatureMatches(value, f)) else []
  }

  /**
   * Short values find nothing; longer ones find, in catalogue order,
   * exactly the features that match.
   */
  lemma LocalResultsSpec(catalogue: seq<Feature>, value: string)
    ensures |value| <= 1 ==> LocalResults(catalogue, value) == []
    ensures |value| > 1 ==>
      forall f :: f in LocalResults(catalogue, value) <==> f in catalogue && FeatureMatches(value, f)
    ensures IsSubseq(LocalResults(catalogue, value), catalogue)
  {
    var p := (f: Feature) => FeatureMatches(value, f);
    if |value| > 1 {
      FilterSubseq(catalogue, p);
      forall f ensures f in Filter(catalogue, p) <==> f in catalogue && p(f) { FilterMember(catalogue, p, f); }
    }
  }

  /** The search ignores the case of the value typed. */
  lemma LocalResultsCaseInsensitive(catalogue: seq<Feature>, value: string)
    ensures LocalResults(catalogue, ToLower(value)) == LocalResults(catalogue, value)
  {
    ToLowerIdempotent(value);
    FilterSame(catalogue, (f: Feature) => FeatureMatches(ToLower(value), f), (f: Feature) => FeatureMatches(value, f));
  }

  /** The two mobile views. */
  datatype View = MapView | CardsView

  class HomePage {
    var currentViewData: seq<Feature>
    var activeFeature: Option<Feature>
    var localSearchValue: string
    var localResults: seq<Feature>
    var activeMobileView: View
    var isMobile: bool
    var sidebarVisible: bool
    var isLoading: bool

    constructor ()
      ensures currentViewData == [] && activeFeature == None && localSearchValue == "" && localResults == []
      ensures activeMobileView == MapView && !isMobile && !sidebarVisible && isLoading
    {
      currentViewData := [];
      activeFeature := None;
      localSearchValue := "";
      localResults := [];
      activeMobileView := MapView;
      isMobile := false;
      sidebarVisible := false;
      isLoading := true;
    }

    /** `checkScreenSize`: a window of at most 768 is mobile and hides the sidebar; a wider one shows it. */
    method CheckScreenSize(width: int)
      modifies this`isMobile, this`sidebarVisible
      ensures isMobile <==> width <= 768
      ensures sidebarVisible <==> !isMobile
    {
      isMobile := width <= 768;
      sidebarVisible := !isMobile;
    }

    /** `handleMapLoad`: the features, with their pictures assigned, become the cards. */
    method MapLoad(catalogue: seq<Feature>)
      requires forall i, j :: 0 <= i < j < |catalogue| ==> catalogue[i] != catalogue[j]
      modifies this`currentViewData, this`isLoading, set i | 0 <= i < |catalogue| :: catalogue[i]
      ensures currentViewData == catalogue && !isLoading
      ensures forall i :: 0 <= i < |catalogue| ==> catalogue[i].imageUrl == Some(ImageFor(i))
    {
      var features := GetFeatures(catalogue);
      currentViewData := features;
      isLoading := false;
    }

    /** `handleFeatureClick`: selects the feature; on mobile the sidebar closes. */
    method FeatureClick(f: Feature)
      modifies this`activeFeature, this`sidebarVisible
      ensures activeFeature == Some(f)
      ensures sidebarVisible == if isMobile then false else old(sidebarVisible)
    {
      activeFeature := Some(f);
      if isMobile {
        sidebarVisible := false;
      }
    }

    /** `handleModalClose`. */
    method ModalClose()
      modifies this`activeFeature
      ensures activeFeature == None
    {
      activeFeature := None;
    }

    /** The search input: the value is kept and the results follow it over the catalogue. */
    method LocalSearchChange(value: string, catalogue: seq<Feature>)
      modifies this`localSearchValue, this`localResults
      ensures localSearchValue == value && localResults == LocalResults(catalogue, value)
    {
      localSearchValue := value;
      localResults := LocalResults(catalogue, value);
    }

    /** `handleSearchResultClick`: selects the feature and clears both the results and the value. */
    method SearchResultClick(f: Feature)
      modifies this`activeFeature, this`sidebarVisible, this`localResults, this`localSearchValue
      ensures activeFeature == Some(f) && localResults == [] && localSearchValue == ""
      ensures sidebarVisible == if isMobile then false else old(sidebarVisible)
    {
      FeatureClick(f);
      localResults := [];
      localSearchValue := "";
    }

    /** `toggleSidebar`. */
    method ToggleSidebar()
      modifies this`sidebarVisible
      ensures sidebarVisible == !old(sidebarVisible)
    {
      sidebarVisible := !sidebarVisible;
    }

    /** `handleActiveMobileClick`: the other view, and the sidebar flipped with it. */
    method ActiveMobileClick()
      modifies this`activeMobileView, this`sidebarVisible
      ensures activeMobileView == if old(activeMobileView) == MapView then CardsView else MapView
      ensures activeMobileView != old(activeMobileView)
      ensures sidebarVisible == !old(sidebarVisible)
    {
      activeMobileView := if activeMobileView == MapView then CardsView else MapView;
      sidebarVisible := !sidebarVisible;
    }
  }
}
