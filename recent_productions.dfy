// The recent-productions sidebar: the user's productions filtered by a
// search box, the download URL of each fetched one after another, and the
// defaults shown for missing values. Each URL request is given as its
// outcome for the production's id.
module RecentProductions {
  import opened Wrappers
  import opened JsString
  import SeqUtil

  datatype ProductionReference = ProductionReference(imageUrl: Option<string>, genre: Option<string>)

  /** A `ProductionAudio`: the fields the sidebar reads. */
  datatype Production = Production(id: string, fileName: string, reference: Option<ProductionReference>)

  /** The outcome of `getAudioFile` for an id: the URL it returned, or the error it threw. */
  type UrlFetch = string -> Result<string, string>

  const UnknownGenre: string := "Unknown Genre"

  /** The file name contains the search value, both lower-cased. */
  predicate Matches(searchValue: string, p: Production)
  {
    Includes(ToLower(p.fileName), ToLower(searchValue))
  }

  /** `filteredProductions`. */
  function FilteredProductions(productions: seq<Production>, searchValue: string): seq<Production>
  {
    SeqUtil.Filter(productions, p => Matches(searchValue, p))
  }

  /** The URLs map after the requests for `productions`, in order: a failed or empty answer adds nothing. */
  function UrlsFor(productions: seq<Production>, fetch: UrlFetch): map<string, string>
  {
    if productions == [] then map[]
    else
      var urls := UrlsFor(productions[..|productions| - 1], fetch);
      var id := productions[|productions| - 1].id;
      var response := fetch(id);
      if response.Success? && response.value != "" then urls[id := response.value] else urls
  }

  /** `fetchAudioUrls`: the `for…of` loop awaiting one request at a time. */
  method FetchAudioUrls(productions: seq<Production>, fetch: UrlFetch) returns (urls: map<string, string>)
    ensures urls == UrlsFor(productions, fetch)
  {
    urls := map[];
    for i := 0 to |productions|
      invariant urls == UrlsFor(productions[..i], fetch)
    {
      var audio := productions[i];
      var response := fetch(audio.id);
      if response.Success? && response.value != "" {
        urls := urls[audio.id := response.value];
      }
      assert productions[..i + 1][..i] == productions[..i];
    }
    assert productions[..|productions|] == productions;
  }

  /**
   * The map holds a URL for exactly the productions whose request returned
   * a non-empty one, whatever the others did, and that URL is the one
   * returned.
   */
  lemma {:induction false} UrlsForSpec(productions: seq<Production>, fetch: UrlFetch, id: string)
    ensures id in UrlsFor(productions, fetch) <==>
      (exists i :: 0 <= i < |productions| && productions[i].id == id) && fetch(id).Success? && fetch(id).value != ""
    ensures id in UrlsFor(productions, fetch) ==> UrlsFor(productions, fetch)[id] == fetch(id).value
  {
    if productions != [] {
      var init := productions[..|productions| - 1];
      UrlsForSpec(init, fetch, id);
      if exists i :: 0 <= i < |init| && init[i].id == id {
        var i :| 0 <= i < |init| && init[i].id == id;
        assert productions[i].id == id;
      }
      if exists i :: 0 <= i < |productions| && productions[i].id == id {
        var i :| 0 <= i < |productions| && productions[i].id == id;
        if i < |init| {
          assert init[i].id == id;
        }
      }
    }
  }

  /** What a card shows: the genre, the reference image and the URL, each with its default. */
  datatype Shown = Shown(production: Production, genre: string, referenceImageUrl: string, audioUrl: string)

  /** `x || fallback` for an optional string. */
  function OrDefault(x: Option<string>, fallback: string): (r: string)
    ensures x.Some? && x.value != "" ==> r == x.value
    ensures x.None? || x.value == "" ==> r == fallback
  {
    if x.Some? && x.value != "" then x.value else fallback
  }

  function WithAudio(p: Production, urls: map<string, string>): (r: Shown)
    ensures r.production == p
    ensures p.reference.None? ==> r.genre == UnknownGenre && r.referenceImageUrl == ""
    ensures p.id !in urls ==> r.audioUrl == ""
    ensures p.id in urls ==> r.audioUrl == urls[p.id]
  {
    var genre := if p.reference.Some? then p.reference.value.genre else None;
    var image := if p.reference.Some? then p.reference.value.imageUrl else None;
    Shown(p, OrDefault(genre, UnknownGenre), OrDefault(image, ""), if p.id in urls then urls[p.id] else "")
  }

  /** An empty search shows everything; any search keeps the order and only matching names. */
  lemma {:induction false} FilterSpec(productions: seq<Production>, searchValue: string, p: Production)
    ensures searchValue == "" ==> FilteredProductions(productions, searchValue) == productions
    ensures SeqUtil.IsSubsequence(FilteredProductions(productions, searchValue), productions)
    ensures p in FilteredProductions(productions, searchValue) <==> p in productions && Matches(searchValue, p)
  {
    SeqUtil.FilterIsSubsequence(productions, q => Matches(searchValue, q));
    SeqUtil.FilterMember(productions, q => Matches(searchValue, q), p);
    if searchValue == "" {
      forall i | 0 <= i < |productions|
        ensures Matches(searchValue, productions[i])
      {
        IncludesEmpty(ToLower(productions[i].fileName));
      }
      SeqUtil.FilterKeepsAll(productions, q => Matches(searchValue, q));
    }
  }

  /** The sidebar's search value and its URLs map. */
  class Sidebar {
    var searchValue: string
    var audioUrls: map<string, string>

    constructor ()
      ensures searchValue == "" && audioUrls == map[]
    {
      searchValue := "";
      audioUrls := map[];
    }

    method SetSearchValue(v: string)
      modifies this
      ensures searchValue == v && audioUrls == old(audioUrls)
    {
      searchValue := v;
    }

    /** The `[productions]` effect: with productions, fetch every URL and store the map; without, do nothing. */
    method ProductionsChanged(productions: seq<Production>, fetch: UrlFetch)
      modifies this
      ensures |productions| > 0 ==> audioUrls == UrlsFor(productions, fetch)
      ensures |productions| == 0 ==> audioUrls == old(audioUrls)
      ensures searchValue == old(searchValue)
    {
      if |productions| > 0 {
        var urls := FetchAudioUrls(productions, fetch);
        audioUrls := urls;
      }
    }

    /** The cards listed, in order. */
    function Cards(productions: seq<Production>): (cards: seq<Shown>)
      reads this
      ensures |cards| <= |productions|
      ensures forall i :: 0 <= i < |cards| ==>
        cards[i].production in productions && Matches(searchValue, cards[i].production)
        && cards[i] == WithAudio(cards[i].production, audioUrls)
    {
      var urls := audioUrls;
      SeqUtil.Map(FilteredProductions(productions, searchValue), p => WithAudio(p, urls))
    }
  }
}
