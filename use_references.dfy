// The references hook: the artist's reference tracks, fetched when the
// artist id is set, and the same list grouped by genre. The API call is
// given as its outcome.
module UseReferences {
  import opened Wrappers
  import SeqUtil

  /** A `Reference`: the fields the chat reads. */
  datatype Reference = Reference(id: string, genre: string, imageUrl: Option<string>, songName: string, audioPath: string)

  function GenreOf(r: Reference): string
  {
    r.genre
  }

  predicate HasGenre(g: string, r: Reference)
  {
    r.genre == g
  }

  /**
   * `referencesByGenre`: the `reduce` that creates each genre's array on
   * first use and pushes every reference onto the array of its genre.
   */
  method GroupByGenre(references: seq<Reference>) returns (acc: map<string, seq<Reference>>)
    ensures acc == SeqUtil.GroupBy(references, GenreOf)
  {
    acc := map[];
    for i := 0 to |references|
      invariant acc == SeqUtil.GroupBy(references[..i], GenreOf)
    {
      var ref := references[i];
      if ref.genre !in acc {
        acc := acc[ref.genre := []];
      }
      acc := acc[ref.genre := acc[ref.genre] + [ref]];
      assert references[..i + 1][..i] == references[..i];
    }
    assert references[..|references|] == references;
  }

  /**
   * Every reference is filed exactly as often as it occurs, under its own
   * genre and no other, and the genres are exactly those that occur.
   */
  lemma GroupedOnceByGenre(references: seq<Reference>, r: Reference, g: string)
    ensures var byGenre := SeqUtil.GroupBy(references, GenreOf);
      && (g in byGenre <==> exists i :: 0 <= i < |references| && references[i].genre == g)
      && (g in byGenre ==> multiset(byGenre[g])[r] == if r.genre == g then multiset(references)[r] else 0)
  {
    SeqUtil.GroupByCharacterization(references, GenreOf, g);
    SeqUtil.GroupCount(references, GenreOf, g, r);
  }

  /** Within a genre the references keep the order of the fetched list. */
  lemma GroupKeepsOrder(references: seq<Reference>, g: string)
    requires g in SeqUtil.GroupBy(references, GenreOf)
    ensures SeqUtil.IsSubsequence(SeqUtil.GroupBy(references, GenreOf)[g], references)
  {
    SeqUtil.GroupByCharacterization(references, GenreOf, g);
    SeqUtil.GroupIsFilter(references, GenreOf, g, r => HasGenre(g, r));
    SeqUtil.FilterIsSubsequence(references, r => HasGenre(g, r));
  }

  // ---------------------------------------------------------------- fetching

  const ArtistIdRequired: string := "Artist ID is required"
  const LoadFailed: string := "Failed to load references"

  datatype ReferencesState = ReferencesState(references: seq<Reference>, isLoading: bool, error: Option<string>)

  /** `useState([])`, `useState(true)`, `useState(null)`. */
  const Initial: ReferencesState := ReferencesState([], true, None)

  /**
   * `fetchReferences` once the call has settled: the list and no error on
   * success, the failure message (and the old list) otherwise; not loading
   * either way.
   */
  function Fetched(s: ReferencesState, response: Result<seq<Reference>, string>): ReferencesState
  {
    match response
    case Success(refs) => ReferencesState(refs, false, None)
    case Failure(_) => s.(isLoading := false, error := Some(LoadFailed))
  }

  /** The `[artistId]` effect: an empty id is an error and fetches nothing. */
  function OnArtistId(s: ReferencesState, artistId: string, response: Result<seq<Reference>, string>): ReferencesState
  {
    if artistId == "" then s.(error := Some(ArtistIdRequired), isLoading := false)
    else Fetched(s, response)
  }

  /** The outcome of the effect in each case: loading always ends, and the error says which case it was. */
  lemma EffectOutcomes(s: ReferencesState, artistId: string, response: Result<seq<Reference>, string>)
    ensures !OnArtistId(s, artistId, response).isLoading
    ensures artistId == "" ==>
      OnArtistId(s, artistId, response) == s.(error := Some(ArtistIdRequired), isLoading := false)
    ensures artistId != "" && response.Success? ==>
      OnArtistId(s, artistId, response).references == response.value && OnArtistId(s, artistId, response).error.None?
    ensures artistId != "" && response.Failure? ==>
      OnArtistId(s, artistId, response).error == Some(LoadFailed)
      && OnArtistId(s, artistId, response).references == s.references
  {
  }

  /** The hook's three state slots. */
  class ReferencesHook {
    var references: seq<Reference>
    var isLoading: bool
    var error: Option<string>

    function State(): ReferencesState
      reads this
    {
      ReferencesState(references, isLoading, error)
    }

    constructor ()
      ensures State() == Initial
    {
      references := [];
      isLoading := true;
      error := None;
    }

    /** `fetchReferences`: loading while the call runs, then its outcome, then not loading. */
    method FetchReferences(response: Result<seq<Reference>, string>)
      modifies this
      ensures State() == Fetched(old(State()), response)
    {
      isLoading := true;
      if response.Success? {
        references := response.value;
        error := None;
      } else {
        error := Some(LoadFailed);
      }
      isLoading := false;
    }

    /** The effect on a new artist id. */
    method ArtistIdChanged(artistId: string, response: Result<seq<Reference>, string>)
      modifies this
      ensures State() == OnArtistId(old(State()), artistId, response)
    {
      if artistId == "" {
        error := Some(ArtistIdRequired);
        isLoading := false;
        return;
      }
      FetchReferences(response);
    }
  }
}
