// The reference-candidates message: the artist's references offered as
// numbered options, placeholders while they load, and the selection
// forwarded to the chat unless the message is done.
module ReferenceCandidates {
  import opened Wrappers
  import NumberFormat
  import UseReferences

  type Reference = UseReferences.Reference

  /** The two placeholders; they carry no genre, written here as the empty string. */
  const MockReferences: seq<Reference> := [
    UseReferences.Reference("placeholder-1", "", Some("/api/placeholder/120/88"), "Option 1", ""),
    UseReferences.Reference("placeholder-2", "", Some("/api/placeholder/120/88"), "Option 2", "")
  ]

  /** The placeholders stand in while loading or when nothing was loaded. */
  predicate ShowsPlaceholders(isLoading: bool, references: seq<Reference>)
  {
    isLoading || |references| == 0
  }

  function DisplayReferences(isLoading: bool, references: seq<Reference>): (r: seq<Reference>)
    ensures ShowsPlaceholders(isLoading, references) ==> r == MockReferences
    ensures !ShowsPlaceholders(isLoading, references) ==> r == references
    ensures |r| > 0
  {
    if ShowsPlaceholders(isLoading, references) then MockReferences else references
  }

  /** `Option {index + 1}`. */
  function OptionName(index: nat): string
  {
    "Option " + NumberFormat.NatToString(index + 1)
  }

  /** The reference handed to grid item `index`: renamed after its option number. */
  function Item(display: seq<Reference>, index: nat): Reference
    requires index < |display|
  {
    display[index].(songName := OptionName(index))
  }

  /** `disabled` of every item. */
  predicate ItemDisabled(done: bool, isLoading: bool, references: seq<Reference>)
  {
    done || isLoading || |references| == 0
  }

  /** `handleSelect`: the `onSelect` call it makes, if any. */
  function HandleSelect(done: bool, hasOnSelect: bool, reference: Reference, optionNumber: int): (call: Option<(Reference, int)>)
    ensures call.Some? <==> !done && hasOnSelect
    ensures call.Some? ==> call.value == (reference, optionNumber)
  {
    if done then None
    else if hasOnSelect then Some((reference, optionNumber))
    else None
  }

  /** Item `index`'s `onProduce`: the original reference (not the renamed one) with its one-based option number. */
  function OnProduce(done: bool, hasOnSelect: bool, display: seq<Reference>, index: nat): Option<(Reference, int)>
    requires index < |display|
  {
    HandleSelect(done, hasOnSelect, display[index], index + 1)
  }

  /**
   * Each item is its reference with the song name `Option n`, n the
   * one-based position; producing from it forwards that reference and n,
   * so n - 1 indexes the displayed list.
   */
  lemma ItemsAreNumbered(done: bool, display: seq<Reference>, index: nat)
    requires index < |display|
    ensures Item(display, index).id == display[index].id && Item(display, index).genre == display[index].genre
    ensures NumberFormat.ParseDigits(Item(display, index).songName[7..]) == index + 1
    ensures Item(display, index).songName[..7] == "Option "
    ensures !done ==> OnProduce(done, true, display, index) == Some((display[index], index + 1))
    ensures done ==> OnProduce(done, true, display, index).None?
  {
    NumberFormat.ParseNatToString(index + 1);
    assert OptionName(index)[7..] == NumberFormat.NatToString(index + 1);
  }

  /** An enabled item is a loaded reference, never a placeholder. */
  lemma EnabledItemsAreLoaded(done: bool, isLoading: bool, references: seq<Reference>)
    requires !ItemDisabled(done, isLoading, references)
    ensures DisplayReferences(isLoading, references) == references
    ensures !ShowsPlaceholders(isLoading, references)
  {
  }

  /** While placeholders show, every item is disabled. */
  lemma PlaceholdersAreDisabled(done: bool, isLoading: bool, references: seq<Reference>)
    requires ShowsPlaceholders(isLoading, references)
    ensures ItemDisabled(done, isLoading, references)
    ensures |DisplayReferences(isLoading, references)| == 2
  {
  }
}
