/**
 * The character detail loader: a small state machine that fetches one
 * character, `idle -> loading -> success(character) | failure(message)`, and
 * can be reset to idle.  Its state type has a hand-written equality that does
 * not look at the character a success carries.
 */
module CharacterLoader {
  import opened Characters
  import ListProtocols

  /**
   * `LocalizedString.failedToLoadCharacter`.  The localised text is supplied
   * by the string tables; the model keeps it as an opaque constant, its key.
   */
  const FailedToLoadCharacter: string := "failed_to_load_character"

  /** `CharacterDetailLoaderState`. */
  datatype LoaderState = Idle | Loading | Success(character: Character) | Failure(message: string)

  /** The state's `==`: like tags are equal, failures compare messages, successes ignore the character. */
  predicate Same(a: LoaderState, b: LoaderState)
  {
    match (a, b)
    case (Idle, Idle) => true
    case (Loading, Loading) => true
    case (Failure(l), Failure(r)) => l == r
    case (Success(_), Success(_)) => true
    case _ => false
  }

  /** `isSuccess`. */
  predicate IsSuccess(s: LoaderState)
  {
    match s
    case Success(_) => true
    case _ => false
  }

  /** The state `loadCharacter` ends in, given the outcome of fetching the character. */
  function Loaded(outcome: ListProtocols.FetchOutcome<Character>): (s: LoaderState)
    ensures IsSuccess(s) <==> outcome.Fetched?
    ensures outcome.Fetched? ==> s == Success(outcome.value)
    ensures outcome.Failed? ==> s == Failure(FailedToLoadCharacter)
  {
    match outcome
    case Fetched(character) => Success(character)
    case Failed(_) => Failure(FailedToLoadCharacter)
  }

  /** `==` is exactly: same tag, and for failures the same message. */
  lemma SameCharacterised(a: LoaderState, b: LoaderState)
    ensures Same(a, b) <==>
      || (a.Idle? && b.Idle?)
      || (a.Loading? && b.Loading?)
      || (a.Success? && b.Success?)
      || (a.Failure? && b.Failure? && a.message == b.message)
  {
  }

  /** Two successes are equal whatever characters they carry. */
  lemma SameIgnoresCharacter(c: Character, d: Character)
    ensures Same(Success(c), Success(d))
  {
  }

  /** The hand-written equality is an equivalence relation. */
  lemma SameIsEquivalence(a: LoaderState, b: LoaderState, c: LoaderState)
    ensures Same(a, a)
    ensures Same(a, b) ==> Same(b, a)
    ensures Same(a, b) && Same(b, c) ==> Same(a, c)
  {
  }

  /** It is coarser than structural equality, and `isSuccess` cannot tell equal states apart. */
  lemma SameRespectsIsSuccess(a: LoaderState, b: LoaderState)
    ensures a == b ==> Same(a, b)
    ensures Same(a, b) ==> IsSuccess(a) == IsSuccess(b)
    ensures IsSuccess(a) <==> a.Success?
  {
  }

  class CharacterDetailLoaderViewModel {
    var state: LoaderState
    /** Every value assigned to `state`, as a subscriber to the published property sees them. */
    ghost var published: seq<LoaderState>
    /** The ids passed to the fetcher. */
    ghost var requestedIDs: seq<int>

    constructor()
      ensures state == Idle && published == [] && requestedIDs == []
    {
      state := Idle;
      published := [];
      requestedIDs := [];
    }

    /** `loadCharacter(id:)`: shows loading, asks the fetcher, then shows what came back. */
    method LoadCharacter(id: int, outcome: ListProtocols.FetchOutcome<Character>)
      modifies this
      ensures state == Loaded(outcome)
      ensures published == old(published) + [Loading, Loaded(outcome)]
      ensures requestedIDs == old(requestedIDs) + [id]
    {
      state := Loading;
      published := published + [state];
      requestedIDs := requestedIDs + [id];
      match outcome {
        case Fetched(character) =>
          state := Success(character);
        case Failed(_) =>
          state := Failure(FailedToLoadCharacter);
      }
      published := published + [state];
    }

    method Reset()
      modifies this
      ensures state == Idle
      ensures published == old(published) + [Idle]
      ensures requestedIDs == old(requestedIDs)
    {
      state := Idle;
      published := published + [state];
    }
  }
}
