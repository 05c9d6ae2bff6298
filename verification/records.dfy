/** Value types shared by every part of the ChronoArcana model: the optional
    and error-carrying wrappers that stand for JavaScript's null/undefined and
    thrown errors, and the card and daily-pull records of src/types/index.ts. */
module Records {

  /** `null` / `undefined` versus a present value. */
  datatype Option<T> = None | Some(value: T)

  /** The two pull modalities ('digital' | 'physical'). */
  datatype PullType = Digital | Physical

  /** The string the database column holds for a pull type. */
  function PullTypeName(t: PullType): (s: string)
    ensures s == "digital" || s == "physical"
    ensures (s == "digital") <==> t == Digital
  {
    match t
    case Digital => "digital"
    case Physical => "physical"
  }

  /** A tarot card: the fields of TarotCard that the modelled logic reads. */
  datatype Card = Card(
    id: nat,
    deckId: nat,
    name: string,
    suit: Option<string>,
    keywords: Option<string>)

  /** A daily pull (DailyPull); `card` is the joined card, when fetched. */
  datatype Pull = Pull(
    id: string,
    userId: string,
    cardId: nat,
    pullDate: string,
    pullType: PullType,
    notes: Option<string>,
    isReversed: bool,
    card: Option<Card>)

  /** JavaScript truthiness of an optional string: present and non-empty. */
  predicate Truthy(s: Option<string>) {
    s.Some? && s.value != ""
  }

  /** `s || ''`: the string when it is truthy, otherwise the empty string. */
  function OrEmpty(s: Option<string>): (r: string)
    ensures Truthy(s) ==> r == s.value
    ensures !Truthy(s) ==> r == ""
  {
    if Truthy(s) then s.value else ""
  }

  /** The error object of a store reply (PostgREST's `code` and `message`). */
  datatype StoreError = StoreError(code: string, message: string)

  /** What a store query resolves to: `{ data, error }`. */
  datatype Reply<T> = Reply(data: Option<T>, error: Option<StoreError>)

  /** What an operation throws: an `Error` built with a message, or a store
      error object passed on as it came (not an `Error` instance). */
  datatype Failure = Thrown(message: string) | Rejected(error: StoreError)

  /** The value an operation returns, or what it throws. */
  datatype Outcome<T> = Done(value: T) | Failed(failure: Failure)

  /** `err instanceof Error ? err.message : fallback`. */
  function ErrorText(f: Failure, fallback: string): (s: string)
    ensures f.Thrown? ==> s == f.message
    ensures f.Rejected? ==> s == fallback
  {
    match f
    case Thrown(m) => m
    case Rejected(_) => fallback
  }

  /** The record a new pull is inserted with (DailyPull without id and
      timestamps). */
  datatype NewPull = NewPull(
    userId: string,
    cardId: nat,
    pullDate: string,
    pullType: PullType,
    notes: string,
    isReversed: bool)
}
