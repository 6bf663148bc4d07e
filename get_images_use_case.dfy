/** The load pipeline: one call of the repository wrapped in Loading, then
    Success or Error. */
module GetImagesUseCase {
  import opened Models

  /** What the repository call did: returned a response, or threw an
      exception whose message may be null. */
  datatype RepositoryOutcome = Returned(response: ImageResponse) | Threw(message: Option<string>)

  const UnexpectedErrorMessage: string := "An unexpected error occurred"

  /** The complete sequence of emissions of `getImages`, for a repository outcome. */
  function GetImages(outcome: RepositoryOutcome): (emissions: seq<DataState>)
    ensures |emissions| == 2 && emissions[0] == Loading
    ensures emissions[1].Success? <==> outcome.Returned?
    ensures outcome.Returned? ==> emissions[1].data == outcome.response
    ensures outcome.Threw? && outcome.message.Some? ==> emissions[1] == Error(outcome.message.value)
    ensures outcome.Threw? && outcome.message.None? ==> emissions[1] == Error(UnexpectedErrorMessage)
  {
    var second := match outcome
      case Returned(response) => Success(response)
      case Threw(message) => Error(if message.Some? then message.value else UnexpectedErrorMessage);
    [Loading, second]
  }

  /** The outcomes the use-case tests pin down: an empty response is passed
      through untouched; a "boom" exception becomes Error("boom"). */
  lemma GetImagesTestScenarios()
    ensures GetImages(Returned(ImageResponse([]))) == [Loading, Success(ImageResponse([]))]
    ensures GetImages(Threw(Some("boom"))) == [Loading, Error("boom")]
  {
  }
}
