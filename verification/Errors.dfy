/** Go error values with wrapping, and the two case analyses that turn one into a status or a metric label. */
module Errors {

  datatype Sentinel =
    | ErrTripNotFound | ErrForbidden | ErrConflict | ErrTripAlreadyPublished
    | ErrValidation | ErrUnavailable | ErrInvalidResponse

  /** The layer that adds context to an error.  Of the message contexts only this is modelled. */
  datatype Context =
    | InContractRequest | InContractResponse | InValidation | Joined
    | InBegin | InBlock | InCommit | InCreateTrip | InPublishTrip
    | InGetForUpdateByID | InUpdate | InCreate | InCreateOutboxEvent | ClientIsNotDriver | OfTrip | InvalidStatus
    | SelectingTrip | UpdatingTrip | InsertingTrip | InsertingHistory | InsertingEvent
    | SelectingPending | ReadingPending | MarkingSent | RecordingFailure | CountingPending

  datatype Origin = FromDatabase | FromNetwork(text: string) | FromInput

  /** `Foreign` is an error of a library, which matches no sentinel; `Wrap` is fmt.Errorf with %w, or errors.Join. */
  datatype Error = Base(sentinel: Sentinel) | Foreign(origin: Origin) | Wrap(context: Context, causes: seq<Error>)
  {
    /** errors.Is */
    predicate Is(target: Sentinel) {
      match this
      case Base(sentinel) => sentinel == target
      case Foreign(_) => false
      case Wrap(_, causes) => exists i :: 0 <= i < |causes| && causes[i].Is(target)
    }
  }

  function Wrapped(context: Context, cause: Error): Error {
    Wrap(context, [cause])
  }

  /** What a caller of a service method gets: a value, an error, or, after a crash, nothing. */
  datatype Reply = Accepted | Rejected(err: Error) | NoReply

  function ServiceErrorStatus(err: Error): nat {
    if err.Is(ErrUnavailable) then 503
    else if err.Is(ErrInvalidResponse) then 502
    else if err.Is(ErrValidation) then 400
    else if err.Is(ErrTripNotFound) then 404
    else if err.Is(ErrForbidden) then 403
    else if err.Is(ErrConflict) then 409
    else 500
  }

  /** The publish handler looks for an already published trip before it uses the shared mapping. */
  function PublishErrorStatus(err: Error): nat {
    if err.Is(ErrTripAlreadyPublished) then 204 else ServiceErrorStatus(err)
  }

  datatype Label =
    | LabelSuccess | LabelNotFound | LabelForbidden | LabelConflict | LabelAlreadyPublished | LabelValidationError
    | LabelInternalError

  function PublishTripResult(err: Error): Label {
    if err.Is(ErrTripNotFound) then LabelNotFound
    else if err.Is(ErrForbidden) then LabelForbidden
    else if err.Is(ErrConflict) then LabelConflict
    else if err.Is(ErrTripAlreadyPublished) then LabelAlreadyPublished
    else LabelInternalError
  }

  /** `err` inside any number of layers of context, innermost first. */
  function Layered(err: Error, contexts: seq<Context>): Error {
    if contexts == [] then err else Wrapped(contexts[|contexts| - 1], Layered(err, contexts[..|contexts| - 1]))
  }

  lemma WrappedIs(context: Context, cause: Error)
    ensures forall s :: Wrapped(context, cause).Is(s) <==> cause.Is(s)
  {
    forall s ensures Wrapped(context, cause).Is(s) <==> cause.Is(s) {
      assert Wrapped(context, cause).causes[0] == cause;
    }
  }

  /** Any depth of wrapping leaves the status, the publish status and the metric label alone. */
  lemma {:induction false} WrappingIsTransparent(err: Error, contexts: seq<Context>)
    ensures forall s :: Layered(err, contexts).Is(s) <==> err.Is(s)
    ensures ServiceErrorStatus(Layered(err, contexts)) == ServiceErrorStatus(err)
    ensures PublishErrorStatus(Layered(err, contexts)) == PublishErrorStatus(err)
    ensures PublishTripResult(Layered(err, contexts)) == PublishTripResult(err)
  {
    if contexts != [] {
      WrappingIsTransparent(err, contexts[..|contexts| - 1]);
      WrappedIs(contexts[|contexts| - 1], Layered(err, contexts[..|contexts| - 1]));
    }
  }

  predicate AtMostOneSentinel(err: Error) {
    forall s, t: Sentinel :: err.Is(s) && err.Is(t) ==> s == t
  }

  /** Metric label and status of a publish error stand for the same outcome. */
  predicate SameStory(err: Error) {
    var result, status := PublishTripResult(err), PublishErrorStatus(err);
    && (result == LabelNotFound <==> status == 404)
    && (result == LabelForbidden <==> status == 403)
    && (result == LabelConflict <==> status == 409)
    && (result == LabelAlreadyPublished <==> status == 204)
    && (result == LabelInternalError <==> status in {400, 500, 502, 503})
  }

  /**
   * The label and the status of any publish error with at most one sentinel tell the same story, under any layers of
   * context, except that the label folds failures of the database and of the contract service into one.
   */
  lemma LabelAgreesWithStatus(err: Error, contexts: seq<Context>)
    requires AtMostOneSentinel(err)
    ensures SameStory(err) && SameStory(Layered(err, contexts))
  {
    WrappingIsTransparent(err, contexts);
  }
}
