/**
 * The recoverable exception raised by a failed domain rule. It carries the accumulated
 * warnings; its message is the first global warning's key, or "error.Exception" if none.
 */
module Validation {
  import opened Wrappers
  import opened Warnings
  import Keys

  datatype ValidationException = ValidationException(warns: Warns) {

    function Message(): (m: string)
      ensures warns.GlobalErrorOpt().Some? ==> m == warns.GlobalErrorOpt().value.message
      ensures warns.GlobalErrorOpt().None? ==> m == Keys.Exception
    {
      warns.GlobalError().message
    }
  }

  /** The exception for exactly one warning. */
  function Of(warn: Warn): (e: ValidationException)
    ensures e.warns.errors == [warn]
  {
    ValidationException(Warns([warn]))
  }

  /** The exception for whatever a builder has accumulated so far. */
  function OfBuilder(builder: WarnsBuilder): (e: ValidationException)
    reads builder
    ensures e.warns.errors == builder.warns
  {
    ValidationException(builder.Build())
  }

  /** One field warning per violation, keyed by the violation's property path. */
  function OfConstraints(errors: seq<ConstraintViolation>): (e: ValidationException)
    ensures |e.warns.errors| == |errors|
    ensures forall i :: 0 <= i < |errors| ==>
      e.warns.errors[i].field == Some(errors[i].propertyPath) &&
      e.warns.errors[i].message == errors[i].message
  {
    ValidationException(Warns(ConstraintWarns(errors)))
  }

  /** A global error: the exception's message is `message` itself. */
  function OfMessage(message: string, messageArgs: seq<string>): (e: ValidationException)
    ensures e.warns.errors == [OfGlobal(message, messageArgs)]
    ensures e.Message() == message
    ensures !e.warns.HasFieldError()
  {
    ValidationException(Warns([OfGlobal(message, messageArgs)]))
  }

  /**
   * A field error. Callers find it through `warns.FieldError(field)`; the exception message is
   * then the generic "error.Exception". A blank field makes the warning global instead.
   */
  function OfField(field: string, message: string, messageArgs: seq<string>): (e: ValidationException)
    ensures e.warns.errors == [Warnings.OfField(field, message, messageArgs)]
    ensures HasText(Some(field)) ==>
      && e.warns.FieldError(field) == Some(Warnings.OfField(field, message, messageArgs))
      && e.Message() == Keys.Exception
    ensures !HasText(Some(field)) ==> e.Message() == message && e.warns.FieldError(field).None?
  {
    ValidationException(Warns([Warnings.OfField(field, message, messageArgs)]))
  }
}
