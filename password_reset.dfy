/** The password reset panel: a reset link is requested only once the user
    has confirmed and given an e-mail address. */
module PasswordReset {
  import opened Common

  const ConfirmFirst: string := "Please confirm that you understand the implications before proceeding."
  const EnterEmail: string := "Please enter your email address."
  const LinkSent: string := "If this email is registered, a password reset link has been sent."

  /** How `handleReset` ends. */
  datatype Outcome = NotConfirmed | NoEmail | ServiceFailed(message: string) | LinkRequested

  /** The checks in order; `serviceError` is the reply of
      `resetPasswordForEmail`, `None` when it accepted the request. The
      e-mail is checked for being empty only, not trimmed. */
  function Reset(confirmed: bool, email: string, serviceError: Option<string>): Outcome {
    if !confirmed then NotConfirmed
    else if email == "" then NoEmail
    else if serviceError.Some? then ServiceFailed(serviceError.value)
    else LinkRequested
  }

  /** The message each outcome shows. */
  function MessageOf(o: Outcome): string {
    match o
    case NotConfirmed => ConfirmFirst
    case NoEmail => EnterEmail
    case ServiceFailed(m) => m
    case LinkRequested => LinkSent
  }

  /** The service is asked exactly when the user confirmed and gave an
      e-mail; only its acceptance clears the error flag; and the success
      message is the same for every address, so it never tells whether the
      address is registered. */
  lemma ResetFacts(confirmed: bool, email: string, serviceError: Option<string>)
    ensures var o := Reset(confirmed, email, serviceError);
      && (o.ServiceFailed? || o.LinkRequested? <==> confirmed && email != "")
      && (o.LinkRequested? <==> confirmed && email != "" && serviceError.None?)
      && (o.ServiceFailed? ==> MessageOf(o) == serviceError.value)
    ensures forall e1, e2 :: e1 != "" && e2 != "" ==>
      MessageOf(Reset(true, e1, None)) == MessageOf(Reset(true, e2, None)) == LinkSent
  {
  }

  /** `disabled={!confirmed || loading}` on the submit button. */
  function ButtonDisabled(confirmed: bool, loading: bool): (d: bool)
    ensures !d <==> confirmed && !loading
  {
    !confirmed || loading
  }

  /** Through the enabled button a reset is never refused for want of
      confirmation. */
  lemma EnabledButtonConfirmed(confirmed: bool, loading: bool, email: string, serviceError: Option<string>)
    requires !ButtonDisabled(confirmed, loading)
    ensures !Reset(confirmed, email, serviceError).NotConfirmed?
  {
  }

  /** The panel's state. */
  class ResetPanel {
    var email: string
    var confirmed: bool
    var loading: bool
    var message: Option<string>
    var isError: bool

    constructor ()
      ensures email == "" && !confirmed && !loading && message == None && !isError
    {
      email := "";
      confirmed := false;
      loading := false;
      message := None;
      isError := false;
    }

    /** `handleReset`: returns whether `resetPasswordForEmail` was called.
        The refusals leave `loading` as it was. */
    method HandleReset(serviceError: Option<string>) returns (requested: bool)
      modifies this
      ensures var o := Reset(confirmed, email, serviceError);
        && requested == (o.ServiceFailed? || o.LinkRequested?)
        && message == Some(MessageOf(o)) && isError == !o.LinkRequested?
      ensures loading == (if requested then false else old(loading))
      ensures email == old(email) && confirmed == old(confirmed)
    {
      requested := false;
      if !confirmed {
        isError := true;
        message := Some(ConfirmFirst);
        return;
      }
      if email == "" {
        isError := true;
        message := Some(EnterEmail);
        return;
      }
      loading := true;
      message := None;
      isError := false;
      requested := true;
      if serviceError.Some? {
        isError := true;
        message := Some(serviceError.value);
      } else {
        isError := false;
        message := Some(LinkSent);
      }
      loading := false;
    }
  }
}
