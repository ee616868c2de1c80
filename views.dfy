/** The alert part of the view layer's template data (package views, data.go).
  *
  * An error handed to `SetAlert` is a Go error value that may wrap other errors.
  * It is modelled as its wrap chain, outermost error first, the empty chain being
  * the nil error. Each link records the error's own text and, when the link
  * implements `PublicError`, the text its `Public()` method returns.
  */
module Views {
  import opened Wrappers

  // Alert levels and the fixed user-facing message.
  const AlertLevError := "danger"
  const AlertLevWarning := "warning"
  const AlertLevInfo := "info"
  const AlertLevSuccess := "success"
  const AlertMsgGeneric := "something went wrong"

  /** What the page shows in its alert box. */
  datatype Alert = Alert(level: string, message: string)

  /** One error in a wrap chain: `text` is what `Error()` returns; `public` is
    * `Some(Public())` exactly when the error implements `PublicError`. */
  datatype ErrorLink = ErrorLink(text: string, public: Option<string>)

  /** A Go error as its unwrap chain, outermost first; `[]` is `nil`. */
  type ErrorChain = seq<ErrorLink>

  predicate IsPublic(e: ErrorLink) {
    e.public.Some?
  }

  /** No error in the chain implements `PublicError`. */
  predicate NoPublic(err: ErrorChain) {
    forall j :: 0 <= j < |err| ==> !IsPublic(err[j])
  }

  /** `err[k]` is public and no error outside it is. */
  predicate OutermostPublic(err: ErrorChain, k: int) {
    0 <= k < |err| && IsPublic(err[k]) && forall j :: 0 <= j < k ==> !IsPublic(err[j])
  }

  /** `errors.As(err, &pErr)` with a `PublicError` target: walks the chain from the
    * outside in and stops at the first error that implements `PublicError`,
    * giving its position, or finds none. */
  function FirstPublic(err: ErrorChain): (r: Option<nat>)
    ensures r.Some? ==> OutermostPublic(err, r.value)
    ensures r.None? ==> NoPublic(err)
  {
    if err == [] then None
    else if IsPublic(err[0]) then Some(0)
    else match FirstPublic(err[1..])
      case None => None
      case Some(k) => Some(k + 1)
  }

  /** The alert `SetAlert` builds for `err`: always at the error level; the
    * outermost public error's `Public()` text when there is one, and otherwise the
    * generic message, so the text of a non-public error never reaches the page. */
  function AlertFor(err: ErrorChain): (a: Alert)
    ensures a.level == AlertLevError
    ensures forall k :: OutermostPublic(err, k) ==> a.message == err[k].public.value
    ensures NoPublic(err) ==> a.message == AlertMsgGeneric
    ensures a.message == AlertMsgGeneric || exists k :: 0 <= k < |err| && err[k].public == Some(a.message)
  {
    match FirstPublic(err)
    case Some(k) => Alert(AlertLevError, err[k].public.value)
    case None => Alert(AlertLevError, AlertMsgGeneric)
  }

  /** Two errors that are not public give the same alert, whatever their texts:
    * the detail of an internal error has no influence on what the user sees. */
  lemma GenericHidesDetail(err1: ErrorChain, err2: ErrorChain)
    requires NoPublic(err1) && NoPublic(err2)
    ensures AlertFor(err1) == AlertFor(err2) == Alert(AlertLevError, AlertMsgGeneric)
  {
  }

  /** Wrapping an error in one that is not public (`fmt.Errorf("...: %w", err)`)
    * does not change the alert. */
  lemma WrapNonPublic(outer: ErrorLink, err: ErrorChain)
    requires !IsPublic(outer)
    ensures AlertFor([outer] + err) == AlertFor(err)
  {
  }

  /** Once a public error is reached, whatever it wraps is irrelevant: replacing
    * everything inside `err[k]` by an arbitrary `inner` chain, public errors
    * included, leaves the alert unchanged. */
  lemma {:induction false} InnerErrorsIgnored(err: ErrorChain, k: nat, inner: ErrorChain)
    requires k < |err| && IsPublic(err[k])
    ensures AlertFor(err[..k + 1] + inner) == AlertFor(err)
  {
    var w := err[..k + 1] + inner;
    assert w[k] == err[k];
    assert forall j :: 0 <= j <= k ==> w[j] == err[j];
    match FirstPublic(err)
    case Some(i) =>
      assert i <= k;
      assert OutermostPublic(w, i);
    case None =>
      assert false;
  }

  /** The data handed to a page template: an optional alert, the signed-in user
    * (nil when the visitor is anonymous), the CSRF field and the page's own content. */
  class Data<User, Yield> {
    var alert: Option<Alert>
    var user: Option<User>
    var csrf: string
    var yieldValue: Yield

    /** Template data with no alert yet. */
    constructor (user: Option<User>, csrf: string, yieldValue: Yield)
      ensures alert == None
      ensures this.user == user && this.csrf == csrf && this.yieldValue == yieldValue
    {
      this.alert := None;
      this.user := user;
      this.csrf := csrf;
      this.yieldValue := yieldValue;
    }

    /** Replaces the alert by the one classified from `err`; only the alert changes. */
    method SetAlert(err: ErrorChain)
      modifies this`alert
      ensures alert == Some(AlertFor(err))
      ensures alert.Some? && alert.value.level == AlertLevError
      ensures user == old(user) && csrf == old(csrf) && yieldValue == old(yieldValue)
    {
      var pErr := FirstPublic(err);
      if pErr.Some? {
        alert := Some(Alert(AlertLevError, err[pErr.value].public.value));
      } else {
        alert := Some(Alert(AlertLevError, AlertMsgGeneric));
      }
    }

    /** Shows `msg` verbatim at the error level, with no classification; only the
      * alert changes. */
    method AlertError(msg: string)
      modifies this`alert
      ensures alert == Some(Alert(AlertLevError, msg))
      ensures user == old(user) && csrf == old(csrf) && yieldValue == old(yieldValue)
    {
      alert := Some(Alert(AlertLevError, msg));
    }
  }
}
