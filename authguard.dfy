/** The auth-guard hook: one mutable flag, `showAuthModal`, that gated
    actions raise for a signed-out user. Whether the user is signed in comes
    from the auth context and is a parameter; a call of a callback is
    reported as a returned flag. */
module AuthGuard {

  class Guard {
    /** `showAuthModal`, which is also the sign-in modal's `isOpen`. */
    var showAuthModal: bool
    /** Whether the hook was given an `onSuccess` option. */
    const hasOnSuccess: bool

    /** `useAuthGuard(options)`: the modal starts closed. */
    constructor (hasOnSuccess: bool)
      ensures !showAuthModal && this.hasOnSuccess == hasOnSuccess
    {
      showAuthModal := false;
      this.hasOnSuccess := hasOnSuccess;
    }

    /** `requireAuth(callback?)`: a signed-in user gets the callback (when
        one was given) and the flag is left as it was; a signed-out user
        gets the modal and no callback. */
    method RequireAuth(isAuthenticated: bool, hasCallback: bool) returns (callbackCalled: bool)
      modifies this
      ensures isAuthenticated ==> callbackCalled == hasCallback && showAuthModal == old(showAuthModal)
      ensures !isAuthenticated ==> !callbackCalled && showAuthModal
    {
      if isAuthenticated {
        callbackCalled := hasCallback;
      } else {
        showAuthModal := true;
        callbackCalled := false;
      }
    }

    /** `handleAuthSuccess`: close the modal, then run `onSuccess` if given. */
    method HandleAuthSuccess() returns (onSuccessCalled: bool)
      modifies this
      ensures !showAuthModal
      ensures onSuccessCalled == hasOnSuccess
    {
      showAuthModal := false;
      onSuccessCalled := hasOnSuccess;
    }

    /** `closeAuthModal`: close the modal and call nothing. */
    method CloseAuthModal()
      modifies this
      ensures !showAuthModal
    {
      showAuthModal := false;
    }
  }

  /** A signed-out user who signs in after a gated action gets `onSuccess`
      once, and the modal is closed again; the gated callback itself never
      runs. */
  method SignInAfterGate(hasCallback: bool)
  {
    var guard := new Guard(true);
    var called := guard.RequireAuth(false, hasCallback);
    assert !called && guard.showAuthModal;
    var succeeded := guard.HandleAuthSuccess();
    assert succeeded && !guard.showAuthModal;
  }
}
