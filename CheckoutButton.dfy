/**
 * The checkout gate: what the checkout button shows, decided from the
 * authentication flags, whether the user's profile has loaded, whether a
 * checkout is already in flight and whether the cart is empty.
 */
module CheckoutButton {
  import opened CartReducer
  import DetailsPage

  /** The three things the button can render. */
  datatype CheckoutView =
    | LogInButton                       // "Log in to check out", starts the login redirect
    | LoadingButton                     // a spinner, nothing can be clicked
    | CheckoutTrigger(disabled: bool)   // "Go to checkout", opens the delivery-details dialog

  /**
   * The render decision. `hasCurrentUser` is the truthiness of the fetched
   * profile; `isLoading` is the in-flight flag of the checkout request.
   */
  function Render(isAuthenticated: bool, isAuthLoading: bool, hasCurrentUser: bool,
                  isLoading: bool, disabled: bool): (v: CheckoutView)
    ensures !isAuthenticated ==> v == LogInButton
    ensures isAuthenticated && (isAuthLoading || !hasCurrentUser || isLoading) ==> v == LoadingButton
    ensures isAuthenticated && !isAuthLoading && hasCurrentUser && !isLoading ==> v == CheckoutTrigger(disabled)
  {
    if !isAuthenticated then LogInButton
    else if isAuthLoading || !hasCurrentUser || isLoading then LoadingButton
    else CheckoutTrigger(disabled)
  }

  /** Checkout can be started when the trigger is shown and not disabled. */
  predicate CanStartCheckout(v: CheckoutView)
  {
    v.CheckoutTrigger? && !v.disabled
  }

  /** The independent statement of when a user may check out. */
  predicate CheckoutAllowed(isAuthenticated: bool, isAuthLoading: bool, hasCurrentUser: bool,
                            isLoading: bool, disabled: bool)
  {
    isAuthenticated && !isAuthLoading && hasCurrentUser && !isLoading && !disabled
  }

  /** The render decision lets checkout start exactly when it is allowed. */
  lemma StartIffAllowed(isAuthenticated: bool, isAuthLoading: bool, hasCurrentUser: bool,
                        isLoading: bool, disabled: bool)
    ensures CanStartCheckout(Render(isAuthenticated, isAuthLoading, hasCurrentUser, isLoading, disabled))
      <==> CheckoutAllowed(isAuthenticated, isAuthLoading, hasCurrentUser, isLoading, disabled)
  {
  }

  /** While a checkout request is in flight no second one can be started. */
  lemma NoSecondSubmission(isAuthenticated: bool, isAuthLoading: bool, hasCurrentUser: bool, disabled: bool)
    ensures !Render(isAuthenticated, isAuthLoading, hasCurrentUser, true, disabled).CheckoutTrigger?
  {
  }

  /** The three outcomes are exclusive and one of them always happens. */
  lemma OutcomesExclusiveAndExhaustive(isAuthenticated: bool, isAuthLoading: bool, hasCurrentUser: bool,
                                       isLoading: bool, disabled: bool)
    ensures var v := Render(isAuthenticated, isAuthLoading, hasCurrentUser, isLoading, disabled);
      (v.LogInButton? <==> !isAuthenticated)
      && (v.LoadingButton? <==> isAuthenticated && (isAuthLoading || !hasCurrentUser || isLoading))
      && (v.CheckoutTrigger? <==> isAuthenticated && !isAuthLoading && hasCurrentUser && !isLoading)
      && (v.LogInButton? || v.LoadingButton? || v.CheckoutTrigger?)
  {
  }

  /**
   * On the details page the button is disabled by an empty cart, so an empty
   * cart can never be checked out, and a non-empty one can whenever the user
   * is signed in, has a profile and no checkout is in flight.
   */
  lemma CartGatesCheckout(isAuthenticated: bool, isAuthLoading: bool, hasCurrentUser: bool,
                          isLoading: bool, cart: Cart)
    ensures CanStartCheckout(Render(isAuthenticated, isAuthLoading, hasCurrentUser, isLoading,
                                    DetailsPage.CheckoutDisabled(cart)))
      <==> cart != [] && isAuthenticated && !isAuthLoading && hasCurrentUser && !isLoading
  {
  }
}
