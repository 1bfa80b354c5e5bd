/**
 * The `PremiumGate` component (components/premium-gate.tsx): which of its children, its
 * fallback or the default upgrade prompt it renders, and the flag its upgrade button sets.
 */
module PremiumGate {
  import opened Wrappers
  import opened ApiClient
  import opened AuthContext
  import Schemas

  /** `user?.role === 'premium'`. */
  predicate IsPremium(user: Option<User>)
  {
    user.Some? && user.value.role == Str("premium")
  }

  datatype GateView =
    | ShowChildren
    | ShowFallback
    /** The default prompt; its button is disabled while redirecting and labelled to match. */
    | UpgradePrompt(disabled: bool, caption: string)

  const SubscriptionRoute := "/dashboard/subscription"

  /** The render choice (lines 31-72). */
  function View(user: Option<User>, fallback: JsValue, isLoading: bool): GateView
  {
    if IsPremium(user) then ShowChildren
    else if Truthy(fallback) then ShowFallback
    else UpgradePrompt(isLoading, if isLoading then "Redirecting..." else "Upgrade to Premium")
  }

  /** The component's own state: the upgrade flag, and the routes it has pushed. */
  class Gate {
    var isLoading: bool
    var visited: seq<string>

    constructor()
      ensures !isLoading && visited == []
    {
      isLoading := false;
      visited := [];
    }

    function Render(user: Option<User>, fallback: JsValue): GateView
      reads this
    {
      View(user, fallback, isLoading)
    }

    /** `handleUpgradeClick`: set the flag, then go to the subscription page. */
    method HandleUpgradeClick()
      modifies this
      ensures isLoading && visited == old(visited) + [SubscriptionRoute]
    {
      isLoading := true;
      visited := visited + [SubscriptionRoute];
    }
  }

  /**
   * A premium user sees the children whatever the fallback; anyone else sees a truthy
   * fallback, or else the prompt, whose button is disabled exactly while the flag is set.
   */
  lemma GateChoice(user: Option<User>, fallback: JsValue, isLoading: bool)
    ensures View(user, fallback, isLoading) == ShowChildren <==> IsPremium(user)
    ensures View(user, fallback, isLoading) == ShowFallback <==> !IsPremium(user) && Truthy(fallback)
    ensures View(user, fallback, isLoading).UpgradePrompt? ==>
      View(user, fallback, isLoading).disabled == isLoading
  {
  }

  /**
   * A signed-in user is premium exactly when the token's role claim is the backend's
   * "premium" role; a missing role defaults to "user", which never is.
   */
  lemma PremiumFromClaims(token: string, decode: Decoder)
    requires DecodeUser(token, decode).Ok?
    ensures var payload := decode(Segment(token)).value;
      (IsPremium(Some(DecodeUser(token, decode).value))
       <==> Member(payload, "role") == Some(Str(Schemas.RoleValue(Schemas.Premium))))
  {
  }

  /** After a click, a non-premium user without a fallback sees the disabled "Redirecting..." button. */
  lemma ClickDisablesButton(user: Option<User>)
    requires !IsPremium(user)
    ensures View(user, Undefined, true) == UpgradePrompt(true, "Redirecting...")
    ensures View(user, Undefined, false) == UpgradePrompt(false, "Upgrade to Premium")
  {
  }
}
