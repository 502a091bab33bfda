/** The pure access rules and the billing plan they lead to. */
module Policy {

  datatype Mode = Credits | Byok
  datatype Subscription = Active | Expired | NoSubscription
  datatype KeyState = Missing | Disabled | Invalid | Valid | Validating | Offline | KeyExpired

  datatype State = State(subscription: Subscription, trialUsed: bool, balance: int,
                         keyEnabled: bool, key: KeyState)

  datatype Reason =
    | TrialUsed | SubscriptionRequired | SubscriptionExpired | CreditsEmpty
    | ByokDisabled | ByokInvalid | MaxTokens | ImageCreditsEmpty

  datatype Decision = Allow | Block(reason: Reason)

  /** How a final reply is paid: one credit, the lifetime trial, or nothing. */
  datatype Plan = DebitCredit | SpendTrial | Free

  function Evaluate(s: State, mode: Mode): Decision {
    if mode.Byok? then
      if s.subscription.Expired? then Block(SubscriptionExpired)
      else if !s.subscription.Active? then Block(SubscriptionRequired)
      else if !s.keyEnabled || s.key.Disabled? then Block(ByokDisabled)
      else if !s.key.Valid? then Block(ByokInvalid)
      else Allow
    else
      match s.subscription
      case Active => if s.balance == 0 then Block(CreditsEmpty) else Allow
      case Expired => Block(SubscriptionExpired)
      case NoSubscription => if s.trialUsed then Block(TrialUsed) else Allow
  }

  function BillingPlan(mode: Mode, s: State): Plan {
    if mode.Byok? then Free
    else if s.subscription.Active? then DebitCredit
    else if s.subscription.NoSubscription? && !s.trialUsed then SpendTrial
    else Free
  }

  /** Who gets in: with their own key, subscribers whose key is enabled and valid; on credits,
      subscribers with a balance and users whose trial is unused. */
  lemma WhoGetsIn(s: State, mode: Mode)
    ensures Evaluate(s, mode).Allow? <==>
            if mode.Byok? then s.subscription.Active? && s.keyEnabled && s.key.Valid?
            else (s.subscription.Active? && s.balance != 0) || (s.subscription.NoSubscription? && !s.trialUsed)
  {
  }

  /** A turn allowed in credits mode is never free: it costs a credit that is there, or the trial that
      is unused. In BYOK mode it always is. */
  lemma AllowedPlan(s: State, mode: Mode)
    requires Evaluate(s, mode).Allow?
    ensures BillingPlan(mode, s).Free? <==> mode.Byok?
    ensures BillingPlan(mode, s).DebitCredit? ==> s.subscription.Active? && s.balance != 0
    ensures BillingPlan(mode, s).SpendTrial? ==> s.subscription.NoSubscription? && !s.trialUsed
  {
  }

  /** Which users get which reason: the reason names what stands in the way, and the six cases exclude
      one another. */
  lemma {:induction false} ReasonNamesObstacle(s: State, mode: Mode)
    ensures var d := Evaluate(s, mode);
            && (d == Block(SubscriptionExpired) <==> s.subscription.Expired?)
            && (d == Block(SubscriptionRequired) <==> mode.Byok? && s.subscription.NoSubscription?)
            && (d == Block(CreditsEmpty) <==> mode.Credits? && s.subscription.Active? && s.balance == 0)
            && (d == Block(TrialUsed) <==> mode.Credits? && s.subscription.NoSubscription? && s.trialUsed)
            && (d == Block(ByokDisabled) <==>
                  mode.Byok? && s.subscription.Active? && (!s.keyEnabled || s.key.Disabled?))
            && (d == Block(ByokInvalid) <==>
                  mode.Byok? && s.subscription.Active? && s.keyEnabled && !s.key.Disabled? && !s.key.Valid?)
            && d != Block(MaxTokens) && d != Block(ImageCreditsEmpty)
  {
  }

  /** Removing what the reason names removes the reason, and lets the user in unless something else is
      named instead. */
  lemma {:induction false} RemovingObstacle(s: State, mode: Mode, credits: int)
    requires Evaluate(s, mode).Block?
    ensures match Evaluate(s, mode).reason
            case CreditsEmpty => credits > 0 ==> Evaluate(s.(balance := credits), mode).Allow?
            case TrialUsed => Evaluate(s.(trialUsed := false), mode).Allow?
            case ByokDisabled => Evaluate(s.(keyEnabled := true, key := Valid), mode).Allow?
            case ByokInvalid => Evaluate(s.(key := Valid), mode).Allow?
            case SubscriptionExpired =>
              var d := Evaluate(s.(subscription := Active), mode);
              d.Allow? || d.reason.CreditsEmpty? || d.reason.ByokDisabled? || d.reason.ByokInvalid?
            case SubscriptionRequired =>
              var d := Evaluate(s.(subscription := Active), mode);
              d.Allow? || d.reason.ByokDisabled? || d.reason.ByokInvalid?
            case _ => false
  {
  }
}
