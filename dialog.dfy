/** The sign-in dialog controller: it subscribes to the protocol messages of
    the page's message hub and answers each by requesting something of an
    external collaborator (a `user.*` network call, a UI sub-controller, an
    error panel, the relying party's callbacks). Those requests are recorded
    in an effect log. The hub is replaced by the controller's own table of
    subscriptions, and the controller's module-level `offline` flag and
    `subscriptions` array are fields of the one controller a dialog holds. */
module Dialog {
  import opened Common

  /** The identity of a function the relying party passed in. */
  type Callback = nat
  /** The handle the hub returns for a subscription. */
  type Handle = nat

  /** An assertion value as it reaches `doAssertionGenerated`: `null`,
      `undefined`, or a signed assertion. */
  datatype Assertion = Null | Undefined | Signed(token: string)

  /** The `errors.*` tags that categorise an error panel. */
  datatype ErrorAction = RelaySetup | XhrFailure | GetAssertion | LogoutUser | SignIn | CheckAuthentication

  /** The argument handed to the authenticate sub-controller: nothing, or an
      object whose `email` may be undefined. */
  datatype AuthInfo = NoInfo | Prefill(email: Option<string>)

  /** The messages the controller subscribes to, with their payloads. */
  datatype Message =
    | Offline
    | XhrError
    | UserStaged(email: Option<string>)
    | UserConfirmed
    | Authenticated
    | ResetPassword(email: Option<string>)
    | AssertionGenerated(assertion: Assertion)
    | EmailStaged(email: Option<string>)
    | EmailConfirmed
    | NotMe
    | Auth(email: Option<string>)
    | Start
    | Cancel

  function TopicOf(m: Message): string {
    match m
    case Offline => "offline"
    case XhrError => "xhrError"
    case UserStaged(_) => "user_staged"
    case UserConfirmed => "user_confirmed"
    case Authenticated => "authenticated"
    case ResetPassword(_) => "reset_password"
    case AssertionGenerated(_) => "assertion_generated"
    case EmailStaged(_) => "email_staged"
    case EmailConfirmed => "email_confirmed"
    case NotMe => "notme"
    case Auth(_) => "auth"
    case Start => "start"
    case Cancel => "cancel"
  }

  /** The topics `stateMachine` subscribes to, in its order. */
  const Topics: seq<string> := ["offline", "xhrError", "user_staged", "user_confirmed", "authenticated",
                                "reset_password", "assertion_generated", "email_staged", "email_confirmed",
                                "notme", "auth", "start", "cancel"]

  /** What the world does to the controller: a hub message, or the success
      callback of a request the controller made earlier. */
  datatype Event =
    | Publish(message: Message)
    | AuthCheckDone(authenticated: bool)   // `checkAuthenticationAndSync` completes
    | EmailsSynced                         // `syncEmails` succeeds
    | LoggedOut                            // `logoutUser` succeeds
    | AssertionReady(assertion: Assertion) // `getAssertion` succeeds

  /** A request the controller makes of a collaborator. Requests to the
      network carry the error tag of the error dialog that handles failure. */
  datatype Effect =
    | SetupChannel
    | RenderError(template: string, action: Option<ErrorAction>)
    | Unsubscribe(handle: Handle)
    | DestroyBase
    | SetOrigin(origin: string)
    | ShowSiteName
    | BindUnload
    | CheckAuthAndSync(onFailure: ErrorAction)
    | CheckRegistration(email: Option<string>, verifier: string, verificationMessage: string)
    | StartCheck
    | ShowPickEmail
    | ShowAuthenticate(info: AuthInfo)
    | ShowForgotPassword(email: Option<string>)
    | RequestAssertion(email: Option<string>, onFailure: ErrorAction)
    | RequestLogout(onFailure: ErrorAction)
    | RequestSyncEmails(onFailure: ErrorAction)
      /** `onsuccess(result)`, with the `onerror` the controller held at the
          moment of the call. */
    | CallOnSuccess(callback: Callback, result: Assertion, onerrorAtCall: Option<Callback>)
      /** `onsuccess(result)` while `onsuccess` is null: a TypeError. */
    | SuccessNotAFunction

  datatype Sub = Sub(handle: Handle, topic: string)

  /** The controller's state: the flow's two callbacks, the email awaiting
      confirmation, the offline flag, and the subscription table. */
  datatype Ctl = Ctl(onsuccess: Option<Callback>, onerror: Option<Callback>, confirmEmail: Option<string>,
                     offline: bool, subscriptions: seq<Sub>, nextHandle: Handle)

  /** The state after a step together with the effects it requested. */
  datatype Reaction = Reaction(after: Ctl, effects: seq<Effect>)

  /** Handles are positive (so the popping loop of `destroy` runs until the
      array is empty), distinct and below the next one to be issued. */
  predicate WellFormed(c: Ctl) {
    TableOk(c.subscriptions, c.nextHandle)
  }

  predicate TableOk(s: seq<Sub>, next: Handle) {
    && next >= 1
    && (forall i :: 0 <= i < |s| ==> 1 <= s[i].handle < next)
    && (forall i, j :: 0 <= i < j < |s| ==> s[i].handle != s[j].handle)
  }

  predicate Subscribed(c: Ctl, topic: string) {
    exists i :: 0 <= i < |c.subscriptions| && c.subscriptions[i].topic == topic
  }

  /** The subscriptions `stateMachine` adds, numbered from `h`. */
  function NewSubs(h: Handle, topics: seq<string>): (r: seq<Sub>)
    ensures |r| == |topics|
    decreases |topics|
  {
    if topics == [] then []
    else NewSubs(h, topics[..|topics| - 1]) + [Sub(h + |topics| - 1, topics[|topics| - 1])]
  }

  lemma NewSubsSnoc(h: Handle, ts: seq<string>, t: string)
    ensures NewSubs(h, ts + [t]) == NewSubs(h, ts) + [Sub(h + |ts|, t)]
  {
    assert (ts + [t])[..|ts|] == ts;
  }

  /** Subscribing to one more topic of `ts` appends one subscription. */
  lemma NewSubsPrefix(h: Handle, ts: seq<string>, k: nat)
    requires k < |ts|
    ensures NewSubs(h, ts[..k + 1]) == NewSubs(h, ts[..k]) + [Sub(h + k, ts[k])]
  {
    assert ts[..k + 1] == ts[..k] + [ts[k]];
    NewSubsSnoc(h, ts[..k], ts[k]);
  }

  /** The `i`-th new subscription has handle `h + i` and the `i`-th topic. */
  lemma {:induction false} NewSubsAt(h: Handle, ts: seq<string>, i: nat)
    requires i < |ts|
    ensures |NewSubs(h, ts)| == |ts| && NewSubs(h, ts)[i] == Sub(h + i, ts[i])
    decreases |ts|
  {
    if i < |ts| - 1 {
      NewSubsAt(h, ts[..|ts| - 1], i);
    } else if |ts| > 1 {
      NewSubsAt(h, ts[..|ts| - 1], 0);
    }
  }

  /** The new subscriptions carry consecutive handles from `h`. */
  lemma NewSubsHandles(h: Handle, ts: seq<string>)
    ensures forall i :: 0 <= i < |ts| ==> NewSubs(h, ts)[i].handle == h + i
  {
    forall i | 0 <= i < |ts|
      ensures NewSubs(h, ts)[i].handle == h + i
    {
      NewSubsAt(h, ts, i);
    }
  }

  /** Appending fresh subscriptions keeps the table well formed. */
  lemma AppendNewSubs(prior: seq<Sub>, h: Handle, ts: seq<string>)
    requires TableOk(prior, h)
    ensures TableOk(prior + NewSubs(h, ts), h + |ts|)
  {
    var added := NewSubs(h, ts);
    NewSubsHandles(h, ts);
    var s := prior + added;
    forall i, j | 0 <= i < j < |s|
      ensures s[i].handle != s[j].handle
    {
      if j < |prior| {
        assert s[i] == prior[i] && s[j] == prior[j];
      } else if i < |prior| {
        assert s[i] == prior[i] && s[j] == added[j - |prior|];
      } else {
        assert s[i] == added[i - |prior|] && s[j] == added[j - |prior|];
      }
    }
    forall i | 0 <= i < |s|
      ensures 1 <= s[i].handle < h + |ts|
    {
      if i < |prior| {
        assert s[i] == prior[i];
      } else {
        assert s[i] == added[i - |prior|];
      }
    }
  }




  /** The unsubscriptions `destroy` performs, popping from the end. */
  function Unsubscriptions(s: seq<Sub>): seq<Effect>
    decreases |s|
  {
    if s == [] then [] else Unsubscriptions(s[1..]) + [Unsubscribe(s[0].handle)]
  }

  // The handlers, each as a reaction of the controller state.

  function OnOffline(c: Ctl): Reaction {
    Reaction(c.(offline := true), [RenderError("offline", None)])
  }

  function OnXhrError(c: Ctl): Reaction {
    Reaction(c, if c.offline then [] else [RenderError("error", Some(XhrFailure))])
  }

  function OnConfirmUser(c: Ctl, email: Option<string>): Reaction {
    Reaction(c.(confirmEmail := email),
             [CheckRegistration(email, "waitForUserValidation", "user_confirmed"), StartCheck])
  }

  function OnCancel(c: Ctl): Reaction {
    Reaction(c, if c.onsuccess.Some? then [CallOnSuccess(c.onsuccess.value, Null, c.onerror)] else [])
  }

  function OnPickEmail(c: Ctl): Reaction {
    Reaction(c, [ShowPickEmail])
  }

  function OnAuthenticate(c: Ctl, info: AuthInfo): Reaction {
    Reaction(c, [ShowAuthenticate(info)])
  }

  function OnForgotPassword(c: Ctl, email: Option<string>): Reaction {
    Reaction(c, [ShowForgotPassword(email)])
  }

  function OnConfirmEmail(c: Ctl, email: Option<string>): Reaction {
    Reaction(c.(confirmEmail := email),
             [CheckRegistration(email, "waitForEmailValidation", "email_confirmed"), StartCheck])
  }

  function OnEmailConfirmed(c: Ctl): Reaction {
    Reaction(c, [RequestAssertion(c.confirmEmail, GetAssertion)])
  }

  function OnAssertionGenerated(c: Ctl, assertion: Assertion): Reaction {
    var c' := c.(onerror := None);
    Reaction(c', [if c.onsuccess.Some? then CallOnSuccess(c.onsuccess.value, assertion, c'.onerror)
                  else SuccessNotAFunction])
  }

  function OnNotMe(c: Ctl): Reaction {
    Reaction(c, [RequestLogout(LogoutUser)])
  }

  function OnSyncEmails(c: Ctl): Reaction {
    Reaction(c, [RequestSyncEmails(SignIn)])
  }

  function OnCheckAuth(c: Ctl): Reaction {
    Reaction(c, [CheckAuthAndSync(CheckAuthentication)])
  }

  /** The handler `stateMachine` subscribes for the message's topic. */
  function Deliver(c: Ctl, m: Message): Reaction {
    match m
    case Offline => OnOffline(c)
    case XhrError => Reaction(c, [])
    case UserStaged(email) => OnConfirmUser(c, email)
    case UserConfirmed => OnEmailConfirmed(c)
    case Authenticated => OnSyncEmails(c)
    case ResetPassword(email) => OnConfirmUser(c, email)
    case AssertionGenerated(a) => if a != Null then OnAssertionGenerated(c, a) else OnPickEmail(c)
    case EmailStaged(email) => OnConfirmEmail(c, email)
    case EmailConfirmed => OnEmailConfirmed(c)
    case NotMe => OnNotMe(c)
    case Auth(email) => OnAuthenticate(c, Prefill(email))
    case Start => OnCheckAuth(c)
    case Cancel => OnCancel(c)
  }

  /** The reference definition of one step: the hub only delivers a message
      when its topic has a subscription. */
  function Transition(c: Ctl, e: Event): Reaction {
    match e
    case Publish(m) => if Subscribed(c, TopicOf(m)) then Deliver(c, m) else Reaction(c, [])
    case AuthCheckDone(authenticated) => if authenticated then OnPickEmail(c) else OnAuthenticate(c, NoInfo)
    case EmailsSynced => OnPickEmail(c)
    case LoggedOut => OnAuthenticate(c, NoInfo)
    case AssertionReady(a) => OnAssertionGenerated(c, a)
  }

  /** A sequence of steps, with the effects of all of them in order. */
  function Run(c: Ctl, es: seq<Event>): Reaction
    decreases |es|
  {
    if es == [] then Reaction(c, [])
    else
      var r := Transition(c, es[0]);
      var rest := Run(r.after, es[1..]);
      Reaction(rest.after, r.effects + rest.effects)
  }

  class DialogController {
    var onsuccess: Option<Callback>
    var onerror: Option<Callback>
    var confirmEmail: Option<string>
    var offline: bool
    var subscriptions: seq<Sub>
    var nextHandle: Handle
    /** Every request made of a collaborator so far, oldest first. */
    var effects: seq<Effect>

    function Snapshot(): Ctl
      reads this
    {
      Ctl(onsuccess, onerror, confirmEmail, offline, subscriptions, nextHandle)
    }

    predicate Valid()
      reads this
    {
      WellFormed(Snapshot())
    }

    /** The controller as the dialog page loads it. */
    constructor ()
      ensures Valid()
      ensures Snapshot() == Ctl(None, None, None, false, [], 1) && effects == []
    {
      onsuccess, onerror, confirmEmail := None, None, None;
      offline := false;
      subscriptions, nextHandle := [], 1;
      effects := [];
    }

    /** `init`: resets the offline flag and both callbacks, sets up the relay
        channel and, only if that did not throw, subscribes the handlers. */
    method Init(channelReady: bool)
      requires Valid()
      modifies this
      ensures Valid()
      ensures !offline && onsuccess == None && onerror == None && confirmEmail == old(confirmEmail)
      ensures channelReady ==>
                && subscriptions == old(subscriptions) + NewSubs(old(nextHandle), Topics)
                && nextHandle == old(nextHandle) + |Topics|
                && effects == old(effects) + [SetupChannel]
      ensures !channelReady ==>
                && subscriptions == old(subscriptions) && nextHandle == old(nextHandle)
                && effects == old(effects) + [SetupChannel, RenderError("error", Some(RelaySetup))]
    {
      offline := false;
      onsuccess := None;
      onerror := None;
      effects := effects + [SetupChannel];
      if channelReady {
        ghost var c := Snapshot();
        StateMachine();
        AppendNewSubs(c.subscriptions, c.nextHandle, Topics);
      } else {
        effects := effects + [RenderError("error", Some(RelaySetup))];
      }
    }

    /** The module-level `subscribe`: registers with the hub and remembers the
        handle. */
    method Subscribe(topic: string)
      modifies this
      ensures subscriptions == old(subscriptions) + [Sub(old(nextHandle), topic)]
      ensures nextHandle == old(nextHandle) + 1
      ensures onsuccess == old(onsuccess) && onerror == old(onerror) && confirmEmail == old(confirmEmail)
      ensures offline == old(offline) && effects == old(effects)
    {
      subscriptions := subscriptions + [Sub(nextHandle, topic)];
      nextHandle := nextHandle + 1;
    }

    /** `stateMachine`: subscribes one handler per topic, in the order of
        `Topics` (which handler answers which topic is `Deliver`). */
    method StateMachine()
      modifies this
      ensures subscriptions == old(subscriptions) + NewSubs(old(nextHandle), Topics)
      ensures nextHandle == old(nextHandle) + |Topics|
      ensures onsuccess == old(onsuccess) && onerror == old(onerror) && confirmEmail == old(confirmEmail)
      ensures offline == old(offline) && effects == old(effects)
    {
      for k := 0 to |Topics|
        invariant subscriptions == old(subscriptions) + NewSubs(old(nextHandle), Topics[..k])
        invariant nextHandle == old(nextHandle) + k
        invariant onsuccess == old(onsuccess) && onerror == old(onerror) && confirmEmail == old(confirmEmail)
        invariant offline == old(offline) && effects == old(effects)
      {
        NewSubsPrefix(old(nextHandle), Topics, k);
        Subscribe(Topics[k]);
      }
      assert Topics[..|Topics|] == Topics;
    }

    /** `destroy`: pops and unsubscribes every subscription, then hands over
        to the base controller's teardown. The code loops while the popped
        handle is truthy; since `Valid()` keeps every handle at 1 or above,
        that is the same as looping until the table is empty. */
    method Destroy()
      requires Valid()
      modifies this
      ensures Valid()
      ensures subscriptions == []
      ensures effects == old(effects) + Unsubscriptions(old(subscriptions)) + [DestroyBase]
      ensures onsuccess == old(onsuccess) && onerror == old(onerror) && confirmEmail == old(confirmEmail)
      ensures offline == old(offline) && nextHandle == old(nextHandle)
    {
      while subscriptions != []
        invariant Valid()
        invariant subscriptions == old(subscriptions)[..|subscriptions|]
        invariant effects == old(effects) + Unsubscriptions(old(subscriptions)[|subscriptions|..])
        invariant onsuccess == old(onsuccess) && onerror == old(onerror) && confirmEmail == old(confirmEmail)
        invariant offline == old(offline) && nextHandle == old(nextHandle)
        decreases |subscriptions|
      {
        var n := |subscriptions|;
        var subscription := subscriptions[n - 1];
        subscriptions := subscriptions[..n - 1];
        effects := effects + [Unsubscribe(subscription.handle)];
        assert old(subscriptions)[n - 1..][1..] == old(subscriptions)[n..];
      }
      effects := effects + [DestroyBase];
    }

    /** `getVerifiedEmail`: stores both callbacks; when the browser reports
        itself offline it enters the offline state and stops there, otherwise
        it publishes the origin, starts the authentication check and binds the
        unload handler. */
    method GetVerifiedEmail(origin: string, success: Option<Callback>, failure: Option<Callback>,
                            navigatorOffline: bool)
      requires Valid()
      modifies this
      ensures Valid()
      ensures onsuccess == success && onerror == failure
      ensures confirmEmail == old(confirmEmail) && subscriptions == old(subscriptions)
      ensures nextHandle == old(nextHandle)
      ensures navigatorOffline ==> offline && effects == old(effects) + [RenderError("offline", None)]
      ensures !navigatorOffline ==>
                && offline == old(offline)
                && effects == old(effects) + [SetOrigin(origin), ShowSiteName, CheckAuthAndSync(CheckAuthentication), BindUnload]
    {
      onsuccess := success;
      onerror := failure;
      if navigatorOffline {
        DoOffline();
        return;
      }
      effects := effects + [SetOrigin(origin), ShowSiteName];
      DoCheckAuth();
      effects := effects + [BindUnload];
    }

    /** Delivers one event to the controller. */
    method Step(e: Event)
      requires Valid()
      modifies this
      ensures Valid()
      ensures Snapshot() == Transition(old(Snapshot()), e).after
      ensures effects == old(effects) + Transition(old(Snapshot()), e).effects
    {
      match e
      case Publish(m) =>
        if exists i :: 0 <= i < |subscriptions| && subscriptions[i].topic == TopicOf(m) {
          match m
          case Offline => DoOffline();
          case XhrError =>
          case UserStaged(email) => DoConfirmUser(email);
          case UserConfirmed => DoEmailConfirmed();
          case Authenticated => SyncEmails();
          case ResetPassword(email) => DoConfirmUser(email);
          case AssertionGenerated(a) =>
            if a != Null {
              DoAssertionGenerated(a);
            } else {
              DoPickEmail();
            }
          case EmailStaged(email) => DoConfirmEmail(email);
          case EmailConfirmed => DoEmailConfirmed();
          case NotMe => DoNotMe();
          case Auth(email) => DoAuthenticate(Prefill(email));
          case Start => DoCheckAuth();
          case Cancel => DoCancel();
        }
      case AuthCheckDone(authenticated) =>
        if authenticated {
          DoPickEmail();
        } else {
          DoAuthenticate(NoInfo);
        }
      case EmailsSynced => DoPickEmail();
      case LoggedOut => DoAuthenticate(NoInfo);
      case AssertionReady(a) => DoAssertionGenerated(a);
    }

    method DoOffline()
      modifies this
      ensures Snapshot() == OnOffline(old(Snapshot())).after
      ensures effects == old(effects) + OnOffline(old(Snapshot())).effects
    {
      effects := effects + [RenderError("offline", None)];
      offline := true;
    }

    method DoXHRError()
      modifies this
      ensures Snapshot() == OnXhrError(old(Snapshot())).after
      ensures effects == old(effects) + OnXhrError(old(Snapshot())).effects
    {
      if !offline {
        effects := effects + [RenderError("error", Some(XhrFailure))];
      }
    }

    method DoConfirmUser(email: Option<string>)
      modifies this
      ensures Snapshot() == OnConfirmUser(old(Snapshot()), email).after
      ensures effects == old(effects) + OnConfirmUser(old(Snapshot()), email).effects
    {
      confirmEmail := email;
      effects := effects + [CheckRegistration(email, "waitForUserValidation", "user_confirmed")];
      effects := effects + [StartCheck];
    }

    method DoCancel()
      modifies this
      ensures Snapshot() == OnCancel(old(Snapshot())).after
      ensures effects == old(effects) + OnCancel(old(Snapshot())).effects
    {
      if onsuccess.Some? {
        effects := effects + [CallOnSuccess(onsuccess.value, Null, onerror)];
      }
    }

    method DoPickEmail()
      modifies this
      ensures Snapshot() == OnPickEmail(old(Snapshot())).after
      ensures effects == old(effects) + OnPickEmail(old(Snapshot())).effects
    {
      effects := effects + [ShowPickEmail];
    }

    method DoAuthenticate(info: AuthInfo)
      modifies this
      ensures Snapshot() == OnAuthenticate(old(Snapshot()), info).after
      ensures effects == old(effects) + OnAuthenticate(old(Snapshot()), info).effects
    {
      effects := effects + [ShowAuthenticate(info)];
    }

    method DoForgotPassword(email: Option<string>)
      modifies this
      ensures Snapshot() == OnForgotPassword(old(Snapshot()), email).after
      ensures effects == old(effects) + OnForgotPassword(old(Snapshot()), email).effects
    {
      effects := effects + [ShowForgotPassword(email)];
    }

    method DoConfirmEmail(email: Option<string>)
      modifies this
      ensures Snapshot() == OnConfirmEmail(old(Snapshot()), email).after
      ensures effects == old(effects) + OnConfirmEmail(old(Snapshot()), email).effects
    {
      confirmEmail := email;
      effects := effects + [CheckRegistration(email, "waitForEmailValidation", "email_confirmed")];
      effects := effects + [StartCheck];
    }

    method DoEmailConfirmed()
      modifies this
      ensures Snapshot() == OnEmailConfirmed(old(Snapshot())).after
      ensures effects == old(effects) + OnEmailConfirmed(old(Snapshot())).effects
    {
      effects := effects + [RequestAssertion(confirmEmail, GetAssertion)];
    }

    /** Clears `onerror` and only then calls `onsuccess`: the call records the
        `onerror` held at that moment. */
    method DoAssertionGenerated(assertion: Assertion)
      modifies this
      ensures Snapshot() == OnAssertionGenerated(old(Snapshot()), assertion).after
      ensures effects == old(effects) + OnAssertionGenerated(old(Snapshot()), assertion).effects
    {
      onerror := None;
      if onsuccess.Some? {
        effects := effects + [CallOnSuccess(onsuccess.value, assertion, onerror)];
      } else {
        effects := effects + [SuccessNotAFunction];
      }
    }

    method DoNotMe()
      modifies this
      ensures Snapshot() == OnNotMe(old(Snapshot())).after
      ensures effects == old(effects) + OnNotMe(old(Snapshot())).effects
    {
      effects := effects + [RequestLogout(LogoutUser)];
    }

    method SyncEmails()
      modifies this
      ensures Snapshot() == OnSyncEmails(old(Snapshot())).after
      ensures effects == old(effects) + OnSyncEmails(old(Snapshot())).effects
    {
      effects := effects + [RequestSyncEmails(SignIn)];
    }

    method DoCheckAuth()
      modifies this
      ensures Snapshot() == OnCheckAuth(old(Snapshot())).after
      ensures effects == old(effects) + OnCheckAuth(old(Snapshot())).effects
    {
      effects := effects + [CheckAuthAndSync(CheckAuthentication)];
    }
  }

  // Properties of the specification.

  /** What delivering any message to its handler can and cannot change. */
  lemma DeliverFacts(c: Ctl, m: Message)
    ensures Deliver(c, m).after.subscriptions == c.subscriptions
    ensures Deliver(c, m).after.nextHandle == c.nextHandle
    ensures c.offline ==> Deliver(c, m).after.offline
    ensures SuccessAfterErrorCleared(Deliver(c, m).effects)
    ensures Deliver(c, m).after.confirmEmail == c.confirmEmail
            || ((m.UserStaged? || m.ResetPassword? || m.EmailStaged?) && m.email == Deliver(c, m).after.confirmEmail)
    ensures forall x :: x in Deliver(c, m).effects && x.RequestAssertion? ==> x.email == c.confirmEmail
  {
    match m
    case Offline =>
    case XhrError =>
    case UserStaged(_) =>
    case UserConfirmed =>
    case Authenticated =>
    case ResetPassword(_) =>
    case AssertionGenerated(_) =>
    case EmailStaged(_) =>
    case EmailConfirmed =>
    case NotMe =>
    case Auth(_) =>
    case Start =>
    case Cancel =>
  }

  /** One step keeps the subscription table and the offline state, and a
      non-null result it hands to `onsuccess` finds `onerror` cleared. */
  lemma TransitionKeepsTable(c: Ctl, e: Event)
    ensures Transition(c, e).after.subscriptions == c.subscriptions
    ensures Transition(c, e).after.nextHandle == c.nextHandle
    ensures c.offline ==> Transition(c, e).after.offline
    ensures SuccessAfterErrorCleared(Transition(c, e).effects)
  {
    if e.Publish? && Subscribed(c, TopicOf(e.message)) {
      DeliverFacts(c, e.message);
    }
  }

  /** Every non-null result reaches `onsuccess` only once `onerror` has been
      cleared. */
  predicate SuccessAfterErrorCleared(effs: seq<Effect>) {
    forall x :: x in effs && x.CallOnSuccess? && x.result != Null ==> x.onerrorAtCall == None
  }

  /** Over any run, `onsuccess` never receives a non-null result while an
      `onerror` is still set. */
  lemma {:induction false} NoErrorCallbackAtSuccess(c: Ctl, es: seq<Event>)
    ensures SuccessAfterErrorCleared(Run(c, es).effects)
    decreases |es|
  {
    if es != [] {
      var r := Transition(c, es[0]);
      NoErrorCallbackAtSuccess(r.after, es[1..]);
      var rest := Run(r.after, es[1..]);
      TransitionKeepsTable(c, es[0]);
    }
  }

  /** Messages that can change which email awaits confirmation. */
  predicate Stages(e: Event) {
    e.Publish? && (e.message.UserStaged? || e.message.ResetPassword? || e.message.EmailStaged?)
  }

  /** One step only changes the email awaiting confirmation to the email of
      a staging message, and requests assertions for the email it held. */
  lemma StepStaging(c: Ctl, e: Event)
    ensures Transition(c, e).after.confirmEmail == c.confirmEmail
            || (Stages(e) && e.message.email == Transition(c, e).after.confirmEmail)
    ensures forall x :: x in Transition(c, e).effects && x.RequestAssertion? ==> x.email == c.confirmEmail
  {
    if e.Publish? && Subscribed(c, TopicOf(e.message)) {
      DeliverFacts(c, e.message);
    }
  }

  /** The email awaiting confirmation is either the one held before the run or
      the email of one of the run's staging messages. */
  predicate FromRun(email: Option<string>, c: Ctl, es: seq<Event>) {
    email == c.confirmEmail || exists j :: 0 <= j < |es| && Stages(es[j]) && es[j].message.email == email
  }

  /** Assertions are only ever requested for the email remembered when the
      account or address was staged (or the one held before the run). */
  lemma {:induction false} AssertionOnlyForStagedEmail(c: Ctl, es: seq<Event>)
    ensures FromRun(Run(c, es).after.confirmEmail, c, es)
    ensures forall x :: x in Run(c, es).effects && x.RequestAssertion? ==> FromRun(x.email, c, es)
    decreases |es|
  {
    if es != [] {
      var r := Transition(c, es[0]);
      AssertionOnlyForStagedEmail(r.after, es[1..]);
      StepStaging(c, es[0]);
      forall email | FromRun(email, r.after, es[1..])
        ensures FromRun(email, c, es)
      {
        if email != r.after.confirmEmail {
          var j :| 0 <= j < |es[1..]| && Stages(es[1..][j]) && es[1..][j].message.email == email;
          assert es[j + 1] == es[1..][j];
        }
      }
    }
  }


  /** A run of events never changes the subscription table, and once offline
      the controller stays offline until the next `init`. */
  lemma {:induction false} RunKeepsSubscriptions(c: Ctl, es: seq<Event>)
    ensures Run(c, es).after.subscriptions == c.subscriptions
    ensures Run(c, es).after.nextHandle == c.nextHandle
    ensures c.offline ==> Run(c, es).after.offline
    decreases |es|
  {
    if es != [] {
      TransitionKeepsTable(c, es[0]);
      RunKeepsSubscriptions(Transition(c, es[0]).after, es[1..]);
    }
  }

  /** With no subscriptions left (after `destroy`), hub messages have no
      effect at all. */
  lemma {:induction false} UnsubscribedIgnoresMessages(c: Ctl, es: seq<Event>)
    requires c.subscriptions == []
    requires forall i :: 0 <= i < |es| ==> es[i].Publish?
    ensures Run(c, es) == Reaction(c, [])
    decreases |es|
  {
    if es != [] {
      assert Transition(c, es[0]) == Reaction(c, []);
      UnsubscribedIgnoresMessages(c, es[1..]);
    }
  }

  /** `destroy` unsubscribes every handle it held, once each. */
  lemma {:induction false} UnsubscribesEvery(s: seq<Sub>)
    ensures |Unsubscriptions(s)| == |s|
    ensures forall i :: 0 <= i < |s| ==> Unsubscriptions(s)[|s| - 1 - i] == Unsubscribe(s[i].handle)
    decreases |s|
  {
    if s != [] {
      UnsubscribesEvery(s[1..]);
      forall i | 0 <= i < |s|
        ensures Unsubscriptions(s)[|s| - 1 - i] == Unsubscribe(s[i].handle)
      {
        if i > 0 {
          assert s[1..][i - 1] == s[i];
        }
      }
    }
  }

  /** Where a message's topic sits in the order of `stateMachine`. */
  function TopicIndex(m: Message): (i: nat)
    ensures i < |Topics| && Topics[i] == TopicOf(m)
  {
    match m
    case Offline => 0
    case XhrError => 1
    case UserStaged(_) => 2
    case UserConfirmed => 3
    case Authenticated => 4
    case ResetPassword(_) => 5
    case AssertionGenerated(_) => 6
    case EmailStaged(_) => 7
    case EmailConfirmed => 8
    case NotMe => 9
    case Auth(_) => 10
    case Start => 11
    case Cancel => 12
  }

  /** After `stateMachine` has appended its subscriptions, every message the
      controller handles has a subscription for its topic. */
  lemma SubscribedAfterStateMachine(c: Ctl, before: seq<Sub>, h: Handle, m: Message)
    requires c.subscriptions == before + NewSubs(h, Topics)
    ensures Subscribed(c, TopicOf(m))
  {
    var i := TopicIndex(m);
    NewSubsAt(h, Topics, i);
    assert c.subscriptions[|before| + i].topic == TopicOf(m);
  }

  /** `user_staged` and `reset_password` remember the email and start
      polling for the user's confirmation; `email_staged` does so for a new
      address. */
  lemma StagingRemembersEmail(c: Ctl, m: Message)
    requires m.UserStaged? || m.ResetPassword? || m.EmailStaged?
    requires Subscribed(c, TopicOf(m))
    ensures Transition(c, Publish(m)).after == c.(confirmEmail := m.email)
    ensures !m.EmailStaged? ==>
              (Transition(c, Publish(m)).effects ==
               [CheckRegistration(m.email, "waitForUserValidation", "user_confirmed"), StartCheck])
    ensures m.EmailStaged? ==>
              (Transition(c, Publish(m)).effects ==
               [CheckRegistration(m.email, "waitForEmailValidation", "email_confirmed"), StartCheck])
  {
  }

  /** `user_confirmed` and `email_confirmed` request an assertion for exactly
      the remembered email, and change nothing. */
  lemma ConfirmedRequestsAssertion(c: Ctl, m: Message)
    requires m.UserConfirmed? || m.EmailConfirmed?
    requires Subscribed(c, TopicOf(m))
    ensures Transition(c, Publish(m)) == Reaction(c, [RequestAssertion(c.confirmEmail, GetAssertion)])
  {
  }

  /** A non-null `assertion_generated` clears `onerror` and hands the
      assertion to `onsuccess`; a null one goes back to picking an email and
      calls neither callback. */
  lemma AssertionGeneratedOutcome(c: Ctl, a: Assertion)
    requires Subscribed(c, "assertion_generated")
    ensures a != Null && c.onsuccess.Some? ==>
              (Transition(c, Publish(AssertionGenerated(a))) ==
               Reaction(c.(onerror := None), [CallOnSuccess(c.onsuccess.value, a, None)]))
    ensures a == Null ==> Transition(c, Publish(AssertionGenerated(a))) == Reaction(c, [ShowPickEmail])
  {
  }

  /** `cancel` calls `onsuccess(null)` exactly when `onsuccess` is set, once,
      and does nothing otherwise. */
  lemma CancelCallsSuccessIffSet(c: Ctl)
    requires Subscribed(c, "cancel")
    ensures Transition(c, Publish(Cancel)).after == c
    ensures c.onsuccess.Some? <==> Transition(c, Publish(Cancel)).effects != []
    ensures c.onsuccess.Some? ==>
              Transition(c, Publish(Cancel)).effects == [CallOnSuccess(c.onsuccess.value, Null, c.onerror)]
  {
  }

  /** The error panel of `doXHRError` appears only while not offline, and
      never after `doOffline`. */
  lemma XhrErrorSuppressedOffline(c: Ctl)
    ensures OnXhrError(c).effects != [] <==> !c.offline
    ensures OnXhrError(OnOffline(c).after).effects == []
  {
  }

  /** The authentication check routes to picking an email when signed in and
      to authentication otherwise. */
  lemma CheckAuthRouting(c: Ctl, authenticated: bool)
    ensures Transition(c, AuthCheckDone(authenticated)).after == c
    ensures authenticated ==> Transition(c, AuthCheckDone(authenticated)).effects == [ShowPickEmail]
    ensures !authenticated ==> Transition(c, AuthCheckDone(authenticated)).effects == [ShowAuthenticate(NoInfo)]
  {
  }

  /** Staging then confirming a user requests an assertion for the staged
      email. */
  lemma StageThenConfirm(c: Ctl, email: string)
    requires Subscribed(c, "user_staged") && Subscribed(c, "user_confirmed")
    ensures Run(c, [Publish(UserStaged(Some(email))), Publish(UserConfirmed)]) ==
              Reaction(c.(confirmEmail := Some(email)),
                       [CheckRegistration(Some(email), "waitForUserValidation", "user_confirmed"), StartCheck,
                        RequestAssertion(Some(email), GetAssertion)])
  {
    var es := [Publish(UserStaged(Some(email))), Publish(UserConfirmed)];
    var c' := c.(confirmEmail := Some(email));
    var i :| 0 <= i < |c.subscriptions| && c.subscriptions[i].topic == "user_confirmed";
    assert c'.subscriptions[i].topic == "user_confirmed";
    assert Transition(c, es[0]) == OnConfirmUser(c, Some(email));
    assert Transition(c', es[1]) == OnEmailConfirmed(c');
    assert es[1..][1..] == [];
    assert Run(c', es[1..]) == Reaction(c', [RequestAssertion(Some(email), GetAssertion)]);
  }

  /** Steps preserve the well-formedness of the subscription table. */
  lemma TransitionWellFormed(c: Ctl, e: Event)
    requires WellFormed(c)
    ensures WellFormed(Transition(c, e).after)
  {
    TransitionKeepsTable(c, e);
  }
}
