/**
 * The authentication context: the cells `user`, `session`, `profile` and
 * `loading`, the profile load with its create-on-error fallback, profile
 * creation, the session handlers, sign-up, sign-out, and the three payment
 * subscription calls. Every backend answer is an input of the step that
 * awaits it; the requests the code sends are returned as values.
 */
module AuthContext {
  import opened Common
  import opened Records

  /** The row `createProfile` inserts. */
  datatype NewProfile = NewProfile(
    userId: string,
    email: Option<string>,
    fullName: string,
    tier: Tier,
    notesCount: int,
    status: SubscriptionStatus)

  /** How an awaited operation ends: normally, or by throwing an error with a message. */
  datatype Status = Done | Failed(message: string)

  /** A JSON field of a request body. */
  datatype BodyField = BodyField(name: string, value: string)

  /** A POST to one of the payment endpoints, with the session's bearer token. */
  datatype ApiRequest = ApiRequest(endpoint: string, bearer: string, body: Option<BodyField>)

  /** The parts of a `fetch` response the code reads. */
  datatype HttpResponse = HttpResponse(ok: bool, message: Option<string>, approvalUrl: string)

  const NoSessionMessage: string := "No active session"
  const NoSubscriptionMessage: string := "No active subscription found"
  const CreateEndpoint: string := "/api/create-paypal-subscription"
  const CompleteEndpoint: string := "/api/complete-paypal-subscription"
  const CancelEndpoint: string := "/api/cancel-paypal-subscription"

  /** `errorData.message || fallback`. */
  function ErrorText(message: Option<string>, fallback: string): (r: string)
    ensures Truthy(message) ==> r == message.value
    ensures !Truthy(message) ==> r == fallback
  {
    if Truthy(message) then message.value else fallback
  }

  /** `session?.user ?? null`. */
  function SessionUser(s: Option<Session>): (u: Option<User>)
    ensures u.Some? <==> s.Some?
    ensures s.Some? ==> u.value == s.value.user
  {
    if s.Some? then Some(s.value.user) else None
  }

  /** The fallback creation needs a user value with a non-empty email and a non-empty full name. */
  predicate CanCreate(renderUser: Option<User>)
  {
    renderUser.Some? && Truthy(renderUser.value.email) && Truthy(renderUser.value.fullName)
  }

  /** The defaults of a newly created profile: free tier, no notes, active. */
  predicate HasDefaults(p: NewProfile)
  {
    p.tier == Free && p.notesCount == 0 && p.status == Active
  }

  /**
   * The effect of `loadProfile` with the user value its closure sees
   * (`renderUser`). A fetched row replaces the profile. On any fetch error,
   * a profile for `renderUser` is created when it has an email and a full
   * name: the inserted row then replaces the profile, or the insert error is
   * rethrown with the profile unchanged. Without both, the error is swallowed
   * and the profile is unchanged.
   */
  ghost predicate Reloaded(before: Option<Profile>, after: Option<Profile>, created: Option<NewProfile>, status: Status,
                           renderUser: Option<User>, fetched: Fetch<Profile>, inserted: Fetch<Profile>)
  {
    && (fetched.Ok? ==> after == Some(fetched.value) && created.None? && status == Done)
    && (fetched.Err? && !CanCreate(renderUser) ==> after == before && created.None? && status == Done)
    && (fetched.Err? && CanCreate(renderUser) ==>
          && created == Some(NewProfile(renderUser.value.id, renderUser.value.email, renderUser.value.fullName.value,
                                        Free, 0, Active))
          && (inserted.Ok? ==> after == Some(inserted.value) && status == Done)
          && (inserted.Err? ==> after == before && status == Failed(inserted.message)))
  }

  /**
   * The closure the session effect captures sees the first render's `user`,
   * which is null: through that closure a failed lookup never creates a
   * profile, never throws, and leaves the profile as it was.
   */
  lemma FirstRenderReloadNeverCreates(before: Option<Profile>, after: Option<Profile>, created: Option<NewProfile>,
                                      status: Status, fetched: Fetch<Profile>, inserted: Fetch<Profile>)
    requires Reloaded(before, after, created, status, None, fetched, inserted)
    ensures created.None? && status == Done
    ensures fetched.Err? ==> after == before
  {
  }

  class AuthProvider {
    var user: Option<User>
    var session: Option<Session>
    var profile: Option<Profile>
    var loading: bool

    /** `user` is always the session's user. */
    predicate Valid()
      reads this
    {
      user == SessionUser(session)
    }

    constructor ()
      ensures Valid()
      ensures user.None? && session.None? && profile.None? && loading
    {
      user, session, profile, loading := None, None, None, true;
    }

    /** The provider renders its children only once loading has ended. */
    predicate RendersChildren()
      reads this
    {
      !loading
    }

    /**
     * `createProfile`: inserts a row for the given user with the defaults;
     * the returned row becomes the profile, or the error is rethrown and the
     * profile is unchanged.
     */
    method CreateProfile(userId: string, email: Option<string>, fullName: string, inserted: Fetch<Profile>)
      returns (request: NewProfile, status: Status)
      modifies this`profile
      ensures request.userId == userId && request.email == email && request.fullName == fullName
      ensures HasDefaults(request)
      ensures inserted.Ok? ==> profile == Some(inserted.value) && status == Done
      ensures inserted.Err? ==> profile == old(profile) && status == Failed(inserted.message)
    {
      request := NewProfile(userId, email, fullName, Free, 0, Active);
      match inserted {
        case Ok(row) =>
          profile := Some(row);
          status := Done;
        case Err(message) =>
          status := Failed(message);
      }
    }

    /**
     * `loadProfile(userId)`: the lookup is keyed by `user_id = userId`
     * (returned in `lookup`) and `fetched` is its answer; `renderUser` is the
     * `user` value of the render whose closure runs. The fallback creates the
     * profile for `renderUser`, not for `userId`.
     */
    method LoadProfile(userId: string, renderUser: Option<User>, fetched: Fetch<Profile>, inserted: Fetch<Profile>)
      returns (lookup: string, created: Option<NewProfile>, status: Status)
      modifies this`profile
      ensures lookup == userId
      ensures Reloaded(old(profile), profile, created, status, renderUser, fetched, inserted)
    {
      lookup, created, status := userId, None, Done;
      match fetched {
        case Ok(row) =>
          profile := Some(row);
        case Err(_) =>
          if CanCreate(renderUser) {
            var request;
            request, status := CreateProfile(renderUser.value.id, renderUser.value.email,
                                             renderUser.value.fullName.value, inserted);
            created := Some(request);
          }
      }
    }

    /**
     * The first session lookup: the session and its user are stored, the
     * profile is loaded when there is a user (not awaited), and loading ends
     * regardless. Without a session the profile is left as it is.
     */
    method InitialSession(s: Option<Session>, renderUser: Option<User>, fetched: Fetch<Profile>, inserted: Fetch<Profile>)
      returns (lookup: Option<string>, created: Option<NewProfile>, status: Status)
      modifies this
      ensures lookup.Some? <==> s.Some?
      ensures lookup.Some? ==> lookup.value == s.value.user.id
      ensures Valid() && session == s && !loading
      ensures s.None? ==> profile == old(profile) && created.None? && status == Done
      ensures s.Some? ==> Reloaded(old(profile), profile, created, status, renderUser, fetched, inserted)
    {
      session := s;
      user := SessionUser(s);
      lookup, created, status := None, None, Done;
      if s.Some? {
        var key;
        key, created, status := LoadProfile(s.value.user.id, renderUser, fetched, inserted);
        lookup := Some(key);
      }
      loading := false;
    }

    /**
     * The auth-change handler: the session and its user are stored; with a
     * user the profile is reloaded (awaited), without one it is cleared.
     * Loading ends, unless the awaited reload threw, which skips the rest.
     */
    method AuthChange(s: Option<Session>, renderUser: Option<User>, fetched: Fetch<Profile>, inserted: Fetch<Profile>)
      returns (lookup: Option<string>, created: Option<NewProfile>, status: Status)
      modifies this
      ensures lookup.Some? <==> s.Some?
      ensures lookup.Some? ==> lookup.value == s.value.user.id
      ensures Valid() && session == s
      ensures s.None? ==> profile.None? && !loading && created.None? && status == Done
      ensures s.Some? ==> Reloaded(old(profile), profile, created, status, renderUser, fetched, inserted)
      ensures s.Some? ==> loading == (status.Failed? && old(loading))
    {
      session := s;
      user := SessionUser(s);
      lookup, created, status := None, None, Done;
      if s.Some? {
        var key;
        key, created, status := LoadProfile(s.value.user.id, renderUser, fetched, inserted);
        lookup := Some(key);
        if status.Failed? {
          return;
        }
      } else {
        profile := None;
      }
      loading := false;
    }

    /**
     * `signUp`: on success, when the provider returns a user, a profile is
     * created for it with the given full name; any error is rethrown.
     */
    method SignUp(fullName: string, signedUp: Fetch<Option<User>>, inserted: Fetch<Profile>)
      returns (created: Option<NewProfile>, status: Status)
      modifies this`profile
      ensures signedUp.Err? ==> profile == old(profile) && created.None? && status == Failed(signedUp.message)
      ensures signedUp.Ok? && signedUp.value.None? ==> profile == old(profile) && created.None? && status == Done
      ensures signedUp.Ok? && signedUp.value.Some? ==>
        && created == Some(NewProfile(signedUp.value.value.id, signedUp.value.value.email, fullName, Free, 0, Active))
        && (inserted.Ok? ==> profile == Some(inserted.value) && status == Done)
        && (inserted.Err? ==> profile == old(profile) && status == Failed(inserted.message))
    {
      created, status := None, Done;
      match signedUp {
        case Err(message) =>
          status := Failed(message);
        case Ok(u) =>
          if u.Some? {
            var request;
            request, status := CreateProfile(u.value.id, u.value.email, fullName, inserted);
            created := Some(request);
          }
      }
    }

    /**
     * `signOut`: on success the profile is cleared (the user and session are
     * cleared by the auth-change event that follows); on error nothing changes.
     */
    method SignOut(signOutError: Option<string>) returns (status: Status)
      modifies this`profile
      ensures signOutError.Some? ==> profile == old(profile) && status == Failed(signOutError.value)
      ensures signOutError.None? ==> profile.None? && status == Done
    {
      if signOutError.Some? {
        return Failed(signOutError.value);
      }
      profile := None;
      status := Done;
    }

    /**
     * `createPayPalSubscription`: no request without a session; otherwise the
     * request is sent and a non-ok response fails with the server's message
     * (or a fallback), an ok one yields the approval URL.
     */
    method CreatePayPalSubscription(response: HttpResponse) returns (request: Option<ApiRequest>, result: Fetch<string>)
      ensures session.None? ==> request.None? && result == Err(NoSessionMessage)
      ensures session.Some? ==> request == Some(ApiRequest(CreateEndpoint, session.value.accessToken, None))
      ensures session.Some? && !response.ok ==>
        result == Err(ErrorText(response.message, "Failed to create PayPal subscription"))
      ensures session.Some? && response.ok ==> result == Ok(response.approvalUrl)
    {
      if session.None? {
        return None, Err(NoSessionMessage);
      }
      request := Some(ApiRequest(CreateEndpoint, session.value.accessToken, None));
      if !response.ok {
        return request, Err(ErrorText(response.message, "Failed to create PayPal subscription"));
      }
      result := Ok(response.approvalUrl);
    }

    /**
     * `handlePayPalApproval(subscriptionID)`: no request without a session;
     * a non-ok response fails without touching the profile; an ok one reloads
     * the profile when there is a user, and a reload that throws fails the call.
     */
    method HandlePayPalApproval(subscriptionID: string, response: HttpResponse,
                                fetched: Fetch<Profile>, inserted: Fetch<Profile>)
      returns (request: Option<ApiRequest>, lookup: Option<string>, created: Option<NewProfile>, status: Status)
      modifies this`profile
      ensures lookup.Some? <==> request.Some? && response.ok && user.Some?
      ensures lookup.Some? ==> lookup.value == user.value.id
      ensures session.None? ==>
        request.None? && profile == old(profile) && created.None? && status == Failed(NoSessionMessage)
      ensures session.Some? ==>
        request == Some(ApiRequest(CompleteEndpoint, session.value.accessToken,
                                   Some(BodyField("subscriptionID", subscriptionID))))
      ensures session.Some? && !response.ok ==>
        profile == old(profile) && created.None?
        && status == Failed(ErrorText(response.message, "Failed to complete PayPal subscription"))
      ensures session.Some? && response.ok && user.None? ==> profile == old(profile) && created.None? && status == Done
      ensures session.Some? && response.ok && user.Some? ==>
        Reloaded(old(profile), profile, created, status, user, fetched, inserted)
    {
      lookup, created := None, None;
      if session.None? {
        return None, None, None, Failed(NoSessionMessage);
      }
      request := Some(ApiRequest(CompleteEndpoint, session.value.accessToken,
                                 Some(BodyField("subscriptionID", subscriptionID))));
      if !response.ok {
        return request, None, None, Failed(ErrorText(response.message, "Failed to complete PayPal subscription"));
      }
      status := Done;
      if user.Some? {
        var key;
        key, created, status := LoadProfile(user.value.id, user, fetched, inserted);
        lookup := Some(key);
      }
    }

    /**
     * `cancelPayPalSubscription`: no request without a session, then none
     * without a subscription id on the profile; otherwise that id is sent, a
     * non-ok response fails without touching the profile, and an ok one
     * reloads the profile when there is a user.
     */
    method CancelPayPalSubscription(response: HttpResponse, fetched: Fetch<Profile>, inserted: Fetch<Profile>)
      returns (request: Option<ApiRequest>, lookup: Option<string>, created: Option<NewProfile>, status: Status)
      modifies this`profile
      ensures lookup.Some? <==> request.Some? && response.ok && user.Some?
      ensures lookup.Some? ==> lookup.value == user.value.id
      ensures session.None? ==>
        request.None? && profile == old(profile) && created.None? && status == Failed(NoSessionMessage)
      ensures session.Some? && !(old(profile).Some? && Truthy(old(profile).value.paypalSubscriptionId)) ==>
        request.None? && profile == old(profile) && created.None? && status == Failed(NoSubscriptionMessage)
      ensures session.Some? && old(profile).Some? && Truthy(old(profile).value.paypalSubscriptionId) ==> request.Some?
      ensures request.Some? ==>
        && session.Some? && old(profile).Some? && Truthy(old(profile).value.paypalSubscriptionId)
        && request.value == ApiRequest(CancelEndpoint, session.value.accessToken,
                                       Some(BodyField("subscriptionId", old(profile).value.paypalSubscriptionId.value)))
      ensures request.Some? && !response.ok ==>
        profile == old(profile) && created.None?
        && status == Failed(ErrorText(response.message, "Failed to cancel subscription"))
      ensures request.Some? && response.ok && user.None? ==> profile == old(profile) && created.None? && status == Done
      ensures request.Some? && response.ok && user.Some? ==>
        Reloaded(old(profile), profile, created, status, user, fetched, inserted)
    {
      lookup, created := None, None;
      if session.None? {
        return None, None, None, Failed(NoSessionMessage);
      }
      if !(profile.Some? && Truthy(profile.value.paypalSubscriptionId)) {
        return None, None, None, Failed(NoSubscriptionMessage);
      }
      request := Some(ApiRequest(CancelEndpoint, session.value.accessToken,
                                 Some(BodyField("subscriptionId", profile.value.paypalSubscriptionId.value))));
      if !response.ok {
        return request, None, None, Failed(ErrorText(response.message, "Failed to cancel subscription"));
      }
      status := Done;
      if user.Some? {
        var key;
        key, created, status := LoadProfile(user.value.id, user, fetched, inserted);
        lookup := Some(key);
      }
    }
  }
}
