// The user hook: the signed-in user's record, fetched from the API with its
// nested `userAttributes` flattened, the profile update, and the
// onboarding flag. The user id from the session token and every API
// outcome are given as values; the API requests made are recorded.
module UseUser {
  import opened Wrappers

  datatype ProfessionalRole = ProfessionalRole(description: string, level: string)

  datatype UserAttributes = UserAttributes(professionalRoles: Option<seq<ProfessionalRole>>,
                                           genres: Option<seq<string>>, mostInterestedIn: Option<seq<string>>)

  /** The API's `UserData`; an absent key is `None`. */
  datatype ApiUser = ApiUser(id: Option<string>, descopeId: Option<string>, descopeLoginIds: Option<seq<string>>,
                             uploadsRemaining: Option<int>, isSuperUser: Option<bool>, isOnboarded: Option<bool>,
                             userAttributes: Option<UserAttributes>)

  /** The hook's flattened `UserData`. */
  datatype UserData = UserData(id: Option<string>, descopeId: Option<string>, descopeLoginIds: Option<seq<string>>,
                               uploadsRemaining: Option<int>, isSuperUser: Option<bool>,
                               professionalRoles: Option<seq<ProfessionalRole>>, genres: Option<seq<string>>,
                               mostInterestedIn: Option<seq<string>>, isOnboarded: Option<bool>)

  /** The initial record: every field undefined except an empty descope id and login list. */
  const InitialData: UserData := UserData(None, Some(""), Some([]), None, None, None, None, None, None)

  /** The body of a profile update: the three attribute lists, nested again. */
  datatype UpdateRequest = UpdateRequest(professionalRoles: Option<seq<ProfessionalRole>>,
                                         genres: Option<seq<string>>, mostInterestedIn: Option<seq<string>>)

  datatype ApiCall = GetUser | UpdateUser(body: UpdateRequest) | SetOnboardingStatus

  /** `{ ...prev, ...fromApi }` for one key: a key the response carries wins. */
  function Spread<T>(prev: Option<T>, fromApi: Option<T>): (r: Option<T>)
    ensures fromApi.Some? ==> r == fromApi
    ensures fromApi.None? ==> r == prev
  {
    if fromApi.Some? then fromApi else prev
  }

  /** `userAttributes?.key || []`: a present list, possibly empty, or the empty list. */
  function ListOrEmpty<T>(attrs: Option<UserAttributes>, get: UserAttributes -> Option<seq<T>>): (r: seq<T>)
    ensures attrs.Some? && get(attrs.value).Some? ==> r == get(attrs.value).value
    ensures attrs.None? || get(attrs.value).None? ==> r == []
  {
    if attrs.Some? && get(attrs.value).Some? then get(attrs.value).value else []
  }

  /**
   * The `setUserData` updater after a fetch: the response's keys over the
   * previous record, each attribute list lifted out (empty when missing),
   * and `isOnboarded` taken from the response even when it is absent.
   */
  function Flatten(prev: UserData, api: ApiUser): (r: UserData)
    ensures r.professionalRoles.Some? && r.genres.Some? && r.mostInterestedIn.Some?
    ensures r.isOnboarded == api.isOnboarded
    ensures r.id == Spread(prev.id, api.id) && r.descopeId == Spread(prev.descopeId, api.descopeId)
    ensures r.descopeLoginIds == Spread(prev.descopeLoginIds, api.descopeLoginIds)
    ensures r.uploadsRemaining == Spread(prev.uploadsRemaining, api.uploadsRemaining)
    ensures r.isSuperUser == Spread(prev.isSuperUser, api.isSuperUser)
  {
    UserData(Spread(prev.id, api.id), Spread(prev.descopeId, api.descopeId),
             Spread(prev.descopeLoginIds, api.descopeLoginIds), Spread(prev.uploadsRemaining, api.uploadsRemaining),
             Spread(prev.isSuperUser, api.isSuperUser),
             Some(ListOrEmpty(api.userAttributes, (a: UserAttributes) => a.professionalRoles)),
             Some(ListOrEmpty(api.userAttributes, (a: UserAttributes) => a.genres)),
             Some(ListOrEmpty(api.userAttributes, (a: UserAttributes) => a.mostInterestedIn)),
             api.isOnboarded)
  }

  /** `data.professionalRoles` and the other two lists, nested for the API. */
  function UpdateBody(data: UserData): UpdateRequest
  {
    UpdateRequest(data.professionalRoles, data.genres, data.mostInterestedIn)
  }

  /** A user id is present: `getUserId()` returned a non-empty string. */
  predicate SignedIn(userId: Option<string>)
  {
    userId.Some? && userId.value != ""
  }

  /** Fetching after flattening: the record read back flattens to itself with the lists it carried. */
  lemma FlattenKeepsLists(prev: UserData, api: ApiUser, roles: seq<ProfessionalRole>, genres: seq<string>, interests: seq<string>)
    requires api.userAttributes == Some(UserAttributes(Some(roles), Some(genres), Some(interests)))
    ensures Flatten(prev, api).professionalRoles == Some(roles)
    ensures Flatten(prev, api).genres == Some(genres) && Flatten(prev, api).mostInterestedIn == Some(interests)
  {
  }

  /** Saving a record fetched with all three lists sends those lists back unchanged. */
  lemma UpdateBodySendsFetchedLists(prev: UserData, api: ApiUser, roles: seq<ProfessionalRole>, genres: seq<string>, interests: seq<string>)
    requires api.userAttributes == Some(UserAttributes(Some(roles), Some(genres), Some(interests)))
    ensures UpdateBody(Flatten(prev, api)) == UpdateRequest(Some(roles), Some(genres), Some(interests))
  {
    FlattenKeepsLists(prev, api, roles, genres, interests);
  }

  /** A response without attributes gives three empty lists. */
  lemma FlattenWithoutAttributes(prev: UserData, api: ApiUser)
    requires api.userAttributes.None?
    ensures Flatten(prev, api).professionalRoles == Some([])
    ensures Flatten(prev, api).genres == Some([]) && Flatten(prev, api).mostInterestedIn == Some([])
  {
  }

  /** The hook's state slots and the API requests it has made. */
  class UserHook {
    var userData: UserData
    var isLoading: bool
    var requests: seq<ApiCall>

    constructor ()
      ensures userData == InitialData && isLoading && requests == []
    {
      userData := InitialData;
      isLoading := true;
      requests := [];
    }

    /**
     * `fetchUserData`: without a user id only loading ends; otherwise one
     * `GET`, whose success flattens the response into the record and whose
     * failure leaves the record; loading ends either way.
     */
    method FetchUserData(userId: Option<string>, response: Result<ApiUser, string>)
      modifies this
      ensures !isLoading
      ensures !SignedIn(userId) ==> userData == old(userData) && requests == old(requests)
      ensures SignedIn(userId) ==> requests == old(requests) + [GetUser]
      ensures SignedIn(userId) && response.Success? ==> userData == Flatten(old(userData), response.value)
      ensures SignedIn(userId) && response.Failure? ==> userData == old(userData)
    {
      if !SignedIn(userId) {
        isLoading := false;
        return;
      }
      requests := requests + [GetUser];
      if response.Success? {
        userData := Flatten(userData, response.value);
      }
      isLoading := false;
    }

    /**
     * `updateUserData`: without a user id nothing happens; otherwise the
     * update, whose failure is rethrown, and after a success a fetch, whose
     * own failure is swallowed.
     */
    method UpdateUserData(userId: Option<string>, data: UserData, update: Result<(), string>,
                          response: Result<ApiUser, string>) returns (r: Result<(), string>)
      modifies this
      ensures !SignedIn(userId) ==>
        (r.Success? && userData == old(userData) && requests == old(requests) && isLoading == old(isLoading))
      ensures SignedIn(userId) && update.Failure? ==>
        (r == update && userData == old(userData) && isLoading == old(isLoading)
         && requests == old(requests) + [UpdateUser(UpdateBody(data))])
      ensures SignedIn(userId) && update.Success? ==>
        (r.Success? && !isLoading && requests == old(requests) + [UpdateUser(UpdateBody(data)), GetUser]
         && userData == (if response.Success? then Flatten(old(userData), response.value) else old(userData)))
    {
      if !SignedIn(userId) {
        return Success(());
      }
      requests := requests + [UpdateUser(UpdateBody(data))];
      if update.Failure? {
        return update;
      }
      FetchUserData(userId, response);
      r := Success(());
    }

    /** `setOnboardingComplete`: the flag turns true only after the call succeeds; a failure is only logged. */
    method SetOnboardingComplete(outcome: Result<(), string>)
      modifies this
      ensures requests == old(requests) + [SetOnboardingStatus] && isLoading == old(isLoading)
      ensures outcome.Success? ==> userData == old(userData).(isOnboarded := Some(true))
      ensures outcome.Failure? ==> userData == old(userData)
    {
      requests := requests + [SetOnboardingStatus];
      if outcome.Success? {
        userData := userData.(isOnboarded := Some(true));
      }
    }
  }
}
