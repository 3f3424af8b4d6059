/** The users slice of src/store/slices/usersSlice.ts: its state and one method per reducer case. */
module UsersSlice {
  import opened Wrappers
  import opened Types
  import opened ListOps

  const FetchUsersFailedMessage: string := "Failed to fetch users"

  class UsersState {
    var users: seq<User>
    var isLoading: bool
    var error: Option<string>

    /** `initialState`. */
    constructor ()
      ensures users == [] && !isLoading && error == None
    {
      users := [];
      isLoading := false;
      error := None;
    }

    /** `clearError`. */
    method ClearError()
      modifies this
      ensures error == None && users == old(users) && isLoading == old(isLoading)
    {
      error := None;
    }

    /** `fetchUsers.pending`. */
    method FetchUsersPending()
      modifies this
      ensures isLoading && error == None && users == old(users)
    {
      isLoading := true;
      error := None;
    }

    /** `fetchUsers.fulfilled`. */
    method FetchUsersFulfilled(payload: seq<User>)
      modifies this
      ensures users == payload && !isLoading && error == old(error)
    {
      users := payload;
      isLoading := false;
    }

    /** `fetchUsers.rejected`: the message, or "Failed to fetch users". */
    method FetchUsersRejected(message: string)
      modifies this
      ensures !isLoading && error == Some(MessageOr(message, FetchUsersFailedMessage))
      ensures users == old(users)
    {
      isLoading := false;
      error := Some(if message == "" then FetchUsersFailedMessage else message);
    }

    /** `createUser.fulfilled`: a non-null user is put in front. */
    method CreateUserFulfilled(payload: Option<User>)
      modifies this
      ensures payload.Some? ==> |users| == |old(users)| + 1 && users[0] == payload.value && users[1..] == old(users)
      ensures payload.None? ==> users == old(users)
      ensures isLoading == old(isLoading) && error == old(error)
    {
      if payload.Some? {
        users := [payload.value] + users;
      }
    }

    /** `updateUser.fulfilled`: `findIndex` by id, then assignment at that index. */
    method UpdateUserFulfilled(payload: Option<User>)
      modifies this
      ensures users == if payload.Some? then ReplaceFirstById(old(users), UserKey, payload.value) else old(users)
      ensures isLoading == old(isLoading) && error == old(error)
    {
      if payload.Some? {
        var index := IndexOfId(users, UserKey, payload.value.id);
        if index != -1 {
          users := users[index := payload.value];
        }
      }
    }

    /** `deleteUser.fulfilled`: keep the users whose id differs. */
    method DeleteUserFulfilled(id: string)
      modifies this
      ensures users == RemoveById(old(users), UserKey, id)
      ensures isLoading == old(isLoading) && error == old(error)
    {
      users := RemoveById(users, UserKey, id);
    }
  }
}
