/**
 * The mobile client's attribute service (mobile/lib/auth/user.ts): reading
 * the cached user attributes, with a refresh as fallback, and sending an
 * attribute update and merging it into the cached record.
 */
module UserService {
  import opened Wrappers
  import opened AuthUtils
  import opened TokenStorage
  import opened Auth

  /**
   * `Partial<UserAttributes>` as `Object.entries` lists it: the own keys in
   * order, each with a value or `undefined` (`None`).
   */
  type Update = seq<(string, Option<string>)>

  /** The entries of the update command: the defined ones, in order. */
  function Sent(update: Update): (r: seq<(string, string)>)
    ensures |r| <= |update|
    ensures forall p :: p in r <==> (p.0, Some(p.1)) in update
  {
    if update == [] then []
    else
      var rest := Sent(update[1..]);
      assert forall e :: e in update <==> e == update[0] || e in update[1..];
      if update[0].1.Some? then [(update[0].0, update[0].1.value)] + rest else rest
  }

  /** The entries are sent in the update's order: sending a concatenation sends each part in turn. */
  lemma {:induction false} SentConcat(a: Update, b: Update)
    ensures Sent(a + b) == Sent(a) + Sent(b)
  {
    if a == [] {
      assert a + b == b;
    } else {
      assert (a + b)[0] == a[0] && (a + b)[1..] == a[1..] + b;
      SentConcat(a[1..], b);
    }
  }

  /** A defined entry is sent as its pair, an undefined one not at all. */
  lemma SentOne(key: string, value: Option<string>)
    ensures Sent([(key, value)]) == if value.Some? then [(key, value.value)] else []
  {
    assert [(key, value)][1..] == [];
  }

  /** The value the merge loop leaves for `key`: its last defined value in the update. */
  function Defined(update: Update, key: string): (r: Option<string>)
    ensures r.Some? ==> (key, r) in update
    ensures r.None? ==> forall v :: (key, Some(v)) !in update
  {
    if update == [] then None
    else
      var last := update[|update| - 1];
      if last.0 == key && last.1.Some? then last.1
      else
        var r := Defined(update[..|update| - 1], key);
        assert forall e :: e in update <==> e == last || e in update[..|update| - 1];
        r
  }

  /**
   * The merge loop: copy the current record, then write every defined value in
   * order. For an update with distinct keys it is also what the spread
   * `{...{}, ...update}` keeps once `JSON.stringify` drops the undefined values.
   */
  function Overlay(current: Attributes, update: Update): Attributes
    decreases |update|
  {
    if update == [] then current
    else
      var (key, value) := update[0];
      Overlay(if value.Some? then current[key := value.value] else current, update[1..])
  }

  /**
   * Defined update values overwrite; keys whose value is `undefined`, and keys
   * the update does not mention, keep their old values.
   */
  lemma {:induction false} OverlayValue(current: Attributes, update: Update, key: string)
    ensures key in Overlay(current, update) <==> key in current || Defined(update, key).Some?
    ensures key in Overlay(current, update) ==>
      Overlay(current, update)[key] == (if Defined(update, key).Some? then Defined(update, key).value else current[key])
    decreases |update|
  {
    if update != [] {
      var (k, v) := update[0];
      var next := if v.Some? then current[k := v.value] else current;
      OverlayValue(next, update[1..], key);
      DefinedCons(update, key);
    }
  }

  /** `Defined` read from the front: a later defined value wins over the first entry. */
  lemma {:induction false} DefinedCons(update: Update, key: string)
    requires update != []
    ensures Defined(update, key) ==
      (if Defined(update[1..], key).Some? then Defined(update[1..], key)
       else if update[0].0 == key && update[0].1.Some? then update[0].1
       else None)
    decreases |update|
  {
    if |update| > 1 {
      var init := update[..|update| - 1];
      assert init[1..] == update[1..][..|update[1..]| - 1];
      assert init[0] == update[0];
      DefinedCons(init, key);
    }
  }

  /** With no cached record, the merge stores just the defined update values. */
  lemma OverlayOfNothing(update: Update)
    ensures forall key :: key in Overlay(map[], update) <==> Defined(update, key).Some?
    ensures forall key :: key in Overlay(map[], update) ==> Overlay(map[], update)[key] == Defined(update, key).value
  {
    forall key ensures key in Overlay(map[], update) <==> Defined(update, key).Some? {
      OverlayValue(map[], update, key);
    }
    forall key | key in Overlay(map[], update) ensures Overlay(map[], update)[key] == Defined(update, key).value {
      OverlayValue(map[], update, key);
    }
  }

  /** Merging the same update twice changes nothing more. */
  lemma OverlayIdempotent(current: Attributes, update: Update)
    ensures Overlay(Overlay(current, update), update) == Overlay(current, update)
  {
    var once := Overlay(current, update);
    var twice := Overlay(once, update);
    forall key ensures (key in twice <==> key in once) && (key in once ==> twice[key] == once[key]) {
      OverlayValue(current, update, key);
      OverlayValue(once, update, key);
    }
  }

  /** The merge loop of `updateUserAttributes`. */
  method Merge(current: Attributes, update: Update) returns (merged: Attributes)
    ensures merged == Overlay(current, update)
  {
    merged := current;
    var i := 0;
    while i < |update|
      invariant 0 <= i <= |update|
      invariant Overlay(merged, update[i..]) == Overlay(current, update)
    {
      var (key, value) := update[i];
      assert update[i..][1..] == update[i + 1..];
      if value.Some? {
        merged := merged[key := value.value];
      }
      i := i + 1;
    }
  }

  // ---------------------------------------------------------------------------
  // The operations on the stored items

  const GetAttributesFailed := AuthError("Failed to get user attributes", "GetAttributesFailed")
  const NoAccessTokenForUpdate := AuthError("No access token found for updating attributes", "NoAccessToken")

  /** `getUserAttributes`, given the answer the refresh would get. */
  function AfterGetAttributes(items: Items, response: Result<AuthResult, Failure>): Outcome<Attributes>
  {
    match StoredUser(items)
    case Some(user) => Outcome(items, Ok(user))
    case None =>
      var refreshed := AfterRefresh(items, response);
      if refreshed.result.Err? then Outcome(refreshed.items, Err(GetAttributesFailed))
      else
        match StoredUser(refreshed.items)
        case Some(user) => Outcome(refreshed.items, Ok(user))
        case None => Outcome(refreshed.items, Err(GetAttributesFailed))
  }

  /** Cached attributes are returned as they are, and no refresh happens. */
  lemma CachedAttributesReturned(items: Items, response: Result<AuthResult, Failure>)
    requires StoredUser(items).Some?
    ensures AfterGetAttributes(items, response) == Outcome(items, Ok(StoredUser(items).value))
  {
  }

  /**
   * Without cached attributes the call always fails: a refresh never writes
   * the attributes, so the second read finds none either.
   */
  lemma RefreshFallbackNeverFindsAttributes(items: Items, response: Result<AuthResult, Failure>)
    requires StoredUser(items).None?
    ensures AfterGetAttributes(items, response).result == Err(GetAttributesFailed)
  {
    RefreshNeverStoresAttributes(items, response);
  }

  /** The error `updateUserAttributes` reports when the update command throws. */
  function UpdateError(f: Failure): (e: AuthError)
    ensures e.message == (if f.message != "" then f.message else "Failed to update attributes")
    ensures e.name == (if f.name != "" then f.name else "UpdateAttributesFailed")
  {
    AuthError(if f.message != "" then f.message else "Failed to update attributes",
              if f.name != "" then f.name else "UpdateAttributesFailed")
  }

  /** The attribute record stored after a successful update command. */
  function Merged(items: Items, update: Update): Attributes
  {
    match StoredUser(items)
    case None => Overlay(map[], update)
    case Some(current) => Overlay(current, update)
  }

  /** `updateUserAttributes(update)`, given what the update command threw, if anything. */
  function AfterUpdate(items: Items, update: Update, response: Option<Failure>): Outcome<()>
  {
    if !Present(Token(items, Access)) then Outcome(items, Err(NoAccessTokenForUpdate))
    else if response.Some? then Outcome(items, Err(UpdateError(response.value)))
    else Outcome(items[UserAttributesKey := Record(Merged(items, update))], Ok(()))
  }

  /**
   * Without an access token, or when the command throws, nothing changes; after
   * a successful command only the attribute record changes, to the merge.
   */
  lemma UpdateChangesOnlyAttributes(items: Items, update: Update, response: Option<Failure>)
    ensures !Present(Token(items, Access)) ==> AfterUpdate(items, update, response) == Outcome(items, Err(NoAccessTokenForUpdate))
    ensures AfterUpdate(items, update, response).result.Err? ==> AfterUpdate(items, update, response).items == items
    ensures AfterUpdate(items, update, response).result.Ok? <==> Present(Token(items, Access)) && response.None?
    ensures AfterUpdate(items, update, response).result.Ok? ==>
      StoredUser(AfterUpdate(items, update, response).items) == Some(Merged(items, update)) &&
      forall k :: k != UserAttributesKey ==>
        (k in AfterUpdate(items, update, response).items <==> k in items) &&
        (k in items ==> AfterUpdate(items, update, response).items[k] == items[k])
  {
  }

  /** After a successful update, every defined value is stored and every other attribute kept. */
  lemma UpdatedAttributes(items: Items, update: Update, key: string)
    requires StoredUser(items).Some?
    ensures var merged := Merged(items, update);
      var current := StoredUser(items).value;
      (Defined(update, key).Some? ==> key in merged && merged[key] == Defined(update, key).value) &&
      (Defined(update, key).None? ==>
         (key in merged <==> key in current) && (key in current ==> merged[key] == current[key]))
  {
    OverlayValue(StoredUser(items).value, update, key);
  }

  class UserService {
    const auth: AuthService

    constructor (auth: AuthService)
      ensures this.auth == auth
    {
      this.auth := auth;
    }

    /** `getUserAttributes()`; `response` is the answer the fallback refresh would get. */
    method GetUserAttributes(response: Result<AuthResult, Failure>) returns (r: Result<Attributes, AuthError>)
      modifies auth.store
      ensures auth.store.items == AfterGetAttributes(old(auth.store.items), response).items
      ensures r == AfterGetAttributes(old(auth.store.items), response).result
    {
      var user := auth.GetUser();
      if user.Some? {
        return Ok(user.value);
      }
      var refreshed := auth.RefreshSession(response);
      if refreshed.Ok? {
        user := auth.GetUser();
        if user.Some? {
          return Ok(user.value);
        }
      }
      r := Err(GetAttributesFailed);
    }

    /**
     * `updateUserAttributes(update)`; `response` is what the update command
     * threw, if anything, and `sent` the attribute list it was given.
     */
    method UpdateUserAttributes(update: Update, response: Option<Failure>)
      returns (r: Result<(), AuthError>, sent: Option<seq<(string, string)>>)
      modifies auth.store
      ensures auth.store.items == AfterUpdate(old(auth.store.items), update, response).items
      ensures r == AfterUpdate(old(auth.store.items), update, response).result
      ensures sent.Some? <==> Present(Token(old(auth.store.items), Access))
      ensures sent.Some? ==> sent.value == Sent(update)
    {
      var accessToken := GetToken(auth.store, Access);
      if !Present(accessToken) {
        return Err(NoAccessTokenForUpdate), None;
      }
      sent := Some(Sent(update));
      if response.Some? {
        return Err(UpdateError(response.value)), sent;
      }
      var current := auth.GetUser();
      var merged: Attributes;
      if current.None? {
        merged := Merge(map[], update);
      } else {
        merged := Merge(current.value, update);
      }
      auth.store.SetItem(UserAttributesKey, Record(merged));
      r := Ok(());
    }
  }
}
